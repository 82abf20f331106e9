/**
 * The post store shared with the components under a provider: the stored
 * posts and the search query, the displayed posts derived from them, the
 * three state updates, and the guarded accessor.
 */
module PostContext {
  import opened Wrappers
  import opened Text
  import opened Search

  /** Number of generated posts a new store starts with. */
  const InitialPostCount := 30

  /** The error raised by the accessor outside a provider. */
  datatype ScopeError = OutsideProvider(message: string)

  const OutsideProviderMessage := "PostContext was used outside of PostProvider"

  /** The state of one provider. */
  class PostStore {
    var posts: seq<Post>
    var searchQuery: string

    /**
     * A new provider: `generate(i)` is the i-th post drawn from the fake-content
     * generator; the query starts empty, so every post is displayed.
     */
    constructor (generate: nat -> Post)
      ensures |posts| == InitialPostCount
      ensures forall i :: 0 <= i < |posts| ==> posts[i] == generate(i)
      ensures searchQuery == ""
      ensures Displayed() == posts
    {
      posts := seq(InitialPostCount, i requires 0 <= i => generate(i));
      searchQuery := "";
    }

    /**
     * `searchedPosts`, the posts shown to consumers: the stored posts in their
     * order, each matching one as often as it is stored and no other.
     */
    function Displayed(): (r: seq<Post>)
      reads this
      ensures IsSubsequence(r, posts)
      ensures forall p :: multiset(r)[p] == if Matches(p, searchQuery) then multiset(posts)[p] else 0
    {
      SearchedPostsMembership(posts, searchQuery);
      SearchedPostsCount(posts, searchQuery);
      SearchedPosts(posts, searchQuery)
    }

    /** The value handed to consumers: the displayed posts, the query, and this store for the updates. */
    function Value(): (v: ContextValue)
      reads this
      ensures v.store == this && v.searchQuery == searchQuery
      ensures searchQuery == "" ==> v.posts == posts
      ensures forall p :: p in v.posts <==> p in posts && Matches(p, searchQuery)
      ensures forall p :: multiset(v.posts)[p] == if Matches(p, searchQuery) then multiset(posts)[p] else 0
      ensures IsSubsequence(v.posts, posts)
    {
      SearchedPostsMembership(posts, searchQuery);
      SearchedPostsCount(posts, searchQuery);
      ContextValue(Displayed(), searchQuery, this)
    }

    /** `onAddPost`: the post goes in front, unchecked; it is displayed iff it matches the query. */
    method AddPost(post: Post)
      modifies this
      ensures posts == [post] + old(posts)
      ensures searchQuery == old(searchQuery)
      ensures Displayed() == (if Matches(post, searchQuery) then [post] else []) + old(Displayed())
    {
      posts := [post] + posts;
      FilterPrepend(post, old(posts), searchQuery);
    }

    /** `onClearPosts`: no posts remain and none is displayed, whatever the query; a second call changes nothing. */
    method ClearPosts()
      modifies this
      ensures posts == []
      ensures searchQuery == old(searchQuery)
      ensures Displayed() == []
    {
      posts := [];
    }

    /** `setSearchQuery`: the query is stored as given; the posts stay. */
    method SetSearchQuery(query: string)
      modifies this
      ensures searchQuery == query
      ensures posts == old(posts)
    {
      searchQuery := query;
    }
  }

  /** What a consumer receives from the context. */
  datatype ContextValue = ContextValue(posts: seq<Post>, searchQuery: string, store: PostStore)

  /** `usePosts`: fails outside a provider (no context value), otherwise hands back the value unchanged. */
  function UsePosts(context: Option<ContextValue>): (r: Result<ContextValue, ScopeError>)
    ensures r.Failure? <==> context.None?
    ensures context.Some? ==> r == Success(context.value)
    ensures r.Failure? ==> r.error == OutsideProvider(OutsideProviderMessage)
  {
    match context
    case None => Failure(OutsideProvider(OutsideProviderMessage))
    case Some(value) => Success(value)
  }

  /** A new store shows all of its 30 generated posts. */
  method WalkthroughStart(generate: nat -> Post)
  {
    var store := new PostStore(generate);
    assert |store.posts| == 30 && store.Displayed() == store.posts;
    var inside := UsePosts(Some(store.Value()));
    assert inside.Success? && inside.value.store == store;
    var outside := UsePosts(None);
    assert outside.Failure?;
  }

  /** Adding two posts, then searching for "bus" in either case and clearing the search. */
  method WalkthroughSearch(store: PostStore)
    modifies store
  {
    store.ClearPosts();
    store.AddPost(WirelessDriver);
    store.AddPost(NeuralBus);
    assert store.posts == [NeuralBus, WirelessDriver];

    store.SetSearchQuery("bus");
    ExampleSearch(store.posts, store.searchQuery);
    assert store.Displayed() == [NeuralBus];

    store.SetSearchQuery("BUS");
    ExampleSearchUpperCase(store.posts, store.searchQuery);
    assert store.Displayed() == [NeuralBus];

    store.SetSearchQuery("");
    assert store.Displayed() == [NeuralBus, WirelessDriver];
  }

  /** Clearing twice leaves no posts, and none is shown for any query. */
  method WalkthroughClear(store: PostStore, query: string)
    modifies store
  {
    store.SetSearchQuery(query);
    store.ClearPosts();
    store.ClearPosts();
    assert store.posts == [] && store.searchQuery == query;
    store.SetSearchQuery("bus");
    assert store.Displayed() == [];
  }
}
