/**
 * The derived list of displayed posts: an order-preserving, case-insensitive
 * substring filter over "title body", skipped when the query is empty.
 */
module Search {
  import opened Text

  /** A post record; no identity field, duplicates allowed. */
  datatype Post = Post(title: string, body: string)

  /** The text a query is matched against: title, one space, body. */
  function SearchText(p: Post): (t: string)
    ensures |t| == |p.title| + 1 + |p.body|
    ensures t[..|p.title|] == p.title && t[|p.title|] == ' ' && t[|p.title| + 1..] == p.body
  {
    p.title + " " + p.body
  }

  /** The per-post test of the filter: the lowercased query occurs in the lowercased text. */
  function Matches(p: Post, query: string): (b: bool)
    ensures b <==> Contains(Lower(SearchText(p)), Lower(query))
  {
    Includes(Lower(SearchText(p)), Lower(query))
  }

  /** `posts.filter(Matches)`: keeps the matching posts, front to back. */
  function Filter(posts: seq<Post>, query: string): (r: seq<Post>)
    ensures |r| <= |posts|
  {
    if posts == [] then []
    else
      var rest := Filter(posts[1..], query);
      if Matches(posts[0], query) then [posts[0]] + rest else rest
  }

  /**
   * The displayed posts: the filter when the query is non-empty, the posts
   * themselves otherwise; the short cut gives what the filter would.
   */
  function SearchedPosts(posts: seq<Post>, query: string): (r: seq<Post>)
    ensures r == Filter(posts, query)
  {
    if |query| > 0 then Filter(posts, query)
    else
      FilterEmptyQuery(posts);
      posts
  }

  /** `a` is `b` with some elements removed and the rest kept in order. */
  predicate IsSubsequence<T(==)>(a: seq<T>, b: seq<T>)
    decreases |b|
  {
    if a == [] then true
    else if b == [] then false
    else if a[0] == b[0] then IsSubsequence(a[1..], b[1..])
    else IsSubsequence(a, b[1..])
  }

  /** Putting one more element in front of `b` keeps `a` a subsequence of it. */
  lemma {:induction false} SubsequenceOfTail<T>(a: seq<T>, x: T, b: seq<T>)
    requires IsSubsequence(a, b)
    ensures IsSubsequence(a, [x] + b)
    decreases |b|, 1
  {
    if a != [] {
      assert ([x] + b)[1..] == b;
      if a[0] == x {
        SubsequenceOfTailDrop(a, b);
      }
    }
  }

  /** Dropping the first element of a subsequence leaves a subsequence. */
  lemma {:induction false} SubsequenceOfTailDrop<T>(a: seq<T>, b: seq<T>)
    requires a != [] && IsSubsequence(a, b)
    ensures IsSubsequence(a[1..], b)
    decreases |b|, 0
  {
    if a[0] == b[0] {
      SubsequenceOfTail(a[1..], b[0], b[1..]);
      assert [b[0]] + b[1..] == b;
    } else {
      SubsequenceOfTailDrop(a, b[1..]);
      SubsequenceOfTail(a[1..], b[0], b[1..]);
      assert [b[0]] + b[1..] == b;
    }
  }

  /** Every post matches the empty query: every string includes "". */
  lemma MatchesEmptyQuery(p: Post)
    ensures Matches(p, "")
  {
    assert Lower("") == "";
    IncludesEmpty(Lower(SearchText(p)));
  }

  /** A post is kept iff it is one of the posts and matches the query. */
  lemma {:induction false} FilterMembership(posts: seq<Post>, query: string, p: Post)
    ensures p in Filter(posts, query) <==> p in posts && Matches(p, query)
  {
    if posts != [] {
      FilterMembership(posts[1..], query, p);
      assert posts == [posts[0]] + posts[1..];
    }
  }

  /** The filter keeps the original relative order of the posts it keeps. */
  lemma {:induction false} FilterIsSubsequence(posts: seq<Post>, query: string)
    ensures IsSubsequence(Filter(posts, query), posts)
  {
    if posts != [] {
      var rest := Filter(posts[1..], query);
      FilterIsSubsequence(posts[1..], query);
      assert [posts[0]] + posts[1..] == posts;
      if Matches(posts[0], query) {
        assert ([posts[0]] + rest)[1..] == rest;
      } else {
        SubsequenceOfTail(rest, posts[0], posts[1..]);
      }
    }
  }

  /** Duplicates are neither merged nor lost: a matching post is kept as often as it occurs. */
  lemma {:induction false} FilterCount(posts: seq<Post>, query: string, p: Post)
    ensures multiset(Filter(posts, query))[p] == if Matches(p, query) then multiset(posts)[p] else 0
  {
    if posts != [] {
      FilterCount(posts[1..], query, p);
      assert posts == [posts[0]] + posts[1..];
      assert multiset(posts) == multiset([posts[0]]) + multiset(posts[1..]);
    }
  }

  /** Running the filter with the empty query keeps every post, in order. */
  lemma {:induction false} FilterEmptyQuery(posts: seq<Post>)
    ensures Filter(posts, "") == posts
  {
    if posts != [] {
      MatchesEmptyQuery(posts[0]);
      FilterEmptyQuery(posts[1..]);
    }
  }

  /** A post is displayed iff it is stored and matches the query; the empty query displays all. */
  lemma SearchedPostsMembership(posts: seq<Post>, query: string)
    ensures query == "" ==> SearchedPosts(posts, query) == posts
    ensures forall p :: p in SearchedPosts(posts, query) <==> p in posts && Matches(p, query)
    ensures IsSubsequence(SearchedPosts(posts, query), posts)
  {
    FilterIsSubsequence(posts, query);
    forall p
      ensures p in SearchedPosts(posts, query) <==> p in posts && Matches(p, query)
    {
      FilterMembership(posts, query, p);
    }
  }

  /** A displayed post appears as often as it is stored if it matches, and not at all otherwise. */
  lemma SearchedPostsCount(posts: seq<Post>, query: string)
    ensures forall p :: multiset(SearchedPosts(posts, query))[p] == if Matches(p, query) then multiset(posts)[p] else 0
  {
    forall p
      ensures multiset(SearchedPosts(posts, query))[p] == if Matches(p, query) then multiset(posts)[p] else 0
    {
      FilterCount(posts, query, p);
    }
  }

  /** Filtering a list with one more post in front: that post is kept at the front iff it matches. */
  lemma FilterPrepend(p: Post, posts: seq<Post>, query: string)
    ensures Filter([p] + posts, query) == (if Matches(p, query) then [p] else []) + Filter(posts, query)
  {
    assert ([p] + posts)[1..] == posts;
  }

  /** With no posts, nothing is displayed, whatever the query. */
  lemma SearchedPostsOfNone(query: string)
    ensures SearchedPosts([], query) == []
  {
  }

  /** Only the lowercase form of the query matters to the filter. */
  lemma {:induction false} FilterCaseInsensitive(posts: seq<Post>, q1: string, q2: string)
    requires Lower(q1) == Lower(q2)
    ensures Filter(posts, q1) == Filter(posts, q2)
  {
    if posts != [] {
      FilterCaseInsensitive(posts[1..], q1, q2);
    }
  }

  /** Two queries with the same lowercase form display the same posts. */
  lemma SearchedPostsCaseInsensitive(posts: seq<Post>, q1: string, q2: string)
    requires Lower(q1) == Lower(q2)
    ensures SearchedPosts(posts, q1) == SearchedPosts(posts, q2)
  {
    FilterCaseInsensitive(posts, q1, q2);
  }

  /** In particular a query displays the same posts as its lowercase form. */
  lemma SearchedPostsOfLowered(posts: seq<Post>, query: string)
    ensures SearchedPosts(posts, Lower(query)) == SearchedPosts(posts, query)
  {
    LowerIdempotent(query);
    SearchedPostsCaseInsensitive(posts, Lower(query), query);
  }

  const NeuralBus := Post("Neural Bus", "plugged")
  const WirelessDriver := Post("Wireless Driver", "override")

  /** The lowercased text "neural bus plugged" includes "bus" at index 7. */
  lemma NeuralBusMatches()
    ensures Matches(NeuralBus, "bus")
  {
    var text := SearchText(NeuralBus);
    assert text == "Neural Bus plugged";
    var neural := Lower(text);
    assert neural[7] == 'b' && neural[8] == 'u' && neural[9] == 's';
    assert neural[7..][..3] == "bus";
    assert Lower("bus") == "bus";
    assert IsPrefix("bus", neural[7..]);
    IncludesFromSuffix(neural, 7, "bus");
  }

  /** "wireless driver override" has no 'b', so it cannot include "bus". */
  lemma WirelessDriverDoesNotMatch()
    ensures !Matches(WirelessDriver, "bus")
  {
    var text := SearchText(WirelessDriver);
    assert text == "Wireless Driver override";
    assert forall i :: 0 <= i < |text| ==> text[i] != 'b' && text[i] != 'B';
    var wireless := Lower(text);
    assert forall i :: 0 <= i < |wireless| ==> wireless[i] != 'b';
    assert Lower("bus") == "bus";
    NotIncludesWithoutFirstChar(wireless, "bus");
  }

  /** "bus" keeps the post whose title has "Bus" and drops the one without a 'b'. */
  lemma ExampleSearch(posts: seq<Post>, query: string)
    requires posts == [NeuralBus, WirelessDriver] && query == "bus"
    ensures SearchedPosts(posts, query) == [NeuralBus]
  {
    NeuralBusMatches();
    WirelessDriverDoesNotMatch();
    FilterKeepsFirstOfTwo(posts[0], posts[1], query);
  }

  /** Of two posts, one matching and one not, the filter keeps just the first. */
  lemma FilterKeepsFirstOfTwo(a: Post, b: Post, query: string)
    requires Matches(a, query) && !Matches(b, query)
    ensures Filter([a, b], query) == [a]
  {
    FilterPrepend(b, [], query);
    FilterPrepend(a, [b], query);
    assert [a] + [b] == [a, b];
  }

  /** "BUS" displays the same posts as "bus". */
  lemma ExampleSearchUpperCase(posts: seq<Post>, query: string)
    requires posts == [NeuralBus, WirelessDriver] && query == "BUS"
    ensures SearchedPosts(posts, query) == [NeuralBus]
  {
    ExampleSearch(posts, "bus");
    assert Lower(query) == Lower("bus");
    SearchedPostsCaseInsensitive(posts, query, "bus");
  }

  /** What a suffix of `s` includes, `s` includes. */
  lemma {:induction false} IncludesFromSuffix(s: string, k: nat, sub: string)
    requires k <= |s| && Includes(s[k..], sub)
    ensures Includes(s, sub)
    decreases k
  {
    if k > 0 {
      assert s[1..][k - 1..] == s[k..];
      IncludesFromSuffix(s[1..], k - 1, sub);
    }
  }
}
