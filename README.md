# Post store of atomic-blog, in Dafny

This project models the post store of the atomic-blog front end (`src/PostContext.js`).
A provider holds two pieces of state. `posts` is a list of `{title, body}` records.
`searchQuery` is a string that starts empty. The store derives `searchedPosts`, the
posts shown to consumers. It is an order-preserving, case-insensitive substring filter
over `title + " " + body`. This filter is skipped when the query is empty. Three updates
change the state: `handleAddPost` puts a post in front, `handleClearPosts` empties the
list and `setSearchQuery` stores a new query. The accessor `usePosts` fails with
"PostContext was used outside of PostProvider" when there is no provider.

Modules:

- `Wrappers` (`wrappers.dfy`): `Option` and `Result`.
- `Text` (`text.dfy`): ASCII lowercasing `Lower` and the substring search `Includes`
  (JavaScript's `includes`). The contract of `Includes` equates it with the declarative
  `Contains` ("some index starts a copy of the query").
- `Search` (`search.dfy`): the `Post` record, the match test `Matches`, the filter
  `Filter` (`posts.filter(...)`), the derived `SearchedPosts`, and the lemmas about them:
  exact membership, order (subsequence), multiplicity, the empty-query identity,
  case-insensitivity, and the interaction with prepending.
- `PostContext` (`post_context.dfy`): the class `PostStore` with fields `posts` and
  `searchQuery`. Its methods `AddPost`, `ClearPosts` and `SetSearchQuery` are the three
  updates, each an atomic transition that states its whole new state. `Displayed` is
  the derived `searchedPosts` and `Value` the object handed to consumers. `UsePosts` is
  the guarded accessor. The client methods `WalkthroughStart`, `WalkthroughSearch` and
  `WalkthroughClear` walk through a session of start, add, search, clear and misuse; the
  verifier proves their assertions from the contracts alone.

The fake-content generator is a parameter of the constructor: `generate(i)` is the
i-th post it draws. The context lookup is an `Option<ContextValue>`, where `None` means
no enclosing provider. The three callbacks in the context value are stood for by the
store reference they are bound to.

## Model

| member | source | states |
|---|---|---|
| Text.Lower | src/PostContext.js:24 | lowercasing keeps the length and maps each character on its own |
| Text.LowerCharSpec | src/PostContext.js:24 | a lowercased character is never an upper-case letter; letters A-Z move by 32, the rest stay |
| Text.LowerIdempotent | src/PostContext.js:24 | lowercasing an already lowercased string changes nothing |
| Text.ContainsStep | src/PostContext.js:24 | the query occurs in a text iff it starts the text or occurs in the text after its first character |
| Text.Includes | src/PostContext.js:24 | the left-to-right search holds exactly when some index of the text starts a copy of the query (both directions) |
| Text.IncludesEmpty | src/PostContext.js:22-26 | every string includes the empty string |
| Text.NotIncludesWithoutFirstChar | src/PostContext.js:24 | a query whose first character is absent from the text is not included |
| Search.SearchText | src/PostContext.js:24 | the searched text is the title, then one space, then the body |
| Search.Matches | src/PostContext.js:24 | a post matches iff its lowercased "title body" contains the lowercased query |
| Search.Filter | src/PostContext.js:23-25 | the filtered list is never longer than the posts |
| Search.MatchesEmptyQuery | src/PostContext.js:24 | every post passes the match test with the empty query |
| Search.FilterMembership | src/PostContext.js:23-25 | a post is kept iff it is among the posts and matches the query |
| Search.FilterIsSubsequence | src/PostContext.js:23-25 | the kept posts are a subsequence of the posts: original relative order |
| Search.FilterCount | src/PostContext.js:23-25 | each matching post is kept as many times as it occurs; a non-matching one never |
| Search.FilterEmptyQuery | src/PostContext.js:22-26 | running the filter with "" returns the posts unchanged, so the short cut agrees with the filter |
| Search.SearchedPosts | src/PostContext.js:21-26 | the derived list with its empty-query short cut equals the filter for every query, the empty one included |
| Search.SearchedPostsMembership | src/PostContext.js:21-26 | the empty query displays exactly the posts; otherwise a post is displayed iff stored and matching; always a subsequence |
| Search.SearchedPostsCount | src/PostContext.js:21-26 | each displayed post appears as often as it is stored if it matches, and not at all otherwise |
| Search.FilterPrepend | src/PostContext.js:23-29 | filtering a list with a post in front gives that post in front iff it matches, then the filter of the rest |
| Search.SearchedPostsOfNone | src/PostContext.js:21-26 | with no posts nothing is displayed, whatever the query |
| Search.FilterCaseInsensitive | src/PostContext.js:24 | two queries with the same lowercase form keep the same posts |
| Search.SearchedPostsCaseInsensitive | src/PostContext.js:21-26 | two queries with the same lowercase form display the same posts, the empty-query test included |
| Search.SearchedPostsOfLowered | src/PostContext.js:24 | a query displays the same posts as its lowercase form |
| Search.ExampleSearch | src/PostContext.js:21-26 | of "Neural Bus"/"plugged" and "Wireless Driver"/"override", the query "bus" displays only the first |
| Search.ExampleSearchUpperCase | src/PostContext.js:21-26 | the query "BUS" displays the same single post |
| PostContext.PostStore.constructor | src/PostContext.js:17-18 | a new store holds exactly 30 generated posts in draw order and an empty query, so all posts are displayed |
| PostContext.PostStore.Displayed | src/PostContext.js:21-26 | the displayed posts keep the stored order, and hold each matching post as often as it is stored and no other post |
| PostContext.PostStore.Value | src/PostContext.js:41-47 | the value carries the displayed posts (all posts for an empty query; else the stored matching ones, each as often as stored, in order), the query and the store |
| PostContext.PostStore.AddPost | src/PostContext.js:28-30 | the posts become the new post followed by the old posts; the query is unchanged; the display gains the post in front iff it matches |
| PostContext.PostStore.ClearPosts | src/PostContext.js:32-34 | the posts become empty whatever they were, so a repeat call changes nothing; the query is unchanged; nothing is displayed |
| PostContext.PostStore.SetSearchQuery | src/PostContext.js:18 | the query is stored exactly as given; the posts are unchanged |
| PostContext.UsePosts | src/PostContext.js:58-65 | fails with the outside-provider error iff there is no context value; otherwise returns the value unchanged |

## Left out

- Text.Lower: lowercases only ASCII A-Z. JavaScript's `toLowerCase` follows Unicode rules, and those can even change a string's length, so case-insensitivity is proved for ASCII folding only.
- JavaScript measures `searchQuery.length` in UTF-16 code units and Dafny's `char` is a Unicode scalar value; only the test for emptiness uses the length, and it agrees.
- `createRandomPost` and the faker library (src/PostContext.js:2-9): nondeterministic and external; the constructor takes the generator as a function parameter.
- React mechanics: `createContext`, `useContext`, the provider element and rendering of children (src/PostContext.js:1, 14, 39-55). The lookup is an `Option` parameter of `UsePosts`.
- React state batching and re-render scheduling: each update is one atomic transition of the store, and the derived list is recomputed on every read.
- The three callbacks of the context value are represented by the store reference; calling `onAddPost`, `onClearPosts` or `setSearchQuery` means calling the store's method.
- `usePosts` throws; the model returns `Failure` instead.
