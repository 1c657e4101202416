# tweet3r timeline feed — a Dafny model

This project models the feed logic of the tweet3r client: the paginated
timeline cache and how a successful like or unlike is reconciled into it
(`src/components/Timeline.tsx`), and the tweet form's length check and
submit gate (`src/components/CreateTweet.tsx`).

- `wrappers.dfy` (module `Wrappers`): `Option`.
- `timeline.dfy` (module `Timeline`): the pure part of `Timeline.tsx`. It
  holds the cached data (`Tweet`, `Page`, `InfiniteData`, `TimelineInput`)
  and the `updateCache` updater as `PatchTweet`, `PatchTweets`,
  `PatchPages` and `UpdateData`. It also has the `flatMap` that builds the
  displayed list (`Flatten`, `Displayed`), `getNextPageParam`
  (`NextPageParam`), appending a fetched page (`AppendPage`) and the
  heart's like-or-unlike choice (`HeartClick`). The lemmas about them are
  in the same module.
- `query_cache.dfy` (module `QueryCache`): class `TimelineCache`. It holds
  the query-cache entries keyed by timeline input, the set of queries that
  are fetching and the set that was invalidated. Its methods change that
  state the way `setQueryData`, `fetchNextPage` and `invalidate` do for
  this component; which timelines are on screen is a parameter of the
  invalidation.
- `timeline_view.dfy` (module `TimelineView`): class `TimelineComponent`.
  It holds the scroll position, the fetch effect, the rendered list, the
  "No more items to load" flag and the like/unlike success handlers.
- `create_tweet.dfy` (module `CreateTweet`): `ParseTweet`, which is the
  schema's 10..200 length rule, and class `CreateTweetForm`, which models
  `handleSubmit` and the create mutation's `onSuccess`.

Behaviour of the code that the model keeps and proves:

- An unlike lowers the count by one with no clamp, so a count of 0
  becomes −1.
- `likes` is a list of user ids. The heart reads only whether it is empty.
- The patch rebuilds each page as `{ tweets }`, which drops the page's
  `nextCursor`. `Timeline.UpdateEndsPagination` proves what follows:
  after any like or unlike, the entry reports no next page, and "No more
  items to load" shows. The fetch effect then fires again only after one
  of two things. Either the entry is fetched again from the start, or a
  next-page fetch that was already in flight when the reaction landed
  completes and appends a page that has its own cursor.
- The cache keeps an invariant (`TimelineCache.Valid`): every entry holds
  at least one page, with one cursor per page.
- A successful create marks every timeline entry stale, and the timelines
  on screen start refetching at once. Their pages stay until the refetch
  replaces them (`TimelineCache.ReceiveFirstPage`). Until then the
  fetching mark blocks any next-page request.

## Model

| member | source | states |
|---|---|---|
| Timeline.PatchTweet | src/components/Timeline.tsx:96-110 | a tweet with the given id gets `likes == [userId]` and count +1 on like, or `likes == []` and count −1 on unlike (no clamp); id, text, author and createdAt are always kept; any other tweet is returned unchanged |
| Timeline.PatchTweets | src/components/Timeline.tsx:100-111 | same length and order, each position patched on its own; a list with no matching id comes back unchanged |
| Timeline.PatchPages | src/components/Timeline.tsx:98-113 | same number of pages; each page's tweets are patched in place and the rebuilt page has no `nextCursor` |
| Timeline.UpdateData | src/components/Timeline.tsx:91-118 | the entry's `pageParams` survive, the page count is kept, every page holds its patched tweets and has lost its cursor |
| Timeline.Flatten | src/components/Timeline.tsx:214 | every tweet of every page is displayed, and every displayed tweet comes from some page |
| Timeline.AppendPage | src/components/Timeline.tsx:196-205 | appending a fetched page keeps the earlier pages and cursors, records the cursor it was fetched with, extends the displayed list by exactly the page's tweets, and makes the new page's cursor the next parameter |
| Timeline.HeartClick | src/components/Timeline.tsx:176-181 | a click sends unlike exactly when `likes` is non-empty and like exactly when it is empty, always for the clicked tweet's id |
| Timeline.FlattenAppend | src/components/Timeline.tsx:214 | flattening the pages with one more page appended gives the old display followed by that page's tweets |
| Timeline.FlattenPatch | src/components/Timeline.tsx:98-113 | flattening the patched pages equals patching the flattened list |
| Timeline.DisplayedAfterUpdate | src/components/Timeline.tsx:98-113 | after the update the displayed list has the same length, and position k holds the patch of the old tweet at k |
| Timeline.UpdateAbsentIdKeepsTweets | src/components/Timeline.tsx:101-110 | an id that is in no page leaves every page's tweet list and the displayed list unchanged |
| Timeline.UpdateEndsPagination | src/components/Timeline.tsx:98-117 | after a like or unlike, `hasNextPage` is false, even for an entry whose last page had a cursor |
| Timeline.HeartClickAlternates | src/components/Timeline.tsx:142-181 | once the reaction a click sends has been applied, the next click on that tweet sends the opposite reaction |
| Timeline.LikeThenUnlike | src/components/Timeline.tsx:101-108 | like followed by unlike restores an unliked tweet exactly |
| Timeline.UnlikeThenLike | src/components/Timeline.tsx:101-108 | unlike followed by like restores a tweet liked by the acting user exactly |
| QueryCache.TimelineCache.constructor | src/components/Timeline.tsx:206 | the cache starts empty and valid, with nothing fetching and nothing stale |
| QueryCache.TimelineCache.UpdateCache | src/components/Timeline.tsx:76-120 | only the entry for the given input is rewritten, and it becomes `UpdateData` of the old entry; with no entry nothing changes and `ok` is false; every other entry and flag is kept |
| QueryCache.TimelineCache.StartFetch | src/components/Timeline.tsx:196-205 | starting the first fetch marks the query fetching and changes no data |
| QueryCache.TimelineCache.ReceiveFirstPage | src/components/Timeline.tsx:196-205 | the entry restarts with the one page fetched without a cursor, the display is that page's tweets, and the fetching and stale marks are cleared |
| QueryCache.TimelineCache.FetchNextPage | src/components/Timeline.tsx:203 | the next-page fetch uses the last page's `nextCursor` and marks the query fetching; the data is unchanged |
| QueryCache.TimelineCache.ReceiveNextPage | src/components/Timeline.tsx:196-205 | the fetched page is appended, the display grows by exactly its tweets, `hasNextPage` becomes whether the new page has a cursor, and the fetching mark is cleared |
| QueryCache.TimelineCache.FetchFailed | src/components/Timeline.tsx:196-205 | a failed fetch clears the fetching mark and appends nothing |
| QueryCache.TimelineCache.InvalidateTimeline | src/components/CreateTweet.tsx:22 | every timeline entry is marked stale and every timeline on screen is marked fetching (its refetch starts); data is kept |
| TimelineView.TimelineComponent.constructor | src/components/Timeline.tsx:189-205 | the query input is `{ where, limit: LIMIT }` with `LIMIT` = 10, and the scroll position starts at 0 |
| TimelineView.TimelineComponent.OnScroll | src/components/Timeline.tsx:41-51 | the new scroll position is recorded |
| TimelineView.TimelineComponent.FetchEffect | src/components/Timeline.tsx:208-212 | a fetch is requested exactly when scroll > 90, a next page exists and no fetch is in flight, so never while "No more items to load" shows; the request carries the last page's cursor and marks the query fetching; otherwise nothing changes |
| TimelineView.TimelineComponent.OnLikeSuccess | src/components/Timeline.tsx:131-135 | a like success patches this component's entry; the rendered list keeps its length and order and each position becomes the like-patch of the old tweet there; "No more items to load" then shows |
| TimelineView.TimelineComponent.OnUnlikeSuccess | src/components/Timeline.tsx:136-140 | an unlike success patches this component's entry; the rendered list keeps its length and order and each position becomes the unlike-patch of the old tweet there; "No more items to load" then shows |
| TimelineView.TwoScrollsOneFetch | src/components/Timeline.tsx:208-212 | two scroll changes, each followed by the effect, with no completion between them issue at most one request, and one exactly when either position is past 90 while a next page exists and nothing is in flight |
| CreateTweet.ParseTweet | src/components/CreateTweet.tsx:5-11 | a text is accepted exactly when its length is within 10..200, and it is returned unchanged; a shorter one is rejected with the minimum 10, a longer one with the maximum 200 |
| CreateTweet.CreateTweetForm.constructor | src/components/CreateTweet.tsx:14-15 | the text and the error start empty |
| CreateTweet.CreateTweetForm.OnChange | src/components/CreateTweet.tsx:49 | the text becomes the textarea's value |
| CreateTweet.CreateTweetForm.HandleSubmit | src/components/CreateTweet.tsx:27-37 | a create request is issued exactly when the text passes the schema, and it carries exactly that text; on failure the issue is recorded as the error and no request is sent; on success an earlier error is left as it was |
| CreateTweet.CreateTweetForm.OnCreateSuccess | src/components/CreateTweet.tsx:19-24 | after a successful create the text is `""`, every timeline entry is invalidated, and the timelines on screen are marked fetching |

## Left out

- The scroll hook's arithmetic (`src/components/Timeline.tsx:38-62`). This is DOM listeners and a floating-point percentage that can be NaN or Infinity when the page is no taller than the window. The position is an input of type `real`, and only the `> 90` comparison is modelled.
- How the query library schedules work: its refetching, retries, and the order in which async completions land. When a next page arrives, the library appends it to the pages it held when the fetch started, so a like applied during that fetch would be lost. The model appends to the current entry.
- Refetching a stale entry is modelled only as `ReceiveFirstPage`, which restarts the entry from one page. The library would refetch all the pages it had.
- `Timeline.NextPageParam`: on data with zero pages, the source's `getNextPageParam` would read a field of `undefined`. The model returns no cursor instead. A valid cache holds no such entry (`TimelineCache.Valid`).
- `CreateTweet.ParseTweet`: it counts characters as elements of a Dafny `string`. The schema counts UTF-16 code units, so the two disagree on characters outside the Basic Multilingual Plane.
- The text of the schema's error message and how the form shows it. The model records only which bound failed.
- The form's textarea has no `value` binding, so clearing `text` does not clear what the browser shows. Rendering is not modelled.
- Relative-time formatting, the locale table, images, links, class names and the rest of the JSX.
- Authentication and the sign-in/out pages. `userId` is whatever the like or unlike response acknowledges.
- The server side of fetching, liking and creating. These are foreign calls. Their results are parameters of the cache methods.
