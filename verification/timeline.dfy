/**
 * The pure part of the timeline component: the shape of the cached feed,
 * the like/unlike patch that the mutation success handlers apply to it,
 * the flattening of pages into the displayed list, the next-page cursor,
 * and the choice between like and unlike made by the heart icon.
 */
module Timeline {
  import opened Wrappers

  /** Number of tweets requested per page (`LIMIT`). */
  const Limit: int := 10

  /** Scroll depth, in percent, beyond which the next page is requested. */
  const ScrollThreshold: real := 90.0

  type UserId = string
  type TweetId = string

  /** Opaque continuation token returned by the server with each page. */
  datatype Cursor = Cursor(token: string)

  datatype Author = Author(name: Option<string>, image: Option<string>)

  /**
   * One feed item. `likes` holds the ids of the current user's likes on it
   * (the server sends at most one), `likeCount` is `_count.likes`.
   */
  datatype Tweet = Tweet(
    id: TweetId,
    text: string,
    author: Author,
    createdAt: int,
    likes: seq<UserId>,
    likeCount: int)

  /** One fetched page. A page rebuilt by the patch has no `nextCursor`. */
  datatype Page = Page(tweets: seq<Tweet>, nextCursor: Option<Cursor>)

  /** The cached value of an infinite query: its pages and the cursor each page was fetched with. */
  datatype InfiniteData = InfiniteData(pages: seq<Page>, pageParams: seq<Option<Cursor>>)

  /** The `where` part of the timeline input: the whole feed or one author's tweets. */
  datatype Filter = Everyone | ByAuthor(name: string)

  /** The timeline query input; it identifies one cache entry. */
  datatype TimelineInput = TimelineInput(where: Filter, limit: int)

  datatype Action = Like | Unlike

  /** What a click on the heart sends: the mutation to run and its variables. */
  datatype ReactionRequest = ReactionRequest(action: Action, tweetId: TweetId)

  function Delta(action: Action): int
  {
    if action == Like then 1 else -1
  }

  function Opposite(action: Action): Action
  {
    if action == Like then Unlike else Like
  }

  /** True when the two tweets agree on everything except their like state. */
  predicate SameContent(a: Tweet, b: Tweet)
  {
    a.id == b.id && a.text == b.text && a.author == b.author && a.createdAt == b.createdAt
  }

  // ---------------------------------------------------------------------
  // The like/unlike patch (`updateCache`'s updater)
  // ---------------------------------------------------------------------

  /**
   * The per-tweet step of the updater: a tweet with the liked id gets the
   * acting user as its only like (like) or no likes (unlike) and its count
   * moved by one, with no clamp at zero; any other tweet is returned as is.
   */
  function PatchTweet(t: Tweet, tweetId: TweetId, userId: UserId, action: Action): (r: Tweet)
    ensures SameContent(r, t)
    ensures t.id != tweetId ==> r == t
    ensures t.id == tweetId && action == Like ==> r.likes == [userId] && r.likeCount == t.likeCount + 1
    ensures t.id == tweetId && action == Unlike ==> r.likes == [] && r.likeCount == t.likeCount - 1
  {
    if t.id == tweetId then
      t.(likes := if action == Like then [userId] else [], likeCount := t.likeCount + Delta(action))
    else
      t
  }

  /** `page.tweets.map(...)`: patches every tweet of a list, keeping length and order. */
  function PatchTweets(ts: seq<Tweet>, tweetId: TweetId, userId: UserId, action: Action): (r: seq<Tweet>)
    ensures |r| == |ts|
    ensures forall i :: 0 <= i < |ts| ==> r[i] == PatchTweet(ts[i], tweetId, userId, action)
    ensures (forall i :: 0 <= i < |ts| ==> ts[i].id != tweetId) ==> r == ts
  {
    if ts == [] then []
    else [PatchTweet(ts[0], tweetId, userId, action)] + PatchTweets(ts[1..], tweetId, userId, action)
  }

  /**
   * `newData.pages.map(...)`: every page is rebuilt as an object holding only
   * `tweets`, so the rebuilt page no longer carries a `nextCursor`.
   */
  function PatchPages(ps: seq<Page>, tweetId: TweetId, userId: UserId, action: Action): (r: seq<Page>)
    ensures |r| == |ps|
    ensures forall i :: 0 <= i < |ps| ==>
      r[i].tweets == PatchTweets(ps[i].tweets, tweetId, userId, action) && r[i].nextCursor == None
  {
    if ps == [] then []
    else [Page(PatchTweets(ps[0].tweets, tweetId, userId, action), None)]
         + PatchPages(ps[1..], tweetId, userId, action)
  }

  /** The updater passed to `setQueryData`: `{...newData, pages: newTweets}`. */
  function UpdateData(d: InfiniteData, tweetId: TweetId, userId: UserId, action: Action): (r: InfiniteData)
    ensures r.pageParams == d.pageParams
    ensures |r.pages| == |d.pages|
    ensures forall i :: 0 <= i < |d.pages| ==>
      r.pages[i].tweets == PatchTweets(d.pages[i].tweets, tweetId, userId, action)
      && r.pages[i].nextCursor == None
  {
    d.(pages := PatchPages(d.pages, tweetId, userId, action))
  }

  // ---------------------------------------------------------------------
  // Flattening, next-page cursor, appending a page
  // ---------------------------------------------------------------------

  /** `pages.flatMap((page) => page.tweets)`. */
  function Flatten(ps: seq<Page>): (r: seq<Tweet>)
    ensures forall i, t :: 0 <= i < |ps| && t in ps[i].tweets ==> t in r
    ensures forall t :: t in r ==> exists i :: 0 <= i < |ps| && t in ps[i].tweets
  {
    if ps == [] then [] else ps[0].tweets + Flatten(ps[1..])
  }

  /** The list the timeline renders: the flattened pages, or nothing before the first page arrives. */
  function Displayed(data: Option<InfiniteData>): seq<Tweet>
  {
    if data.None? then [] else Flatten(data.value.pages)
  }

  /** `getNextPageParam`: the last page's `nextCursor`. */
  function NextPageParam(d: InfiniteData): Option<Cursor>
  {
    if |d.pages| == 0 then None else d.pages[|d.pages| - 1].nextCursor
  }

  /** `hasNextPage`: false before any data, otherwise whether a next cursor exists. */
  predicate HasNextPage(data: Option<InfiniteData>)
  {
    data.Some? && NextPageParam(data.value).Some?
  }

  /**
   * The cache entry after a next-page fetch with cursor `param` returned `page`:
   * the page and its cursor are appended, earlier pages are untouched.
   */
  function AppendPage(d: InfiniteData, param: Option<Cursor>, page: Page): (r: InfiniteData)
    ensures |r.pages| == |d.pages| + 1 && r.pages[..|d.pages|] == d.pages
    ensures |r.pageParams| == |d.pageParams| + 1 && r.pageParams[..|d.pageParams|] == d.pageParams
    ensures r.pageParams[|d.pageParams|] == param
    ensures Flatten(r.pages) == Flatten(d.pages) + page.tweets
    ensures NextPageParam(r) == page.nextCursor
  {
    FlattenAppend(d.pages, page);
    InfiniteData(d.pages + [page], d.pageParams + [param])
  }

  // ---------------------------------------------------------------------
  // The heart icon
  // ---------------------------------------------------------------------

  /** `hasLiked`: the heart is red when the tweet carries a like of the current user. */
  predicate HasLiked(t: Tweet)
  {
    |t.likes| > 0
  }

  /** The click handler: unlike a liked tweet, like any other. */
  function HeartClick(t: Tweet): (r: ReactionRequest)
    ensures r.tweetId == t.id
    ensures r.action == Unlike <==> |t.likes| > 0
    ensures r.action == Like <==> t.likes == []
  {
    ReactionRequest(if HasLiked(t) then Unlike else Like, t.id)
  }

  // ---------------------------------------------------------------------
  // Lemmas
  // ---------------------------------------------------------------------

  /** Appending a page extends the displayed list by exactly that page's tweets. */
  lemma {:induction false} FlattenAppend(ps: seq<Page>, p: Page)
    ensures Flatten(ps + [p]) == Flatten(ps) + p.tweets
  {
    if ps == [] {
      assert ps + [p] == [p];
    } else {
      assert (ps + [p])[1..] == ps[1..] + [p];
      FlattenAppend(ps[1..], p);
    }
  }

  /** Patching a concatenation patches each part. */
  lemma PatchTweetsConcat(a: seq<Tweet>, b: seq<Tweet>, tweetId: TweetId, userId: UserId, action: Action)
    ensures PatchTweets(a + b, tweetId, userId, action)
         == PatchTweets(a, tweetId, userId, action) + PatchTweets(b, tweetId, userId, action)
  {
    var l := PatchTweets(a + b, tweetId, userId, action);
    var r := PatchTweets(a, tweetId, userId, action) + PatchTweets(b, tweetId, userId, action);
    forall i | 0 <= i < |l| ensures l[i] == r[i] {
      if i < |a| { assert (a + b)[i] == a[i]; } else { assert (a + b)[i] == b[i - |a|]; }
    }
  }

  /**
   * Flattening after the patch is the same as patching the flattened list:
   * the displayed list changes exactly at the tweets with the liked id.
   */
  lemma {:induction false} FlattenPatch(ps: seq<Page>, tweetId: TweetId, userId: UserId, action: Action)
    ensures Flatten(PatchPages(ps, tweetId, userId, action))
         == PatchTweets(Flatten(ps), tweetId, userId, action)
  {
    if ps != [] {
      var rest := PatchPages(ps[1..], tweetId, userId, action);
      assert PatchPages(ps, tweetId, userId, action)[1..] == rest;
      FlattenPatch(ps[1..], tweetId, userId, action);
      PatchTweetsConcat(ps[0].tweets, Flatten(ps[1..]), tweetId, userId, action);
    }
  }

  /** Shape preservation and the point change, stated on the displayed list of a cache entry. */
  lemma DisplayedAfterUpdate(d: InfiniteData, tweetId: TweetId, userId: UserId, action: Action)
    ensures |Flatten(UpdateData(d, tweetId, userId, action).pages)| == |Flatten(d.pages)|
    ensures forall k :: 0 <= k < |Flatten(d.pages)| ==>
      Flatten(UpdateData(d, tweetId, userId, action).pages)[k]
        == PatchTweet(Flatten(d.pages)[k], tweetId, userId, action)
  {
    FlattenPatch(d.pages, tweetId, userId, action);
  }

  /** An id present in no page leaves every page's tweet list, and the displayed list, unchanged. */
  lemma UpdateAbsentIdKeepsTweets(d: InfiniteData, tweetId: TweetId, userId: UserId, action: Action)
    requires forall i, j :: 0 <= i < |d.pages| && 0 <= j < |d.pages[i].tweets| ==> d.pages[i].tweets[j].id != tweetId
    ensures forall i :: 0 <= i < |d.pages| ==> UpdateData(d, tweetId, userId, action).pages[i].tweets == d.pages[i].tweets
    ensures Flatten(UpdateData(d, tweetId, userId, action).pages) == Flatten(d.pages)
  {
    var r := UpdateData(d, tweetId, userId, action);
    forall i | 0 <= i < |d.pages| ensures r.pages[i].tweets == d.pages[i].tweets {
      assert forall j :: 0 <= j < |d.pages[i].tweets| ==> d.pages[i].tweets[j].id != tweetId;
    }
    FlattenPatch(d.pages, tweetId, userId, action);
    var f := Flatten(d.pages);
    forall k | 0 <= k < |f| ensures f[k].id != tweetId {
      assert f[k] in f;
      var i :| 0 <= i < |d.pages| && f[k] in d.pages[i].tweets;
      var j :| 0 <= j < |d.pages[i].tweets| && d.pages[i].tweets[j] == f[k];
    }
  }

  /**
   * The rebuilt pages carry no cursor, so after any like or unlike the
   * entry reports no next page and the infinite scroll stops.
   */
  lemma UpdateEndsPagination(d: InfiniteData, tweetId: TweetId, userId: UserId, action: Action)
    ensures !HasNextPage(Some(UpdateData(d, tweetId, userId, action)))
    ensures |d.pages| > 0 && d.pages[|d.pages| - 1].nextCursor.Some? ==>
      HasNextPage(Some(d)) && !HasNextPage(Some(UpdateData(d, tweetId, userId, action)))
  {
  }

  /** After a reaction lands, the next click on the same tweet sends the opposite reaction. */
  lemma HeartClickAlternates(t: Tweet, userId: UserId)
    ensures HeartClick(PatchTweet(t, t.id, userId, HeartClick(t).action)).action == Opposite(HeartClick(t).action)
  {
  }

  /** Liking an unliked tweet and then unliking it restores the tweet. */
  lemma LikeThenUnlike(t: Tweet, userId: UserId)
    requires t.likes == []
    ensures PatchTweet(PatchTweet(t, t.id, userId, Like), t.id, userId, Unlike) == t
  {
  }

  /** Unliking a tweet liked by the acting user and then liking it restores the tweet. */
  lemma UnlikeThenLike(t: Tweet, userId: UserId)
    requires t.likes == [userId]
    ensures PatchTweet(PatchTweet(t, t.id, userId, Unlike), t.id, userId, Like) == t
  {
  }
}
