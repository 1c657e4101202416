/**
 * The `Timeline` component: its scroll position, the effect that asks for
 * the next page, what it renders from the cache, and the like/unlike
 * success handlers of its `Tweet` children.
 */
module TimelineView {
  import opened Wrappers
  import opened Timeline
  import opened QueryCache

  class TimelineComponent {
    /** The query input `{ limit: LIMIT, where }`, also the input every `Tweet` child patches. */
    const input: TimelineInput
    const client: TimelineCache
    /** Last value reported by the scroll hook, in percent. */
    var scrollPosition: real

    constructor (where: Filter, client: TimelineCache)
      ensures input == TimelineInput(where, Limit) && this.client == client
      ensures scrollPosition == 0.0
    {
      input := TimelineInput(where, Limit);
      this.client := client;
      scrollPosition := 0.0;
    }

    /** The list of tweets rendered, in page order. */
    function Tweets(): seq<Tweet>
      reads this, client
    {
      Displayed(client.Data(input))
    }

    /** "No more items to load" is shown exactly when `hasNextPage` is false. */
    predicate ShowsNoMoreItems()
      reads this, client
    {
      !HasNextPage(client.Data(input))
    }

    /** The scroll hook reports a new position. */
    method OnScroll(position: real)
      modifies this
      ensures scrollPosition == position
    {
      scrollPosition := position;
    }

    /**
     * The fetch effect: a next page is requested only past the scroll
     * threshold, with a next page available and no fetch in flight; the
     * request carries the last page's cursor and marks the query fetching,
     * so a second run before completion requests nothing. While "No more
     * items to load" shows, nothing is requested whatever the scroll.
     */
    method FetchEffect() returns (requested: bool, param: Option<Cursor>)
      requires client.Valid()
      modifies client
      ensures client.Valid()
      ensures requested <==>
        old(scrollPosition) > ScrollThreshold && HasNextPage(old(client.Data(input))) && input !in old(client.fetching)
      ensures old(ShowsNoMoreItems()) ==> !requested
      ensures requested ==> input in client.entries && param == NextPageParam(client.entries[input]) && param.Some?
      ensures requested ==> client.fetching == old(client.fetching) + {input} && input in client.fetching
      ensures !requested ==> param == None && client.fetching == old(client.fetching)
      ensures client.entries == old(client.entries) && client.stale == old(client.stale)
    {
      requested := scrollPosition > ScrollThreshold && HasNextPage(client.Data(input)) && input !in client.fetching;
      if requested {
        param := client.FetchNextPage(input);
      } else {
        param := None;
      }
    }

    /**
     * The like mutation succeeded for `tweetId`, acknowledged for `userId`:
     * the rendered list keeps its length and order, every tweet with that
     * id shows the like, and "No more items to load" now shows.
     */
    method OnLikeSuccess(tweetId: TweetId, userId: UserId) returns (ok: bool)
      requires client.Valid()
      modifies client
      ensures client.Valid()
      ensures ok <==> input in old(client.entries)
      ensures ok ==> client.entries == old(client.entries)[input := UpdateData(old(client.entries)[input], tweetId, userId, Like)]
      ensures ok ==> |Tweets()| == |old(Tweets())|
      ensures ok ==> forall k :: 0 <= k < |old(Tweets())| ==>
        Tweets()[k] == PatchTweet(old(Tweets())[k], tweetId, userId, Like)
      ensures ok ==> ShowsNoMoreItems()
      ensures !ok ==> client.entries == old(client.entries) && Tweets() == []
      ensures client.fetching == old(client.fetching) && client.stale == old(client.stale)
    {
      ghost var before := client.Data(input);
      ok := client.UpdateCache(input, tweetId, userId, Like);
      if ok {
        DisplayedAfterUpdate(before.value, tweetId, userId, Like);
        UpdateEndsPagination(before.value, tweetId, userId, Like);
      }
    }

    /**
     * The unlike mutation succeeded for `tweetId`, acknowledged for
     * `userId`: the rendered list keeps its length and order, every tweet
     * with that id shows no like, and "No more items to load" now shows.
     */
    method OnUnlikeSuccess(tweetId: TweetId, userId: UserId) returns (ok: bool)
      requires client.Valid()
      modifies client
      ensures client.Valid()
      ensures ok <==> input in old(client.entries)
      ensures ok ==> client.entries == old(client.entries)[input := UpdateData(old(client.entries)[input], tweetId, userId, Unlike)]
      ensures ok ==> |Tweets()| == |old(Tweets())|
      ensures ok ==> forall k :: 0 <= k < |old(Tweets())| ==>
        Tweets()[k] == PatchTweet(old(Tweets())[k], tweetId, userId, Unlike)
      ensures ok ==> ShowsNoMoreItems()
      ensures !ok ==> client.entries == old(client.entries) && Tweets() == []
      ensures client.fetching == old(client.fetching) && client.stale == old(client.stale)
    {
      ghost var before := client.Data(input);
      ok := client.UpdateCache(input, tweetId, userId, Unlike);
      if ok {
        DisplayedAfterUpdate(before.value, tweetId, userId, Unlike);
        UpdateEndsPagination(before.value, tweetId, userId, Unlike);
      }
    }
  }

  /**
   * Single flight: the scroll position changes twice, the effect runs
   * after each change, and no fetch completes in between. At most one
   * request is issued, and one is issued exactly when either position is
   * past the threshold while a next page exists and nothing is in flight.
   */
  method TwoScrollsOneFetch(view: TimelineComponent, first: real, second: real) returns (requests: nat)
    requires view.client.Valid()
    modifies view, view.client
    ensures view.client.Valid()
    ensures requests <= 1
    ensures requests == 1 <==>
      (first > ScrollThreshold || second > ScrollThreshold)
      && HasNextPage(old(view.client.Data(view.input))) && view.input !in old(view.client.fetching)
    ensures view.scrollPosition == second
    ensures view.client.entries == old(view.client.entries)
  {
    view.OnScroll(first);
    var r1, p1 := view.FetchEffect();
    view.OnScroll(second);
    var r2, p2 := view.FetchEffect();
    requests := (if r1 then 1 else 0) + (if r2 then 1 else 0);
  }
}
