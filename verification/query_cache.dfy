/**
 * The part of the query cache the timeline uses: one entry per timeline
 * input, the set of inputs with a fetch in flight, and the set of inputs
 * marked stale by an invalidation.
 */
module QueryCache {
  import opened Wrappers
  import opened Timeline

  class TimelineCache {
    /** Cached infinite-query data, keyed by the timeline input. */
    var entries: map<TimelineInput, InfiniteData>
    /** Inputs whose query is fetching (`isFetching`). */
    var fetching: set<TimelineInput>
    /** Inputs invalidated since their data was last fetched from the start. */
    var stale: set<TimelineInput>

    /**
     * Every entry was created by a first-page fetch and only grows by
     * appended pages, so it holds at least one page and one cursor per page.
     */
    ghost predicate Valid()
      reads this
    {
      forall k :: k in entries ==>
        |entries[k].pages| >= 1 && |entries[k].pages| == |entries[k].pageParams|
    }

    constructor ()
      ensures Valid()
      ensures entries == map[] && fetching == {} && stale == {}
    {
      entries := map[];
      fetching := {};
      stale := {};
    }

    /** The entry for `input`, if there is one (`data` of the query). */
    function Data(input: TimelineInput): Option<InfiniteData>
      reads this
    {
      if input in entries then Some(entries[input]) else None
    }

    /**
     * `updateCache`: rewrite the entry for `input` with the like/unlike
     * patch. Without an entry the updater would read `pages` of
     * `undefined` and throw; that case reports `ok == false` and changes
     * nothing. No other entry is touched.
     */
    method UpdateCache(input: TimelineInput, tweetId: TweetId, userId: UserId, action: Action)
      returns (ok: bool)
      requires Valid()
      modifies this
      ensures Valid()
      ensures ok <==> input in old(entries)
      ensures ok ==> entries == old(entries)[input := UpdateData(old(entries)[input], tweetId, userId, action)]
      ensures !ok ==> entries == old(entries)
      ensures forall k :: k in old(entries) && k != input ==> k in entries && entries[k] == old(entries)[k]
      ensures fetching == old(fetching) && stale == old(stale)
    {
      ok := input in entries;
      if ok {
        entries := entries[input := UpdateData(entries[input], tweetId, userId, action)];
      }
    }

    /** The first fetch of a query starts. */
    method StartFetch(input: TimelineInput)
      requires Valid()
      modifies this
      ensures Valid()
      ensures fetching == old(fetching) + {input}
      ensures entries == old(entries) && stale == old(stale)
    {
      fetching := fetching + {input};
    }

    /** The first page arrived: the entry restarts with that page, fetched without a cursor. */
    method ReceiveFirstPage(input: TimelineInput, page: Page)
      requires Valid()
      modifies this
      ensures Valid()
      ensures entries == old(entries)[input := InfiniteData([page], [None])]
      ensures Displayed(Data(input)) == page.tweets
      ensures fetching == old(fetching) - {input} && stale == old(stale) - {input}
    {
      entries := entries[input := InfiniteData([page], [None])];
      assert [page][1..] == [];
      assert Flatten([page]) == page.tweets + Flatten([]);
      fetching := fetching - {input};
      stale := stale - {input};
    }

    /** `fetchNextPage`: starts a fetch with the cursor `getNextPageParam` gives for the entry. */
    method FetchNextPage(input: TimelineInput) returns (param: Option<Cursor>)
      requires Valid()
      requires input in entries
      modifies this
      ensures Valid()
      ensures entries == old(entries) && stale == old(stale)
      ensures param == entries[input].pages[|entries[input].pages| - 1].nextCursor
      ensures fetching == old(fetching) + {input}
    {
      param := NextPageParam(entries[input]);
      fetching := fetching + {input};
    }

    /**
     * A next page fetched with `param` arrived: it is appended to the
     * entry, the displayed list grows by exactly its tweets, and its cursor
     * decides whether there is a further page.
     */
    method ReceiveNextPage(input: TimelineInput, param: Option<Cursor>, page: Page)
      requires Valid()
      requires input in entries
      modifies this
      ensures Valid()
      ensures entries == old(entries)[input := AppendPage(old(entries)[input], param, page)]
      ensures Displayed(Data(input)) == Displayed(old(Data(input))) + page.tweets
      ensures HasNextPage(Data(input)) <==> page.nextCursor.Some?
      ensures fetching == old(fetching) - {input} && stale == old(stale)
    {
      entries := entries[input := AppendPage(entries[input], param, page)];
      fetching := fetching - {input};
    }

    /** A fetch failed: the flag is cleared and no page is added. */
    method FetchFailed(input: TimelineInput)
      requires Valid()
      modifies this
      ensures Valid()
      ensures fetching == old(fetching) - {input}
      ensures entries == old(entries) && stale == old(stale)
    {
      fetching := fetching - {input};
    }

    /**
     * `utils.tweet.timeline.invalidate()`: every timeline entry is marked
     * stale, and the timeline queries on screen (`mounted`) start
     * refetching at once; data is kept until the refetch replaces it.
     */
    method InvalidateTimeline(mounted: set<TimelineInput>)
      requires Valid()
      modifies this
      ensures Valid()
      ensures stale == old(entries).Keys
      ensures fetching == old(fetching) + mounted
      ensures entries == old(entries)
    {
      stale := entries.Keys;
      fetching := fetching + mounted;
    }
  }
}
