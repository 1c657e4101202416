/**
 * The tweet form: the length rule of the tweet schema, and the form state
 * that the submit handler and the create mutation's success handler change.
 */
module CreateTweet {
  import opened Wrappers
  import Timeline
  import QueryCache

  /** Bounds of `tweetSchema.text`: `.min(10)` and `.max(200)`. */
  const MinLength: nat := 10
  const MaxLength: nat := 200

  /** The issue the schema reports for a text of the wrong length. */
  datatype ValidationIssue = TooSmall(minimum: nat) | TooBig(maximum: nat)

  datatype ParseResult = Parsed(text: string) | Rejected(issue: ValidationIssue)

  /** `tweetSchema.parse({ text })`: the text back when its length is within the bounds. */
  function ParseTweet(text: string): (r: ParseResult)
    ensures r.Parsed? <==> MinLength <= |text| <= MaxLength
    ensures r.Parsed? ==> r.text == text
    ensures |text| < MinLength ==> r == Rejected(TooSmall(MinLength))
    ensures |text| > MaxLength ==> r == Rejected(TooBig(MaxLength))
  {
    if |text| < MinLength then Rejected(TooSmall(MinLength))
    else if |text| > MaxLength then Rejected(TooBig(MaxLength))
    else Parsed(text)
  }

  class CreateTweetForm {
    /** The `text` state, set by the textarea's change handler. */
    var text: string
    /** The `error` state; `None` stands for the initial empty string. */
    var error: Option<ValidationIssue>

    constructor ()
      ensures text == "" && error == None
    {
      text := "";
      error := None;
    }

    /** The textarea changed. */
    method OnChange(value: string)
      modifies this
      ensures text == value && error == old(error)
    {
      text := value;
    }

    /**
     * `handleSubmit`: a text that fails the schema records the issue and
     * sends nothing; a text that passes is sent as it is, and an earlier
     * error is left in place.
     */
    method HandleSubmit() returns (request: Option<string>)
      modifies this
      ensures request.Some? <==> MinLength <= |text| <= MaxLength
      ensures request.Some? ==> request.value == text && error == old(error)
      ensures request.None? ==> error == Some(ParseTweet(text).issue)
      ensures text == old(text)
    {
      var parsed := ParseTweet(text);
      if parsed.Rejected? {
        error := Some(parsed.issue);
        request := None;
        return;
      }
      request := Some(text);
    }

    /**
     * The create mutation succeeded: the text is cleared and every timeline
     * entry is invalidated, which starts a refetch of the timelines on
     * screen (`mounted`), so none of them can request a next page until
     * that refetch completes.
     */
    method OnCreateSuccess(client: QueryCache.TimelineCache, mounted: set<Timeline.TimelineInput>)
      requires client.Valid()
      modifies this, client
      ensures client.Valid()
      ensures text == "" && error == old(error)
      ensures client.stale == old(client.entries).Keys
      ensures client.fetching == old(client.fetching) + mounted
      ensures client.entries == old(client.entries)
    {
      text := "";
      client.InvalidateTimeline(mounted);
    }
  }
}
