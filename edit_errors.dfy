/**
  How the reconciliation cycle reads a failed message edit: the error's
  text is lower-cased and searched for fixed phrases, and for the
  rate-limit delay `retry after N`.
 */
module EditErrors {
  import opened Wrappers
  import opened PyText

  const NOT_MODIFIED := "message is not modified"
  const FLOOD_CONTROL := "flood control"
  const RETRY_AFTER := "retry after"
  /** The literal part of the pattern `retry after (\d+)`. */
  const RETRY_PREFIX := "retry after "

  /** The cycle's reaction to one failed edit. */
  datatype Reaction =
    | NotModified                     // the platform reports the text unchanged: ignore
    | Flood(retryAfter: Option<nat>)  // rate limited: keep the message, maybe slow down
    | Fatal                           // anything else: stop tracking the message

  /** The pattern `retry after (\d+)` matches at position `i` of `s`. */
  predicate RetryAt(s: string, i: int) {
    0 <= i && i + |RETRY_PREFIX| < |s| &&
    s[i..i + |RETRY_PREFIX|] == RETRY_PREFIX && IsDigit(s[i + |RETRY_PREFIX|])
  }

  /** `re.search` for the pattern from position `k` on: the leftmost match. */
  function SearchRetry(s: string, k: nat): (r: Option<nat>)
    ensures r.Some? ==> k <= r.value && RetryAt(s, r.value)
    ensures r.Some? ==> forall j :: k <= j < r.value ==> !RetryAt(s, j)
    ensures r.None? ==> forall j :: k <= j ==> !RetryAt(s, j)
    decreases |s| - k
  {
    if |s| <= k + |RETRY_PREFIX| then None
    else if RetryAt(s, k) then Some(k)
    else SearchRetry(s, k + 1)
  }

  /** `int(match.group(1))` for the first match of `retry after (\d+)`, if any. */
  function RetryAfter(msg: string): (r: Option<nat>)
    ensures r.Some? <==> exists i :: RetryAt(msg, i)
    ensures r.Some? ==>
      exists i ::
        && RetryAt(msg, i)
        && (forall j :: 0 <= j < i ==> !RetryAt(msg, j))
        && r.value == DigitsValue(LeadingDigits(msg[i + |RETRY_PREFIX|..]))
  {
    match SearchRetry(msg, 0)
    case None => None
    case Some(i) => Some(DigitsValue(LeadingDigits(msg[i + |RETRY_PREFIX|..])))
  }

  /**
    The classification of an edit error's text: "message is not modified"
    first, then "flood control" or "retry after", and otherwise fatal.
   */
  function Classify(error: string): (r: Reaction)
    ensures r.NotModified? <==> IsSubstring(NOT_MODIFIED, Lower(error))
    ensures r.Flood? <==>
      && !IsSubstring(NOT_MODIFIED, Lower(error))
      && (IsSubstring(FLOOD_CONTROL, Lower(error)) || IsSubstring(RETRY_AFTER, Lower(error)))
    ensures r.Flood? ==> r.retryAfter == RetryAfter(Lower(error))
  {
    var msg := Lower(error);
    ContainsIff(msg, NOT_MODIFIED);
    ContainsIff(msg, FLOOD_CONTROL);
    ContainsIff(msg, RETRY_AFTER);
    if Contains(msg, NOT_MODIFIED) then NotModified
    else if Contains(msg, FLOOD_CONTROL) || Contains(msg, RETRY_AFTER) then Flood(RetryAfter(msg))
    else Fatal
  }

  lemma RetryAtOccurs(s: string, i: int)
    requires RetryAt(s, i)
    ensures OccursAt(RETRY_AFTER, s, i)
  {
    assert s[i..i + |RETRY_AFTER|] == s[i..i + |RETRY_PREFIX|][..|RETRY_AFTER|];
  }

  /** A `retry after N` in the text always puts the error in the rate-limit
      branch, unless the text also says the message was not modified. */
  lemma RetryValueMeansFlood(error: string)
    requires RetryAfter(Lower(error)).Some?
    ensures Classify(error) == NotModified || Classify(error) == Flood(RetryAfter(Lower(error)))
  {
    var msg := Lower(error);
    var i :| RetryAt(msg, i);
    RetryAtOccurs(msg, i);
    var r := Classify(error);
    assert IsSubstring(RETRY_AFTER, msg);
  }

  /** A rate-limit error asking for 45 seconds, in any letter case. */
  lemma FloodExample(error: string)
    requires Lower(error) == "retry after 45"
    ensures Classify(error) == Flood(Some(45))
  {
    var msg := Lower(error);
    AbsentCharNotSubstring(NOT_MODIFIED, msg, 'm');
    assert RetryAt(msg, 0);
    RetryAtOccurs(msg, 0);
    assert SearchRetry(msg, 0) == Some(0);
    assert LeadingDigits(msg[12..]) == "45";
    assert "45"[..1] == "4";
    assert DigitsValue("45") == 45;
    assert RetryAfter(msg) == Some(45);
  }

  /** A permanent failure such as a deleted chat. */
  lemma FatalExample(error: string)
    requires Lower(error) == "bad request: chat not found"
    ensures Classify(error) == Fatal
  {
    LettersAbsentFatal(Lower(error));
    FatalWithoutLetters(error);
  }

  /** The fixed phrases each hold a letter that "bad request: chat not found" lacks. */
  lemma LettersAbsentFatal(msg: string)
    requires msg == "bad request: chat not found"
    ensures 'm' !in msg && 'l' !in msg && 'y' !in msg
  {
  }

  /** An error text lacking 'm', 'l' and 'y' matches none of the fixed phrases. */
  lemma FatalWithoutLetters(error: string)
    requires 'm' !in Lower(error) && 'l' !in Lower(error) && 'y' !in Lower(error)
    ensures Classify(error) == Fatal
  {
    var msg := Lower(error);
    AbsentCharNotSubstring(NOT_MODIFIED, msg, 'm');
    AbsentCharNotSubstring(FLOOD_CONTROL, msg, 'l');
    AbsentCharNotSubstring(RETRY_AFTER, msg, 'y');
  }

  /** The unchanged-content error. */
  lemma NotModifiedExample(error: string)
    requires Lower(error) == "bad request: message is not modified"
    ensures Classify(error) == NotModified
  {
    var msg := Lower(error);
    assert msg[13..] == NOT_MODIFIED;
    assert OccursAt(NOT_MODIFIED, msg, 13);
  }
}
