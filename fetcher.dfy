/** `getChannelHistory` (server/slackBot.js:53-75) as a specification: the platform's answers
    to successive `conversations.history` calls are given as a sequence of outcomes, and the
    sleeps the retries would take are recorded instead of taken. */
module Fetcher {
  import opened Wrappers

  /** A message as `conversations.history` returns it. */
  datatype RawMessage = RawMessage(ts: string, user: string, text: string)

  /** What one API call does: returns messages, fails with `rate_limited` (with the advised
      wait in seconds, when the error carries one), or fails in any other way. */
  datatype CallOutcome = Delivered(messages: seq<RawMessage>) | RateLimited(retryAfter: Option<nat>) | Failed

  /** The default retry budget of `getChannelHistory`. */
  const DefaultRetries: int := 3
  /** Wait when the rate-limit error advises none. */
  const DefaultRetryAfter: nat := 60

  /** `error.retryAfter || 60`: 0 is falsy too. */
  function RetryDelay(retryAfter: Option<nat>): (s: nat)
    ensures s > 0
    ensures retryAfter.Some? && retryAfter.value > 0 ==> s == retryAfter.value
    ensures retryAfter.None? || retryAfter.value == 0 ==> s == DefaultRetryAfter
  {
    if retryAfter.Some? && retryAfter.value > 0 then retryAfter.value else DefaultRetryAfter
  }

  /** The answer to call number k; a call the sequence does not cover fails. */
  function OutcomeAt(outcomes: seq<CallOutcome>, k: nat): CallOutcome {
    if k < |outcomes| then outcomes[k] else Failed
  }

  /** What a fetch yields: the messages, how many API calls were made, the sleeps in seconds. */
  datatype History = History(messages: seq<RawMessage>, calls: nat, sleeps: seq<nat>)

  /** The recursion of `getChannelHistory` from call k on, with `left` retries remaining. */
  function Attempt(outcomes: seq<CallOutcome>, k: nat, left: nat): (r: History)
    ensures 1 <= r.calls <= left + 1 && |r.sleeps| == r.calls - 1
    decreases left
  {
    match OutcomeAt(outcomes, k)
    case Delivered(ms) => History(ms, 1, [])
    case RateLimited(ra) =>
      if left > 0 then
        var h := Attempt(outcomes, k + 1, left - 1);
        History(h.messages, h.calls + 1, [RetryDelay(ra)] + h.sleeps)
      else History([], 1, [])
    case Failed => History([], 1, [])
  }

  /** `retries > 0` is the test, so a budget at or below zero allows no retry. */
  function Budget(retries: int): nat {
    if retries > 0 then retries else 0
  }

  /** `getChannelHistory(channelId, limit, retries)`: nothing and no call without a Slack app. */
  function FetchHistory(enabled: bool, outcomes: seq<CallOutcome>, retries: int): (r: History)
    ensures !enabled ==> r == History([], 0, [])
    ensures enabled ==> 1 <= r.calls <= Budget(retries) + 1
  {
    if enabled then Attempt(outcomes, 0, Budget(retries)) else History([], 0, [])
  }

  /** Calls k, k + 1, ... answered with a rate limit, and each retry slept the delay that
      call advised. */
  predicate RetriedAfter(outcomes: seq<CallOutcome>, k: nat, sleeps: seq<nat>) {
    forall j: nat :: k <= j < k + |sleeps| ==>
      OutcomeAt(outcomes, j).RateLimited? &&
      sleeps[j - k] == RetryDelay(OutcomeAt(outcomes, j).retryAfter)
  }

  /** A rate-limited call k followed by rate-limited retries from k + 1 on. */
  lemma RetriedStep(outcomes: seq<CallOutcome>, k: nat, sleeps: seq<nat>)
    requires OutcomeAt(outcomes, k).RateLimited?
    requires RetriedAfter(outcomes, k + 1, sleeps)
    ensures RetriedAfter(outcomes, k, [RetryDelay(OutcomeAt(outcomes, k).retryAfter)] + sleeps)
  {
    var all := [RetryDelay(OutcomeAt(outcomes, k).retryAfter)] + sleeps;
    forall j: nat | k < j < k + |all|
      ensures OutcomeAt(outcomes, j).RateLimited?
      ensures all[j - k] == sleeps[j - (k + 1)]
    {
    }
  }

  /** The calls from k on: all but the last were rate limited and each such retry slept the
      advised delay; the messages come from the last call when it delivered, else none;
      there are at most left + 1 calls. */
  lemma {:induction false} AttemptShape(outcomes: seq<CallOutcome>, k: nat, left: nat)
    ensures var h := Attempt(outcomes, k, left);
      && 1 <= h.calls <= left + 1
      && |h.sleeps| == h.calls - 1
      && RetriedAfter(outcomes, k, h.sleeps)
      && (OutcomeAt(outcomes, k + h.calls - 1).RateLimited? ==> h.calls == left + 1)
      && h.messages == (match OutcomeAt(outcomes, k + h.calls - 1)
                        case Delivered(ms) => ms
                        case _ => [])
    decreases left
  {
    match OutcomeAt(outcomes, k)
    case Delivered(_) =>
    case Failed =>
    case RateLimited(ra) =>
      if left > 0 {
        AttemptShape(outcomes, k + 1, left - 1);
        var h := Attempt(outcomes, k + 1, left - 1);
        var r := Attempt(outcomes, k, left);
        assert r.sleeps == [RetryDelay(ra)] + h.sleeps;
        RetriedStep(outcomes, k, h.sleeps);
      }
  }

  /** At most retries + 1 calls; without a Slack app no call at all and no messages. */
  lemma CallBound(enabled: bool, outcomes: seq<CallOutcome>, retries: int)
    ensures var h := FetchHistory(enabled, outcomes, retries);
      && h.calls <= Budget(retries) + 1
      && |h.sleeps| == (if h.calls == 0 then 0 else h.calls - 1)
      && (!enabled ==> h.calls == 0 && h.messages == [])
  {
    if enabled {
      AttemptShape(outcomes, 0, Budget(retries));
    }
  }

  /** Every call delivers at most `limit` messages. */
  ghost predicate HonoursLimit(outcomes: seq<CallOutcome>, limit: nat) {
    forall i :: 0 <= i < |outcomes| && outcomes[i].Delivered? ==> |outcomes[i].messages| <= limit
  }

  /** Then so does the fetch, whatever the retries. */
  lemma WithinLimit(enabled: bool, outcomes: seq<CallOutcome>, retries: int, limit: nat)
    requires HonoursLimit(outcomes, limit)
    ensures |FetchHistory(enabled, outcomes, retries).messages| <= limit
  {
    if enabled {
      var h := Attempt(outcomes, 0, Budget(retries));
      AttemptShape(outcomes, 0, Budget(retries));
      var last := h.calls - 1;
      if OutcomeAt(outcomes, last).Delivered? {
        assert last < |outcomes|;
      }
    }
  }

  /** Two rate limits, the first without advice, then a delivery within the default budget:
      the delivered messages come back after sleeping 60 and then 5 seconds. */
  lemma TwoRateLimitsThenSuccess(ms: seq<RawMessage>)
    ensures FetchHistory(true, [RateLimited(None), RateLimited(Some(5)), Delivered(ms)], DefaultRetries)
         == History(ms, 3, [60, 5])
  {
  }
}
