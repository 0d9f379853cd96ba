/** The accounting state of one delivery attempt: `Failures` (temporary and permanent
    failures, the retry time of each temporary one, and the grouped description) and
    `Results` (the successes plus the failures), with the pure functions that specify them. */
module Accounting {
  import opened Wrappers
  import opened Text
  import opened Notifications
  import opened Policy
  import WebpushNotification
  import MozillaNotification

  /** One failed endpoint: `{endpoint:, code:, error:, retry_after:}`; only a temporary
      failure carries a retry time. */
  datatype Failure = Failure(endpoint: string, code: nat, error: string, retryAfter: Option<int>)

  /** The successes and the two failure lists, as plain values. */
  datatype Tally = Tally(successes: seq<string>, temporary: seq<Failure>, permanent: seq<Failure>)

  const EMPTY_TALLY: Tally := Tally([], [], [])

  function Pow2(k: nat): (r: nat)
    ensures r >= 1
  {
    if k == 0 then 1 else 2 * Pow2(k - 1)
  }

  /** `determine_retry_after`: the time parsed from the `retry-after` header when there is one,
      otherwise exponential backoff `now + 2^(retries + 1)` on the notification's retry count. */
  function DetermineRetryAfter(parsed: Option<int>, retries: Option<nat>, now: int): (t: int)
    ensures parsed.Some? ==> t == parsed.value
    ensures parsed.None? ==> t >= now + 2 && t - now == Pow2(RetriesOrZero(retries) + 1)
  {
    match parsed
    case Some(time) => time
    case None => now + Pow2(RetriesOrZero(retries) + 1)
  }

  /** Each further split generation doubles the fallback delay. */
  lemma BackoffDoubles(r: nat, now: int)
    ensures DetermineRetryAfter(None, Some(r + 1), now) - now == 2 * (DetermineRetryAfter(None, Some(r), now) - now)
    ensures DetermineRetryAfter(None, None, now) == DetermineRetryAfter(None, Some(0), now) == now + 2
  {
  }

  /** The failure record `Failures#add` builds for a code. */
  function NewFailure(p: Provider, retries: Option<nat>, endpoint: string, code: nat, parsed: Option<int>, now: int): (f: Failure)
    ensures f.endpoint == endpoint && f.code == code
    ensures f.retryAfter.Some? <==> IsTemporaryCode(code)
    ensures Classify(p, code).Temporary? ==>
              f.error == Classify(p, code).message && f.retryAfter == Some(DetermineRetryAfter(parsed, retries, now))
    ensures Classify(p, code).Permanent? ==> f.error == Classify(p, code).message
  {
    match TemporaryMessage(code)
    case Some(msg) => Failure(endpoint, code, msg, Some(DetermineRetryAfter(parsed, retries, now)))
    case None =>
      var error := match PermanentMessage(p, code)
                   case Some(msg) => msg
                   case None => UnknownErrorMessage(p, code);
      Failure(endpoint, code, error, None)
  }

  /** What handling one response does: record it and go on, or abort the whole attempt. */
  datatype Step = Continue(tally: Tally) | Stop(error: Exception)

  /** `Results#handle_response` on plain values. Each category of the flat table has one
      effect: a success grows the successes, 400 and 413 abort with that code and record
      nothing, a temporary or permanent code grows exactly that failure list by one. */
  function ApplyResponse(p: Provider, n: Notification, t: Tally, endpoint: string, code: nat, parsed: Option<int>, now: int): (s: Step)
    ensures match Classify(p, code)
            case Success => s == Continue(t.(successes := t.successes + [endpoint]))
            case Abort(m) => s == Stop(DeliveryError(Some(code), n.id, m))
            case Temporary(m) =>
              s == Continue(t.(temporary := t.temporary + [Failure(endpoint, code, m, Some(DetermineRetryAfter(parsed, n.retries, now)))]))
            case Permanent(m) =>
              s == Continue(t.(permanent := t.permanent + [Failure(endpoint, code, m, None)]))
  {
    if code == 200 || code == 201 then Continue(t.(successes := t.successes + [endpoint]))
    else if code == 400 then Stop(DeliveryError(Some(400), n.id, BadRequestMessage(p)))
    else if code == 413 then Stop(DeliveryError(Some(413), n.id, PAYLOAD_TOO_LARGE_MESSAGE))
    else
      var f := NewFailure(p, n.retries, endpoint, code, parsed, now);
      if IsTemporaryCode(code) then Continue(t.(temporary := t.temporary + [f]))
      else Continue(t.(permanent := t.permanent + [f]))
  }

  const TEMPORARY_SUMMARY: string := "had temporary failures and will be retried"
  const PERMANENT_SUMMARY: string := "failed permanently"

  function FailureLine(f: Failure): (line: string) {
    f.endpoint + " - " + f.error
  }

  function FailureLines(fs: seq<Failure>): (lines: seq<string>)
    ensures |lines| == |fs|
    ensures forall i :: 0 <= i < |fs| ==> lines[i] == FailureLine(fs[i])
  {
    if fs == [] then [] else [FailureLine(fs[0])] + FailureLines(fs[1..])
  }

  function SummaryLine(count: nat, summary: string): (line: string) {
    NatToString(count) + " recipient(s) " + summary + ":"
  }

  /** `describe`: nothing for no failures, otherwise a count line and one line per failure. */
  function Describe(fs: seq<Failure>, summary: string): (d: string)
    ensures fs == [] <==> d == ""
  {
    if fs == [] then "" else SummaryLine(|fs|, summary) + "\n" + Join(FailureLines(fs), "\n")
  }

  /** `description`: the temporary block followed directly by the permanent block. */
  function DescriptionOf(temporary: seq<Failure>, permanent: seq<Failure>): (d: string) {
    Describe(temporary, TEMPORARY_SUMMARY) + Describe(permanent, PERMANENT_SUMMARY)
  }

  lemma FreeAppend(a: string, b: string, c: char)
    requires Free(a, c) && Free(b, c)
    ensures Free(a + b, c)
  {
    assert forall i :: 0 <= i < |a + b| ==> (a + b)[i] == if i < |a| then a[i] else b[i - |a|];
  }

  lemma SummaryLineFree(count: nat, summary: string)
    requires Free(summary, '\n')
    ensures Free(SummaryLine(count, summary), '\n')
  {
    var digits := NatToString(count);
    assert Free(digits, '\n');
    FreeAppend(digits, " recipient(s) ", '\n');
    FreeAppend(digits + " recipient(s) ", summary, '\n');
    FreeAppend(digits + " recipient(s) " + summary, ":", '\n');
  }

  /** The failure lines, joined by newlines, split back into themselves. */
  lemma FailureLinesSplit(fs: seq<Failure>)
    requires fs != []
    requires forall i :: 0 <= i < |fs| ==> Free(FailureLine(fs[i]), '\n')
    ensures Split(Join(FailureLines(fs), "\n"), '\n') == FailureLines(fs)
  {
    var lines := FailureLines(fs);
    assert forall i :: 0 <= i < |lines| ==> Free(lines[i], '\n') by {
      forall i | 0 <= i < |lines| ensures Free(lines[i], '\n') {
        assert lines[i] == FailureLine(fs[i]);
      }
    }
    SplitJoin(lines, '\n');
  }

  /** A count line followed by a newline splits into the line and an empty rest. */
  lemma SummaryLineSplit(count: nat, summary: string)
    requires Free(summary, '\n')
    ensures Split(SummaryLine(count, summary) + "\n", '\n') == [SummaryLine(count, summary), ""]
  {
    SummaryLineFree(count, summary);
    SplitLineBreak(SummaryLine(count, summary), '\n');
  }

  /** Read line by line, a non-empty block is its count line followed by one line per
      failure, in order (as long as no endpoint or message holds a newline). */
  lemma DescribeLines(fs: seq<Failure>, summary: string)
    requires fs != []
    requires Free(summary, '\n')
    requires forall i :: 0 <= i < |fs| ==> Free(FailureLine(fs[i]), '\n')
    ensures Split(Describe(fs, summary), '\n') == [SummaryLine(|fs|, summary)] + FailureLines(fs)
  {
    var head := SummaryLine(|fs|, summary);
    var lines := FailureLines(fs);
    var joined := Join(lines, "\n");
    FailureLinesSplit(fs);
    SummaryLineSplit(|fs|, summary);
    SplitAppend(head + "\n", joined, '\n');
    GlueAfterBreak(head, lines);
  }

  /** The two blocks are concatenated with no separator: when both exist, the last
      temporary line and the permanent count line share one line. */
  lemma DescriptionJunction(temporary: seq<Failure>, permanent: seq<Failure>)
    requires temporary != [] && permanent != []
    requires forall i :: 0 <= i < |temporary| ==> Free(FailureLine(temporary[i]), '\n')
    requires forall i :: 0 <= i < |permanent| ==> Free(FailureLine(permanent[i]), '\n')
    ensures Split(DescriptionOf(temporary, permanent), '\n') ==
              [SummaryLine(|temporary|, TEMPORARY_SUMMARY)]
              + FailureLines(temporary)[..|temporary| - 1]
              + [FailureLine(temporary[|temporary| - 1]) + SummaryLine(|permanent|, PERMANENT_SUMMARY)]
              + FailureLines(permanent)
  {
    var a := Describe(temporary, TEMPORARY_SUMMARY);
    var b := Describe(permanent, PERMANENT_SUMMARY);
    SummariesFree();
    DescribeLines(temporary, TEMPORARY_SUMMARY);
    DescribeLines(permanent, PERMANENT_SUMMARY);
    SplitAppend(a, b, '\n');
    GlueBlocks(SummaryLine(|temporary|, TEMPORARY_SUMMARY), FailureLines(temporary),
               SummaryLine(|permanent|, PERMANENT_SUMMARY), FailureLines(permanent));
  }

  lemma SummariesFree()
    ensures Free(TEMPORARY_SUMMARY, '\n') && Free(PERMANENT_SUMMARY, '\n')
  {
  }

  /** The endpoint list the provider's notification model gives for `endpoints`. */
  function Endpoints(p: Provider, regs: seq<RegistrationId>): (eps: seq<string>)
    ensures |eps| == |regs|
    ensures forall i :: 0 <= i < |regs| ==> eps[i] == regs[i].endpoint
  {
    match p
    case Webpush => WebpushNotification.Endpoints(regs)
    case Mozilla => MozillaNotification.Endpoints(regs)
  }

  /** `Failures`: the failures recorded so far in one attempt, and the memoised description. */
  class Failures {
    const provider: Provider
    const notification: Notification
    var temporary: seq<Failure>
    var permanent: seq<Failure>
    var memo: Option<string>

    constructor (provider: Provider, notification: Notification)
      ensures this.provider == provider && this.notification == notification
      ensures temporary == [] && permanent == [] && memo == None
    {
      this.provider := provider;
      this.notification := notification;
      temporary := [];
      permanent := [];
      memo := None;
    }

    /** `all`: temporary failures, then permanent ones. */
    function All(): (all: seq<Failure>)
      reads this
      ensures |all| == |temporary| + |permanent|
      ensures forall f :: f in all <==> f in temporary || f in permanent
      ensures all[..|temporary|] == temporary && all[|temporary|..] == permanent
    {
      temporary + permanent
    }

    /** `any?` */
    predicate Any()
      reads this
      ensures Any() <==> |All()| > 0
    {
      |temporary| > 0 || |permanent| > 0
    }

    /** `all_failed?`: as many failures as the notification has endpoints. */
    predicate AllFailed()
      reads this
      ensures AllFailed() <==> |notification.registrationIds| == |temporary| + |permanent|
    {
      |Endpoints(provider, notification.registrationIds)| == |All()|
    }

    /** `add`: a temporary code goes to `temporary` with its table message and a retry
        time; any other code goes to `permanent`. Exactly one list grows, by one. */
    method Add(endpoint: string, code: nat, parsed: Option<int>, now: int)
      modifies this`temporary, this`permanent
      ensures var f := NewFailure(provider, notification.retries, endpoint, code, parsed, now);
              if IsTemporaryCode(code) then temporary == old(temporary) + [f] && permanent == old(permanent)
              else temporary == old(temporary) && permanent == old(permanent) + [f]
    {
      var msg := TemporaryMessage(code);
      if msg.Some? {
        var retryAfter := DetermineRetryAfter(parsed, notification.retries, now);
        temporary := temporary + [Failure(endpoint, code, msg.value, Some(retryAfter))];
      } else {
        var error := UnknownErrorMessage(provider, code);
        var known := PermanentMessage(provider, code);
        if known.Some? {
          error := known.value;
        }
        permanent := permanent + [Failure(endpoint, code, error, None)];
      }
    }

    /** `description`, memoised on first use. */
    method Description() returns (d: string)
      modifies this`memo
      ensures old(memo).Some? ==> d == old(memo).value
      ensures old(memo).None? ==> d == DescriptionOf(temporary, permanent)
      ensures memo == Some(d)
    {
      if memo.None? {
        memo := Some(Describe(temporary, TEMPORARY_SUMMARY) + Describe(permanent, PERMANENT_SUMMARY));
      }
      d := memo.value;
    }
  }

  /** `Results`: the endpoints that succeeded and the `Failures` of one attempt. */
  class Results {
    const provider: Provider
    const notification: Notification
    const failures: Failures
    var successes: seq<string>

    ghost predicate Valid() {
      failures.provider == provider && failures.notification == notification
    }

    constructor (provider: Provider, notification: Notification)
      ensures Valid() && fresh(failures)
      ensures this.provider == provider && this.notification == notification
      ensures successes == [] && failures.temporary == [] && failures.permanent == [] && failures.memo == None
    {
      this.provider := provider;
      this.notification := notification;
      failures := new Failures(provider, notification);
      successes := [];
    }

    function AsTally(): (t: Tally)
      reads this, failures
    {
      Tally(successes, failures.temporary, failures.permanent)
    }

    /** `failures?` */
    predicate HasFailures()
      reads this, failures
      ensures HasFailures() <==> AsTally().temporary != [] || AsTally().permanent != []
    {
      failures.Any()
    }

    /** `handle_response`: what `ApplyResponse` says, with an abort returned as the raised error. */
    method HandleResponse(endpoint: string, code: nat, parsed: Option<int>, now: int) returns (raised: Option<Exception>)
      requires Valid()
      modifies this`successes, failures`temporary, failures`permanent
      ensures var s := ApplyResponse(provider, notification, old(AsTally()), endpoint, code, parsed, now);
              (s.Continue? ==> raised.None? && AsTally() == s.tally)
              && (s.Stop? ==> raised == Some(s.error) && AsTally() == old(AsTally()))
    {
      raised := None;
      if code == 200 || code == 201 {
        successes := successes + [endpoint];
      } else if code == 400 {
        raised := Some(DeliveryError(Some(400), notification.id, BadRequestMessage(provider)));
      } else if code == 413 {
        raised := Some(DeliveryError(Some(413), notification.id, PAYLOAD_TOO_LARGE_MESSAGE));
      } else {
        failures.Add(endpoint, code, parsed, now);
      }
    }
  }
}
