/** What every run of `perform` leaves behind: the notification is marked exactly once (as
    delivered, failed or retryable) and the batch is told exactly once, as the very last
    effect; how permanent failures are reflected; and what the split notification looks like
    when every recipient failed temporarily. */
module DeliveryOutcomes {
  import opened Wrappers
  import opened Notifications
  import opened Policy
  import opened Accounting
  import opened DeliveryEngine
  import opened DeliveryProperties

  // ---------------------------------------------------------------------------------
  // Marks and the batch signal

  /** A store call that records how the notification ended. */
  predicate IsMark(e: Effect) {
    e.MarkDelivered? || e.MarkFailed? || e.MarkRetryable?
  }

  /** Effects that neither mark the notification nor signal the batch. */
  predicate Quiet(s: seq<Effect>) {
    forall e :: e in s ==> !IsMark(e) && e != NotificationProcessed
  }

  /** The marks among `s`, in order. */
  function Marks(s: seq<Effect>): (marks: seq<Effect>) {
    if s == [] then [] else (if IsMark(s[0]) then [s[0]] else []) + Marks(s[1..])
  }

  lemma {:induction false} MarksAppend(a: seq<Effect>, b: seq<Effect>)
    ensures Marks(a + b) == Marks(a) + Marks(b)
  {
    if a == [] {
      assert a + b == b;
    } else {
      assert (a + b)[1..] == a[1..] + b;
      MarksAppend(a[1..], b);
    }
  }

  lemma {:induction false} QuietMarks(s: seq<Effect>)
    requires Quiet(s)
    ensures Marks(s) == []
  {
    if s != [] {
      assert s[0] in s;
      assert Quiet(s[1..]) by {
        forall e | e in s[1..] ensures !IsMark(e) && e != NotificationProcessed {
          assert e in s;
        }
      }
      QuietMarks(s[1..]);
    }
  }

  /** `s` ends with the batch signal, signals nowhere earlier, and holds exactly one mark,
      `mark`. */
  predicate MarkedOnceThenSignalled(s: seq<Effect>, mark: Effect) {
    && |s| > 0
    && s[|s| - 1] == NotificationProcessed
    && NotificationProcessed !in s[..|s| - 1]
    && Marks(s) == [mark]
  }

  /** A quiet body, then one mark, then the batch signal. */
  lemma MarkedThenSignalled(body: seq<Effect>, mark: Effect)
    requires Quiet(body) && IsMark(mark)
    ensures MarkedOnceThenSignalled(body + [mark, NotificationProcessed], mark)
  {
    var s := body + [mark, NotificationProcessed];
    MarksAppend(body, [mark, NotificationProcessed]);
    QuietMarks(body);
    assert Marks([NotificationProcessed]) == [] by {
      assert [NotificationProcessed][1..] == [];
    }
    assert Marks([mark, NotificationProcessed]) == [mark] by {
      assert [mark, NotificationProcessed][1..] == [NotificationProcessed];
    }
    assert s[..|s| - 1] == body + [mark];
  }

  /** The delivered path: the deliveries, the delivered mark, the log line, the signal. */
  lemma DeliveredThenSignalled(sends: seq<Effect>, delivered: seq<Effect>, eps: seq<string>)
    requires Quiet(sends) && Quiet(delivered)
    ensures MarkedOnceThenSignalled(sends + (delivered + [MarkDelivered, LogDelivered(eps)]) + [NotificationProcessed],
                                    MarkDelivered)
  {
    var tail := [MarkDelivered, LogDelivered(eps)];
    var u := tail + [NotificationProcessed];
    var s := sends + (delivered + tail) + [NotificationProcessed];
    assert s == (sends + delivered) + u;
    MarksAppend(sends + delivered, u);
    QuietMarks(sends + delivered);
    assert Marks([NotificationProcessed]) == [] by {
      assert [NotificationProcessed][1..] == [];
    }
    assert Marks([LogDelivered(eps), NotificationProcessed]) == [] by {
      assert [LogDelivered(eps), NotificationProcessed][1..] == [NotificationProcessed];
    }
    assert Marks(u) == [MarkDelivered] by {
      assert u[1..] == [LogDelivered(eps), NotificationProcessed];
    }
    assert s[..|s| - 1] == sends + (delivered + tail);
  }

  lemma SendsQuiet(reqs: seq<WireRequest>)
    ensures Quiet(Sends(reqs))
  {
    var s := Sends(reqs);
    forall e | e in s ensures !IsMark(e) && e != NotificationProcessed {
      var i :| 0 <= i < |s| && s[i] == e;
    }
  }

  lemma SuccessesQuiet(successes: seq<string>)
    ensures Quiet(SuccessEffects(successes))
  {
    var s := SuccessEffects(successes);
    forall e | e in s ensures !IsMark(e) && e != NotificationProcessed {
      var i :| 0 <= i < |s| && s[i] == e;
    }
  }

  // ---------------------------------------------------------------------------------
  // Reflecting permanent failures

  /** Each permanent failure is reflected as a failed delivery to its endpoint; the endpoint
      is also reflected as invalid exactly when the provider treats the code that way
      (404 for both, 410 for Webpush); nothing else is reflected. */
  lemma {:induction false} PermanentReflection(p: Provider, permanent: seq<Failure>)
    ensures var effects := PermanentEffects(p, permanent);
            && (forall e :: e in effects ==> e.FailedToRecipient? || e.InvalidEndpoint?)
            && (forall f :: f in permanent ==> FailedToRecipient(f.error, f.endpoint) in effects)
            && (forall m, ep :: InvalidEndpoint(m, ep) in effects <==>
                  exists f :: f in permanent && IsInvalidEndpointCode(p, f.code) && f.error == m && f.endpoint == ep)
  {
    if permanent != [] {
      var front := permanent[..|permanent| - 1];
      var last := permanent[|permanent| - 1];
      PermanentReflection(p, front);
      assert forall f :: f in permanent <==> f in front || f == last;
    }
  }

  lemma PermanentQuiet(p: Provider, permanent: seq<Failure>)
    ensures Quiet(PermanentEffects(p, permanent))
  {
    PermanentReflection(p, permanent);
  }

  // ---------------------------------------------------------------------------------
  // Every path marks once and signals once

  /** The mark that goes with an outcome: the delivered mark, or the rescue clause's mark. */
  function MarkOf(p: Provider, outcome: Outcome, now: int): (mark: Effect) {
    match outcome
    case Delivered => MarkDelivered
    case Raised(e) => RescueMark(p, e, now)
  }

  /** However the loop ended, its conclusion marks the notification once, as its outcome says,
      and signals the batch once, last. */
  lemma ConcludeMarksOnce(p: Provider, n: Notification, d: Dispatch, now: int)
    requires d.attempted <= |n.registrationIds|
    ensures var (outcome, effects) := Conclude(p, n, d, now);
            MarkedOnceThenSignalled(effects, MarkOf(p, outcome, now))
  {
    match d
    case Interrupted(e, k) =>
      ConcludeInterrupted(p, n, e, k, now);
      SendsQuiet(RequestsUpTo(p, n, k));
      MarkedThenSignalled(Sends(RequestsUpTo(p, n, k)), RescueMark(p, e, now));
    case Finished(t, k) =>
      if t.temporary == [] && t.permanent == [] {
        DeliveredMarksOnce(p, n, t, k, now);
      } else if p == Mozilla && t.temporary != [] {
        NameErrorMarksOnce(p, n, t, k, now);
      } else {
        FailedMarksOnce(p, n, t, k, now);
      }
  }

  lemma DeliveredMarksOnce(p: Provider, n: Notification, t: Tally, k: nat, now: int)
    requires k <= |n.registrationIds| && t.temporary == [] && t.permanent == []
    ensures var (outcome, effects) := Conclude(p, n, Finished(t, k), now);
            outcome == Delivered && MarkedOnceThenSignalled(effects, MarkDelivered)
  {
    ConcludeDelivered(p, n, t, k, now);
    SendsQuiet(RequestsUpTo(p, n, k));
    SuccessesQuiet(t.successes);
    DeliveredThenSignalled(Sends(RequestsUpTo(p, n, k)), SuccessEffects(t.successes), Endpoints(p, n.registrationIds));
  }

  lemma NameErrorMarksOnce(p: Provider, n: Notification, t: Tally, k: nat, now: int)
    requires k <= |n.registrationIds| && p == Mozilla && t.temporary != []
    ensures var (outcome, effects) := Conclude(p, n, Finished(t, k), now);
            outcome == Raised(NameError("failure")) && MarkedOnceThenSignalled(effects, MarkFailed(NameError("failure")))
  {
    ConcludeNameError(p, n, t, k, now);
    var split := CreateNotification(CreateNewNotification(n, t.temporary, now));
    SendsQuiet(RequestsUpTo(p, n, k));
    SuccessesQuiet(t.successes);
    MarkedThenSignalled(Sends(RequestsUpTo(p, n, k)) + (SuccessEffects(t.successes) + [split]), MarkFailed(NameError("failure")));
  }

  lemma FailedMarksOnce(p: Provider, n: Notification, t: Tally, k: nat, now: int)
    requires k <= |n.registrationIds| && (t.temporary != [] || t.permanent != [])
    requires p == Webpush || t.temporary == []
    ensures var e := DeliveryError(None, n.id, DescriptionOf(t.temporary, t.permanent));
            var (outcome, effects) := Conclude(p, n, Finished(t, k), now);
            outcome == Raised(e) && MarkedOnceThenSignalled(effects, MarkFailed(e))
  {
    ConcludeFailed(p, n, t, k, now);
    var e := DeliveryError(None, n.id, DescriptionOf(t.temporary, t.permanent));
    var tail := FailureHandling(p, n, t.temporary, t.permanent, now).1;
    FailureHandlingQuiet(p, n, t.temporary, t.permanent, now);
    var sends := Sends(RequestsUpTo(p, n, k));
    var delivered := SuccessEffects(t.successes);
    SendsQuiet(RequestsUpTo(p, n, k));
    SuccessesQuiet(t.successes);
    QuietAppend(delivered, tail);
    QuietAppend(sends, delivered + tail);
    MarkedThenSignalled(sends + (delivered + tail), MarkFailed(e));
  }

  /** When the failure handling does not raise itself, it neither marks nor signals. */
  lemma FailureHandlingQuiet(p: Provider, n: Notification, temporary: seq<Failure>, permanent: seq<Failure>, now: int)
    requires p == Webpush || temporary == []
    ensures Quiet(FailureHandling(p, n, temporary, permanent, now).1)
  {
    PermanentQuiet(p, permanent);
  }

  lemma QuietAppend(a: seq<Effect>, b: seq<Effect>)
    requires Quiet(a) && Quiet(b)
    ensures Quiet(a + b)
  {
  }

  /** Whatever the responses, `perform` ends with the batch signal and signals nowhere
      earlier, and marks the notification exactly once: delivered when it returns normally,
      otherwise by the rescue clause that matches the exception it raises (retryable for a
      transport error, failed for everything else). */
  lemma PerformMarksOnce(p: Provider, n: Notification, responses: seq<Response>, now: int)
    requires |responses| == |n.registrationIds|
    ensures var (outcome, effects) := PerformSpec(p, n, responses, now);
            MarkedOnceThenSignalled(effects, MarkOf(p, outcome, now))
  {
    ConcludeMarksOnce(p, n, DispatchFrom(p, n, responses, now, 0, EMPTY_TALLY), now);
  }

  // ---------------------------------------------------------------------------------
  // When every recipient fails temporarily

  /** Selecting by a list that holds every endpoint keeps every registration id, in order. */
  lemma {:induction false} SelectAll(regs: seq<RegistrationId>, eps: seq<string>)
    requires forall i :: 0 <= i < |regs| ==> regs[i].endpoint in eps
    ensures SelectByEndpoint(regs, eps) == regs
  {
    if regs != [] {
      SelectAll(regs[1..], eps);
      assert [regs[0]] + regs[1..] == regs;
    }
  }

  /** A status that came without a `retry-after` header. */
  predicate WithoutRetryAfter(r: Response) {
    r.Reply? && r.retryAfter.None?
  }

  /** Selecting distributes over concatenation, so the split lists the kept registration ids
      in the parent's order. */
  lemma {:induction false} SelectAppend(a: seq<RegistrationId>, b: seq<RegistrationId>, eps: seq<string>)
    ensures SelectByEndpoint(a + b, eps) == SelectByEndpoint(a, eps) + SelectByEndpoint(b, eps)
  {
    if a == [] {
      assert a + b == b;
    } else {
      assert (a + b)[1..] == a[1..] + b;
      SelectAppend(a[1..], b, eps);
    }
  }

  /** When every status is temporary and no `retry-after` header came back, every temporary
      failure carries the same backoff time, `now + 2^(retries + 1)`. */
  lemma HeaderlessBackoff(p: Provider, n: Notification, responses: seq<Response>, now: int)
    requires |responses| == |n.registrationIds|
    requires forall m :: 0 <= m < |responses| ==> FailsTemporarily(responses[m]) && WithoutRetryAfter(responses[m])
    ensures forall f :: f in TemporaryBetween(p, n, responses, now, 0, |responses|) ==>
              f.retryAfter == Some(now + Pow2(RetriesOrZero(n.retries) + 1))
  {
    var tf := TemporaryBetween(p, n, responses, now, 0, |responses|);
    AllTemporaryLists(p, n, responses, now, 0, |responses|);
    forall f | f in tf ensures f.retryAfter == Some(now + Pow2(RetriesOrZero(n.retries) + 1)) {
      var i :| 0 <= i < |tf| && tf[i] == f;
      assert f == FailureOf(p, n, responses, now, i);
      assert Classify(p, responses[i].code).Temporary?;
    }
  }

  /** When every recipient answered with a temporary status, the results hold one temporary
      failure per recipient and nothing else, and the split keeps every registration id, in
      order, with one more retry. */
  lemma AllTemporaryResults(p: Provider, n: Notification, responses: seq<Response>, now: int)
    requires |responses| == |n.registrationIds|
    requires forall m :: 0 <= m < |responses| ==> FailsTemporarily(responses[m])
    ensures var t := ReferenceTally(p, n, responses, now);
            var split := CreateNewNotification(n, t.temporary, now);
            && t.successes == [] && t.permanent == [] && |t.temporary| == |responses|
            && split.registrationIds == n.registrationIds
            && split.retries == RetriesOrZero(n.retries) + 1
  {
    var t := ReferenceTally(p, n, responses, now);
    AllTemporaryLists(p, n, responses, now, 0, |responses|);
    var eps := FailureEndpoints(t.temporary);
    forall i | 0 <= i < |n.registrationIds| ensures n.registrationIds[i].endpoint in eps {
      assert t.temporary[i] == FailureOf(p, n, responses, now, i);
      assert eps[i] == t.temporary[i].endpoint;
    }
    SelectAll(n.registrationIds, eps);
  }

  /** Without `retry-after` headers the split of an all-temporary attempt is delivered
      `2^(retries + 1)` seconds from now: every failure carries that backoff, so it is also
      the latest. */
  lemma HeaderlessSplitTime(p: Provider, n: Notification, responses: seq<Response>, now: int)
    requires |responses| == |n.registrationIds| > 0
    requires forall m :: 0 <= m < |responses| ==> FailsTemporarily(responses[m]) && WithoutRetryAfter(responses[m])
    ensures var t := ReferenceTally(p, n, responses, now);
            DeliverAfter(t.temporary, now) == now + Pow2(RetriesOrZero(n.retries) + 1)
  {
    var t := ReferenceTally(p, n, responses, now);
    AllTemporaryLists(p, n, responses, now, 0, |responses|);
    HeaderlessBackoff(p, n, responses, now);
    DeliverAfterLatest(t.temporary, now);
    assert t.temporary[0] in t.temporary;
  }

  /** A temporary status never cuts the loop short. */
  lemma TemporaryCompletes(responses: seq<Response>)
    requires forall m :: 0 <= m < |responses| ==> FailsTemporarily(responses[m])
    ensures AllComplete(responses, 0, |responses|)
  {
    forall m | 0 <= m < |responses| ensures Completes(responses[m]) {
      assert IsTemporaryCode(responses[m].code);
    }
  }

  /** A loop that finished with temporary failures creates the split; Webpush then logs the
      retry count and raises the aggregate error, Mozilla raises the `NameError`. */
  lemma ConcludeCreatesSplit(p: Provider, n: Notification, t: Tally, k: nat, now: int)
    requires k <= |n.registrationIds| && t.temporary != []
    ensures var (outcome, effects) := Conclude(p, n, Finished(t, k), now);
            && CreateNotification(CreateNewNotification(n, t.temporary, now)) in effects
            && (p == Webpush ==>
                  outcome == Raised(DeliveryError(None, n.id, DescriptionOf(t.temporary, t.permanent)))
                  && LogRetried(|t.temporary|) in effects)
            && (p == Mozilla ==> outcome == Raised(NameError("failure")))
  {
    if p == Mozilla {
      ConcludeNameError(p, n, t, k, now);
    } else {
      ConcludeFailed(p, n, t, k, now);
    }
  }

  /** When every recipient answered with a temporary status, `perform` creates a split that
      keeps every registration id, in order, with one more retry, delivered
      `2^(retries + 1)` seconds from now when no `retry-after` header came back, and raises:
      for Webpush the aggregate `DeliveryError` after logging the retry count, for Mozilla
      the `NameError` of its log line. */
  lemma AllTemporarySplit(p: Provider, n: Notification, responses: seq<Response>, now: int)
    requires |responses| == |n.registrationIds| > 0
    requires forall m :: 0 <= m < |responses| ==> FailsTemporarily(responses[m])
    ensures var t := ReferenceTally(p, n, responses, now);
            var split := CreateNewNotification(n, t.temporary, now);
            var (outcome, effects) := PerformSpec(p, n, responses, now);
            && split.registrationIds == n.registrationIds
            && split.retries == RetriesOrZero(n.retries) + 1
            && ((forall m :: 0 <= m < |responses| ==> WithoutRetryAfter(responses[m])) ==>
                  split.deliverAfter == now + Pow2(RetriesOrZero(n.retries) + 1))
            && CreateNotification(split) in effects
            && (p == Webpush ==>
                  outcome == Raised(DeliveryError(None, n.id, DescriptionOf(t.temporary, [])))
                  && LogRetried(|responses|) in effects)
            && (p == Mozilla ==> outcome == Raised(NameError("failure")))
  {
    var t := ReferenceTally(p, n, responses, now);
    AllTemporaryResults(p, n, responses, now);
    TemporaryCompletes(responses);
    PerformCompletes(p, n, responses, now);
    ConcludeCreatesSplit(p, n, t, |responses|, now);
    if forall m :: 0 <= m < |responses| ==> WithoutRetryAfter(responses[m]) {
      HeaderlessSplitTime(p, n, responses, now);
    }
  }
}
