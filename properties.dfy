/** What one call of `perform` does, stated against reference definitions that look at each
    response on its own: which requests go out, which recipients end up in which list, when
    the notification is delivered, when and how the attempt is cut short, how the split
    notification is built, and that every path marks the notification exactly once and
    signals the batch exactly once, last. */
module DeliveryProperties {
  import opened Wrappers
  import opened Text
  import opened Notifications
  import opened Policy
  import opened Accounting
  import opened DeliveryEngine
  import WebpushNotification

  // ---------------------------------------------------------------------------------
  // Reference definitions, one response at a time

  /** A status in 200 or 201. */
  predicate Succeeds(r: Response) {
    r.Reply? && (r.code == 200 || r.code == 201)
  }

  /** A response after which the loop goes on: any status but 400 and 413. */
  predicate Completes(r: Response) {
    r.Reply? && r.code != 400 && r.code != 413
  }

  /** A status the temporary table knows. */
  predicate FailsTemporarily(r: Response) {
    r.Reply? && IsTemporaryCode(r.code)
  }

  /** A completing status that is neither a success nor temporary. */
  predicate FailsPermanently(r: Response) {
    Completes(r) && !Succeeds(r) && !FailsTemporarily(r)
  }

  predicate AllComplete(responses: seq<Response>, i: nat, j: nat)
    requires i <= j <= |responses|
  {
    forall m :: i <= m < j ==> Completes(responses[m])
  }

  /** The endpoints among `i` up to `j` whose status is a success. */
  function SuccessesBetween(n: Notification, responses: seq<Response>, i: nat, j: nat): (successes: seq<string>)
    requires |responses| == |n.registrationIds| && i <= j <= |responses|
    decreases j - i
  {
    if i == j then []
    else (if Succeeds(responses[i]) then [n.registrationIds[i].endpoint] else [])
         + SuccessesBetween(n, responses, i + 1, j)
  }

  /** The failure record of the `i`-th recipient. */
  function FailureOf(p: Provider, n: Notification, responses: seq<Response>, now: int, i: nat): (f: Failure)
    requires |responses| == |n.registrationIds| && i < |responses|
    requires responses[i].Reply?
  {
    NewFailure(p, n.retries, n.registrationIds[i].endpoint, responses[i].code, responses[i].retryAfter, now)
  }

  /** The temporary failures among `i` up to `j`. */
  function TemporaryBetween(p: Provider, n: Notification, responses: seq<Response>, now: int, i: nat, j: nat): (temporary: seq<Failure>)
    requires |responses| == |n.registrationIds| && i <= j <= |responses|
    decreases j - i
  {
    if i == j then []
    else (if FailsTemporarily(responses[i]) then [FailureOf(p, n, responses, now, i)] else [])
         + TemporaryBetween(p, n, responses, now, i + 1, j)
  }

  /** The permanent failures among `i` up to `j`. */
  function PermanentBetween(p: Provider, n: Notification, responses: seq<Response>, now: int, i: nat, j: nat): (permanent: seq<Failure>)
    requires |responses| == |n.registrationIds| && i <= j <= |responses|
    decreases j - i
  {
    if i == j then []
    else (if FailsPermanently(responses[i]) then [FailureOf(p, n, responses, now, i)] else [])
         + PermanentBetween(p, n, responses, now, i + 1, j)
  }

  /** The results of a loop that saw every response. */
  function ReferenceTally(p: Provider, n: Notification, responses: seq<Response>, now: int): (t: Tally)
    requires |responses| == |n.registrationIds|
  {
    Tally(SuccessesBetween(n, responses, 0, |responses|),
          TemporaryBetween(p, n, responses, now, 0, |responses|),
          PermanentBetween(p, n, responses, now, 0, |responses|))
  }

  /** The exception that a response cutting the loop short raises. */
  function Abortion(p: Provider, n: Notification, r: Response): (e: Exception)
    requires !Completes(r)
  {
    match r
    case Raise(e) => e
    case Reply(code, _) =>
      DeliveryError(Some(code), n.id, if code == 400 then BadRequestMessage(p) else PAYLOAD_TOO_LARGE_MESSAGE)
  }

  /** The first response from `i` on that cuts the loop short, or the end. */
  function FirstAbortion(responses: seq<Response>, i: nat): (k: nat)
    requires i <= |responses|
    ensures i <= k <= |responses|
    ensures AllComplete(responses, i, k)
    ensures k < |responses| ==> !Completes(responses[k])
    decreases |responses| - i
  {
    if i == |responses| || !Completes(responses[i]) then i
    else FirstAbortion(responses, i + 1)
  }

  // ---------------------------------------------------------------------------------
  // The loop against the reference

  /** The results after the reference has sorted the `i`-th response into its list. */
  function Recorded(p: Provider, n: Notification, responses: seq<Response>, now: int, i: nat, t: Tally): (recorded: Tally)
    requires |responses| == |n.registrationIds| && i < |responses|
  {
    var r := responses[i];
    Tally(t.successes + (if Succeeds(r) then [n.registrationIds[i].endpoint] else []),
          t.temporary + (if FailsTemporarily(r) then [FailureOf(p, n, responses, now, i)] else []),
          t.permanent + (if FailsPermanently(r) then [FailureOf(p, n, responses, now, i)] else []))
  }

  /** One completing response, classified by the reference and by `ApplyResponse`, agrees. */
  lemma ApplyCompleting(p: Provider, n: Notification, responses: seq<Response>, now: int, i: nat, t: Tally)
    requires |responses| == |n.registrationIds| && i < |responses|
    requires Completes(responses[i])
    ensures var r := responses[i];
            ApplyResponse(p, n, t, n.registrationIds[i].endpoint, r.code, r.retryAfter, now)
            == Continue(Recorded(p, n, responses, now, i, t))
  {
    var r := responses[i];
    var f := FailureOf(p, n, responses, now, i);
    match Classify(p, r.code)
    case Success =>
    case Abort(_) =>
    case Temporary(m) =>
      assert f == Failure(n.registrationIds[i].endpoint, r.code, m, Some(DetermineRetryAfter(r.retryAfter, n.retries, now)));
    case Permanent(m) =>
      assert f == Failure(n.registrationIds[i].endpoint, r.code, m, None);
  }

  /** A completing response sends its request, is recorded and hands over to the next one. */
  lemma DispatchStep(p: Provider, n: Notification, responses: seq<Response>, now: int, i: nat, t: Tally)
    requires |responses| == |n.registrationIds| && i < |responses|
    requires Completes(responses[i])
    ensures DispatchFrom(p, n, responses, now, i, t)
            == DispatchFrom(p, n, responses, now, i + 1, Recorded(p, n, responses, now, i, t))
  {
    ApplyCompleting(p, n, responses, now, i, t);
  }

  /** Recording the `i`-th response and then the rest is recording them all. */
  lemma RecordedShift(p: Provider, n: Notification, responses: seq<Response>, now: int, i: nat, j: nat, t: Tally)
    requires |responses| == |n.registrationIds| && i < j <= |responses|
    ensures var t' := Recorded(p, n, responses, now, i, t);
            && t'.successes + SuccessesBetween(n, responses, i + 1, j) == t.successes + SuccessesBetween(n, responses, i, j)
            && t'.temporary + TemporaryBetween(p, n, responses, now, i + 1, j) == t.temporary + TemporaryBetween(p, n, responses, now, i, j)
            && t'.permanent + PermanentBetween(p, n, responses, now, i + 1, j) == t.permanent + PermanentBetween(p, n, responses, now, i, j)
  {
    var r := responses[i];
    var s := if Succeeds(r) then [n.registrationIds[i].endpoint] else [];
    var tf := if FailsTemporarily(r) then [FailureOf(p, n, responses, now, i)] else [];
    var pf := if FailsPermanently(r) then [FailureOf(p, n, responses, now, i)] else [];
    assert t.successes + s + SuccessesBetween(n, responses, i + 1, j) == t.successes + (s + SuccessesBetween(n, responses, i + 1, j));
    assert t.temporary + tf + TemporaryBetween(p, n, responses, now, i + 1, j) == t.temporary + (tf + TemporaryBetween(p, n, responses, now, i + 1, j));
    assert t.permanent + pf + PermanentBetween(p, n, responses, now, i + 1, j) == t.permanent + (pf + PermanentBetween(p, n, responses, now, i + 1, j));
  }

  /** When no response from `i` on cuts the loop short, the loop reaches the end, having
      sorted each remaining recipient into the reference lists. */
  lemma {:induction false} DispatchCompletes(p: Provider, n: Notification, responses: seq<Response>, now: int,
                                             i: nat, t: Tally)
    requires |responses| == |n.registrationIds| && i <= |responses|
    requires AllComplete(responses, i, |responses|)
    ensures DispatchFrom(p, n, responses, now, i, t)
            == Finished(Tally(t.successes + SuccessesBetween(n, responses, i, |responses|),
                              t.temporary + TemporaryBetween(p, n, responses, now, i, |responses|),
                              t.permanent + PermanentBetween(p, n, responses, now, i, |responses|)),
                        |responses|)
    decreases |responses| - i
  {
    if i == |responses| {
      assert t.successes + [] == t.successes && t.temporary + [] == t.temporary && t.permanent + [] == t.permanent;
    } else {
      var t' := Recorded(p, n, responses, now, i, t);
      DispatchStep(p, n, responses, now, i, t);
      DispatchCompletes(p, n, responses, now, i + 1, t');
      RecordedShift(p, n, responses, now, i, |responses|, t);
    }
  }

  /** A response that cuts the loop short stops it right there with its exception. */
  lemma DispatchAborts(p: Provider, n: Notification, responses: seq<Response>, now: int, i: nat, t: Tally)
    requires |responses| == |n.registrationIds| && i < |responses|
    requires !Completes(responses[i])
    ensures DispatchFrom(p, n, responses, now, i, t) == Interrupted(Abortion(p, n, responses[i]), i + 1)
  {
    if responses[i].Reply? {
      var r := responses[i];
      RejectedStatus(p, n, t, n.registrationIds[i].endpoint, r.code, r.retryAfter, now);
    }
  }

  /** Status 400 or 413 stops the loop with a `DeliveryError` carrying the status and the
      provider's message for it. */
  lemma RejectedStatus(p: Provider, n: Notification, t: Tally, endpoint: string, code: nat, parsed: Option<int>, now: int)
    requires code == 400 || code == 413
    ensures ApplyResponse(p, n, t, endpoint, code, parsed, now) == Stop(Abortion(p, n, Reply(code, parsed)))
  {
  }

  /** When the `k`-th response is the first from `i` on to cut the loop short, the loop stops
      there with that response's exception, having attempted the registration ids up to and
      including the `k`-th and no more. */
  lemma {:induction false} DispatchInterrupts(p: Provider, n: Notification, responses: seq<Response>, now: int,
                                              i: nat, t: Tally, k: nat)
    requires |responses| == |n.registrationIds| && i <= k < |responses|
    requires AllComplete(responses, i, k) && !Completes(responses[k])
    ensures DispatchFrom(p, n, responses, now, i, t) == Interrupted(Abortion(p, n, responses[k]), k + 1)
    decreases k - i
  {
    if i == k {
      DispatchAborts(p, n, responses, now, i, t);
    } else {
      DispatchStep(p, n, responses, now, i, t);
      DispatchInterrupts(p, n, responses, now, i + 1, Recorded(p, n, responses, now, i, t), k);
    }
  }

  // ---------------------------------------------------------------------------------
  // Reference lists in special cases

  /** Only successes: no failure of either kind, and every endpoint a success, in order. */
  lemma {:induction false} AllSucceedLists(p: Provider, n: Notification, responses: seq<Response>, now: int, i: nat, j: nat)
    requires |responses| == |n.registrationIds| && i <= j <= |responses|
    requires forall m :: i <= m < j ==> Succeeds(responses[m])
    ensures TemporaryBetween(p, n, responses, now, i, j) == [] && PermanentBetween(p, n, responses, now, i, j) == []
    ensures var s := SuccessesBetween(n, responses, i, j);
            |s| == j - i && forall m :: i <= m < j ==> s[m - i] == n.registrationIds[m].endpoint
    decreases j - i
  {
    if i < j {
      AllSucceedLists(p, n, responses, now, i + 1, j);
    }
  }

  /** A completing response that is not a success leaves a failure behind. */
  lemma {:induction false} FailureRecorded(p: Provider, n: Notification, responses: seq<Response>, now: int, i: nat, j: nat, m: nat)
    requires |responses| == |n.registrationIds| && i <= m < j <= |responses|
    requires Completes(responses[m]) && !Succeeds(responses[m])
    ensures TemporaryBetween(p, n, responses, now, i, j) != [] || PermanentBetween(p, n, responses, now, i, j) != []
    decreases j - i
  {
    if i < m {
      FailureRecorded(p, n, responses, now, i + 1, j, m);
    }
  }

  /** Only temporary failures: no success, no permanent failure, one temporary failure per
      recipient, in order. */
  lemma {:induction false} AllTemporaryLists(p: Provider, n: Notification, responses: seq<Response>, now: int, i: nat, j: nat)
    requires |responses| == |n.registrationIds| && i <= j <= |responses|
    requires forall m :: i <= m < j ==> FailsTemporarily(responses[m])
    ensures SuccessesBetween(n, responses, i, j) == [] && PermanentBetween(p, n, responses, now, i, j) == []
    ensures var tf := TemporaryBetween(p, n, responses, now, i, j);
            |tf| == j - i
            && forall m :: i <= m < j ==> responses[m].Reply? && tf[m - i] == FailureOf(p, n, responses, now, m)
    decreases j - i
  {
    if i < j {
      AllTemporaryLists(p, n, responses, now, i + 1, j);
    }
  }

  // ---------------------------------------------------------------------------------
  // The requests

  /** The first `k` requests are the requests of the first `k` registration ids, in order. */
  lemma {:induction false} RequestsInOrder(p: Provider, n: Notification, k: nat)
    requires k <= |n.registrationIds|
    ensures forall i :: 0 <= i < k ==> RequestsUpTo(p, n, k)[i] == RequestFor(p, n, i)
  {
    if k > 0 {
      RequestsInOrder(p, n, k - 1);
    }
  }

  /** What is sent to the `i`-th registration id: for Webpush the message with the
      recipient's endpoint and keys and the notification's ttl; for Mozilla a POST to the
      endpoint with the TTL header, `Content-Length: 0` and no body, since encryption is not
      implemented. */
  lemma RequestShape(p: Provider, n: Notification, i: nat)
    requires i < |n.registrationIds|
    ensures var reg := n.registrationIds[i];
            match p
            case Webpush =>
              RequestFor(p, n, i) == WebpushRequest(WebpushNotification.Message(n.data),
                                                    WebpushNotification.Subscription(reg.endpoint, reg.keys),
                                                    Ttl(n.expiry))
            case Mozilla =>
              RequestFor(p, n, i) == MozillaPost(reg.endpoint,
                                                 map["TTL" := IntToString(Ttl(n.expiry)), "Content-Length" := "0"],
                                                 None)
  {
    var regs := n.registrationIds;
    if p == Webpush {
      assert WebpushNotification.Subscriptions(regs)[i] == WebpushNotification.Subscription(regs[i].endpoint, regs[i].keys);
    } else {
      assert MozillaNotification.EachEndpoint(regs)[i] == (regs[i].endpoint, None);
    }
  }

  // ---------------------------------------------------------------------------------
  // What `perform` does

  /** When no response cuts the loop short, `perform` concludes on the reference results
      after having sent a request to every recipient. */
  lemma PerformCompletes(p: Provider, n: Notification, responses: seq<Response>, now: int)
    requires |responses| == |n.registrationIds|
    requires AllComplete(responses, 0, |responses|)
    ensures PerformSpec(p, n, responses, now)
            == Conclude(p, n, Finished(ReferenceTally(p, n, responses, now), |responses|), now)
  {
    DispatchCompletes(p, n, responses, now, 0, EMPTY_TALLY);
    assert EMPTY_TALLY.successes + SuccessesBetween(n, responses, 0, |responses|) == SuccessesBetween(n, responses, 0, |responses|);
    assert EMPTY_TALLY.temporary + TemporaryBetween(p, n, responses, now, 0, |responses|) == TemporaryBetween(p, n, responses, now, 0, |responses|);
    assert EMPTY_TALLY.permanent + PermanentBetween(p, n, responses, now, 0, |responses|) == PermanentBetween(p, n, responses, now, 0, |responses|);
  }

  /** When the `k`-th response is the first to cut the loop short (an exception, 400 or 413),
      `perform` raises that exception having sent the first `k + 1` requests and nothing
      else; the notification is marked by the rescue clause, and the batch told. */
  lemma PerformInterrupted(p: Provider, n: Notification, responses: seq<Response>, now: int, k: nat)
    requires |responses| == |n.registrationIds| && k < |responses|
    requires AllComplete(responses, 0, k) && !Completes(responses[k])
    ensures var e := Abortion(p, n, responses[k]);
            PerformSpec(p, n, responses, now)
            == (Raised(e), Sends(RequestsUpTo(p, n, k + 1)) + [RescueMark(p, e, now), NotificationProcessed])
  {
    var e := Abortion(p, n, responses[k]);
    DispatchInterrupts(p, n, responses, now, 0, EMPTY_TALLY, k);
    ConcludeInterrupted(p, n, e, k + 1, now);
  }

  /** A 400 or 413 aborts with a `DeliveryError` that carries the status, which the rescue
      clause marks failed, never retryable. */
  lemma AbortedStatusFails(p: Provider, n: Notification, r: Response, now: int)
    requires r.Reply? && !Completes(r)
    ensures var e := Abortion(p, n, r);
            e.DeliveryError? && e.code == Some(r.code) && e.notificationId == n.id
            && RescueMark(p, e, now) == MarkFailed(e)
  {
    var e := Abortion(p, n, r);
    assert e == DeliveryError(Some(r.code), n.id, e.description);
    RescueMarks(p, e, now);
  }

  /** The conclusion of a loop cut short: the requests sent so far, the rescue mark, the
      batch signal. */
  lemma ConcludeInterrupted(p: Provider, n: Notification, e: Exception, k: nat, now: int)
    requires k <= |n.registrationIds|
    ensures Conclude(p, n, Interrupted(e, k), now)
            == (Raised(e), Sends(RequestsUpTo(p, n, k)) + [RescueMark(p, e, now), NotificationProcessed])
  {
  }

  /** The conclusion of a loop that reached the end with no failure: the delivered events,
      the delivered mark and the log line naming every endpoint, then the batch signal. */
  lemma ConcludeDelivered(p: Provider, n: Notification, t: Tally, k: nat, now: int)
    requires k <= |n.registrationIds| && t.temporary == [] && t.permanent == []
    ensures var eps := Endpoints(p, n.registrationIds);
            Conclude(p, n, Finished(t, k), now)
            == (Delivered, Sends(RequestsUpTo(p, n, k)) + (SuccessEffects(t.successes) + [MarkDelivered, LogDelivered(eps)])
                           + [NotificationProcessed])
  {
  }

  /** The conclusion of a Mozilla loop that reached the end with a temporary failure: the
      delivered events and the split, then the `NameError` of the log line, which is marked
      failed, then the batch signal. */
  lemma ConcludeNameError(p: Provider, n: Notification, t: Tally, k: nat, now: int)
    requires k <= |n.registrationIds| && p == Mozilla && t.temporary != []
    ensures var split := CreateNotification(CreateNewNotification(n, t.temporary, now));
            Conclude(p, n, Finished(t, k), now)
            == (Raised(NameError("failure")),
                Sends(RequestsUpTo(p, n, k)) + (SuccessEffects(t.successes) + [split])
                + [MarkFailed(NameError("failure")), NotificationProcessed])
  {
  }

  /** The conclusion of any other loop that reached the end with a failure: the delivered
      events, the split and its log line when some failure is temporary, the reflected
      permanent failures, then the aggregate `DeliveryError`, marked failed, and the batch
      signal. */
  lemma ConcludeFailed(p: Provider, n: Notification, t: Tally, k: nat, now: int)
    requires k <= |n.registrationIds| && (t.temporary != [] || t.permanent != [])
    requires p == Webpush || t.temporary == []
    ensures var split := CreateNotification(CreateNewNotification(n, t.temporary, now));
            var e := DeliveryError(None, n.id, DescriptionOf(t.temporary, t.permanent));
            var retry := if t.temporary == [] then [] else [split, LogRetried(|t.temporary|)];
            Conclude(p, n, Finished(t, k), now)
            == (Raised(e),
                Sends(RequestsUpTo(p, n, k)) + (SuccessEffects(t.successes) + (retry + PermanentEffects(p, t.permanent)))
                + [MarkFailed(e), NotificationProcessed])
  {
  }

  /** When every recipient answered 200 or 201, `perform` has sent one request per
      recipient, reflected one delivery per endpoint in order, marked the notification
      delivered and logged all its endpoints. */
  lemma PerformDelivered(p: Provider, n: Notification, responses: seq<Response>, now: int)
    requires |responses| == |n.registrationIds|
    requires forall m :: 0 <= m < |responses| ==> Succeeds(responses[m])
    ensures var eps := Endpoints(p, n.registrationIds);
            PerformSpec(p, n, responses, now)
            == (Delivered, Sends(RequestsUpTo(p, n, |responses|)) + (SuccessEffects(eps) + [MarkDelivered, LogDelivered(eps)])
                           + [NotificationProcessed])
  {
    PerformCompletes(p, n, responses, now);
    AllSucceedTally(p, n, responses, now);
    ConcludeDelivered(p, n, Tally(Endpoints(p, n.registrationIds), [], []), |responses|, now);
  }

  /** When every recipient answered 200 or 201, the results list every endpoint, in order,
      and no failure. */
  lemma AllSucceedTally(p: Provider, n: Notification, responses: seq<Response>, now: int)
    requires |responses| == |n.registrationIds|
    requires forall m :: 0 <= m < |responses| ==> Succeeds(responses[m])
    ensures ReferenceTally(p, n, responses, now) == Tally(Endpoints(p, n.registrationIds), [], [])
  {
    AllSucceedLists(p, n, responses, now, 0, |responses|);
  }

  /** When every recipient answered with a status other than 400 and 413 and one of them
      failed, `perform` reflects the successes, creates the split if any failure was
      temporary, and raises. For Webpush, and for Mozilla without temporary failures, it
      reflects each permanent failure and raises the aggregate `DeliveryError` carrying the
      description; for Mozilla with temporary failures the log line's reference to the
      undefined `failure` raises a `NameError` right after the split is created, so the
      permanent failures are not reflected. The rescue clause marks it failed either way. */
  lemma PerformPartialFailure(p: Provider, n: Notification, responses: seq<Response>, now: int)
    requires |responses| == |n.registrationIds|
    requires AllComplete(responses, 0, |responses|)
    requires exists m :: 0 <= m < |responses| && !Succeeds(responses[m])
    ensures var t := ReferenceTally(p, n, responses, now);
            var sends := Sends(RequestsUpTo(p, n, |responses|));
            var delivered := SuccessEffects(t.successes);
            var split := CreateNotification(CreateNewNotification(n, t.temporary, now));
            var (outcome, effects) := PerformSpec(p, n, responses, now);
            if p == Mozilla && t.temporary != [] then
              outcome == Raised(NameError("failure"))
              && effects == sends + (delivered + [split]) + [MarkFailed(NameError("failure")), NotificationProcessed]
            else
              var e := DeliveryError(None, n.id, DescriptionOf(t.temporary, t.permanent));
              var retry := if t.temporary == [] then [] else [split, LogRetried(|t.temporary|)];
              outcome == Raised(e)
              && effects == sends + (delivered + (retry + PermanentEffects(p, t.permanent))) + [MarkFailed(e), NotificationProcessed]
  {
    var m :| 0 <= m < |responses| && !Succeeds(responses[m]);
    FailureRecorded(p, n, responses, now, 0, |responses|, m);
    PerformCompletes(p, n, responses, now);
    var t := ReferenceTally(p, n, responses, now);
    if p == Mozilla && t.temporary != [] {
      ConcludeNameError(p, n, t, |responses|, now);
    } else {
      ConcludeFailed(p, n, t, |responses|, now);
    }
  }

  /** `perform` marks the notification delivered exactly when every recipient answered 200
      or 201, and raises otherwise. */
  lemma PerformDeliveredIff(p: Provider, n: Notification, responses: seq<Response>, now: int)
    requires |responses| == |n.registrationIds|
    ensures PerformSpec(p, n, responses, now).0 == Delivered
            <==> forall m :: 0 <= m < |responses| ==> Succeeds(responses[m])
  {
    var k := FirstAbortion(responses, 0);
    if forall m :: 0 <= m < |responses| ==> Succeeds(responses[m]) {
      PerformDelivered(p, n, responses, now);
    } else if k < |responses| {
      PerformInterrupted(p, n, responses, now, k);
    } else {
      PerformPartialFailure(p, n, responses, now);
    }
  }
}
