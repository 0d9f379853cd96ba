/** The per-notification delivery engine shared by the Webpush and Mozilla providers: one
    request per registration id, in order; each response fed to `Results`; then either the
    notification is marked delivered, or a split notification holding only the temporarily
    failed recipients is created and an error raised; exceptions are mapped to retryable or
    failed; and the batch is told, on every path, that the notification was processed.

    The transport is a sequence of responses, one per registration id, and time is the
    integer `now`. What the engine does to the outside world is returned as a list of
    effects: the requests sent, the reflected events, the store calls, the log lines and the
    batch signal. */
module DeliveryEngine {
  import opened Wrappers
  import opened Text
  import opened Notifications
  import opened Policy
  import opened Accounting
  import WebpushNotification
  import MozillaNotification

  /** What the transport gives back for one request: a status with the already parsed
      `retry-after` time, or an exception raised while building or sending the request. */
  datatype Response = Reply(code: nat, retryAfter: Option<int>) | Raise(error: Exception)

  /** One wire request: for Webpush, what the webpush library is asked to send (it encrypts
      and signs it); for Mozilla, the POST that `do_post` builds. */
  datatype WireRequest =
    | WebpushRequest(message: Option<string>, subscription: WebpushNotification.Subscription, ttl: int)
    | MozillaPost(endpoint: string, headers: map<string, string>, body: Option<seq<MozillaNotification.Byte>>)

  /** The attributes handed to the store's `create_*_notification`. */
  datatype SplitNotification = SplitNotification(
    appId: int,
    collapseKey: Option<string>,
    delayWhileIdle: bool,
    retries: nat,
    data: Option<map<string, string>>,
    registrationIds: seq<RegistrationId>,
    deliverAfter: int)

  datatype Effect =
    | Send(request: WireRequest)
    | DeliveredToRecipient(endpoint: string)
    | FailedToRecipient(message: string, endpoint: string)
    | InvalidEndpoint(message: string, endpoint: string)
    | CreateNotification(split: SplitNotification)
    | LogRetried(count: nat)
    | LogDelivered(endpoints: seq<string>)
    | MarkDelivered
    | MarkFailed(cause: Exception)
    | MarkRetryable(deliverAfter: int, cause: Exception)
    | NotificationProcessed

  /** How `perform` returns: normally, or by raising. */
  datatype Outcome = Delivered | Raised(error: Exception)

  // ---------------------------------------------------------------------------------
  // The split notification

  /** `Array#max` of a non-empty list. */
  function MaxOf(s: seq<int>): (m: int)
    requires |s| > 0
    ensures m in s
    ensures forall x :: x in s ==> x <= m
  {
    if |s| == 1 then s[0]
    else
      var rest := MaxOf(s[1..]);
      assert forall x :: x in s ==> x == s[0] || x in s[1..];
      if s[0] >= rest then s[0] else rest
  }

  function RetryTimes(fs: seq<Failure>): (times: seq<Option<int>>)
    ensures |times| == |fs|
    ensures forall i :: 0 <= i < |fs| ==> times[i] == fs[i].retryAfter
  {
    Map((f: Failure) => f.retryAfter, fs)
  }

  /** `map { retry_after }.compact.max || DEFAULT_DELAY.from_now`. */
  function DeliverAfter(temporary: seq<Failure>, now: int): (t: int) {
    var present := Compact(RetryTimes(temporary));
    if present == [] then now + DEFAULT_DELAY else MaxOf(present)
  }

  /** The split is delivered at the latest retry time among the temporary failures, or ten
      minutes from now when none of them has one. */
  lemma DeliverAfterLatest(temporary: seq<Failure>, now: int)
    ensures var d := DeliverAfter(temporary, now);
            && (forall f :: f in temporary && f.retryAfter.Some? ==> f.retryAfter.value <= d)
            && ((exists f :: f in temporary && f.retryAfter.Some?) ==>
                  exists f :: f in temporary && f.retryAfter == Some(d))
            && ((forall f :: f in temporary ==> f.retryAfter.None?) ==> d == now + DEFAULT_DELAY)
  {
    var times := RetryTimes(temporary);
    var present := Compact(times);
    assert forall f :: f in temporary ==> f.retryAfter in times by {
      forall f | f in temporary ensures f.retryAfter in times {
        var i :| 0 <= i < |temporary| && temporary[i] == f;
        assert times[i] == f.retryAfter;
      }
    }
    assert forall t :: t in times ==> exists f :: f in temporary && f.retryAfter == t by {
      forall t | t in times ensures exists f :: f in temporary && f.retryAfter == t {
        var i :| 0 <= i < |times| && times[i] == t;
        assert temporary[i].retryAfter == t;
      }
    }
  }

  function FailureEndpoints(fs: seq<Failure>): (eps: seq<string>)
    ensures |eps| == |fs|
    ensures forall i :: 0 <= i < |fs| ==> eps[i] == fs[i].endpoint
  {
    Map((f: Failure) => f.endpoint, fs)
  }

  /** `registration_ids.select { |device| endpoints.include? device[:endpoint] }`. */
  function SelectByEndpoint(regs: seq<RegistrationId>, eps: seq<string>): (sel: seq<RegistrationId>)
    ensures |sel| <= |regs|
    ensures forall r :: r in sel <==> r in regs && r.endpoint in eps
  {
    if regs == [] then []
    else
      var rest := SelectByEndpoint(regs[1..], eps);
      assert forall r :: r in regs <==> r == regs[0] || r in regs[1..];
      (if regs[0].endpoint in eps then [regs[0]] else []) + rest
  }

  /** `create_new_notification`: the parent's attributes with one more retry, the
      registration ids whose endpoint failed temporarily, and the delivery time. */
  function CreateNewNotification(n: Notification, temporary: seq<Failure>, now: int): (split: SplitNotification) {
    SplitNotification(
      n.appId, n.collapseKey, n.delayWhileIdle, RetriesOrZero(n.retries) + 1, n.data,
      SelectByEndpoint(n.registrationIds, FailureEndpoints(temporary)),
      DeliverAfter(temporary, now))
  }

  /** The split copies the parent's attributes, counts one more retry, keeps exactly the
      registration ids whose endpoint failed temporarily, and is delivered at the latest
      retry time of those failures. */
  lemma SplitContents(n: Notification, temporary: seq<Failure>, now: int)
    ensures var split := CreateNewNotification(n, temporary, now);
            && split.appId == n.appId && split.collapseKey == n.collapseKey
            && split.delayWhileIdle == n.delayWhileIdle && split.data == n.data
            && split.retries == RetriesOrZero(n.retries) + 1
            && (forall r :: r in split.registrationIds <==>
                  r in n.registrationIds && exists f :: f in temporary && f.endpoint == r.endpoint)
            && split.deliverAfter == DeliverAfter(temporary, now)
  {
    var eps := FailureEndpoints(temporary);
    assert forall e :: e in eps <==> exists f :: f in temporary && f.endpoint == e by {
      forall e ensures e in eps <==> exists f :: f in temporary && f.endpoint == e {
        if e in eps {
          var i :| 0 <= i < |eps| && eps[i] == e;
          assert temporary[i] in temporary;
        }
        if exists f :: f in temporary && f.endpoint == e {
          var f :| f in temporary && f.endpoint == e;
          var i :| 0 <= i < |temporary| && temporary[i] == f;
          assert eps[i] == e;
        }
      }
    }
  }

  // ---------------------------------------------------------------------------------
  // Requests

  /** The headers `do_post` sends: always the TTL; `Content-Length: 0` without a payload;
      with one, its length and the encryption headers taken from it. */
  function PostHeaders(payload: Option<MozillaNotification.Payload>, ttl: int): (h: map<string, string>)
    ensures "TTL" in h && h["TTL"] == IntToString(ttl)
    ensures payload.None? ==> h == map["TTL" := IntToString(ttl), "Content-Length" := "0"]
    ensures payload.Some? ==>
              && h.Keys == {"TTL", "Content-Length", "Content-Type", "Encryption-Key", "Encryption", "Content-Encoding"}
              && h["Content-Length"] == NatToString(|payload.value.ciphertext|)
              && h["Content-Type"] == "application/octet-stream"
              && h["Encryption-Key"] == payload.value.localPublicKey
              && h["Encryption"] == payload.value.encryption
              && h["Content-Encoding"] == payload.value.encoding
  {
    var base := map["TTL" := IntToString(ttl), "Content-Length" := "0"];
    match payload
    case None => base
    case Some(pl) =>
      base + map[
        "Content-Type" := "application/octet-stream",
        "Content-Length" := NatToString(|pl.ciphertext|),
        "Encryption-Key" := pl.localPublicKey,
        "Encryption" := pl.encryption,
        "Content-Encoding" := pl.encoding]
  }

  function PostBody(payload: Option<MozillaNotification.Payload>): (body: Option<seq<MozillaNotification.Byte>>) {
    match payload
    case None => None
    case Some(pl) => Some(pl.ciphertext)
  }

  /** The request sent for the `i`-th registration id. */
  function RequestFor(p: Provider, n: Notification, i: nat): (request: WireRequest)
    requires i < |n.registrationIds|
  {
    var ttl := Ttl(n.expiry);
    match p
    case Webpush =>
      WebpushRequest(WebpushNotification.Message(n.data), WebpushNotification.Subscriptions(n.registrationIds)[i], ttl)
    case Mozilla =>
      var (endpoint, payload) := MozillaNotification.EachEndpoint(n.registrationIds)[i];
      MozillaPost(endpoint, PostHeaders(payload, ttl), PostBody(payload))
  }

  // ---------------------------------------------------------------------------------
  // The specification of `perform`

  /** The subscription loop stops by finishing or by an exception; either way it has sent
      the requests of the first `attempted` registration ids. */
  datatype Dispatch =
    | Finished(tally: Tally, attempted: nat)
    | Interrupted(error: Exception, attempted: nat)

  /** The requests for the first `k` registration ids, in order. */
  function RequestsUpTo(p: Provider, n: Notification, k: nat): (reqs: seq<WireRequest>)
    requires k <= |n.registrationIds|
    ensures |reqs| == k
  {
    if k == 0 then [] else RequestsUpTo(p, n, k - 1) + [RequestFor(p, n, k - 1)]
  }

  /** The subscription loop from the `i`-th registration id on, with the results `t` so far.
      A request is sent for every registration id it reaches, including the one whose
      response stops it. */
  function DispatchFrom(p: Provider, n: Notification, responses: seq<Response>, now: int,
                        i: nat, t: Tally): (d: Dispatch)
    requires |responses| == |n.registrationIds| && i <= |responses|
    ensures i <= d.attempted <= |responses|
    ensures d.Finished? ==> d.attempted == |responses|
    ensures d.Interrupted? ==> d.attempted > i
    decreases |responses| - i
  {
    if i == |responses| then Finished(t, i)
    else
      match responses[i]
      case Raise(e) => Interrupted(e, i + 1)
      case Reply(code, parsed) =>
        match ApplyResponse(p, n, t, n.registrationIds[i].endpoint, code, parsed, now)
        case Stop(e) => Interrupted(e, i + 1)
        case Continue(t') => DispatchFrom(p, n, responses, now, i + 1, t')
  }

  function Sends(reqs: seq<WireRequest>): (effects: seq<Effect>)
    ensures |effects| == |reqs|
    ensures forall i :: 0 <= i < |reqs| ==> effects[i] == Send(reqs[i])
  {
    if reqs == [] then [] else Sends(reqs[..|reqs| - 1]) + [Send(reqs[|reqs| - 1])]
  }

  /** `handle_successes`: one delivered event per successful endpoint, in order. */
  function SuccessEffects(successes: seq<string>): (effects: seq<Effect>)
    ensures |effects| == |successes|
    ensures forall i :: 0 <= i < |successes| ==> effects[i] == DeliveredToRecipient(successes[i])
  {
    if successes == [] then []
    else SuccessEffects(successes[..|successes| - 1]) + [DeliveredToRecipient(successes[|successes| - 1])]
  }

  function PermanentEffect(p: Provider, f: Failure): (effects: seq<Effect>) {
    [FailedToRecipient(f.error, f.endpoint)]
    + (if IsInvalidEndpointCode(p, f.code) then [InvalidEndpoint(f.error, f.endpoint)] else [])
  }

  /** The permanent-failure loop of `handle_failures`, one failure after the other. */
  function PermanentEffects(p: Provider, permanent: seq<Failure>): (effects: seq<Effect>) {
    if permanent == [] then []
    else PermanentEffects(p, permanent[..|permanent| - 1]) + PermanentEffect(p, permanent[|permanent| - 1])
  }

  /** `handle_failures`: the split when some failure is temporary, then the reflected events of
      the permanent failures. Mozilla's log line names `failure`, which is not defined, so for
      Mozilla a split is followed by a `NameError` and nothing else. */
  function FailureHandling(p: Provider, n: Notification, temporary: seq<Failure>, permanent: seq<Failure>, now: int)
    : (handled: (Option<Exception>, seq<Effect>))
  {
    if temporary != [] && p == Mozilla then
      (Some(NameError("failure")), [CreateNotification(CreateNewNotification(n, temporary, now))])
    else
      var split := if temporary == [] then []
                   else [CreateNotification(CreateNewNotification(n, temporary, now)), LogRetried(|temporary|)];
      (None, split + PermanentEffects(p, permanent))
  }

  /** `handle_results`: the delivered events, then either the delivered mark or the
      failure handling followed by the aggregate `DeliveryError`. */
  function HandleResultsSpec(p: Provider, n: Notification, t: Tally, now: int): (handled: (Option<Exception>, seq<Effect>)) {
    var delivered := SuccessEffects(t.successes);
    if t.temporary != [] || t.permanent != [] then
      var handled := FailureHandling(p, n, t.temporary, t.permanent, now);
      if handled.0.Some? then (handled.0, delivered + handled.1)
      else (Some(DeliveryError(None, n.id, DescriptionOf(t.temporary, t.permanent))), delivered + handled.1)
    else
      (None, delivered + [MarkDelivered, LogDelivered(Endpoints(p, n.registrationIds))])
  }

  /** The two `rescue` clauses of `perform`. */
  function RescueMark(p: Provider, e: Exception, now: int): (mark: Effect) {
    if IsRetryable(p, e) then MarkRetryable(now + TRANSPORT_RETRY_DELAY, e) else MarkFailed(e)
  }

  /** The rescue clauses: a socket error is retried ten seconds from now by both providers, a
      system call error only by Webpush; every other exception marks the notification failed. */
  lemma RescueMarks(p: Provider, e: Exception, now: int)
    ensures e.SocketError? ==> RescueMark(p, e, now) == MarkRetryable(now + TRANSPORT_RETRY_DELAY, e)
    ensures e.SystemCallError? ==>
              RescueMark(p, e, now) == (if p == Webpush then MarkRetryable(now + TRANSPORT_RETRY_DELAY, e) else MarkFailed(e))
    ensures e.DeliveryError? || e.NameError? || e.OtherError? ==> RescueMark(p, e, now) == MarkFailed(e)
  {
  }

  /** What `perform` does once the loop is over: the result handling, the rescue clauses
      and the `ensure` clause. */
  function Conclude(p: Provider, n: Notification, d: Dispatch, now: int): (concluded: (Outcome, seq<Effect>))
    requires d.attempted <= |n.registrationIds|
  {
    var sends := Sends(RequestsUpTo(p, n, d.attempted));
    match d
    case Interrupted(e, _) =>
      (Raised(e), sends + [RescueMark(p, e, now), NotificationProcessed])
    case Finished(t, _) =>
      var handled := HandleResultsSpec(p, n, t, now);
      match handled.0
      case None => (Delivered, sends + handled.1 + [NotificationProcessed])
      case Some(e) => (Raised(e), sends + handled.1 + [RescueMark(p, e, now), NotificationProcessed])
  }

  /** `Conclude` read as `perform`'s code computes it: the body's effects and exception,
      then the rescue mark if there is an exception, then the batch signal. */
  lemma ConcludeAfter(p: Provider, n: Notification, d: Dispatch, now: int, raised: Option<Exception>, body: seq<Effect>)
    requires d.attempted <= |n.registrationIds|
    requires d.Interrupted? ==> raised == Some(d.error) && body == Sends(RequestsUpTo(p, n, d.attempted))
    requires d.Finished? ==>
               var handled := HandleResultsSpec(p, n, d.tally, now);
               raised == handled.0 && body == Sends(RequestsUpTo(p, n, d.attempted)) + handled.1
    ensures Conclude(p, n, d, now)
            == (if raised.None? then Delivered else Raised(raised.value),
                body + (if raised.None? then [] else [RescueMark(p, raised.value, now)]) + [NotificationProcessed])
  {
    var sends := Sends(RequestsUpTo(p, n, d.attempted));
    match d
    case Interrupted(e, _) =>
      assert body + [RescueMark(p, e, now)] + [NotificationProcessed] == sends + [RescueMark(p, e, now), NotificationProcessed];
    case Finished(t, _) =>
      var handled := HandleResultsSpec(p, n, t, now);
      if raised.None? {
        assert body + [] + [NotificationProcessed] == sends + handled.1 + [NotificationProcessed];
      } else {
        assert body + [RescueMark(p, raised.value, now)] + [NotificationProcessed]
               == sends + handled.1 + [RescueMark(p, raised.value, now), NotificationProcessed];
      }
  }

  /** `perform`: the loop over the registration ids, then its conclusion. */
  function PerformSpec(p: Provider, n: Notification, responses: seq<Response>, now: int): (performed: (Outcome, seq<Effect>))
    requires |responses| == |n.registrationIds|
  {
    Conclude(p, n, DispatchFrom(p, n, responses, now, 0, EMPTY_TALLY), now)
  }

  // ---------------------------------------------------------------------------------
  // The delivery object

  /** `Delivery`: delivers one notification for one provider. */
  class Delivery {
    const provider: Provider
    const notification: Notification

    constructor (provider: Provider, notification: Notification)
      ensures this.provider == provider && this.notification == notification
    {
      this.provider := provider;
      this.notification := notification;
    }

    /** `perform`, given the responses the transport will give, one per registration id. */
    method Perform(responses: seq<Response>, now: int) returns (outcome: Outcome, effects: seq<Effect>)
      requires |responses| == |notification.registrationIds|
      ensures (outcome, effects) == PerformSpec(provider, notification, responses, now)
    {
      var results := new Results(provider, notification);
      ghost var spec := DispatchFrom(provider, notification, responses, now, 0, EMPTY_TALLY);
      var raised, sent := DeliverEach(results, responses, now);
      effects := Sends(sent);
      if raised.None? {
        var more;
        raised, more := HandleResults(results, now);
        effects := effects + more;
      }
      ghost var body := effects;
      if raised.Some? {
        outcome := Raised(raised.value);
        effects := effects + [RescueMark(provider, raised.value, now)];
      } else {
        outcome := Delivered;
      }
      effects := effects + [NotificationProcessed];
      ConcludeAfter(provider, notification, spec, now, raised, body);
    }

    /** The loop of `perform` over the registration ids: one request per recipient, each
        response recorded in `results`, until the end or the first exception. */
    method DeliverEach(results: Results, responses: seq<Response>, now: int)
      returns (raised: Option<Exception>, sent: seq<WireRequest>)
      requires |responses| == |notification.registrationIds|
      requires results.Valid() && results.provider == provider && results.notification == notification
      requires results.AsTally() == EMPTY_TALLY && results.failures.memo.None?
      modifies results`successes, results.failures`temporary, results.failures`permanent
      ensures results.failures.memo.None?
      ensures var spec := DispatchFrom(provider, notification, responses, now, 0, EMPTY_TALLY);
              && (raised.None? ==> spec == Finished(results.AsTally(), |notification.registrationIds|))
              && (raised.Some? ==> spec == Interrupted(raised.value, spec.attempted))
              && sent == RequestsUpTo(provider, notification, spec.attempted)
    {
      var regs := notification.registrationIds;
      ghost var spec := DispatchFrom(provider, notification, responses, now, 0, EMPTY_TALLY);
      sent := [];
      raised := None;
      var i := 0;
      while i < |regs| && raised.None?
        decreases |regs| - i
        invariant 0 <= i <= |regs|
        invariant results.Valid() && results.failures.memo.None?
        invariant sent == RequestsUpTo(provider, notification, i)
        invariant raised.None? ==> spec == DispatchFrom(provider, notification, responses, now, i, results.AsTally())
        invariant raised.Some? ==> spec == Interrupted(raised.value, i)
      {
        var endpoint, request := BuildRequest(i);
        sent := sent + [request];
        raised := Attempt(results, responses, now, i, endpoint);
        i := i + 1;
      }
      if i == |regs| && raised.None? {
        assert spec == Finished(results.AsTally(), i);
      }
    }

    /** The rest of the loop body: the response to the `i`-th request, or the exception its
        sending raised, handed to `results`. */
    method Attempt(results: Results, responses: seq<Response>, now: int, i: nat, endpoint: string)
      returns (raised: Option<Exception>)
      requires |responses| == |notification.registrationIds| && i < |responses|
      requires endpoint == notification.registrationIds[i].endpoint
      requires results.Valid() && results.provider == provider && results.notification == notification
      modifies results`successes, results.failures`temporary, results.failures`permanent
      ensures raised.None? ==>
                DispatchFrom(provider, notification, responses, now, i, old(results.AsTally()))
                == DispatchFrom(provider, notification, responses, now, i + 1, results.AsTally())
      ensures raised.Some? ==>
                DispatchFrom(provider, notification, responses, now, i, old(results.AsTally()))
                == Interrupted(raised.value, i + 1)
    {
      match responses[i] {
        case Raise(e) =>
          raised := Some(e);
        case Reply(code, parsed) =>
          raised := results.HandleResponse(endpoint, code, parsed, now);
      }
    }

    /** The request of the loop body for the `i`-th registration id. `perform` computes the
        ttl, the message and the subscriptions once before the loop; they are pure, so they
        are computed here, where they are used. */
    method BuildRequest(i: nat)
      returns (endpoint: string, request: WireRequest)
      requires i < |notification.registrationIds|
      ensures endpoint == notification.registrationIds[i].endpoint
      ensures request == RequestFor(provider, notification, i)
    {
      var regs := notification.registrationIds;
      var ttl := Ttl(notification.expiry);
      var message := WebpushNotification.Message(notification.data);
      var subscriptions := WebpushNotification.Subscriptions(regs);
      var devices := MozillaNotification.EachEndpoint(regs);
      if provider == Webpush {
        endpoint := subscriptions[i].endpoint;
        request := WebpushRequest(message, subscriptions[i], ttl);
      } else {
        endpoint := devices[i].0;
        request := DoPost(devices[i].0, devices[i].1, ttl);
      }
    }

    /** `handle_results` */
    method HandleResults(results: Results, now: int) returns (raised: Option<Exception>, effects: seq<Effect>)
      requires results.Valid() && results.provider == provider && results.notification == notification
      requires results.failures.memo.None?
      modifies results.failures`memo
      ensures (raised, effects) == HandleResultsSpec(provider, notification, results.AsTally(), now)
    {
      effects := HandleSuccesses(results.successes);
      if results.HasFailures() {
        var more;
        raised, more := HandleFailures(results.failures, now);
        effects := effects + more;
        if raised.None? {
          var description := results.failures.Description();
          raised := Some(DeliveryError(None, notification.id, description));
        }
      } else {
        effects := effects + [MarkDelivered, LogDelivered(Endpoints(provider, notification.registrationIds))];
        raised := None;
      }
    }

    /** `handle_successes` */
    method HandleSuccesses(successes: seq<string>) returns (effects: seq<Effect>)
      ensures effects == SuccessEffects(successes)
    {
      effects := [];
      var i := 0;
      while i < |successes|
        invariant 0 <= i <= |successes|
        invariant effects == SuccessEffects(successes[..i])
      {
        effects := effects + [DeliveredToRecipient(successes[i])];
        i := i + 1;
        assert successes[..i][..i - 1] == successes[..i - 1];
      }
      assert successes[..i] == successes;
    }

    /** `handle_failures`, with the raised error (Mozilla's `NameError`) returned. */
    method HandleFailures(failures: Failures, now: int) returns (raised: Option<Exception>, effects: seq<Effect>)
      requires failures.provider == provider && failures.notification == notification
      ensures (raised, effects) == FailureHandling(provider, notification, failures.temporary, failures.permanent, now)
    {
      effects := [];
      raised := None;
      if |failures.temporary| > 0 {
        var split := CreateNewNotification(notification, failures.temporary, now);
        effects := [CreateNotification(split)];
        if provider == Mozilla {
          raised := Some(NameError("failure"));
          return;
        }
        effects := [CreateNotification(split), LogRetried(|failures.temporary|)];
      }
      var reflected := ReflectPermanent(failures.permanent);
      effects := effects + reflected;
    }

    /** The `failures.permanent.each` loop of `handle_failures`. */
    method ReflectPermanent(permanent: seq<Failure>) returns (effects: seq<Effect>)
      ensures effects == PermanentEffects(provider, permanent)
    {
      effects := [];
      var i := 0;
      while i < |permanent|
        invariant 0 <= i <= |permanent|
        invariant effects == PermanentEffects(provider, permanent[..i])
      {
        var failure := permanent[i];
        effects := effects + [FailedToRecipient(failure.error, failure.endpoint)];
        if IsInvalidEndpointCode(provider, failure.code) {
          effects := effects + [InvalidEndpoint(failure.error, failure.endpoint)];
        }
        assert permanent[..i + 1][..i] == permanent[..i];
        i := i + 1;
      }
      assert permanent[..i] == permanent;
    }

    /** `do_post`: the headers start as TTL and a zero length, and a payload updates them. */
    method DoPost(endpoint: string, payload: Option<MozillaNotification.Payload>, ttl: int) returns (request: WireRequest)
      ensures request == MozillaPost(endpoint, PostHeaders(payload, ttl), PostBody(payload))
    {
      var headers := map["TTL" := IntToString(ttl), "Content-Length" := "0"];
      var body: Option<seq<MozillaNotification.Byte>> := None;
      if payload.Some? {
        body := Some(payload.value.ciphertext);
        headers := headers + map[
          "Content-Type" := "application/octet-stream",
          "Content-Length" := NatToString(|payload.value.ciphertext|),
          "Encryption-Key" := payload.value.localPublicKey,
          "Encryption" := payload.value.encryption,
          "Content-Encoding" := payload.value.encoding];
      }
      request := MozillaPost(endpoint, headers, body);
    }
  }
}
