/** The notification record shared by both push providers, and the `ttl` default that
    both client modules define identically. */
module Notifications {
  import opened Wrappers

  /** One entry of `registration_ids`: the endpoint URL and the subscription's key material. */
  datatype RegistrationId = RegistrationId(endpoint: string, keys: map<string, string>)

  datatype Notification = Notification(
    id: int,
    appId: int,
    collapseKey: Option<string>,
    delayWhileIdle: bool,
    data: Option<map<string, string>>,
    expiry: Option<int>,
    retries: Option<nat>,
    registrationIds: seq<RegistrationId>)

  /** Four weeks, in seconds. */
  const DEFAULT_TTL: int := 2419200

  /** `expiry || DEFAULT_TTL`. */
  function Ttl(expiry: Option<int>): (ttl: int)
    ensures expiry.Some? ==> ttl == expiry.value
    ensures expiry.None? ==> ttl == DEFAULT_TTL
  {
    match expiry
    case Some(e) => e
    case None => DEFAULT_TTL
  }

  /** `retries || 0`. */
  function RetriesOrZero(retries: Option<nat>): (r: nat)
    ensures retries.Some? ==> r == retries.value
    ensures retries.None? ==> r == 0
  {
    match retries
    case Some(r) => r
    case None => 0
  }
}

/** The helpers that the Webpush client notification model gives the delivery engine. */
module WebpushNotification {
  import opened Wrappers
  import opened Text
  import opened Notifications

  /** What the webpush library is handed per recipient: the endpoint and its keys. */
  datatype Subscription = Subscription(endpoint: string, keys: map<string, string>)

  /** One subscription per registration id, in order, endpoint and keys copied. */
  function Subscriptions(regs: seq<RegistrationId>): (subs: seq<Subscription>)
    ensures |subs| == |regs|
    ensures forall i :: 0 <= i < |regs| ==>
              subs[i].endpoint == regs[i].endpoint && subs[i].keys == regs[i].keys
  {
    if regs == [] then []
    else [Subscription(regs[0].endpoint, regs[0].keys)] + Subscriptions(regs[1..])
  }

  /** `subscriptions.map { |s| s[:endpoint] }`: the endpoints of the registration ids, in order. */
  function Endpoints(regs: seq<RegistrationId>): (eps: seq<string>)
    ensures |eps| == |regs|
    ensures forall i :: 0 <= i < |regs| ==> eps[i] == regs[i].endpoint
  {
    Map((s: Subscription) => s.endpoint, Subscriptions(regs))
  }

  /** `value.presence`: the value unless it is missing or blank. */
  function Presence(d: map<string, string>, key: string): (v: Option<string>)
    ensures v.Some? <==> key in d && !IsBlank(d[key])
    ensures v.Some? ==> v.value == d[key]
  {
    if key in d && !IsBlank(d[key]) then Some(d[key]) else None
  }

  /** The text pushed to the browser: nothing without `data`, otherwise the present ones
      among title and message, joined by a newline. */
  function Message(data: Option<map<string, string>>): (m: Option<string>)
    ensures data.None? <==> m.None?
    ensures data.Some? ==>
              var title := Presence(data.value, "title");
              var msg := Presence(data.value, "message");
              m.value == (if title.Some? && msg.Some? then title.value + "\n" + msg.value
                          else if title.Some? then title.value
                          else if msg.Some? then msg.value
                          else "")
  {
    match data
    case None => None
    case Some(d) =>
      var title, msg := Presence(d, "title"), Presence(d, "message");
      CompactPair(title, msg);
      assert title.Some? && msg.Some? ==> [title.value, msg.value][1..] == [msg.value];
      Some(Join(Compact([title, msg]), "\n"))
  }
}

/** The helpers that the Mozilla client notification model gives the delivery engine. */
module MozillaNotification {
  import opened Wrappers
  import opened Notifications

  type Byte = b: int | 0 <= b < 256

  /** An encrypted payload as `do_post` would read it. */
  datatype Payload = Payload(
    ciphertext: seq<Byte>,
    localPublicKey: string,
    encryption: string,
    encoding: string)

  /** `registration_ids.map { |device| device[:endpoint] }`. */
  function Endpoints(regs: seq<RegistrationId>): (eps: seq<string>)
    ensures |eps| == |regs|
    ensures forall i :: 0 <= i < |regs| ==> eps[i] == regs[i].endpoint
  {
    Map((r: RegistrationId) => r.endpoint, regs)
  }

  /** Encryption is not implemented: every device gets no payload. */
  function EncryptPayload(key: map<string, string>): (payload: Option<Payload>)
    ensures payload.None?
  {
    None
  }

  /** What `each_endpoint` yields, in order: each device's endpoint with its payload. */
  function EachEndpoint(regs: seq<RegistrationId>): (yielded: seq<(string, Option<Payload>)>)
    ensures |yielded| == |regs|
    ensures forall i :: 0 <= i < |regs| ==> yielded[i] == (regs[i].endpoint, None)
  {
    if regs == [] then []
    else [(regs[0].endpoint, EncryptPayload(regs[0].keys))] + EachEndpoint(regs[1..])
  }
}
