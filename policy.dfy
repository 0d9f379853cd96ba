/** What differs between the two push providers, and the status table both share.
    Webpush and Mozilla run the same delivery algorithm; they differ only in the
    permanent-error table, in which codes mark an endpoint invalid, in how an unknown
    code is described, in the message for status 400 and in which exceptions are retried. */
module Policy {
  import opened Wrappers
  import opened Text

  datatype Provider = Webpush | Mozilla

  /** The exceptions a delivery attempt can end with. */
  datatype Exception =
    | SocketError
    | SystemCallError
    | DeliveryError(code: Option<nat>, notificationId: int, description: string)
    | NameError(name: string)
    | OtherError

  /** `TEMPORARY_ERRORS`, the same in both providers. */
  function TemporaryMessage(code: nat): (m: Option<string>) {
    if code == 429 then Some("too many requests")
    else if code == 500 then Some("internal server error")
    else if code == 503 then Some("service unavailable")
    else None
  }

  predicate IsTemporaryCode(code: nat) {
    TemporaryMessage(code).Some?
  }

  /** `PERMANENT_ERRORS`: Webpush knows 404 and 410, Mozilla only 404. */
  function PermanentMessage(p: Provider, code: nat): (m: Option<string>) {
    if code == 404 then Some("endpoint doesn't exist")
    else if code == 410 && p == Webpush then Some("endpoint gone")
    else None
  }

  /** The message for a failure code neither table knows; only Webpush names the code. */
  function UnknownErrorMessage(p: Provider, code: nat): (m: string) {
    match p
    case Webpush => "unknown error: " + NatToString(code)
    case Mozilla => "unknown error"
  }

  /** Webpush's `INVALID_ENDPOINT_ERRORS`, Mozilla's `failure[:code] == 404`. */
  predicate IsInvalidEndpointCode(p: Provider, code: nat) {
    code == 404 || (p == Webpush && code == 410)
  }

  function BadRequestMessage(p: Provider): (m: string) {
    match p
    case Webpush => "Push service failed to process the request. Possibly an Rpush bug, please open an issue."
    case Mozilla => "Mozilla failed to process the request. Possibly an Rpush bug, please open an issue."
  }

  const PAYLOAD_TOO_LARGE_MESSAGE: string := "Payload was too large (should be less than 4k)"

  /** The `rescue` clause that leads to `mark_retryable`: Webpush rescues
      `SocketError, SystemCallError`, Mozilla only `SocketError`. */
  predicate IsRetryable(p: Provider, e: Exception) {
    e.SocketError? || (p == Webpush && e.SystemCallError?)
  }

  /** `10.seconds`, the delay before a notification that hit a transport error is retried. */
  const TRANSPORT_RETRY_DELAY: int := 10

  /** `DEFAULT_DELAY = 10.minutes`, the fallback `deliver_after` of a split notification. */
  const DEFAULT_DELAY: int := 600

  /** The four ways one endpoint's status can end up. */
  datatype Category =
    | Success
    | Abort(message: string)
    | Temporary(message: string)
    | Permanent(message: string)

  /** The flat status table that the cascade of `handle_response` and `Failures#add` implements. */
  function Classify(p: Provider, code: nat): (c: Category)
    ensures c.Success? <==> code == 200 || code == 201
    ensures c.Abort? <==> code == 400 || code == 413
    ensures c.Temporary? <==> code == 429 || code == 500 || code == 503
    ensures IsInvalidEndpointCode(p, code) ==> c.Permanent? && PermanentMessage(p, code) == Some(c.message)
    ensures c.Temporary? ==> TemporaryMessage(code) == Some(c.message)
    ensures c.Permanent? && PermanentMessage(p, code).Some? ==> c.message == PermanentMessage(p, code).value
    ensures c.Permanent? && PermanentMessage(p, code).None? ==> c.message == UnknownErrorMessage(p, code)
  {
    if code == 200 || code == 201 then Success
    else if code == 400 then Abort(BadRequestMessage(p))
    else if code == 413 then Abort(PAYLOAD_TOO_LARGE_MESSAGE)
    else match TemporaryMessage(code)
      case Some(m) => Temporary(m)
      case None =>
        match PermanentMessage(p, code)
        case Some(m) => Permanent(m)
        case None => Permanent(UnknownErrorMessage(p, code))
  }

  /** Status 410 is "endpoint gone" and invalidates the endpoint for Webpush; for Mozilla
      it is an unknown error that leaves the endpoint valid. */
  lemma GoneDiffersByProvider()
    ensures Classify(Webpush, 410) == Permanent("endpoint gone") && IsInvalidEndpointCode(Webpush, 410)
    ensures Classify(Mozilla, 410) == Permanent("unknown error") && !IsInvalidEndpointCode(Mozilla, 410)
  {
  }

  /** Webpush's unknown-error message ends in the status code, which can be read back. */
  lemma UnknownErrorNamesCode(code: nat)
    ensures var m := UnknownErrorMessage(Webpush, code);
            |m| > 15 && m[..15] == "unknown error: " && ParseNat(m[15..]) == code
  {
    var m := UnknownErrorMessage(Webpush, code);
    assert m[15..] == NatToString(code);
    ParseNatToString(code);
  }
}
