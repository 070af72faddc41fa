/** Response normalisation: which payload reaches the response hook, and how
    the hook's outcome is wrapped. */
module Responses {
  import opened Wrappers
  import opened Values
  import opened Errors
  import opened Methods
  import opened Transport

  /** Asynchronous client: the JSON decode when it succeeds, else the raw content. */
  function AsyncPayload(resp: Response): (p: Payload)
    ensures p.Decoded? <==> resp.decoded.Some?
    ensures p.Decoded? ==> p.doc == resp.decoded.value
    ensures p.RawContent? ==> p.bytes == resp.content
  {
    match resp.decoded
    case Some(doc) => Decoded(doc)
    case None => RawContent(resp.content)
  }

  /** Blocking client: as the asynchronous one, except that an empty content
      or a JSON `null` is replaced by `{}`. */
  function SyncPayload(resp: Response): (p: Payload)
    ensures |resp.content| == 0 || resp.decoded == Some(JNull) ==> p == Decoded(EmptyObject)
    ensures p != Decoded(JNull)
    ensures |resp.content| > 0 && resp.decoded.None? ==> p == RawContent(resp.content)
    ensures |resp.content| > 0 && resp.decoded.Some? && resp.decoded.value != JNull ==>
      p == Decoded(resp.decoded.value)
  {
    var decodedOrRaw := AsyncPayload(resp);
    if decodedOrRaw == Decoded(JNull) || |resp.content| == 0 then Decoded(EmptyObject) else decodedOrRaw
  }

  /** The two clients hand the hook the same payload unless the content is
      empty or decodes to `null`. */
  lemma PayloadsDifferOnlyOnEmptyOrNull(resp: Response)
    ensures SyncPayload(resp) != AsyncPayload(resp) <==>
      (|resp.content| == 0 && resp.decoded != Some(EmptyObject)) || resp.decoded == Some(JNull)
  {
  }

  /** `response_process(payload, status)`: its value verbatim, or its
      exception wrapped in ResponseProcessException. */
  function Process<R>(hook: Hook<R>, payload: Payload, status: int): (r: Result<R, Error>)
    ensures r.Success? <==> hook(payload, status).Success?
    ensures r.Success? ==> r.value == hook(payload, status).value
    ensures r.Failure? ==> r.error == ResponseProcessException(hook(payload, status).error)
  {
    match hook(payload, status)
    case Success(v) => Success(v)
    case Failure(cause) => Failure(ResponseProcessException(cause))
  }
}
