/** The boundary to the HTTP engine: the call a client hands over, the
    engine's answer, and the record of one `request`. */
module Transport {
  import opened Wrappers
  import opened Values
  import opened Errors

  /** Proxy settings: a scheme-to-endpoint mapping (blocking client) or a
      single proxy URL (asynchronous client). */
  datatype Proxy = SchemeProxies(byScheme: Dict) | ProxyUrl(url: string)

  /** One call into the engine: the lower-case verb, the full URL, and the
      arguments forwarded with it. */
  datatype TransportCall = TransportCall(
    verb: string,
    url: string,
    params: Option<Dict>,
    headers: Option<Dict>,
    data: Option<Data>,
    files: Option<FileMap>,
    proxy: Option<Proxy>,
    auth: Option<Auth>)

  /** A response: status, raw content, and the JSON decode of the content
      (`None` when decoding raised). */
  datatype Response = Response(status: int, content: seq<byte>, decoded: Option<Json>)

  /** What the engine does with a call: answers, or raises. */
  datatype Outcome = Delivered(response: Response) | Failed(cause: Cause)

  /** The engine, as a function of the call it receives. */
  type Send = TransportCall -> Outcome

  /** One `request`: the call handed to the engine, if one was, and what the
      caller gets back. */
  datatype Run<R> = Run(sent: Option<TransportCall>, result: Result<R, Error>)
}
