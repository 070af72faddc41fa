/** The blocking client (`Client`): verb table, pre-dispatch checks and
    response handling. */
module Sync {
  import opened Wrappers
  import opened Values
  import opened Errors
  import opened Casing
  import opened Methods
  import opened Transport
  import opened Pipeline
  import opened Configuration
  import opened Responses

  /** The verbs the blocking client dispatches, matched case-sensitively. */
  const Verbs: set<string> := {"GET", "FILE", "POST", "DELETE", "PATCH", "PUT"}

  datatype Client<!R> = Client(config: Config<R>, proxies: Option<Dict>)

  /** `Client(endpoint, proxies, mdws, mdws_nc)`. */
  function NewClient<R>(endpoint: string, proxies: Option<Dict>,
                        mdws: Option<seq<Middleware<R>>>, mdwsNc: Option<seq<Middleware<R>>>)
    : (r: Result<Client<R>, Error>)
    ensures r.Failure? <==> mdws.Some? && mdwsNc.Some?
    ensures r.Failure? ==> r.error == AssertionError(BothMiddlewareLists)
    ensures r.Success? ==> r.value.proxies == proxies && r.value.config.endpoint == endpoint
    ensures r.Success? ==> r.value.config == NewConfig(endpoint, mdws, mdwsNc).value
    ensures r.Success? ==> r.value.config.copying == (if mdws.Some? then mdws.value else [])
    ensures r.Success? ==> r.value.config.inPlace == (if mdwsNc.Some? then mdwsNc.value else [])
  {
    var config :- NewConfig(endpoint, mdws, mdwsNc);
    Success(Client(config, proxies))
  }

  /** The proxy argument of a non-FILE call: forwarded exactly when configured. */
  function Forwarded(proxies: Option<Dict>): Option<Proxy>
  {
    if proxies.Some? then Some(SchemeProxies(proxies.value)) else None
  }

  /** The checks and the verb table of `request`, up to the engine call, as
      written: the FILE branch forwards no proxies whether or not some are
      configured. */
  function Plan<R>(c: Client<R>, m: Method<R>): (r: Result<TransportCall, Error>)
    ensures r.Success? <==>
      && Slots(m.d.template) == |m.args|
      && m.d.verb in Verbs
      && !(m.d.verb == "GET" && m.d.body.Some?)
      && !(m.d.verb == "FILE" && m.d.filesSync.None?)
    ensures r.Failure? && Slots(m.d.template) != |m.args| ==> r.error == TemplateTypeError
    ensures r.Failure? && Slots(m.d.template) == |m.args| ==>
      r.error == (if m.d.verb == "GET" then AssertionError(GetWithBody)
                  else if m.d.verb == "FILE" then AssertionError(FileWithoutFiles)
                  else NotImplementedError(m.d.verb))
    ensures r.Success? ==> r.value.url == FullUrl(c.config.endpoint, m).value
    ensures r.Success? ==> r.value.verb == (if m.d.verb == "FILE" then "post" else Lower(m.d.verb))
    ensures r.Success? ==> r.value.data == (if m.d.verb == "GET" then None else WireBody(m.d.body))
    ensures r.Success? ==> r.value.files == (if m.d.verb == "FILE" then m.d.filesSync else None)
    ensures r.Success? ==> r.value.proxy == (if m.d.verb == "FILE" then None else Forwarded(c.proxies))
    ensures r.Success? ==> r.value.params == m.d.params && r.value.headers == m.d.headers && r.value.auth == m.d.auth
  {
    var url :- FullUrl(c.config.endpoint, m);
    var verb := m.d.verb;
    if verb == "GET" then
      if WireBody(m.d.body).Some? then Failure(AssertionError(GetWithBody))
      else Success(TransportCall(Lower(verb), url, m.d.params, m.d.headers, None, None, Forwarded(c.proxies), m.d.auth))
    else if verb == "FILE" then
      if m.d.filesSync.None? then Failure(AssertionError(FileWithoutFiles))
      else Success(TransportCall("post", url, m.d.params, m.d.headers, WireBody(m.d.body), m.d.filesSync, None, m.d.auth))
    else if verb == "POST" || verb == "DELETE" || verb == "PATCH" || verb == "PUT" then
      Success(TransportCall(Lower(verb), url, m.d.params, m.d.headers, WireBody(m.d.body), None, Forwarded(c.proxies), m.d.auth))
    else
      Failure(NotImplementedError(verb))
  }

  /** The FILE branch as evidently intended: configured proxies are forwarded
      like in every other branch. */
  function PlanIntended<R>(c: Client<R>, m: Method<R>): (r: Result<TransportCall, Error>)
    ensures r.Success? <==> Plan(c, m).Success?
    ensures r.Success? ==> r.value.proxy == Forwarded(c.proxies)
    ensures r.Success? ==> r.value == Plan(c, m).value.(proxy := Forwarded(c.proxies))
  {
    match Plan(c, m)
    case Success(call) => Success(call.(proxy := Forwarded(c.proxies)))
    case Failure(e) => Failure(e)
  }

  /** As written, a FILE request never carries the configured proxies. */
  lemma FileDropsConfiguredProxies<R>(c: Client<R>, m: Method<R>)
    requires c.proxies.Some?
    requires m.d.verb == "FILE" && Plan(c, m).Success?
    ensures Plan(c, m).value.proxy.None?
    ensures PlanIntended(c, m).value.proxy == Some(SchemeProxies(c.proxies.value))
  {
  }

  /** The corrected plan differs from the written one only for FILE requests
      on a client with proxies. */
  lemma PlanIntendedDiffersOnlyForFileWithProxies<R>(c: Client<R>, m: Method<R>)
    ensures PlanIntended(c, m) != Plan(c, m) <==>
      Plan(c, m).Success? && m.d.verb == "FILE" && c.proxies.Some?
  {
  }

  /** The engine's answer, handed to the hook: an engine exception escapes
      unwrapped, a hook exception becomes ResponseProcessException. */
  function Complete<R>(hook: Hook<R>, outcome: Outcome): (r: Result<R, Error>)
    ensures outcome.Failed? ==> r == Failure(TransportError(outcome.cause))
    ensures outcome.Delivered? ==>
      r == Process(hook, SyncPayload(outcome.response), outcome.response.status)
  {
    match outcome
    case Failed(cause) => Failure(TransportError(cause))
    case Delivered(resp) => Process(hook, SyncPayload(resp), resp.status)
  }

  /** `request(method)`: middlewares, then the plan, then at most one engine
      call. */
  function Request<R>(c: Client<R>, caller: Obj<R>, send: Send): (run: Run<R>)
    ensures run.sent.None? ==> run.result.Failure?
    ensures Apply(c.config.copying, c.config.inPlace, caller).Failure? ==>
      run.result == Failure(Apply(c.config.copying, c.config.inPlace, caller).error)
    ensures Apply(c.config.copying, c.config.inPlace, caller).Success? ==>
      var dispatched := Apply(c.config.copying, c.config.inPlace, caller).value.instance;
      Plan(c, dispatched).Failure? ==> run.result == Failure(Plan(c, dispatched).error)
    ensures run.sent.Some? <==>
      Apply(c.config.copying, c.config.inPlace, caller).Success? &&
      Plan(c, Apply(c.config.copying, c.config.inPlace, caller).value.instance).Success?
    ensures run.sent.Some? ==>
      var dispatched := Apply(c.config.copying, c.config.inPlace, caller).value.instance;
      run.sent.value == Plan(c, dispatched).value && run.result == Complete(dispatched.d.hook, send(run.sent.value))
  {
    match Apply(c.config.copying, c.config.inPlace, caller)
    case Failure(e) => Run(None, Failure(e))
    case Success(o) =>
      match Plan(c, o.instance)
      case Failure(e) => Run(None, Failure(e))
      case Success(call) => Run(Some(call), Complete(o.instance.d.hook, send(call)))
  }

  /** The three request-time refusals happen before any engine call, whatever
      the engine would have done. */
  lemma RefusalsPrecedeTransport<R>(c: Client<R>, caller: Obj<R>, send: Send)
    requires c.config.copying == [] && c.config.inPlace == []
    requires Slots(caller.instance.d.template) == |caller.instance.args|
    ensures var m := caller.instance.d;
      (m.verb == "GET" && m.body.Some?) || (m.verb == "FILE" && m.filesSync.None?) || m.verb !in Verbs
      <==> Request(c, caller, send).sent.None?
    ensures var m := caller.instance.d;
      m.verb !in Verbs ==> Request(c, caller, send).result == Failure(NotImplementedError(m.verb))
  {
  }
}
