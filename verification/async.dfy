/** The asynchronous client (`AsyncClient`): its lazily opened session, the
    pre-dispatch checks and response handling. */
module Async {
  import opened Wrappers
  import opened Values
  import opened Errors
  import opened Casing
  import opened Methods
  import opened Transport
  import opened Pipeline
  import opened Configuration
  import opened Responses

  /** The session handle: none yet, an open session, or a closed one that is
      still held. */
  datatype Session = Absent | Open | Closed

  /** Start of `request`: a session is created only when none is held. */
  function Acquire(s: Session): (r: Session)
    ensures s == Absent ==> r == Open
    ensures s != Absent ==> r == s
  {
    if s == Absent then Open else s
  }

  /** `resolve`: nothing to do without a session; otherwise the session is
      closed, and the handle is kept. */
  function Resolve(s: Session): (r: Session)
    ensures r == Absent <==> s == Absent
    ensures s != Absent ==> r == Closed
  {
    if s == Absent then Absent else Closed
  }

  datatype Op = RequestOp | ResolveOp

  /** The session after a sequence of `request` and `resolve` calls. */
  function Replay(s: Session, ops: seq<Op>): Session
    decreases |ops|
  {
    if |ops| == 0 then s
    else Replay(if ops[0] == RequestOp then Acquire(s) else Resolve(s), ops[1..])
  }

  /** Once a handle exists it is never dropped: the client holds no session
      exactly when it started without one and no `request` was made. */
  lemma {:induction false} HandleNeverReset(s: Session, ops: seq<Op>)
    ensures Replay(s, ops) == Absent <==> s == Absent && RequestOp !in ops
    decreases |ops|
  {
    if |ops| > 0 {
      var next := if ops[0] == RequestOp then Acquire(s) else Resolve(s);
      HandleNeverReset(next, ops[1..]);
      assert ops == [ops[0]] + ops[1..];
      assert RequestOp in ops <==> ops[0] == RequestOp || RequestOp in ops[1..];
    }
  }

  /** After a `resolve`, later requests reuse the closed session until the
      next one: it is never reopened. */
  lemma {:induction false} ClosedStaysClosed(ops: seq<Op>)
    ensures Replay(Closed, ops) == Closed
    decreases |ops|
  {
    if |ops| > 0 {
      ClosedStaysClosed(ops[1..]);
    }
  }

  /** An open session stays open exactly as long as no `resolve` comes. */
  lemma {:induction false} OpenUntilResolve(ops: seq<Op>)
    ensures Replay(Open, ops) == Open <==> ResolveOp !in ops
    decreases |ops|
  {
    if |ops| > 0 {
      assert ops == [ops[0]] + ops[1..];
      if ops[0] == RequestOp {
        OpenUntilResolve(ops[1..]);
      } else {
        ClosedStaysClosed(ops[1..]);
      }
    }
  }

  /** Starting without a session, the client ends with an open one exactly
      when some request opened it and no `resolve` followed that first
      request. */
  lemma {:induction false} FirstRequestOpens(ops: seq<Op>)
    ensures Replay(Absent, ops) == Open <==>
      exists i :: 0 <= i < |ops| && ops[i] == RequestOp && RequestOp !in ops[..i] && ResolveOp !in ops[i + 1..]
    decreases |ops|
  {
    if |ops| > 0 {
      var rest := ops[1..];
      if ops[0] == RequestOp {
        OpenUntilResolve(rest);
        assert ops[..0] == [] && ops[1..] == rest;
        if Replay(Absent, ops) != Open {
          forall i | 0 < i <= |ops|
            ensures RequestOp in ops[..i]
          {
            assert ops[..i][0] == RequestOp;
          }
        }
      } else {
        FirstRequestOpens(rest);
        if Replay(Absent, ops) == Open {
          var j :| 0 <= j < |rest| && rest[j] == RequestOp && RequestOp !in rest[..j] && ResolveOp !in rest[j + 1..];
          assert ops[..j + 1] == [ops[0]] + rest[..j];
          assert ops[j + 2..] == rest[j + 1..];
          assert ops[j + 1] == RequestOp;
        } else {
          forall i | 0 <= i < |ops| && ops[i] == RequestOp && RequestOp !in ops[..i]
            ensures ResolveOp in ops[i + 1..]
          {
            assert i > 0;
            assert ops[..i] == [ops[0]] + rest[..i - 1];
            assert ops[i + 1..] == rest[i..];
            assert rest[i - 1] == RequestOp;
          }
        }
      }
    }
  }

  datatype AsyncClient<!R> = AsyncClient(config: Config<R>, session: Session)

  /** `AsyncClient(endpoint, mdws, mdws_nc)`: no session yet. */
  function NewAsyncClient<R>(endpoint: string, mdws: Option<seq<Middleware<R>>>, mdwsNc: Option<seq<Middleware<R>>>)
    : (r: Result<AsyncClient<R>, Error>)
    ensures r.Failure? <==> mdws.Some? && mdwsNc.Some?
    ensures r.Failure? ==> r.error == AssertionError(BothMiddlewareLists)
    ensures r.Success? ==> r.value.session == Absent && r.value.config.endpoint == endpoint
    ensures r.Success? ==> r.value.config == NewConfig(endpoint, mdws, mdwsNc).value
    ensures r.Success? ==> r.value.config.copying == (if mdws.Some? then mdws.value else [])
    ensures r.Success? ==> r.value.config.inPlace == (if mdwsNc.Some? then mdwsNc.value else [])
  {
    var config :- NewConfig(endpoint, mdws, mdwsNc);
    Success(AsyncClient(config, Absent))
  }

  /** The checks of `request` up to the engine call. The verb is lower-cased
      and not checked against any table; files replace the body by a form and
      the verb by `post`. */
  function Plan<R>(endpoint: string, m: Method<R>, proxy: Option<string>): (r: Result<TransportCall, Error>)
    ensures r.Success? <==>
      && Slots(m.d.template) == |m.args|
      && !(m.d.body.Some? && m.d.filesAsync.Some?)
      && (m.d.filesAsync.Some? ==> Lower(m.d.verb) == "file")
      && !(m.d.filesAsync.None? && Lower(m.d.verb) == "get" && m.d.body.Some?)
    ensures r.Failure? && Slots(m.d.template) != |m.args| ==> r.error == TemplateTypeError
    ensures r.Failure? && Slots(m.d.template) == |m.args| ==>
      r.error == (if m.d.body.Some? && m.d.filesAsync.Some? then AssertionError(BodyWithFiles)
                  else if m.d.filesAsync.Some? then AssertionError(FilesWithoutFileVerb)
                  else AssertionError(GetWithBody))
    ensures r.Success? ==> r.value.url == FullUrl(endpoint, m).value
    ensures r.Success? && m.d.filesAsync.Some? ==>
      r.value.verb == "post" && r.value.data == Some(Form(m.d.filesAsync.value))
    ensures r.Success? && m.d.filesAsync.None? ==>
      r.value.verb == Lower(m.d.verb) && r.value.data == WireBody(m.d.body)
    ensures r.Success? ==> r.value.files.None?
    ensures r.Success? ==> r.value.proxy == (if proxy.Some? then Some(ProxyUrl(proxy.value)) else None)
    ensures r.Success? ==> r.value.params == m.d.params && r.value.headers == m.d.headers && r.value.auth == m.d.auth
  {
    var verb := Lower(m.d.verb);
    var url :- FullUrl(endpoint, m);
    var files := m.d.filesAsync;
    var body := WireBody(m.d.body);
    if body.Some? && files.Some? then Failure(AssertionError(BodyWithFiles))
    else if files.Some? && verb != "file" then Failure(AssertionError(FilesWithoutFileVerb))
    else
      var sentVerb := if files.Some? then "post" else verb;
      var data := if files.Some? then Some(Form(files.value)) else body;
      if sentVerb == "get" && data.Some? then Failure(AssertionError(GetWithBody))
      else
        var forwarded := if proxy.Some? then Some(ProxyUrl(proxy.value)) else None;
        Success(TransportCall(sentVerb, url, m.d.params, m.d.headers, data, None, forwarded, m.d.auth))
  }

  /** The engine's answer, handed to the hook: an engine exception becomes
      RequestException, a hook exception ResponseProcessException. */
  function Complete<R>(hook: Hook<R>, outcome: Outcome): (r: Result<R, Error>)
    ensures outcome.Failed? ==> r == Failure(RequestException(outcome.cause))
    ensures outcome.Delivered? ==>
      r == Process(hook, AsyncPayload(outcome.response), outcome.response.status)
  {
    match outcome
    case Failed(cause) => Failure(RequestException(cause))
    case Delivered(resp) => Process(hook, AsyncPayload(resp), resp.status)
  }

  /** `request(method, proxy)`: the session is acquired first, then
      middlewares, the plan, and at most one engine call. Only the session
      changes in the client. */
  function Request<R>(c: AsyncClient<R>, caller: Obj<R>, proxy: Option<string>, send: Send)
    : (res: (AsyncClient<R>, Run<R>))
    ensures res.0 == c.(session := Acquire(c.session))
    ensures res.1.sent.None? ==> res.1.result.Failure?
    ensures Apply(c.config.copying, c.config.inPlace, caller).Failure? ==>
      res.1.result == Failure(Apply(c.config.copying, c.config.inPlace, caller).error)
    ensures Apply(c.config.copying, c.config.inPlace, caller).Success? ==>
      var dispatched := Apply(c.config.copying, c.config.inPlace, caller).value.instance;
      Plan(c.config.endpoint, dispatched, proxy).Failure? ==>
        res.1.result == Failure(Plan(c.config.endpoint, dispatched, proxy).error)
    ensures res.1.sent.Some? <==>
      Apply(c.config.copying, c.config.inPlace, caller).Success? &&
      Plan(c.config.endpoint, Apply(c.config.copying, c.config.inPlace, caller).value.instance, proxy).Success?
    ensures res.1.sent.Some? ==>
      var dispatched := Apply(c.config.copying, c.config.inPlace, caller).value.instance;
      res.1.sent.value == Plan(c.config.endpoint, dispatched, proxy).value &&
      res.1.result == Complete(dispatched.d.hook, send(res.1.sent.value))
  {
    var acquired := c.(session := Acquire(c.session));
    match Apply(c.config.copying, c.config.inPlace, caller)
    case Failure(e) => (acquired, Run(None, Failure(e)))
    case Success(o) =>
      match Plan(c.config.endpoint, o.instance, proxy)
      case Failure(e) => (acquired, Run(None, Failure(e)))
      case Success(call) => (acquired, Run(Some(call), Complete(o.instance.d.hook, send(call))))
  }

  /** `resolve()` on the client. */
  function ResolveClient<R>(c: AsyncClient<R>): (r: AsyncClient<R>)
    ensures c.session == Absent ==> r == c
    ensures c.session != Absent ==> r == c.(session := Closed)
  {
    c.(session := Resolve(c.session))
  }

  /** The first request opens the session even when it is refused before
      any engine call. */
  lemma SessionOpenedEvenWhenRefused<R>(c: AsyncClient<R>, caller: Obj<R>, proxy: Option<string>, send: Send)
    requires c.session == Absent
    requires Request(c, caller, proxy, send).1.result.Failure?
    ensures Request(c, caller, proxy, send).0.session == Open
  {
  }
}
