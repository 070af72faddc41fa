/** The unit-test scenarios of both clients, stated over the model. Each
    engine is given by how it answers every call. */
module Scenarios {
  import opened Wrappers
  import opened Values
  import opened Errors
  import opened Methods
  import opened Transport
  import opened Pipeline
  import opened Configuration
  import Sync
  import Async

  type Reply = (Payload, int)

  /** A method with path `/`, no path arguments and the default hook. */
  function Simple(verb: string, body: Option<Body>, filesSync: Option<FileMap>): Method<Reply>
  {
    Method(Descriptor(verb, [Lit("/")], None, body, None, 0, None, None, filesSync, DefaultHook), [])
  }

  const Endpoint: string := "https://ed.cba"

  /** The test clients: no proxies, no middlewares. */
  const Plain: Sync.Client<Reply> := Sync.Client(Config(Endpoint, [], []), None)

  const PlainAsync: Async.AsyncClient<Reply> := Async.AsyncClient(Config(Endpoint, [], []), Async.Absent)

  /** Blocking GET answered with 204 and an empty body: the hook gets `{}`,
      whatever the decoder made of the empty content. */
  lemma SyncEmptyResponseBecomesEmptyMap(decoded: Option<Json>, send: Send)
    requires forall call :: send(call) == Delivered(Response(204, [], decoded))
    ensures Sync.Request(Plain, Obj(0, Simple("GET", None, None)), send).result
      == Success((Decoded(EmptyObject), 204))
  {
  }

  /** Blocking client: an engine exception reaches the caller unwrapped. */
  lemma SyncTransportFailureUnwrapped(cause: Cause, send: Send)
    requires forall call :: send(call) == Failed(cause)
    ensures Sync.Request(Plain, Obj(0, Simple("POST", Some(DictBody([])), None)), send).result
      == Failure(TransportError(cause))
  {
  }

  /** A GET whose body is `{}` is refused before the engine is called. */
  lemma SyncGetWithEmptyDictRefused(send: Send)
    ensures Sync.Request(Plain, Obj(0, Simple("GET", Some(DictBody([])), None)), send)
      == Run(None, Failure(AssertionError(GetWithBody)))
  {
  }

  /** A verb outside the table raises NotImplementedError. */
  lemma SyncUndefinedVerb(send: Send)
    ensures Sync.Request(Plain, Obj(0, Simple("#", Some(DictBody([])), None)), send)
      == Run(None, Failure(NotImplementedError("#")))
  {
  }

  /** FILE with an empty file mapping is a POST carrying that mapping. */
  lemma SyncFileWithEmptyMapping(send: Send)
    ensures Sync.Request(Plain, Obj(0, Simple("FILE", None, Some(map[]))), send).sent
      == Some(TransportCall("post", Endpoint + "/", None, None, None, Some(map[]), None, None))
  {
    assert Fill([Lit("/")], []) == "/";
    NoMiddlewareDispatchesCaller(Obj(0, Simple("FILE", None, Some(map[]))));
  }

  /** A custom hook's value is returned as it is. */
  lemma SyncCustomHookVerbatim(send: Send)
    requires forall call :: send(call) == Delivered(Response(204, [], None))
    ensures
      var m := Method(Descriptor("GET", [Lit("/")], None, None, None, 0, None, None, None,
                                 (p: Payload, s: int) => Success((None, 200))), []);
      Sync.Request(Sync.Client(Config(Endpoint, [], []), None), Obj(0, m), send).result
        == Success((Option<Payload>.None, 200))
  {
  }

  /** A middleware that copies the method and sets a header. */
  function CopyWithHeader(o: Obj<Reply>): Result<Obj<Reply>, Cause>
  {
    Success(Obj(o.ref + 1, o.instance.(d := o.instance.d.(headers := Some(map["test" := "test"])))))
  }

  /** A middleware that sets a header on the method it was given. */
  function SetHeader(o: Obj<Reply>): Result<Obj<Reply>, Cause>
  {
    Success(Obj(o.ref, o.instance.(d := o.instance.d.(headers := Some(map["test" := "test"])))))
  }

  /** Copying middleware in the copying list: the caller's object is not the
      dispatched one, which carries the header. */
  lemma CopyingMiddlewareLeavesCaller()
    ensures
      var r := Apply([CopyWithHeader], [], Obj(0, Simple("GET", None, None)));
      r.Success? && r.value.ref != 0 && r.value.instance.d.headers == Some(map["test" := "test"])
  {
    var o := Obj(0, Simple("GET", None, None));
    var mws: seq<Middleware<Reply>> := [CopyWithHeader];
    var next := CopyWithHeader(o).value;
    assert mws[0](o) == Success(next) && next.ref == 1;
    assert mws[1..] == [];
    assert RunMode(Copying, mws, o) == RunMode(Copying, mws[1..], next);
  }

  /** In-place middleware in the in-place list: the caller's own object is
      dispatched, header and all. */
  lemma InPlaceMiddlewareChangesCaller()
    ensures
      var r := Apply([], [SetHeader], Obj(0, Simple("GET", None, None)));
      r.Success? && r.value.ref == 0 && r.value.instance.d.headers == Some(map["test" := "test"])
  {
    var o := Obj(0, Simple("GET", None, None));
    var mws: seq<Middleware<Reply>> := [SetHeader];
    var next := SetHeader(o).value;
    assert mws[0](o) == Success(next) && next.ref == 0;
    assert mws[1..] == [];
    assert RunMode(InPlace, mws, o) == RunMode(InPlace, mws[1..], next);
  }

  /** Each middleware in the other list is refused. */
  lemma MisplacedMiddlewaresRefused()
    ensures Apply([SetHeader], [], Obj(0, Simple("GET", None, None)))
      == Failure(AssertionError(CopyReturnedSameObject))
    ensures Apply([], [CopyWithHeader], Obj(0, Simple("GET", None, None)))
      == Failure(AssertionError(InPlaceReturnedOtherObject))
  {
  }

  /** Asynchronous GET: the decoded document reaches the hook as it is, and
      the session is now open. */
  lemma AsyncGetDecoded(doc: Json, send: Send)
    requires forall call :: send(call) == Delivered(Response(204, [], Some(doc)))
    ensures var res := Async.Request(PlainAsync, Obj(0, Simple("GET", None, None)), None, send);
      res.1.result == Success((Decoded(doc), 204)) && res.0.session == Async.Open
  {
  }

  /** Asynchronous client: an undefined verb is sent as it is, and the
      engine's failure comes back as RequestException. */
  lemma AsyncUndefinedVerbReachesEngine(cause: Cause, send: Send)
    requires forall call :: send(call) == Failed(cause)
    ensures var res := Async.Request(PlainAsync, Obj(0, Simple("#", Some(DictBody([])), None)), None, send);
      res.1.sent.Some? && res.1.sent.value.verb == "#" && res.1.result == Failure(RequestException(cause))
  {
  }

  /** Asynchronous FILE method with no async files goes out with verb `file`. */
  lemma AsyncFileWithoutFilesSent(send: Send)
    ensures var res := Async.Request(PlainAsync, Obj(0, Simple("FILE", None, Some(map[]))), None, send);
      res.1.sent.Some? && res.1.sent.value.verb == "file" && res.1.sent.value.data.None?
  {
  }
}
