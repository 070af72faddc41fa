/** Where the two clients agree and where they part ways on the same method. */
module CrossClient {
  import opened Wrappers
  import opened Values
  import opened Errors
  import opened Casing
  import opened Methods
  import opened Transport
  import opened Configuration
  import Sync
  import Async

  /** For the five ordinary verbs and no async files, both clients refuse the
      same methods with the same error and otherwise hand the engine the same
      call (no proxies configured on either side). */
  lemma SameCallForOrdinaryVerbs<R>(config: Config<R>, m: Method<R>)
    requires m.d.verb in {"GET", "POST", "PUT", "PATCH", "DELETE"}
    requires m.d.filesAsync.None?
    ensures Sync.Plan(Sync.Client(config, None), m) == Async.Plan(config.endpoint, m, None)
  {
  }

  /** The blocking client sends a body together with files; the asynchronous
      client refuses the same pairing. */
  lemma BodyWithFilesOnlyBlocking<R>(config: Config<R>, m: Method<R>)
    requires m.d.verb == "FILE" && Slots(m.d.template) == |m.args|
    requires m.d.body.Some? && m.d.filesSync.Some? && m.d.filesAsync.Some?
    ensures Sync.Plan(Sync.Client(config, None), m).Success?
    ensures Sync.Plan(Sync.Client(config, None), m).value.data == WireBody(m.d.body)
    ensures Sync.Plan(Sync.Client(config, None), m).value.files == m.d.filesSync
    ensures Async.Plan(config.endpoint, m, None) == Failure(AssertionError(BodyWithFiles))
  {
  }

  /** A FILE method without files: refused by the blocking client, sent by
      the asynchronous one with the verb `file`. */
  lemma FileVerbWithoutFiles<R>(config: Config<R>, m: Method<R>)
    requires m.d.verb == "FILE" && Slots(m.d.template) == |m.args|
    requires m.d.filesSync.None? && m.d.filesAsync.None?
    ensures Sync.Plan(Sync.Client(config, None), m) == Failure(AssertionError(FileWithoutFiles))
    ensures Async.Plan(config.endpoint, m, None).Success?
    ensures Async.Plan(config.endpoint, m, None).value.verb == "file"
  {
  }

  /** A verb outside the blocking client's table is refused there and
      forwarded, lower-cased, by the asynchronous client, unless it lower-cases
      to `get` and carries a body. */
  lemma UnknownVerb<R>(config: Config<R>, m: Method<R>)
    requires m.d.verb !in Sync.Verbs && Slots(m.d.template) == |m.args|
    requires m.d.filesAsync.None?
    requires m.d.body.None? || Lower(m.d.verb) != "get"
    ensures Sync.Plan(Sync.Client(config, None), m) == Failure(NotImplementedError(m.d.verb))
    ensures Async.Plan(config.endpoint, m, None).Success?
    ensures Async.Plan(config.endpoint, m, None).value.verb == Lower(m.d.verb)
    ensures Async.Plan(config.endpoint, m, None).value.data == WireBody(m.d.body)
  {
  }

  /** The blocking client matches verbs case-sensitively, so a lower-case
      `get` with a body is an unknown verb there, while the asynchronous
      client refuses it as a GET with a body. */
  lemma LowerCaseGetWithBody<R>(config: Config<R>, m: Method<R>)
    requires m.d.verb == "get" && Slots(m.d.template) == |m.args|
    requires m.d.body.Some? && m.d.filesAsync.None?
    ensures Sync.Plan(Sync.Client(config, None), m) == Failure(NotImplementedError("get"))
    ensures Async.Plan(config.endpoint, m, None) == Failure(AssertionError(GetWithBody))
  {
  }

  /** An engine exception is wrapped by the asynchronous client only; a
      response with non-empty content that does not decode to `null` gives
      the same result in both clients. */
  lemma ResponseHandling<R>(hook: Hook<R>, outcome: Outcome)
    ensures outcome.Failed? ==> Sync.Complete(hook, outcome) == Failure(TransportError(outcome.cause))
    ensures outcome.Failed? ==> Async.Complete(hook, outcome) == Failure(RequestException(outcome.cause))
    ensures outcome.Delivered? && |outcome.response.content| > 0 && outcome.response.decoded != Some(JNull) ==>
      Sync.Complete(hook, outcome) == Async.Complete(hook, outcome)
  {
  }
}
