# python-clients HTTP core in Dafny

This project models the decision logic of `clients/http.py`, a declarative HTTP client library. A caller describes a
call as a `Method` subclass: verb, `%`-style URL template, headers, body, query parameters, auth and files. The caller
then submits an instance through the blocking `Client` or the asynchronous `AsyncClient`. With the HTTP engine
abstracted away, what remains is modelled here:

- the method descriptor: construction by path-argument count, URL rendering, body encoding (`methods.dfy`);
- client construction and the copy/in-place middleware pipeline with its identity checks (`configuration.dfy`,
  `pipeline.dfy`);
- request planning: every refusal that happens before the engine is called, and the exact call handed to the engine,
  for both clients (`sync.dfy`, `async.dfy`);
- response normalisation and error wrapping (`responses.dfy`, `sync.dfy`, `async.dfy`);
- the lazily opened, never reset session of the asynchronous client (`async.dfy`);
- where the two clients agree and differ (`crossclient.dfy`), and the unit-test scenarios (`scenarios.dfy`).

Modelling choices:

- An instance has an object identity: `Obj(ref, instance)`. A middleware either returns an object or raises: its type
  is `Obj -> Result<Obj, Cause>`, and an exception it raises reaches the caller unwrapped as `MiddlewareRaised(cause)`.
  A copying step must return a different `ref` and an in-place step the same `ref`, each compared with that step's
  own input.
- JSON encoding is symbolic: `JsonText(doc)` stands for the JSON text of `doc`. The engine's response carries its own
  decode result, `decoded: Option<Json>`, where `None` means decoding raised.
- The engine is a function `Send` from the call it receives to `Delivered(response)` or `Failed(cause)`.
- A request returns a `Run`: the call handed to the engine, if one was, and the result or the exception.
- Every Python `assert` is an `AssertionError` that is always raised. `url_ % args` with a mismatched slot count is a
  `TemplateTypeError`.

## Model

| member | source | states |
|---|---|---|
| Methods.Construct | clients/http.py:50-52 | construction succeeds exactly when the argument count equals `count`, stores the arguments, and otherwise fails with the argument-count assertion |
| Methods.Fill | clients/http.py:54-56 | the rendered path is as long as the template's literal text plus all arguments |
| Methods.Format | clients/http.py:54-56 | `url_ % args` succeeds exactly when the slot count equals the argument count, else TypeError |
| Methods.FillAppend | clients/http.py:54-56 | rendering is compositional: slots take the arguments in order |
| Methods.FullUrl | clients/http.py:102-103 | the request URL starts with the endpoint and renders exactly when slot and argument counts agree |
| Methods.ConstructedUrl | clients/http.py:50-56 | a method built with as many arguments as template slots renders to endpoint followed by the filled template |
| Methods.DefaultHook | clients/http.py:58-60 | the default `response_process` returns `(payload, status)` unchanged |
| Methods.WireBody | clients/http.py:62-68 | `body_` is absent exactly when `body` is None; dict and list become JSON text, str and bytes pass unchanged |
| Configuration.NewConfig | clients/http.py:89-99 | construction fails exactly when both middleware lists are given (even two empty ones); the missing list defaults to empty |
| Configuration.TwoEmptyListsRefused | clients/http.py:90-93 | `mdws=[]` together with `mdws_nc=[]` is refused |
| Sync.NewClient | clients/http.py:199-210 | the blocking client keeps its proxies and the given middleware lists (the missing one empty), and refuses two lists |
| Async.NewAsyncClient | clients/http.py:89-100 | the asynchronous client keeps the given middleware lists (the missing one empty), refuses two lists, and starts without a session |
| Pipeline.RunMode | clients/http.py:105-121 | a failed middleware list reports the violated mode or a middleware exception (RunModeFailureCause says which); a successful in-place list ends on the object it started with |
| Pipeline.RunModeFailureCause | clients/http.py:107-120 | a failed list raises the identity assertion exactly when some step of the unchecked chain violates the mode; otherwise the chain stopped at a middleware that raised, and its exception is what the list raises |
| Pipeline.RunModeIsCheckedChain | clients/http.py:107-120 | a list succeeds exactly when no step of the unchecked chain raises and every step respects its mode, and then yields the chain's last object |
| Pipeline.RunMiddlewares | clients/http.py:105-121 | the two loops, stopping at the first identity violation or middleware exception, compute exactly the pipeline's result |
| Pipeline.Apply | clients/http.py:105-121 | the pipeline fails only with one of the two identity assertions or an exception a middleware raised |
| Pipeline.ApplyIsCheckedChains | clients/http.py:105-121 | copying list first, in-place list from the last copy on; success exactly when both chains run to the end and conform |
| Pipeline.NoMiddlewareDispatchesCaller | clients/http.py:105-121 | with both lists empty the caller's object is dispatched unchanged |
| Pipeline.InPlaceOnlyDispatchesCaller | clients/http.py:114-121 | with only in-place middlewares the dispatched object is the caller's object |
| Pipeline.MisplacedMiddlewareAborts | clients/http.py:107-119 | a copying step returning its input, or an in-place step returning another object, aborts with the matching assertion |
| Pipeline.RaisingMiddlewareAborts | clients/http.py:107-108 | an exception raised by the first middleware run reaches the caller unwrapped |
| Pipeline.CopyingMayReturnCaller | clients/http.py:107-113 | each copying step is compared with its own input only, so a later step may hand back the caller's object |
| Sync.Plan | clients/http.py:233-280 | refusal exactly for template mismatch, GET with a body, FILE without `files_sync`, or a verb outside the six; otherwise the verb, data, files, proxies, params, headers and auth of the engine call |
| Sync.PlanIntended | clients/http.py:245-253 | the corrected FILE branch forwards configured proxies and otherwise agrees with the code |
| Sync.FileDropsConfiguredProxies | clients/http.py:248-253 | as written, a FILE request on a client with proxies carries none |
| Sync.PlanIntendedDiffersOnlyForFileWithProxies | clients/http.py:240-278 | the correction changes only FILE requests on clients with proxies |
| Sync.Complete | clients/http.py:281-290 | an engine exception escapes unwrapped; a response goes through the blocking normalisation to the hook |
| Sync.Request | clients/http.py:233-290 | the engine is called exactly when middlewares and plan succeed, with the planned call; otherwise the request raises the middleware pipeline's exception or assertion, or else the plan's refusal |
| Sync.RefusalsPrecedeTransport | clients/http.py:238-280 | GET with body, FILE without files, or an unknown verb means no engine call; an unknown verb raises NotImplementedError |
| Responses.AsyncPayload | clients/http.py:173-176 | the hook gets the JSON decode when it succeeds, else the raw content |
| Responses.SyncPayload | clients/http.py:281-288 | as the asynchronous payload, but empty content or JSON null becomes `{}`; the hook never sees null |
| Responses.PayloadsDifferOnlyOnEmptyOrNull | clients/http.py:281-288 | the two clients' payloads differ exactly on empty content (not decoding to `{}`) or a null decode |
| Responses.Process | clients/http.py:177-180 | the hook's value is returned verbatim; its exception becomes ResponseProcessException |
| Async.Acquire | clients/http.py:148-149 | a request on a client without a session opens one; a held session, open or closed, is kept |
| Async.Resolve | clients/http.py:135-138 | `resolve` does nothing without a session and otherwise closes it without dropping the handle |
| Async.HandleNeverReset | clients/http.py:135-149 | after any sequence of calls, no session is held exactly when none was at the start and no request was made |
| Async.ClosedStaysClosed | clients/http.py:135-149 | a closed session is never reopened by later requests |
| Async.OpenUntilResolve | clients/http.py:135-149 | an open session stays open exactly until the first `resolve` |
| Async.FirstRequestOpens | clients/http.py:135-149 | starting without a session, the client ends with an open one exactly when some request came and no `resolve` followed the first request |
| Async.Plan | clients/http.py:152-167 | refusal exactly for template mismatch, body with files, files on a verb other than `file`, or lower-cased `get` with a body; files make a `post` carrying the form; any other verb goes out lower-cased |
| Async.Complete | clients/http.py:168-180 | an engine exception becomes RequestException; a response goes through the asynchronous normalisation to the hook |
| Async.Request | clients/http.py:140-180 | the session is acquired first and is the only client change; the engine is called exactly when middlewares and plan succeed; otherwise the request raises the middleware pipeline's exception or assertion, or else the plan's refusal |
| Async.ResolveClient | clients/http.py:135-138 | resolving leaves a client without a session as it is and otherwise closes the session |
| Async.SessionOpenedEvenWhenRefused | clients/http.py:148-152 | the first request opens the session even when it is refused |
| CrossClient.SameCallForOrdinaryVerbs | clients/http.py:152-167 | for GET, POST, PUT, PATCH and DELETE without async files and proxies, both clients plan the same call or the same refusal |
| CrossClient.BodyWithFilesOnlyBlocking | clients/http.py:245-253 | the blocking client sends body and files together; the asynchronous one refuses them |
| CrossClient.FileVerbWithoutFiles | clients/http.py:245-247 | FILE without files is refused by the blocking client and sent as verb `file` by the asynchronous one |
| CrossClient.UnknownVerb | clients/http.py:155-170 | a verb outside the blocking client's table (with or without a body, unless it lower-cases to `get` and has one) raises NotImplementedError in the blocking client (clients/http.py:279-280) and is forwarded lower-cased with its body by the asynchronous one |
| CrossClient.LowerCaseGetWithBody | clients/http.py:238-280 | `get` with a body is an unknown verb for the case-sensitive blocking client but a refused GET-with-body for the asynchronous one |
| CrossClient.ResponseHandling | clients/http.py:168-180 | an engine exception is wrapped only by the asynchronous client; a non-empty, non-null response gives both clients the same result |
| Casing.Lower | clients/http.py:155 | lower-casing keeps the length and maps each character, leaving no upper-case ASCII letter |
| Scenarios.SyncEmptyResponseBecomesEmptyMap | tests/unit/test_mock.py:63-70 | a 204 with empty content yields `({}, 204)` through the default hook |
| Scenarios.SyncTransportFailureUnwrapped | tests/unit/test_mock.py:101-107 | a failing engine's exception reaches the caller unwrapped |
| Scenarios.SyncGetWithEmptyDictRefused | tests/unit/test_mock.py:82-88 | GET with body `{}` is refused with no engine call |
| Scenarios.SyncUndefinedVerb | tests/unit/test_mock.py:196-202 | verb `#` raises NotImplementedError with no engine call |
| Scenarios.SyncFileWithEmptyMapping | tests/unit/test_mock.py:148-155 | FILE with an empty file mapping is a POST carrying it |
| Scenarios.SyncCustomHookVerbatim | tests/unit/test_mock.py:205-212 | a custom hook's `(None, 200)` is returned as it is |
| Scenarios.CopyingMiddlewareLeavesCaller | tests/unit/test_mock.py:232-241 | a copying middleware dispatches a new object carrying its header |
| Scenarios.InPlaceMiddlewareChangesCaller | tests/unit/test_mock.py:269-278 | an in-place middleware dispatches the caller's object with its header |
| Scenarios.MisplacedMiddlewaresRefused | tests/unit/test_mock.py:249-266 | each middleware registered in the other list is refused |
| Scenarios.AsyncGetDecoded | tests/unit/test_async_request.py:45-51 | the decoded document reaches the default hook unchanged and the session is open |
| Scenarios.AsyncUndefinedVerbReachesEngine | tests/unit/test_async_request.py:159-164 | verb `#` is sent to the engine and its failure becomes RequestException |
| Scenarios.AsyncFileWithoutFilesSent | tests/unit/test_async_request.py:121-129 | FILE without async files goes out as verb `file` with no data |

## Left out

- The HTTP engines (`requests.*`, `aiohttp.ClientSession.request`) are the `Send` parameter. Sockets, proxies and auth semantics are not modelled.
- `__add_files` (clients/http.py:123-133) builds an aiohttp form; it is the opaque `Form(files)` value.
- JSON encoding and decoding are not modelled: encoding is the symbolic `JsonText`, decoding arrives with the response. JSON numbers are integers.
- Asynchronous scheduling and sharing one session between concurrent requests: each request is modelled on its own, in sequence.
- What the engine does when a request is made on a closed session (the handle is kept after `resolve`) is the engine's behaviour and is not modelled.
- Python's `-O` flag, which strips `assert`: every assertion is modelled as raising.
- Bodies of types other than dict, list, str and bytes; path arguments are modelled as their `str()` text.
- Format specifiers other than `%s`: a template is a sequence of literal pieces and `%s` slots, and `%%` is a literal `%` piece.
- A subclass overriding the `url` property with a plain attribute (tests/__init__.py:65) and the unused `name` attribute.
- Side effects a middleware has on objects other than the one it returns.
- The middleware lists are stored by reference in the source, so a caller could change them after construction; the model stores them as values.
- The hook's result type is one type parameter per client, where Python allows any value per method.
- Casing.Lower: lower-cases ASCII letters only, where `str.lower` also maps other Unicode letters.
- Sync.Request: follows the code as written, so it uses Sync.Plan and not the corrected Sync.PlanIntended.
- clients/mongo.py (a pass-through to the document-store driver), setup.py, the test-server fixtures and the real-network tests are not part of this model. tests/test_request.py and tests/test_async_request.py disagree with clients/http.py and are not used.

## Findings

| source | as written | input that shows it | evidently intended | confidence | as-written member | corrected member |
|---|---|---|---|---|---|---|
| clients/http.py:248-253 | the FILE branch tests `proxies is not None` the wrong way round: with proxies configured it posts without them, and without them it passes `proxies=None` | a client with proxies `{"http": "p"}` and a FILE method with `files_sync = {}` | forward the configured proxies, as every other branch does | likely; not executed | Sync.FileDropsConfiguredProxies | Sync.PlanIntended |
