/** The method descriptor: one parameterised HTTP call (clients/http.py, class `Method`). */
module Methods {
  import opened Wrappers
  import opened Values
  import opened Errors

  /** A piece of a `%`-style URL template: literal text, or one `%s` slot. */
  datatype Piece = Lit(text: string) | Slot

  type Template = seq<Piece>

  /** Number of `%s` slots in a template. */
  function Slots(t: Template): nat
  {
    if |t| == 0 then 0 else (if t[0].Slot? then 1 else 0) + Slots(t[1..])
  }

  /** Total length of a template's literal text. */
  function LiteralLength(t: Template): nat
  {
    if |t| == 0 then 0 else (if t[0].Lit? then |t[0].text| else 0) + LiteralLength(t[1..])
  }

  /** Total length of the path arguments. */
  function ArgsLength(args: seq<string>): nat
  {
    if |args| == 0 then 0 else |args[0]| + ArgsLength(args[1..])
  }

  /** The template with its slots replaced, in order, by the arguments. */
  function Fill(t: Template, args: seq<string>): (r: string)
    requires Slots(t) == |args|
    ensures |r| == LiteralLength(t) + ArgsLength(args)
  {
    if |t| == 0 then ""
    else match t[0]
      case Lit(s) => s + Fill(t[1..], args)
      case Slot => args[0] + Fill(t[1..], args[1..])
  }

  /** `template % args`: raises TypeError unless every argument fills exactly one slot. */
  function Format(t: Template, args: seq<string>): (r: Result<string, Error>)
    ensures r.Success? <==> Slots(t) == |args|
    ensures r.Failure? ==> r.error == TemplateTypeError
    ensures r.Success? ==> |r.value| == LiteralLength(t) + ArgsLength(args)
  {
    if Slots(t) == |args| then Success(Fill(t, args)) else Failure(TemplateTypeError)
  }

  lemma {:induction false} SlotsAppend(t1: Template, t2: Template)
    ensures Slots(t1 + t2) == Slots(t1) + Slots(t2)
  {
    if |t1| == 0 {
      assert t1 + t2 == t2;
    } else {
      assert (t1 + t2)[1..] == t1[1..] + t2;
      SlotsAppend(t1[1..], t2);
    }
  }

  /** Rendering is compositional: the first template's slots take the first
      arguments, in order, and the rest go to the second template. */
  lemma {:induction false} FillAppend(t1: Template, t2: Template, a1: seq<string>, a2: seq<string>)
    requires Slots(t1) == |a1| && Slots(t2) == |a2|
    ensures Slots(t1 + t2) == |a1 + a2|
    ensures Fill(t1 + t2, a1 + a2) == Fill(t1, a1) + Fill(t2, a2)
  {
    SlotsAppend(t1, t2);
    if |t1| == 0 {
      assert t1 + t2 == t2;
      assert a1 + a2 == a2;
    } else {
      var t := t1 + t2;
      assert t[0] == t1[0];
      assert t[1..] == t1[1..] + t2;
      SlotsAppend(t1[1..], t2);
      match t1[0]
      case Lit(s) =>
        FillAppend(t1[1..], t2, a1, a2);
        assert Fill(t, a1 + a2) == s + Fill(t1[1..] + t2, a1 + a2);
        assert Fill(t1, a1) == s + Fill(t1[1..], a1);
      case Slot =>
        var a := a1 + a2;
        assert a[0] == a1[0];
        assert a[1..] == a1[1..] + a2;
        FillAppend(t1[1..], t2, a1[1..], a2);
        assert Fill(t, a) == a1[0] + Fill(t1[1..] + t2, a1[1..] + a2);
        assert Fill(t1, a1) == a1[0] + Fill(t1[1..], a1[1..]);
    }
  }

  /** A response hook: `(payload, status) -> R`, or an exception. */
  type Hook<R> = (Payload, int) -> Result<R, Cause>

  /** The class-level attributes of a `Method` subclass. */
  datatype Descriptor<R> = Descriptor(
    verb: string,
    template: Template,
    headers: Option<Dict>,
    body: Option<Body>,
    params: Option<Dict>,
    count: int,
    auth: Option<Auth>,
    filesAsync: Option<seq<AsyncFile>>,
    filesSync: Option<FileMap>,
    hook: Hook<R>)

  /** A constructed method: its attributes and the positional path arguments. */
  datatype Method<R> = Method(d: Descriptor<R>, args: seq<string>)

  /** The default `response_process`: returns `(payload, status)` unchanged. */
  function DefaultHook(payload: Payload, status: int): (r: Result<(Payload, int), Cause>)
    ensures r == Success((payload, status))
  {
    Success((payload, status))
  }

  /** `Method(*args)`: succeeds exactly when the number of arguments is `count`. */
  function Construct<R>(d: Descriptor<R>, args: seq<string>): (r: Result<Method<R>, Error>)
    ensures r.Success? <==> |args| == d.count
    ensures r.Success? ==> r.value.d == d && r.value.args == args
    ensures r.Failure? ==> r.error == AssertionError(ArgCountMismatch(d.count, |args|))
  {
    if |args| == d.count then Success(Method(d, args))
    else Failure(AssertionError(ArgCountMismatch(d.count, |args|)))
  }

  /** The full request URL: the client's endpoint followed by `url_ % args`. */
  function FullUrl<R>(endpoint: string, m: Method<R>): (r: Result<string, Error>)
    ensures r.Success? <==> Slots(m.d.template) == |m.args|
    ensures r.Failure? ==> r.error == TemplateTypeError
    ensures r.Success? ==> endpoint <= r.value
    ensures r.Success? ==> |r.value| == |endpoint| + LiteralLength(m.d.template) + ArgsLength(m.args)
  {
    var path :- Format(m.d.template, m.args);
    Success(endpoint + path)
  }

  /** A method built with as many arguments as its template has slots always
      renders, and its URL is the endpoint followed by the filled template. */
  lemma ConstructedUrl<R>(endpoint: string, d: Descriptor<R>, args: seq<string>)
    requires Construct(d, args).Success?
    requires Slots(d.template) == d.count
    ensures FullUrl(endpoint, Construct(d, args).value).Success?
    ensures FullUrl(endpoint, Construct(d, args).value).value == endpoint + Fill(d.template, args)
  {
  }

  /** `body_`: absent when there is no body, JSON text for a dict or list, the
      str or bytes themselves otherwise. */
  function WireBody(body: Option<Body>): (r: Option<Data>)
    ensures r.None? <==> body.None?
    ensures r.Some? ==> (r.value.JsonText? <==> body.value.DictBody? || body.value.ListBody?)
    ensures body.Some? && body.value.DictBody? ==> r.value == JsonText(JObject(body.value.fields))
    ensures body.Some? && body.value.ListBody? ==> r.value == JsonText(JArray(body.value.items))
    ensures body.Some? && body.value.StrBody? ==> r.value == Text(body.value.text)
    ensures body.Some? && body.value.BytesBody? ==> r.value == Bytes(body.value.bytes)
  {
    match body
    case None => None
    case Some(DictBody(fields)) => Some(JsonText(JObject(fields)))
    case Some(ListBody(items)) => Some(JsonText(JArray(items)))
    case Some(StrBody(text)) => Some(Text(text))
    case Some(BytesBody(bytes)) => Some(Bytes(bytes))
  }
}
