/** The values that travel through a client: JSON documents, declared request
    bodies, the data handed to the transport and the payload a response hook
    receives. */
module Values {
  import opened Wrappers

  newtype byte = x: int | 0 <= x < 256

  /** A JSON document. Numbers are integers in this model. */
  datatype Json =
    | JNull
    | JBool(b: bool)
    | JNumber(n: int)
    | JString(s: string)
    | JArray(items: seq<Json>)
    | JObject(fields: seq<(string, Json)>)

  /** The empty mapping `{}`. */
  const EmptyObject: Json := JObject([])

  /** The `body` attribute of a method: a dict, a list, a str or bytes. */
  datatype Body =
    | DictBody(fields: seq<(string, Json)>)
    | ListBody(items: seq<Json>)
    | StrBody(text: string)
    | BytesBody(bytes: seq<byte>)

  /** An exception raised by code outside the model (transport, hook, middleware). */
  datatype Cause = Cause(description: string)

  /** A file handle given to the blocking client in `files_sync`. */
  datatype FileHandle = FileHandle(name: string, content: seq<byte>)

  /** One `AsyncFile` record: form field, content, file name, content type. */
  datatype AsyncFile = AsyncFile(field: string, content: seq<byte>, filename: string, contentType: string)

  type Dict = map<string, string>
  type FileMap = map<string, FileHandle>
  type Auth = (string, string)

  /** The request data handed to the transport. `JsonText(doc)` stands for the
      JSON text of `doc`; the encoder itself is not modelled. `Form(files)` is
      the multipart form built from the async file records. */
  datatype Data =
    | JsonText(doc: Json)
    | Text(text: string)
    | Bytes(bytes: seq<byte>)
    | Form(files: seq<AsyncFile>)

  /** The first argument of a response hook: a decoded JSON document, or the
      raw response content when decoding failed. */
  datatype Payload = Decoded(doc: Json) | RawContent(bytes: seq<byte>)
}
