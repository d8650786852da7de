/** The network boundary as the client sees it: what `fetch` followed by
    `res.json()` hands back, and the requests it sends. */
module Http {

  import opened JsValue

  /** The result of `res.json()`: a parsed value, or the message of the
      SyntaxError it rejects with. */
  datatype Body = Parsed(json: JsVal) | Unparseable(reason: string)

  /** The outcome of one `fetch`: a response with its HTTP status, or the
      message of the error the call rejects with when no response arrives. */
  datatype Reply = Responded(status: int, body: Body) | NetworkError(message: string)

  /** One `FormData.append`: a plain field, or a file given as
      `{ uri, name, type }`. */
  datatype Part =
    | Field(name: string, value: JsVal)
    | File(name: string, uri: string, fileName: string, mimeType: string)

  datatype Payload = NoBody | JsonBody(json: JsVal) | Multipart(parts: seq<Part>)

  datatype Request = Request(verb: string, url: string, headers: map<string, string>, payload: Payload)

  /** What the sign-in screens show for a caught error without a message. */
  const NetworkFallback := "Network error. Please try again."

  /** The error text a sign-in screen sets from a caught exception. */
  function CaughtError(message: string): (e: JsVal)
    ensures Truthy(e)
    ensures message != "" ==> e == Str(message)
    ensures message == "" ==> e == Str(NetworkFallback)
  {
    Str(MessageOr(message, NetworkFallback))
  }

  /** The field names of a multipart body, in append order. */
  function PartNames(parts: seq<Part>): (names: seq<string>)
    ensures |names| == |parts|
    ensures forall i :: 0 <= i < |parts| ==> names[i] == parts[i].name
  {
    seq(|parts|, i requires 0 <= i < |parts| => parts[i].name)
  }
}
