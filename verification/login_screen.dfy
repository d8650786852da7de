/** The login screen's "Send OTP" handler: validate the mobile number, ask
    the server to send a code, and move on to code entry on success. */
module LoginScreen {

  import opened JsText
  import opened JsValue
  import opened Http

  const RequestCodeUrl := "https://vtms.co.in/api/supervisor/request-otp.php"
  const EnterNumberMessage := "Please enter mobile number"
  const SendFailedMessage := "Failed to send OTP"

  /** What one press of "Send OTP" ends in. */
  datatype SendOutcome =
      /** The error text is set; nothing is sent. */
    | Refused(message: string)
      /** The screen navigates to code entry with `mobileNumber`. */
    | CodeSent(request: Request, mobileNumber: string)
      /** The error text is set to `error`. */
    | SendFailed(request: Request, error: JsVal)

  /** The POST that asks for a code. */
  function CodeRequest(mobile: string): Request {
    Request("POST", RequestCodeUrl, map["Content-Type" := "application/json"],
            JsonBody(Obj(map["mobile_number" := Str(mobile)])))
  }

  /** `handleSendOTP`, given what the number field holds and the reply the
      request gets if it is sent. */
  function HandleSendCode(input: string, reply: Reply): (r: SendOutcome)
    ensures r.Refused? <==> AllSpace(input)
    ensures r.Refused? ==> r.message == EnterNumberMessage
    ensures !r.Refused? ==> r.request == CodeRequest(Trim(input))
    ensures r.CodeSent? <==>
              && !AllSpace(input) && reply.Responded? && reply.body.Parsed?
              && Prop(reply.body.json, "status") == Str("success")
    ensures r.CodeSent? ==> r.mobileNumber == Trim(input)
    ensures r.SendFailed? ==> Truthy(r.error)
    ensures !AllSpace(input) && reply.NetworkError?
            ==> r == SendFailed(CodeRequest(Trim(input)), CaughtError(reply.message))
    ensures !AllSpace(input) && reply.Responded? && reply.body.Unparseable?
            ==> r == SendFailed(CodeRequest(Trim(input)), CaughtError(reply.body.reason))
    ensures !AllSpace(input) && reply.Responded? && reply.body.Parsed? && Nullish(reply.body.json)
            ==> r == SendFailed(CodeRequest(Trim(input)), CaughtError(NullReadMessage(reply.body.json, "status")))
  {
    var trimmed := Trim(input);
    if trimmed == "" then Refused(EnterNumberMessage)
    else
      var request := CodeRequest(trimmed);
      match reply
      case NetworkError(m) => SendFailed(request, CaughtError(m))
      case Responded(_, Unparseable(reason)) => SendFailed(request, CaughtError(reason))
      case Responded(_, Parsed(data)) =>
        if Nullish(data) then SendFailed(request, CaughtError(NullReadMessage(data, "status")))
        else if Prop(data, "status") == Str("success") then CodeSent(request, trimmed)
        else SendFailed(request, Or(Prop(data, "message"), Str(SendFailedMessage)))
  }

  /** The HTTP status is never consulted: any two replies with the same
      body end the same way. */
  lemma HttpStatusIgnored(input: string, c1: int, c2: int, body: Body)
    ensures HandleSendCode(input, Responded(c1, body)) == HandleSendCode(input, Responded(c2, body))
  {
  }

  /** A server refusal shows the body's `message` when it is truthy, else
      the fixed text. */
  lemma RefusalMessage(input: string, code: int, data: JsVal)
    requires !AllSpace(input) && !Nullish(data)
    requires Prop(data, "status") != Str("success")
    ensures HandleSendCode(input, Responded(code, Parsed(data))).SendFailed?
    ensures HandleSendCode(input, Responded(code, Parsed(data))).error ==
              if Truthy(Prop(data, "message")) then Prop(data, "message") else Str(SendFailedMessage)
  {
  }

  /** Surrounding whitespace never reaches the server or the next screen:
      inputs that trim alike are handled alike. */
  lemma TrimmedNumberIsWhatCounts(a: string, b: string, reply: Reply)
    requires Trim(a) == Trim(b)
    ensures HandleSendCode(a, reply) == HandleSendCode(b, reply)
  {
  }
}
