/** The code-entry screen's "Verify" handler: validate the code, verify it
    with the server, find the bearer token in the reply and store it. */
module OtpScreen {

  import opened JsText
  import opened JsValue
  import opened Http

  const VerifyUrl := "https://vtms.co.in/api/supervisor/verify-otp.php"
  const EnterOtpMessage := "Please enter OTP"
  const MissingMobileMessage := "Mobile number missing. Go back and try again."
  const NoTokenMessage := "Login succeeded but no token received. Check API response."
  const InvalidOtpMessage := "Invalid OTP. Please try again."

  /** What one press of "Verify" ends in. */
  datatype VerifyOutcome =
      /** The error text is set; nothing is sent. */
    | Refused(message: string)
      /** `token` is written under the bearer-token storage key
          (`@vtstaff_jwt_token`), then the navigation stack is reset to
          Home. */
    | SignedIn(request: Request, token: JsVal)
      /** The error text is `message`; nothing is stored and the screen
          stays. */
    | TokenMissing(request: Request, message: string)
      /** The error text is set to `error`. */
    | VerifyFailed(request: Request, error: JsVal)

  /** The POST that verifies a code for a number. */
  function VerifyRequest(mobile: JsVal, code: string): Request {
    Request("POST", VerifyUrl, map["Content-Type" := "application/json"],
            JsonBody(Obj(map["phone" := mobile, "otp" := Str(code)])))
  }

  /** The places a token may sit in the reply, in the order they are tried. */
  const TokenPaths: seq<seq<string>> :=
    [["token"], ["jwt"], ["access_token"], ["data", "token"], ["data", "jwt"], ["data", "access_token"]]

  /** `v?.p0?.p1…` */
  function PathValue(v: JsVal, path: seq<string>): JsVal
    decreases |path|
  {
    if path == [] then v else PathValue(Prop(v, path[0]), path[1..])
  }

  /** The values at `TokenPaths`, in order. */
  function TokenCandidates(data: JsVal): (c: seq<JsVal>)
    ensures |c| == |TokenPaths|
  {
    seq(|TokenPaths|, i requires 0 <= i < |TokenPaths| => PathValue(data, TokenPaths[i]))
  }

  /** `vs[0] || vs[1] || …`: the first truthy value, else the last one. */
  function FirstTruthy(vs: seq<JsVal>): (r: JsVal)
    requires |vs| > 0
    ensures Truthy(r) <==> exists i :: 0 <= i < |vs| && Truthy(vs[i])
    ensures forall i :: 0 <= i < |vs| && Truthy(vs[i]) && (forall j :: 0 <= j < i ==> !Truthy(vs[j])) ==> r == vs[i]
    ensures !Truthy(r) ==> r == vs[|vs| - 1]
  {
    if Truthy(vs[0]) || |vs| == 1 then vs[0]
    else
      var r := FirstTruthy(vs[1..]);
      assert forall i :: 1 <= i < |vs| ==> vs[i] == vs[1..][i - 1];
      r
  }

  /** The token expression of the verify handler, as written: a chain of
      `||` over the six locations. */
  function ExtractToken(data: JsVal): (t: JsVal)
    ensures Truthy(Prop(data, "token")) ==> t == Prop(data, "token")
    ensures Truthy(t) <==> Truthy(Prop(data, "token")) || Truthy(Prop(data, "jwt")) || Truthy(Prop(data, "access_token"))
                           || Truthy(Prop(Prop(data, "data"), "token")) || Truthy(Prop(Prop(data, "data"), "jwt"))
                           || Truthy(Prop(Prop(data, "data"), "access_token"))
    ensures !Truthy(t) ==> t == Prop(Prop(data, "data"), "access_token")
  {
    var nested := Prop(data, "data");
    Or(Or(Or(Or(Or(Prop(data, "token"), Prop(data, "jwt")), Prop(data, "access_token")),
                Prop(nested, "token")), Prop(nested, "jwt")), Prop(nested, "access_token"))
  }

  /** One step of the search: the head if truthy, else the search of the
      rest. */
  lemma FirstTruthyStep(vs: seq<JsVal>)
    requires |vs| >= 2
    ensures FirstTruthy(vs) == Or(vs[0], FirstTruthy(vs[1..]))
  {
  }

  /** The six candidates, spelled out. */
  lemma CandidatesListed(data: JsVal)
    ensures var nested := Prop(data, "data");
            TokenCandidates(data) == [Prop(data, "token"), Prop(data, "jwt"), Prop(data, "access_token"),
                                      Prop(nested, "token"), Prop(nested, "jwt"), Prop(nested, "access_token")]
  {
    var c := TokenCandidates(data);
    var nested := Prop(data, "data");
    assert c[0] == Prop(data, "token");
    assert c[1] == Prop(data, "jwt");
    assert c[2] == Prop(data, "access_token");
    assert c[3] == Prop(nested, "token");
    assert c[4] == Prop(nested, "jwt");
    assert c[5] == Prop(nested, "access_token");
  }

  /** The search over six values is their left-nested `||` chain. */
  lemma FirstTruthyOfSix(a: JsVal, b: JsVal, c: JsVal, d: JsVal, e: JsVal, f: JsVal)
    ensures FirstTruthy([a, b, c, d, e, f]) == Or(Or(Or(Or(Or(a, b), c), d), e), f)
  {
    var vs := [a, b, c, d, e, f];
    FirstTruthyStep(vs);
    assert vs[1..] == [b, c, d, e, f];
    FirstTruthyStep([b, c, d, e, f]);
    assert [b, c, d, e, f][1..] == [c, d, e, f];
    FirstTruthyStep([c, d, e, f]);
    assert [c, d, e, f][1..] == [d, e, f];
    FirstTruthyStep([d, e, f]);
    assert [d, e, f][1..] == [e, f];
    FirstTruthyStep([e, f]);
    assert [e, f][1..] == [f];
  }

  /** The `||` chain is exactly the ordered first-truthy search over
      `TokenPaths`. */
  lemma ExtractTokenIsFirstTruthy(data: JsVal)
    ensures ExtractToken(data) == FirstTruthy(TokenCandidates(data))
  {
    CandidatesListed(data);
    var nested := Prop(data, "data");
    FirstTruthyOfSix(Prop(data, "token"), Prop(data, "jwt"), Prop(data, "access_token"),
                     Prop(nested, "token"), Prop(nested, "jwt"), Prop(nested, "access_token"));
  }

  /** A truthy top-level token wins over anything nested under `data`. */
  lemma TopLevelTokenWins(props: map<string, JsVal>, nested: JsVal)
    requires Truthy(Prop(Obj(props), "token")) || Truthy(Prop(Obj(props), "jwt"))
             || Truthy(Prop(Obj(props), "access_token"))
    ensures ExtractToken(Obj(props["data" := nested])) == ExtractToken(Obj(props))
    ensures ExtractToken(Obj(props)) in {Prop(Obj(props), "token"), Prop(Obj(props), "jwt"), Prop(Obj(props), "access_token")}
  {
  }

  /** The reply accepted as a successful verification: HTTP 200 and a body
      status of the number 200 or the string `'success'`. */
  predicate Verified(reply: Reply) {
    && reply.Responded? && reply.status == 200 && reply.body.Parsed?
    && Prop(reply.body.json, "status") in {Num(200), Str("success")}
  }

  /** `handleVerifyOTP`, given the code field, the number handed over by the
      login screen, and the reply the request gets if it is sent. */
  function HandleVerify(input: string, mobile: JsVal, reply: Reply): (r: VerifyOutcome)
    ensures r.Refused? <==> AllSpace(input) || !Truthy(mobile)
    ensures r.Refused? ==> r.message == if AllSpace(input) then EnterOtpMessage else MissingMobileMessage
    ensures !r.Refused? ==> r.request == VerifyRequest(mobile, Trim(input))
    ensures (r.SignedIn? || r.TokenMissing?) <==> !r.Refused? && Verified(reply)
    ensures r.SignedIn? <==> !r.Refused? && Verified(reply)
                             && exists i :: 0 <= i < |TokenPaths| && Truthy(TokenCandidates(reply.body.json)[i])
    ensures r.SignedIn? ==> r.token == FirstTruthy(TokenCandidates(reply.body.json)) && Truthy(r.token)
    ensures r.TokenMissing? ==> r.message == NoTokenMessage
    ensures r.VerifyFailed? ==> Truthy(r.error)
    ensures !r.Refused? && reply.Responded? && reply.body.Parsed? && Nullish(reply.body.json)
            ==> r == VerifyFailed(VerifyRequest(mobile, Trim(input)),
                                  CaughtError(NullReadMessage(reply.body.json, if reply.status == 200 then "status" else "message")))
    ensures !r.Refused? && reply.NetworkError?
            ==> r == VerifyFailed(VerifyRequest(mobile, Trim(input)), CaughtError(reply.message))
    ensures !r.Refused? && reply.Responded? && reply.body.Unparseable?
            ==> r == VerifyFailed(VerifyRequest(mobile, Trim(input)), CaughtError(reply.body.reason))
  {
    var code := Trim(input);
    if code == "" then Refused(EnterOtpMessage)
    else if !Truthy(mobile) then Refused(MissingMobileMessage)
    else
      var request := VerifyRequest(mobile, code);
      match reply
      case NetworkError(m) => VerifyFailed(request, CaughtError(m))
      case Responded(_, Unparseable(reason)) => VerifyFailed(request, CaughtError(reason))
      case Responded(status, Parsed(data)) =>
        if Nullish(data) then
          VerifyFailed(request, CaughtError(NullReadMessage(data, if status == 200 then "status" else "message")))
        else if status == 200 && (Prop(data, "status") == Num(200) || Prop(data, "status") == Str("success")) then
          var token := ExtractToken(data);
          ExtractTokenIsFirstTruthy(data);
          if Truthy(token) then SignedIn(request, token) else TokenMissing(request, NoTokenMessage)
        else VerifyFailed(request, Or(Prop(data, "message"), Str(InvalidOtpMessage)))
  }

  /** A verified reply whose `||` chain yields a truthy token signs in
      with exactly that token. */
  lemma TokenSignsIn(input: string, mobile: JsVal, data: JsVal)
    requires !AllSpace(input) && Truthy(mobile) && !Nullish(data)
    requires Prop(data, "status") in {Num(200), Str("success")} && Truthy(ExtractToken(data))
    ensures HandleVerify(input, mobile, Responded(200, Parsed(data)))
            == SignedIn(VerifyRequest(mobile, Trim(input)), ExtractToken(data))
  {
  }

  /** A rejected verification shows the body's `message` when it is truthy,
      else the fixed text. */
  lemma RejectionMessage(input: string, mobile: JsVal, code: int, data: JsVal)
    requires !AllSpace(input) && Truthy(mobile) && !Nullish(data)
    requires !Verified(Responded(code, Parsed(data)))
    ensures HandleVerify(input, mobile, Responded(code, Parsed(data))).VerifyFailed?
    ensures HandleVerify(input, mobile, Responded(code, Parsed(data))).error ==
              if Truthy(Prop(data, "message")) then Prop(data, "message") else Str(InvalidOtpMessage)
  {
  }
}
