/** The authenticated driver endpoints: status, start duty and end duty.
    Each reduces an HTTP status and a loosely typed body to success (the
    body itself) or to the Error the caller catches. */
module DriverApi {

  import opened Optional
  import opened JsValue
  import opened Http

  const BaseUrl := "https://vtms.co.in/api/supervisor/driver"
  const StatusUrl := BaseUrl + "/status.php?1=1"
  const StartDutyUrl := BaseUrl + "/start-duty.php"
  const EndDutyUrl := BaseUrl + "/end-duty.php"

  /** The multipart fields each duty endpoint documents, in order. */
  const StartDutyFields := ["odometer_reading", "booking_id", "user_name", "user_phone_no",
                            "start_latitude", "start_longitude", "odometer_photo"]
  const EndDutyFields := ["odometer_reading", "end_latitude", "end_longitude", "end_odometer_photo"]

  /** The headers of an authenticated call, given what storage holds under
      the bearer-token key `@vtstaff_jwt_token` (None when nothing is
      stored). */
  function AuthHeaders(stored: Option<string>): (h: map<string, string>)
    ensures "Authorization" in h <==> stored.Some? && stored.value != ""
    ensures "Authorization" in h ==> h["Authorization"] == "Bearer " + stored.value
    ensures h.Keys <= {"Authorization"}
  {
    if stored.Some? && stored.value != "" then map["Authorization" := "Bearer " + stored.value]
    else map[]
  }

  datatype Endpoint = StatusEndpoint | StartEndpoint | EndEndpoint

  /** The message used when a failed response carries no usable `message`. */
  function DefaultFailure(e: Endpoint): string {
    match e
    case StatusEndpoint => "Failed to fetch status"
    case StartEndpoint => "Failed to start duty"
    case EndEndpoint => "Failed to end duty"
  }

  function StatusRequest(stored: Option<string>): Request {
    Request("GET", StatusUrl, AuthHeaders(stored), NoBody)
  }

  /** The POST of a duty form; no content type is set, so the multipart
      boundary is chosen by the transport. */
  function DutyRequest(e: Endpoint, stored: Option<string>, parts: seq<Part>): Request
    requires e != StatusEndpoint
  {
    Request("POST", if e == StartEndpoint then StartDutyUrl else EndDutyUrl, AuthHeaders(stored), Multipart(parts))
  }

  /** What the caller learns from one call. The last three are the message
      of the Error it catches. */
  datatype ApiOutcome =
    | Ok(json: JsVal)
    | Unauthorized(message: string)
    | Failed(message: string)
      /** No response, an unparseable status body, or a property read on a
          `null` body: an error the client code does not raise itself. */
    | Threw(message: string)

  /** The duty endpoints read an unparseable body as `{}`; the status
      endpoint lets the SyntaxError escape. */
  function BodyValue(body: Body): JsVal {
    match body
    case Parsed(j) => j
    case Unparseable(_) => EmptyObject
  }

  /** The body can be inspected without an exception. */
  predicate Readable(e: Endpoint, body: Body) {
    match body
    case Parsed(j) => !Nullish(j)
    case Unparseable(_) => e != StatusEndpoint
  }

  /** The values of the body's `status` field a successful response may
      carry: absent, any other falsy value, or the number 200. */
  const AcceptedStatusValues: set<JsVal> := FalsyValues + {Num(200)}

  /** The message of an Error built from `json.message || fallback`. */
  function MessageOrDefault(json: JsVal, fallback: string): string {
    ErrorMessage(Or(Prop(json, "message"), Str(fallback)))
  }

  /** The response handling shared by the three endpoints. */
  function Classify(e: Endpoint, reply: Reply): (r: ApiOutcome)
    ensures r.Unauthorized? <==> reply.Responded? && reply.status == 401 && Readable(e, reply.body)
    ensures r.Ok? <==>
              && reply.Responded? && reply.status == 200 && Readable(e, reply.body)
              && Prop(BodyValue(reply.body), "status") in AcceptedStatusValues
    ensures r.Ok? ==> r.json == BodyValue(reply.body)
    ensures r.Failed? ==> reply.Responded? && reply.status != 401
    ensures (r.Failed? || r.Unauthorized?) ==>
              var m := Prop(BodyValue(reply.body), "message");
              r.message == (if Truthy(m) then ToJsString(m)
                            else if r.Failed? then DefaultFailure(e) else "Unauthorized")
    ensures r.Failed? <==> reply.Responded? && Readable(e, reply.body) && reply.status != 401 && !r.Ok?
    ensures r.Threw? <==> reply.NetworkError? || !Readable(e, reply.body)
    ensures reply.NetworkError? ==> r == Threw(reply.message)
    ensures reply.Responded? && reply.body.Unparseable? && e == StatusEndpoint ==> r == Threw(reply.body.reason)
    ensures r.Threw? ==> r.message != "" || reply.NetworkError? || reply.body.Unparseable?
  {
    match reply
    case NetworkError(m) => Threw(m)
    case Responded(code, body) =>
      FalsyValuesAreTheFalsy(Prop(BodyValue(body), "status"));
      if body.Unparseable? && e == StatusEndpoint then Threw(body.reason)
      else
        var json := BodyValue(body);
        if Nullish(json) then Threw(NullReadMessage(json, if code == 200 then "status" else "message"))
        else if code == 401 then Unauthorized(MessageOrDefault(json, "Unauthorized"))
        else if code != 200 || (Truthy(Prop(json, "status")) && Prop(json, "status") != Num(200)) then
          Failed(MessageOrDefault(json, DefaultFailure(e)))
        else Ok(json)
  }

  /** `getDriverStatus` */
  function GetDriverStatus(reply: Reply): ApiOutcome {
    Classify(StatusEndpoint, reply)
  }

  /** `startDuty` */
  function StartDuty(reply: Reply): ApiOutcome {
    Classify(StartEndpoint, reply)
  }

  /** `endDuty` */
  function EndDuty(reply: Reply): ApiOutcome {
    Classify(EndEndpoint, reply)
  }

  /** At HTTP 401 the body's `status` field plays no part: two readable
      bodies with the same `message` give the same Unauthorized error. */
  lemma UnauthorizedIgnoresBodyStatus(e: Endpoint, j1: JsVal, j2: JsVal)
    requires !Nullish(j1) && !Nullish(j2)
    requires Prop(j1, "message") == Prop(j2, "message")
    ensures Classify(e, Responded(401, Parsed(j1))) == Classify(e, Responded(401, Parsed(j2)))
    ensures Classify(e, Responded(401, Parsed(j1))).Unauthorized?
  {
  }

  /** A body status of `'success'` is not a success for these endpoints. */
  lemma SuccessStringFails(e: Endpoint, json: JsVal)
    requires Prop(json, "status") == Str("success")
    ensures !Classify(e, Responded(200, Parsed(json))).Ok?
    ensures Classify(e, Responded(200, Parsed(json))).Failed?
  {
  }

  /** For the duty endpoints an unparseable body behaves as `{}`: HTTP 200
      succeeds with `{}`, 401 is Unauthorized with the default text, and any
      other status fails with the endpoint's default message. */
  lemma DutyToleratesUnparseableBody(e: Endpoint, code: int, reason: string)
    requires e != StatusEndpoint
    ensures Classify(e, Responded(code, Unparseable(reason))) ==
              if code == 401 then Unauthorized("Unauthorized")
              else if code == 200 then Ok(EmptyObject)
              else Failed(DefaultFailure(e))
  {
  }

  /** The status endpoint does not tolerate an unparseable body, even at
      401: the parse error is what the caller sees. */
  lemma StatusRejectsUnparseableBody(code: int, reason: string)
    ensures GetDriverStatus(Responded(code, Unparseable(reason))) == Threw(reason)
  {
  }

  /** On a parsed body the duty endpoints classify exactly as the status
      endpoint does; only the default failure message differs. */
  lemma DutyEndpointsClassifyLikeStatus(e: Endpoint, code: int, json: JsVal)
    requires e != StatusEndpoint
    ensures var d := Classify(e, Responded(code, Parsed(json)));
            var s := GetDriverStatus(Responded(code, Parsed(json)));
            && (d.Ok? <==> s.Ok?) && (d.Unauthorized? <==> s.Unauthorized?)
            && (d.Failed? <==> s.Failed?) && (d.Threw? <==> s.Threw?)
            && (d.Ok? || d.Unauthorized? || d.Threw? ==> d == s)
            && (d.Failed? && Truthy(Prop(json, "message")) ==> d == s)
  {
  }
}
