/** End-to-end runs through the screens: sign-in, the status fetch that
    follows it, the vehicle gate on Home and a complete start of duty. */
module Flows {

  import opened Optional
  import opened JsText
  import opened JsValue
  import opened Http
  import opened DriverApi
  import opened ImagePicker
  import LoginScreen
  import OtpScreen
  import HomeScreen
  import StartDutyScreen
  import DutyForm

  /** The token a sign-in leaves in storage, when it is a string. */
  function StoredAfter(outcome: OtpScreen.VerifyOutcome, before: Option<string>): (after: Option<string>)
    ensures !outcome.SignedIn? ==> after == before
    ensures outcome.SignedIn? && outcome.token.Str? ==> after == Some(outcome.token.s)
  {
    if outcome.SignedIn? && outcome.token.Str? then Some(outcome.token.s) else before
  }

  /** A number without surrounding spaces and a `'success'` reply move on
      to code entry with that same number. */
  lemma CodeRequestSucceeds(mobile: string, code: int, rest: map<string, JsVal>)
    requires mobile != "" && !IsJsSpace(mobile[0]) && !IsJsSpace(mobile[|mobile| - 1])
    ensures var r := LoginScreen.HandleSendCode(mobile, Responded(code, Parsed(Obj(rest["status" := Str("success")]))));
            r == LoginScreen.CodeSent(LoginScreen.CodeRequest(mobile), mobile)
  {
    TrimKeepsTrimmed(mobile);
  }

  /** The reply `{ …rest, status: 200, token: t }`. */
  function TokenReply(rest: map<string, JsVal>, t: string): JsVal {
    Obj(rest["status" := Num(200)]["token" := Str(t)])
  }

  /** Its status is 200 and its token is `t`. */
  lemma TokenReplyReads(rest: map<string, JsVal>, t: string)
    requires t != ""
    ensures Prop(TokenReply(rest, t), "status") == Num(200)
    ensures OtpScreen.ExtractToken(TokenReply(rest, t)) == Str(t)
  {
    assert Prop(TokenReply(rest, t), "token") == Str(t);
  }

  /** A verified reply with a top-level string token signs in with it,
      having sent the trimmed code. */
  lemma SignInWithToken(code: string, mobile: string, t: string, rest: map<string, JsVal>)
    requires !AllSpace(code) && mobile != "" && t != ""
    ensures OtpScreen.HandleVerify(code, Str(mobile), Responded(200, Parsed(TokenReply(rest, t))))
            == OtpScreen.SignedIn(OtpScreen.VerifyRequest(Str(mobile), Trim(code)), Str(t))
  {
    TokenReplyReads(rest, t);
    OtpScreen.TokenSignsIn(code, Str(mobile), TokenReply(rest, t));
  }

  /** After that sign-in the stored token is `t`, and the status request
      that follows carries it as a bearer credential. */
  lemma SignInAuthorizesStatus(code: string, mobile: string, t: string, rest: map<string, JsVal>, before: Option<string>)
    requires !AllSpace(code) && mobile != "" && t != ""
    ensures var r := OtpScreen.HandleVerify(code, Str(mobile), Responded(200, Parsed(TokenReply(rest, t))));
            && StoredAfter(r, before) == Some(t)
            && StatusRequest(StoredAfter(r, before)).headers == map["Authorization" := "Bearer " + t]
  {
    SignInWithToken(code, mobile, t, rest);
    assert AuthHeaders(Some(t)) == map["Authorization" := "Bearer " + t];
  }

  /** A status without a vehicle, sent bare or wrapped in `data`, blocks
      the start of duty: the button is disabled and a press alerts
      'Cannot start duty' whatever the later steps would do. */
  lemma NoVehicleBlocksStart(fields: map<string, JsVal>, wrapped: bool, confirmed: bool, permitted: bool,
                             fix: HomeScreen.Fix)
    requires !Truthy(Prop(Obj(fields), "has_vehicle")) && "data" !in fields && "status" !in fields
    ensures var json := if wrapped then Obj(map["status" := Num(200), "data" := Obj(fields)]) else Obj(fields);
            var loaded := HomeScreen.AfterFetch(GetDriverStatus(Responded(200, Parsed(json))));
            var v := HomeScreen.ViewOf(loaded.status);
            && loaded == HomeScreen.Loaded(Obj(fields), "")
            && HomeScreen.StartDisabled(v)
            && HomeScreen.HandleStartDuty(v, confirmed, permitted, fix) == HomeScreen.NoVehicle
  {
    var json := if wrapped then Obj(map["status" := Num(200), "data" := Obj(fields)]) else Obj(fields);
    assert Prop(json, "status") in AcceptedStatusValues;
  }

  /** The booking Home reads for a driver named `name` with phone `phone`. */
  function BookingOf(bookingId: JsVal, name: string, phone: string, rest: map<string, JsVal>): JsVal {
    Obj(rest["booking_id" := bookingId]["user_name" := Str(name)]["user_phone" := Str(phone)])
  }

  /** Home hands the booking fields and the position over to the
      start-duty form, which reads them unchanged. */
  lemma StartNavigation(v: HomeScreen.View, bookingId: JsVal, name: string, phone: string, rest: map<string, JsVal>,
                        latitude: string, longitude: string)
    requires Truthy(v.hasVehicle) && Truthy(bookingId) && name != ""
    requires v.booking == BookingOf(bookingId, name, phone, rest)
    ensures var d := HomeScreen.HandleStartDuty(v, true, true, HomeScreen.Fix(latitude, longitude));
            && d.GoToStartDuty?
            && StartDutyScreen.ReadParams(d.params)
               == StartDutyScreen.Params(bookingId, Str(name), Str(phone), Str(latitude), Str(longitude))
  {
    var booking := BookingOf(bookingId, name, phone, rest);
    assert Prop(booking, "booking_id") == bookingId;
    assert Prop(booking, "user_name") == Str(name);
    assert Prop(booking, "user_phone") == Str(phone);
    HomeScreen.StartParamsAsRead(booking, latitude, longitude);
  }

  /** The start-duty POST with a stored token: exactly the documented
      seven parts, sent with the bearer token. */
  lemma StartRequestLayout(reading: string, p: StartDutyScreen.Params, token: string, uri: string)
    requires token != ""
    ensures DutyRequest(StartEndpoint, Some(token), StartDutyScreen.StartForm(reading, p, uri))
            == Request("POST", StartDutyUrl, map["Authorization" := "Bearer " + token], Multipart([
                 Field("odometer_reading", Str(reading)),
                 Field("booking_id", p.bookingId),
                 Field("user_name", p.userName),
                 Field("user_phone_no", p.userPhoneNo),
                 Field("start_latitude", p.startLatitude),
                 Field("start_longitude", p.startLongitude),
                 File("odometer_photo", uri, "odometer.jpg", "image/jpeg")]))
  {
    assert AuthHeaders(Some(token)) == map["Authorization" := "Bearer " + token];
  }

  /** A reading that has no surrounding spaces, a photo the resizer
      accepts and a server that accepts: the reading is sent as typed. */
  lemma StartSubmissionSent(reading: string, photo: JsVal, p: StartDutyScreen.Params, token: string,
                            resize: JsVal -> Resized, reply: Reply)
    requires reading != "" && !IsJsSpace(reading[0]) && !IsJsSpace(reading[|reading| - 1])
    requires Truthy(photo) && resize(photo).Resized? && StartDuty(reply).Ok?
    ensures StartDutyScreen.HandleSubmit(reading, photo, p, Some(token), resize, reply)
            == DutyForm.Accepted(DutyRequest(StartEndpoint, Some(token), StartDutyScreen.StartForm(reading, p, resize(photo).uri)))
  {
    TrimKeepsTrimmed(reading);
    assert !AllSpace(reading) by { assert !IsJsSpace(reading[0]); }
    StartDutyScreen.StartAccepted(reading, photo, p, Some(token), resize, reply);
  }

  /** The two halves together: from the Start Duty press on Home to the
      accepted submission of the form Home navigated to, carrying the
      booking's id, name and phone and the position. */
  lemma StartDutyFlow(v: HomeScreen.View, bookingId: JsVal, name: string, phone: string, rest: map<string, JsVal>,
                      latitude: string, longitude: string, reading: string, photo: JsVal, token: string,
                      resize: JsVal -> Resized, reply: Reply)
    requires Truthy(v.hasVehicle) && Truthy(bookingId) && name != ""
    requires v.booking == BookingOf(bookingId, name, phone, rest)
    requires reading != "" && !IsJsSpace(reading[0]) && !IsJsSpace(reading[|reading| - 1])
    requires Truthy(photo) && resize(photo).Resized? && StartDuty(reply).Ok? && token != ""
    ensures var d := HomeScreen.HandleStartDuty(v, true, true, HomeScreen.Fix(latitude, longitude));
            && d.GoToStartDuty?
            && var r := StartDutyScreen.HandleSubmit(reading, photo, StartDutyScreen.ReadParams(d.params),
                                                     Some(token), resize, reply);
               && r.Accepted?
               && r.request.payload.parts == [
                    Field("odometer_reading", Str(reading)),
                    Field("booking_id", bookingId),
                    Field("user_name", Str(name)),
                    Field("user_phone_no", Str(phone)),
                    Field("start_latitude", Str(latitude)),
                    Field("start_longitude", Str(longitude)),
                    File("odometer_photo", resize(photo).uri, "odometer.jpg", "image/jpeg")]
  {
    StartNavigation(v, bookingId, name, phone, rest, latitude, longitude);
    var d := HomeScreen.HandleStartDuty(v, true, true, HomeScreen.Fix(latitude, longitude));
    var p := StartDutyScreen.ReadParams(d.params);
    StartSubmissionSent(reading, photo, p, token, resize, reply);
    StartRequestLayout(reading, p, token, resize(photo).uri);
  }
}
