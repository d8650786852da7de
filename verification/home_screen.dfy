/** The home screen: the driver status it fetches, the defaults it reads
    the status with, the duration label, the Start/End buttons and the
    navigation to the duty forms. */
module HomeScreen {

  import opened JsText
  import opened JsValue
  import opened DriverApi
  import StartDutyScreen
  import EndDutyScreen

  const LoadFallback := "Failed to load status"
  const LocationDeniedMessage := "Location permission denied. Please allow location access from app settings."
  const LocationFallback := "Please enable location and try again."

  /** The status state and the error text after one fetch. */
  datatype Loaded = Loaded(status: JsVal, error: string)

  /** `fetchStatus`: the payload is `res.data ?? res`; a failure clears the
      status and shows the Error's message or the fixed text. */
  function AfterFetch(outcome: ApiOutcome): (s: Loaded)
    ensures outcome.Ok? ==> s.error == ""
    ensures outcome.Ok? && !Nullish(Prop(outcome.json, "data")) ==> s.status == Prop(outcome.json, "data")
    ensures outcome.Ok? && Nullish(Prop(outcome.json, "data")) ==> s.status == outcome.json
    ensures !outcome.Ok? ==> s.status == Null && s.error != ""
    ensures !outcome.Ok? && outcome.message != "" ==> s.error == outcome.message
    ensures !outcome.Ok? && outcome.message == "" ==> s.error == LoadFallback
  {
    match outcome
    case Ok(res) => Loaded(Coalesce(Prop(res, "data"), res), "")
    case Unauthorized(m) => Loaded(Null, MessageOr(m, LoadFallback))
    case Failed(m) => Loaded(Null, MessageOr(m, LoadFallback))
    case Threw(m) => Loaded(Null, MessageOr(m, LoadFallback))
  }

  /** The fields the screen reads from the status. */
  datatype View = View(dutyStatus: JsVal, hasVehicle: JsVal, booking: JsVal, duration: JsVal)

  /** `status?.field ?? default` for the four fields. */
  function ViewOf(status: JsVal): (v: View)
    ensures Nullish(status) ==> v == View(Str("off_duty"), Bool(false), Null, Num(0))
    ensures !Nullish(v.dutyStatus) && !Nullish(v.hasVehicle) && !Nullish(v.duration)
    ensures !Nullish(Prop(status, "duty_status")) ==> v.dutyStatus == Prop(status, "duty_status")
    ensures Nullish(Prop(status, "duty_status")) ==> v.dutyStatus == Str("off_duty")
    ensures Nullish(Prop(status, "has_vehicle")) ==> v.hasVehicle == Bool(false)
    ensures Nullish(Prop(status, "duration")) ==> v.duration == Num(0)
    ensures !Nullish(Prop(status, "has_vehicle")) ==> v.hasVehicle == Prop(status, "has_vehicle")
    ensures !Nullish(Prop(status, "booking")) ==> v.booking == Prop(status, "booking")
    ensures Nullish(Prop(status, "booking")) ==> v.booking == Null
    ensures !Nullish(Prop(status, "duration")) ==> v.duration == Prop(status, "duration")
  {
    View(Coalesce(Prop(status, "duty_status"), Str("off_duty")),
         Coalesce(Prop(status, "has_vehicle"), Bool(false)),
         Coalesce(Prop(status, "booking"), Null),
         Coalesce(Prop(status, "duration"), Num(0)))
  }

  /** A failed fetch leaves the screen showing an off-duty driver with no
      vehicle, no booking and no duration. */
  lemma FailedFetchShowsDefaults(outcome: ApiOutcome)
    requires !outcome.Ok?
    ensures ViewOf(AfterFetch(outcome).status) == View(Str("off_duty"), Bool(false), Null, Num(0))
  {
  }

  /** The documented reply `{ status: 200, data: { … } }` is unwrapped to
      its `data` object. */
  lemma StatusIsUnwrapped(fields: map<string, JsVal>, rest: map<string, JsVal>)
    ensures AfterFetch(Ok(Obj(rest["data" := Obj(fields)]))).status == Obj(fields)
  {
  }

  /** The label of `h` hours and `m` minutes. */
  function HoursMinutes(h: int, m: int): string {
    IntToDecimal(h) + "h " + IntToDecimal(m) + "m"
  }

  /** `formatDuration`. A value that is not a number is coerced as `<=`,
      `/` and `%` coerce it. */
  function FormatDuration(seconds: JsVal): (shown: string)
    ensures !Truthy(seconds) ==> shown == "0h 0m"
    ensures ToNumber(seconds).Num? && ToNumber(seconds).n <= 0 ==> shown == "0h 0m"
    ensures Truthy(seconds) && ToNumber(seconds).NaN? ==> shown == "NaNh NaNm"
  {
    if !Truthy(seconds) then "0h 0m"
    else
      var n := ToNumber(seconds);
      if n.NaN? then "NaNh NaNm"
      else if n.n <= 0 then "0h 0m"
      else HoursMinutes(n.n / 3600, (n.n % 3600) / 60)
  }

  /** For a positive whole number of seconds the label shows the unique
      `h` and `m` with `m < 60` and `h·3600 + m·60 <= s < h·3600 + m·60 + 60`. */
  lemma {:induction false} FormatDurationSplits(s: int)
    requires s > 0
    ensures exists h: nat, m: nat :: m < 60 && h * 3600 + m * 60 <= s < h * 3600 + m * 60 + 60
                                     && FormatDuration(Num(s)) == HoursMinutes(h, m)
    ensures forall h: int, m: int :: 0 <= m < 60 && h * 3600 + m * 60 <= s < h * 3600 + m * 60 + 60
                                     ==> FormatDuration(Num(s)) == HoursMinutes(h, m)
  {
    var q, r := s / 3600, s % 3600;
    assert s == q * 3600 + r && 0 <= r < 3600;
    var m := r / 60;
    assert r == m * 60 + r % 60 && 0 <= r % 60 < 60;
    assert FormatDuration(Num(s)) == HoursMinutes(q, m);
    assert q >= 0 && 0 <= m < 60 && q * 3600 + m * 60 <= s < q * 3600 + m * 60 + 60;
    forall h: int, m': int | 0 <= m' < 60 && h * 3600 + m' * 60 <= s < h * 3600 + m' * 60 + 60
      ensures FormatDuration(Num(s)) == HoursMinutes(h, m')
    {
      assert h * 3600 <= s < h * 3600 + 3600;
      assert h == q;
      assert m' * 60 <= r < m' * 60 + 60;
      assert m' == m;
    }
  }

  /** A duration sent as a decimal string renders as the number would. */
  lemma DurationStringRendersAsNumber(s: int)
    ensures FormatDuration(Str(ToJsString(Num(s)))) == FormatDuration(Num(s))
  {
    NumberStringRoundTrip(s);
  }

  /** The device position, its coordinates already turned into strings, or
      the message of the error the location request rejects with. */
  datatype Fix = Fix(latitude: string, longitude: string) | NoFix(message: string)

  datatype StartDecision =
      /** 'Cannot start duty': no vehicle assigned. */
    | NoVehicle
      /** 'No Duty Assigned!': no booking. */
    | NoBooking
      /** The confirmation was cancelled. */
    | Declined
      /** A 'Location required' alert with `message`. */
    | LocationRequired(message: string)
      /** Navigation to the start-duty form with `params`. */
    | GoToStartDuty(params: JsVal)

  /** The route parameters the start-duty form receives. */
  function StartParams(booking: JsVal, latitude: string, longitude: string): JsVal {
    Obj(map[
      "bookingId" := Prop(booking, "booking_id"),
      "userName" := Or(Prop(booking, "user_name"), Str("")),
      "userPhoneNo" := Str(ToJsString(Coalesce(Prop(booking, "user_phone"), Str("")))),
      "startLatitude" := Str(latitude),
      "startLongitude" := Str(longitude)])
  }

  /** `handleStartDuty`, given the status view, whether the confirmation is
      accepted, whether location permission is granted and the position. */
  function HandleStartDuty(v: View, confirmed: bool, permitted: bool, fix: Fix): (d: StartDecision)
    ensures !Truthy(v.hasVehicle) ==> d == NoVehicle
    ensures Truthy(v.hasVehicle) && !Truthy(Prop(v.booking, "booking_id")) ==> d == NoBooking
    ensures d.GoToStartDuty? <==>
              Truthy(v.hasVehicle) && Truthy(Prop(v.booking, "booking_id")) && confirmed && permitted && fix.Fix?
    ensures d.LocationRequired? ==> d.message != ""
    ensures Truthy(v.hasVehicle) && Truthy(Prop(v.booking, "booking_id")) && !confirmed ==> d == Declined
    ensures Truthy(v.hasVehicle) && Truthy(Prop(v.booking, "booking_id")) && confirmed && !permitted
            ==> d == LocationRequired(LocationDeniedMessage)
    ensures Truthy(v.hasVehicle) && Truthy(Prop(v.booking, "booking_id")) && confirmed && permitted && fix.NoFix?
            ==> d == LocationRequired(MessageOr(fix.message, LocationFallback))
    ensures d.GoToStartDuty? ==> d.params == StartParams(v.booking, fix.latitude, fix.longitude)
  {
    if !Truthy(v.hasVehicle) then NoVehicle
    else if !Truthy(Prop(v.booking, "booking_id")) then NoBooking
    else if !confirmed then Declined
    else if !permitted then LocationRequired(LocationDeniedMessage)
    else
      match fix
      case NoFix(m) => LocationRequired(MessageOr(m, LocationFallback))
      case Fix(lat, lon) => GoToStartDuty(StartParams(v.booking, lat, lon))
  }

  /** The gates come before the location request: without a vehicle or a
      booking neither the permission nor the position plays a part. */
  lemma GatesPrecedeLocation(v: View, c1: bool, p1: bool, f1: Fix, c2: bool, p2: bool, f2: Fix)
    requires !Truthy(v.hasVehicle) || !Truthy(Prop(v.booking, "booking_id"))
    ensures HandleStartDuty(v, c1, p1, f1) == HandleStartDuty(v, c2, p2, f2)
  {
  }

  /** What the start-duty form reads from the parameters it is sent: the
      booking id as is, the user name or `''`, the phone as a string (`''`
      when absent), and the two coordinate strings. */
  lemma StartParamsAsRead(booking: JsVal, latitude: string, longitude: string)
    requires Truthy(Prop(booking, "booking_id"))
    ensures var p := StartDutyScreen.ReadParams(StartParams(booking, latitude, longitude));
            var phone := Prop(booking, "user_phone");
            && p.bookingId == Prop(booking, "booking_id")
            && p.userName == (if Truthy(Prop(booking, "user_name")) then Prop(booking, "user_name") else Str(""))
            && p.userPhoneNo.Str?
            && (Nullish(phone) ==> p.userPhoneNo == Str(""))
            && (phone.Str? ==> p.userPhoneNo == phone)
            && p.startLatitude == Str(latitude) && p.startLongitude == Str(longitude)
  {
  }

  datatype EndDecision = EndDeclined | EndLocationRequired(message: string) | GoToEndDuty(params: JsVal)

  /** The route parameters the end-duty form receives. */
  function EndParams(latitude: string, longitude: string): JsVal {
    Obj(map["endLatitude" := Str(latitude), "endLongitude" := Str(longitude)])
  }

  /** `handleEndDuty` */
  function HandleEndDuty(confirmed: bool, permitted: bool, fix: Fix): (d: EndDecision)
    ensures d.GoToEndDuty? <==> confirmed && permitted && fix.Fix?
    ensures !confirmed ==> d == EndDeclined
    ensures confirmed && !permitted ==> d == EndLocationRequired(LocationDeniedMessage)
    ensures confirmed && permitted && fix.NoFix? ==> d == EndLocationRequired(MessageOr(fix.message, LocationFallback))
    ensures d.EndLocationRequired? ==> d.message != ""
    ensures d.GoToEndDuty? ==>
              EndDutyScreen.ReadParams(d.params) == EndDutyScreen.Params(Str(fix.latitude), Str(fix.longitude))
  {
    if !confirmed then EndDeclined
    else if !permitted then EndLocationRequired(LocationDeniedMessage)
    else
      match fix
      case NoFix(m) => EndLocationRequired(MessageOr(m, LocationFallback))
      case Fix(lat, lon) => GoToEndDuty(EndParams(lat, lon))
  }

  /** `disabled` of the Start Duty button. */
  function StartDisabled(v: View): (disabled: bool)
    ensures v.dutyStatus == Str("on_duty") ==> disabled
    ensures !Truthy(v.hasVehicle) ==> disabled
    ensures !disabled ==> v.dutyStatus != Str("on_duty") && Truthy(v.hasVehicle)
  {
    v.dutyStatus == Str("on_duty") || !Truthy(v.hasVehicle)
  }

  /** `disabled` of the End Duty button. */
  function EndDisabled(v: View): (disabled: bool)
    ensures disabled ==> v.dutyStatus.Str? && v.dutyStatus.s == "off_duty"
    ensures v.dutyStatus == Str("on_duty") || !v.dutyStatus.Str? ==> !disabled
  {
    v.dutyStatus == Str("off_duty")
  }

  /** For the two documented duty states exactly one button can be
      enabled: on duty only End; off duty only Start, and only with a
      vehicle. With no status at all both are disabled. */
  lemma ButtonsFollowDutyState(v: View)
    ensures v.dutyStatus == Str("on_duty") ==> StartDisabled(v) && !EndDisabled(v)
    ensures v.dutyStatus == Str("off_duty") ==> EndDisabled(v) && (StartDisabled(v) <==> !Truthy(v.hasVehicle))
    ensures StartDisabled(ViewOf(Null)) && EndDisabled(ViewOf(Null))
  {
  }

  /** Any other duty status enables End, and Start too when a vehicle is
      assigned. */
  lemma UnknownStatusEnablesBoth(v: View)
    requires v.dutyStatus !in {Str("on_duty"), Str("off_duty")} && Truthy(v.hasVehicle)
    ensures !StartDisabled(v) && !EndDisabled(v)
  {
  }

  /** An enabled Start button always gets past the vehicle gate. */
  lemma EnabledStartHasVehicle(v: View, confirmed: bool, permitted: bool, fix: Fix)
    requires !StartDisabled(v)
    ensures HandleStartDuty(v, confirmed, permitted, fix) != NoVehicle
  {
  }
}
