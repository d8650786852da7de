/** The start-duty form: route parameters carried over from Home, the
    odometer photo, and the multipart start-duty submission. */
module StartDutyScreen {

  import opened Optional
  import opened JsText
  import opened JsValue
  import opened Http
  import opened DriverApi
  import opened ImagePicker
  import opened DutyForm

  const MissingPhotoMessage := "Please add odometer photo."
  const FailureFallback := "Failed to start duty."

  /** The route parameter names, in the order of `Params`. */
  const ParamKeys := ["bookingId", "userName", "userPhoneNo", "startLatitude", "startLongitude"]

  datatype Params = Params(bookingId: JsVal, userName: JsVal, userPhoneNo: JsVal, startLatitude: JsVal, startLongitude: JsVal)
  {
    function Values(): seq<JsVal> {
      [bookingId, userName, userPhoneNo, startLatitude, startLongitude]
    }
  }

  /** `const { key = '' } = route.params || {}` for each parameter. */
  function ReadParams(routeParams: JsVal): (p: Params)
    ensures !Truthy(routeParams) ==> p == Params(Str(""), Str(""), Str(""), Str(""), Str(""))
    ensures forall i :: 0 <= i < |ParamKeys| ==> !p.Values()[i].Undefined?
    ensures forall i :: 0 <= i < |ParamKeys| ==>
              p.Values()[i] == (if Prop(routeParams, ParamKeys[i]).Undefined? then Str("")
                                else Prop(routeParams, ParamKeys[i]))
  {
    var source := Or(routeParams, EmptyObject);
    Params(WithDefault(Prop(source, "bookingId"), Str("")),
           WithDefault(Prop(source, "userName"), Str("")),
           WithDefault(Prop(source, "userPhoneNo"), Str("")),
           WithDefault(Prop(source, "startLatitude"), Str("")),
           WithDefault(Prop(source, "startLongitude"), Str("")))
  }

  /** The start-duty form: the trimmed reading, the carried-over
      parameters, and the resized photo as a JPEG file part. */
  function StartForm(odometer: string, p: Params, uri: string): (parts: seq<Part>)
    ensures PartNames(parts) == StartDutyFields
    ensures parts[0] == Field("odometer_reading", Str(odometer))
    ensures forall i :: 1 <= i < |parts| - 1 ==> parts[i].Field? && parts[i].value == p.Values()[i - 1]
    ensures parts[|parts| - 1] == File("odometer_photo", uri, "odometer.jpg", "image/jpeg")
  {
    [ Field("odometer_reading", Str(odometer)),
      Field("booking_id", p.bookingId),
      Field("user_name", p.userName),
      Field("user_phone_no", p.userPhoneNo),
      Field("start_latitude", p.startLatitude),
      Field("start_longitude", p.startLongitude),
      File("odometer_photo", uri, "odometer.jpg", "image/jpeg") ]
  }

  /** `handleSubmit` */
  function HandleSubmit(odometer: string, photo: JsVal, p: Params, stored: Option<string>,
                        resize: JsVal -> Resized, reply: Reply): (r: SubmitOutcome)
    ensures r.Invalid? <==> AllSpace(odometer) || !Truthy(photo)
    ensures AllSpace(odometer) ==> r == Invalid(OdometerRequired)
    ensures !AllSpace(odometer) && !Truthy(photo) ==> r == Invalid(MissingPhotoMessage)
    ensures r.Accepted? <==> !r.Invalid? && resize(photo).Resized? && StartDuty(reply).Ok?
    ensures r.Accepted? ==> r.request == DutyRequest(StartEndpoint, stored, StartForm(Trim(odometer), p, resize(photo).uri))
    ensures r.Rejected? ==> r.message != ""
    ensures r.Rejected? && r.sent.None? && resize(photo).ResizeFailed?
            ==> r.message == MessageOr(resize(photo).message, FailureFallback)
    ensures r.Rejected? && r.sent.Some? && !StartDuty(reply).Ok?
            ==> r.message == MessageOr(StartDuty(reply).message, FailureFallback)
    ensures !r.Invalid? && resize(photo).ResizeFailed?
            ==> r == Rejected(MessageOr(resize(photo).message, FailureFallback), None)
    ensures !r.Invalid? && resize(photo).Resized? && !StartDuty(reply).Ok?
            ==> r == Rejected(MessageOr(StartDuty(reply).message, FailureFallback),
                              Some(DutyRequest(StartEndpoint, stored, StartForm(Trim(odometer), p, resize(photo).uri))))
  {
    Submit(StartEndpoint, odometer, photo, MissingPhotoMessage, FailureFallback,
           (odo, uri) => StartForm(odo, p, uri), stored, resize, reply)
  }

  /** A successful start posts, with the stored token, exactly the seven
      documented parts: the trimmed reading, the five route parameters and
      the RESIZED photo, never the original one. */
  lemma StartSubmission(odometer: string, photo: JsVal, p: Params, stored: Option<string>,
                        resize: JsVal -> Resized, reply: Reply)
    ensures var r := HandleSubmit(odometer, photo, p, stored, resize, reply);
            r.Accepted? ==>
              && !AllSpace(odometer) && Truthy(photo) && resize(photo).Resized?
              && StartDuty(reply).Ok?
              && r.request.verb == "POST" && r.request.url == StartDutyUrl
              && r.request.headers == AuthHeaders(stored)
              && r.request.payload.Multipart?
              && PartNames(r.request.payload.parts) == StartDutyFields
              && r.request.payload.parts[0].value == Str(Trim(odometer))
              && r.request.payload.parts[6].uri == resize(photo).uri
  {
  }

  /** Conversely, a non-blank reading, a photo, a resize that succeeds and
      a server that accepts always end in success with that form. */
  lemma StartAccepted(odometer: string, photo: JsVal, p: Params, stored: Option<string>,
                      resize: JsVal -> Resized, reply: Reply)
    requires !AllSpace(odometer) && Truthy(photo) && resize(photo).Resized? && StartDuty(reply).Ok?
    ensures HandleSubmit(odometer, photo, p, stored, resize, reply)
            == Accepted(DutyRequest(StartEndpoint, stored, StartForm(Trim(odometer), p, resize(photo).uri)))
  {
  }

  /** A blank reading is reported before a missing photo, and both before
      anything is resized or sent. */
  lemma ReadingCheckedFirst(odometer: string, p: Params, stored: Option<string>,
                            resize: JsVal -> Resized, reply: Reply)
    requires AllSpace(odometer)
    ensures HandleSubmit(odometer, Null, p, stored, resize, reply) == Invalid(OdometerRequired)
  {
  }

  /** A missing photo is reported with its own text. */
  lemma PhotoRequired(odometer: string, photo: JsVal, p: Params, stored: Option<string>,
                      resize: JsVal -> Resized, reply: Reply)
    requires !AllSpace(odometer) && !Truthy(photo)
    ensures HandleSubmit(odometer, photo, p, stored, resize, reply) == Invalid(MissingPhotoMessage)
  {
  }
}
