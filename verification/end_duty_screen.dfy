/** The end-duty form: the coordinates carried over from Home, the end
    odometer photo, and the multipart end-duty submission. */
module EndDutyScreen {

  import opened Optional
  import opened JsText
  import opened JsValue
  import opened Http
  import opened DriverApi
  import opened ImagePicker
  import opened DutyForm

  const MissingPhotoMessage := "Please add end odometer photo."
  const FailureFallback := "Failed to end duty."

  datatype Params = Params(endLatitude: JsVal, endLongitude: JsVal)

  /** `const { endLatitude = '', endLongitude = '' } = route.params || {}` */
  function ReadParams(routeParams: JsVal): (p: Params)
    ensures !Truthy(routeParams) ==> p == Params(Str(""), Str(""))
    ensures !p.endLatitude.Undefined? && !p.endLongitude.Undefined?
    ensures p.endLatitude == (if Prop(routeParams, "endLatitude").Undefined? then Str("")
                              else Prop(routeParams, "endLatitude"))
    ensures p.endLongitude == (if Prop(routeParams, "endLongitude").Undefined? then Str("")
                               else Prop(routeParams, "endLongitude"))
  {
    var source := Or(routeParams, EmptyObject);
    Params(WithDefault(Prop(source, "endLatitude"), Str("")),
           WithDefault(Prop(source, "endLongitude"), Str("")))
  }

  /** The end-duty form: the trimmed reading, the coordinates, and the
      resized photo as a JPEG file part. */
  function EndForm(odometer: string, p: Params, uri: string): (parts: seq<Part>)
    ensures PartNames(parts) == EndDutyFields
    ensures parts[0] == Field("odometer_reading", Str(odometer))
    ensures parts[1] == Field("end_latitude", p.endLatitude) && parts[2] == Field("end_longitude", p.endLongitude)
    ensures parts[3] == File("end_odometer_photo", uri, "end_odometer.jpg", "image/jpeg")
  {
    [ Field("odometer_reading", Str(odometer)),
      Field("end_latitude", p.endLatitude),
      Field("end_longitude", p.endLongitude),
      File("end_odometer_photo", uri, "end_odometer.jpg", "image/jpeg") ]
  }

  /** The photo handling as written: the camera and gallery callbacks have
      no `catch`, so a failed pick rejects unhandled and no alert is shown. */
  function OnPickedAsWritten(photo: JsVal, picked: PickOutcome): (r: PickReport)
    ensures r.alert.None?
    ensures r.photo == OnPicked(photo, picked).photo
  {
    var uri := if picked.Picked? then picked.uri else Undefined;
    PickReport(if Truthy(uri) then uri else photo, None)
  }

  /** A denied camera permission on this screen goes unreported, where the
      start-duty screen shows it in a 'Camera' alert. */
  lemma DeniedCameraIsSilent(photo: JsVal, res: PickerResponse)
    ensures var picked := PickFromCamera(Android, Denied, res);
            && OnPickedAsWritten(photo, picked) == PickReport(photo, None)
            && OnPicked(photo, picked) == PickReport(photo, Some(CameraDeniedMessage))
  {
  }

  /** The photo handling with the failure reported as on the start-duty
      screen: what the two callbacks evidently intend. */
  function OnImagePicked(photo: JsVal, picked: PickOutcome): (r: PickReport)
    ensures r.photo == OnPickedAsWritten(photo, picked).photo
    ensures r.alert.Some? <==> picked.PickError?
    ensures r.alert.Some? ==> r.alert.value != ""
    ensures r.alert.Some? ==> r.alert.value == MessageOr(picked.message, PickFallback)
  {
    OnPicked(photo, picked)
  }

  /** `handleSubmit` */
  function HandleSubmit(odometer: string, photo: JsVal, p: Params, stored: Option<string>,
                        resize: JsVal -> Resized, reply: Reply): (r: SubmitOutcome)
    ensures r.Invalid? <==> AllSpace(odometer) || !Truthy(photo)
    ensures AllSpace(odometer) ==> r == Invalid(OdometerRequired)
    ensures !AllSpace(odometer) && !Truthy(photo) ==> r == Invalid(MissingPhotoMessage)
    ensures r.Accepted? <==> !r.Invalid? && resize(photo).Resized? && EndDuty(reply).Ok?
    ensures r.Accepted? ==> r.request == DutyRequest(EndEndpoint, stored, EndForm(Trim(odometer), p, resize(photo).uri))
    ensures r.Rejected? ==> r.message != ""
    ensures r.Rejected? && r.sent.None? && resize(photo).ResizeFailed?
            ==> r.message == MessageOr(resize(photo).message, FailureFallback)
    ensures r.Rejected? && r.sent.Some? && !EndDuty(reply).Ok?
            ==> r.message == MessageOr(EndDuty(reply).message, FailureFallback)
    ensures !r.Invalid? && resize(photo).ResizeFailed?
            ==> r == Rejected(MessageOr(resize(photo).message, FailureFallback), None)
    ensures !r.Invalid? && resize(photo).Resized? && !EndDuty(reply).Ok?
            ==> r == Rejected(MessageOr(EndDuty(reply).message, FailureFallback),
                              Some(DutyRequest(EndEndpoint, stored, EndForm(Trim(odometer), p, resize(photo).uri))))
  {
    Submit(EndEndpoint, odometer, photo, MissingPhotoMessage, FailureFallback,
           (odo, uri) => EndForm(odo, p, uri), stored, resize, reply)
  }

  /** A successful end posts, with the stored token, exactly the four
      documented parts: the trimmed reading, the two coordinates and the
      resized photo. */
  lemma EndSubmission(odometer: string, photo: JsVal, p: Params, stored: Option<string>,
                      resize: JsVal -> Resized, reply: Reply)
    ensures var r := HandleSubmit(odometer, photo, p, stored, resize, reply);
            r.Accepted? ==>
              && !AllSpace(odometer) && Truthy(photo) && resize(photo).Resized?
              && EndDuty(reply).Ok?
              && r.request.verb == "POST" && r.request.url == EndDutyUrl
              && r.request.headers == AuthHeaders(stored)
              && r.request.payload.Multipart?
              && r.request.payload.parts == EndForm(Trim(odometer), p, resize(photo).uri)
  {
  }

  /** A missing photo is reported with this screen's own text, before
      anything is resized or sent. */
  lemma EndPhotoRequired(odometer: string, photo: JsVal, p: Params, stored: Option<string>,
                         resize: JsVal -> Resized, reply: Reply)
    requires !AllSpace(odometer) && !Truthy(photo)
    ensures HandleSubmit(odometer, photo, p, stored, resize, reply) == Invalid(MissingPhotoMessage)
  {
  }
}
