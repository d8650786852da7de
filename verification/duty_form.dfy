/** The submit handler the start-duty and end-duty screens share: check
    the odometer reading and the photo, resize the photo, post the form. */
module DutyForm {

  import opened Optional
  import opened JsText
  import opened JsValue
  import opened Http
  import opened DriverApi
  import opened ImagePicker

  const OdometerRequired := "Please enter odometer reading."

  /** What one press of "Submit" ends in. */
  datatype SubmitOutcome =
      /** A 'Required' alert; nothing is resized or sent. */
    | Invalid(message: string)
      /** A 'Success' alert whose OK goes back to Home. */
    | Accepted(request: Request)
      /** An 'Error' alert; `sent` is None when resizing failed. */
    | Rejected(message: string, sent: Option<Request>)

  const PickFallback := "Failed to get photo."

  /** The photo state after a pick, and the text of the 'Camera' alert
      shown, if any. */
  datatype PickReport = PickReport(photo: JsVal, alert: Option<string>)

  /** `handleImagePick`: `result?.uri` replaces the photo only when truthy;
      a failed pick leaves the photo and raises an alert. */
  function OnPicked(photo: JsVal, picked: PickOutcome): (r: PickReport)
    ensures r.photo != photo ==> picked.Picked? && r.photo == picked.uri
    ensures Truthy(r.photo) || r.photo == photo
    ensures picked.Picked? && Truthy(picked.uri) ==> r.photo == picked.uri
    ensures r.alert.Some? <==> picked.PickError?
    ensures r.alert.Some? ==> r.alert.value == MessageOr(picked.message, PickFallback) && r.alert.value != ""
  {
    var uri := if picked.Picked? then picked.uri else Undefined;
    PickReport(if Truthy(uri) then uri else photo,
               if picked.PickError? then Some(MessageOr(picked.message, PickFallback)) else None)
  }

  /** The local checks, in order: a blank reading, then a missing photo. */
  function Validate(odometer: string, photo: JsVal, missingPhoto: string): (error: Option<string>)
    ensures error.None? <==> !AllSpace(odometer) && Truthy(photo)
    ensures AllSpace(odometer) ==> error == Some(OdometerRequired)
    ensures !AllSpace(odometer) && !Truthy(photo) ==> error == Some(missingPhoto)
  {
    if Trim(odometer) == "" then Some(OdometerRequired)
    else if !Truthy(photo) then Some(missingPhoto)
    else None
  }

  /** `handleSubmit` of either duty screen. `build` lays out the form from
      the trimmed reading and the resized photo's URI, `resize` stands for
      `resizeImage`, `stored` is what storage holds under the token key and
      `reply` is the server's answer if the form is sent. */
  function Submit(endpoint: Endpoint, odometer: string, photo: JsVal, missingPhoto: string, fallback: string,
                  build: (string, string) -> seq<Part>, stored: Option<string>,
                  resize: JsVal -> Resized, reply: Reply): (r: SubmitOutcome)
    requires endpoint != StatusEndpoint && fallback != ""
    ensures r.Invalid? <==> Validate(odometer, photo, missingPhoto).Some?
    ensures r.Invalid? ==> r.message == Validate(odometer, photo, missingPhoto).value
    ensures r.Accepted? <==> !r.Invalid? && resize(photo).Resized? && Classify(endpoint, reply).Ok?
    ensures (r.Accepted? || (r.Rejected? && r.sent.Some?)) <==> !r.Invalid? && resize(photo).Resized?
    ensures r.Accepted? ==> r.request == DutyRequest(endpoint, stored, build(Trim(odometer), resize(photo).uri))
    ensures r.Rejected? && r.sent.Some? ==>
              r.sent.value == DutyRequest(endpoint, stored, build(Trim(odometer), resize(photo).uri))
    ensures r.Rejected? ==> r.message != ""
    ensures r.Rejected? && r.sent.None? && resize(photo).ResizeFailed?
            ==> r.message == MessageOr(resize(photo).message, fallback)
    ensures r.Rejected? && r.sent.Some? && !Classify(endpoint, reply).Ok?
            ==> r.message == MessageOr(Classify(endpoint, reply).message, fallback)
  {
    match Validate(odometer, photo, missingPhoto)
    case Some(error) => Invalid(error)
    case None =>
      match resize(photo)
      case ResizeFailed(m) => Rejected(MessageOr(m, fallback), None)
      case Resized(uri) =>
        var request := DutyRequest(endpoint, stored, build(Trim(odometer), uri));
        match Classify(endpoint, reply)
        case Ok(_) => Accepted(request)
        case Unauthorized(m) => Rejected(MessageOr(m, fallback), Some(request))
        case Failed(m) => Rejected(MessageOr(m, fallback), Some(request))
        case Threw(m) => Rejected(MessageOr(m, fallback), Some(request))
  }

  /** A failed check stops the handler before the photo is resized or
      anything is sent: neither the resizer nor the reply plays a part. */
  lemma ChecksPrecedeResizeAndNetwork(endpoint: Endpoint, odometer: string, photo: JsVal, missingPhoto: string,
                                      fallback: string, build: (string, string) -> seq<Part>, stored: Option<string>,
                                      resize1: JsVal -> Resized, reply1: Reply, resize2: JsVal -> Resized, reply2: Reply)
    requires endpoint != StatusEndpoint && fallback != ""
    requires AllSpace(odometer) || !Truthy(photo)
    ensures Submit(endpoint, odometer, photo, missingPhoto, fallback, build, stored, resize1, reply1)
         == Submit(endpoint, odometer, photo, missingPhoto, fallback, build, stored, resize2, reply2)
         == Invalid(if AllSpace(odometer) then OdometerRequired else missingPhoto)
  {
  }
}
