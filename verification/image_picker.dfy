/** Photo capture: the camera permission gate and the reduction of a
    camera or gallery response to a photo, nothing, or an error. */
module ImagePicker {

  import opened JsValue

  /** `Platform.OS`; every platform other than Android takes the same
      branch as iOS. */
  datatype Os = Android | Ios

  /** `PermissionsAndroid.RESULTS` */
  datatype PermissionAnswer = Granted | Denied | NeverAskAgain

  /** The response of `launchCamera` / `launchImageLibrary`: the fields the
      client reads, each `undefined` when absent. */
  datatype PickerResponse = PickerResponse(didCancel: JsVal, errorCode: JsVal, errorMessage: JsVal, assets: JsVal)

  /** `{ uri }`, `null`, or the Error the pick rejects with. */
  datatype PickOutcome = Picked(uri: JsVal) | NoImage | PickError(message: string)

  /** The outcome of `resizeImage`: the URI of the re-encoded JPEG (at most
      1024 pixels wide, quality 70), or the message it rejects with. */
  datatype Resized = Resized(uri: string) | ResizeFailed(message: string)

  const CameraDeniedMessage := "Camera permission denied. Please allow camera access from app settings."
  const CameraFallback := "Unable to open camera."
  const GalleryFallback := "Unable to open gallery."

  /** `ensureCameraPermission`: the answer to the Android request, which is
      only asked on Android. */
  function CameraPermission(os: Os, answer: PermissionAnswer): (granted: bool)
    ensures granted <==> (os.Ios? || answer.Granted?)
  {
    if !os.Android? then true else answer.Granted?
  }

  /** `result.assets?.[0]?.uri` */
  function FirstAssetUri(res: PickerResponse): JsVal {
    Prop(Index(res.assets, 0), "uri")
  }

  /** The checks both pickers apply to a response, in order: cancel, error
      code, missing first asset or URI. `fallback` is the message used when
      an error code comes without an error message. */
  function ClassifyResponse(res: PickerResponse, fallback: string): (r: PickOutcome)
    requires fallback != ""
    ensures Truthy(res.didCancel) ==> r == NoImage
    ensures r.PickError? <==> !Truthy(res.didCancel) && Truthy(res.errorCode)
    ensures r.PickError? ==> r.message == (if Truthy(res.errorMessage) then ToJsString(res.errorMessage) else fallback)
    ensures r.Picked? <==> !Truthy(res.didCancel) && !Truthy(res.errorCode) && Truthy(FirstAssetUri(res))
    ensures r.Picked? ==> r.uri == FirstAssetUri(res) && Truthy(r.uri)
  {
    if Truthy(res.didCancel) then NoImage
    else if Truthy(res.errorCode) then PickError(ErrorMessage(Or(res.errorMessage, Str(fallback))))
    else if !Truthy(FirstAssetUri(res)) then NoImage
    else Picked(FirstAssetUri(res))
  }

  /** `pickImageFromCamera`: the permission gate, then the camera response. */
  function PickFromCamera(os: Os, answer: PermissionAnswer, res: PickerResponse): (r: PickOutcome)
    ensures !CameraPermission(os, answer) ==> r == PickError(CameraDeniedMessage)
    ensures CameraPermission(os, answer) ==> r == ClassifyResponse(res, CameraFallback)
  {
    if !CameraPermission(os, answer) then PickError(CameraDeniedMessage)
    else ClassifyResponse(res, CameraFallback)
  }

  /** `pickImageFromGallery`: no permission is asked. */
  function PickFromGallery(res: PickerResponse): (r: PickOutcome)
    ensures r.PickError? ==> !Truthy(res.didCancel) && Truthy(res.errorCode)
    ensures r.PickError? && !Truthy(res.errorMessage) ==> r.message == GalleryFallback
    ensures r.Picked? ==> r.uri == FirstAssetUri(res) && Truthy(r.uri)
    ensures r.Picked? || r.PickError? || Truthy(res.didCancel) || !Truthy(FirstAssetUri(res))
  {
    ClassifyResponse(res, GalleryFallback)
  }

  /** A denied camera permission decides the outcome before the camera is
      opened: the camera's response plays no part. */
  lemma DeniedCameraNeverLaunches(os: Os, answer: PermissionAnswer, r1: PickerResponse, r2: PickerResponse)
    requires os.Android? && !answer.Granted?
    ensures PickFromCamera(os, answer, r1) == PickFromCamera(os, answer, r2) == PickError(CameraDeniedMessage)
  {
  }

  /** Cancelling wins over an error code, whatever the error says. */
  lemma CancelBeatsError(res: PickerResponse)
    requires Truthy(res.didCancel) && Truthy(res.errorCode)
    ensures PickFromGallery(res) == NoImage
    ensures forall os, answer :: CameraPermission(os, answer) ==> PickFromCamera(os, answer, res) == NoImage
  {
  }

  /** Only the first asset counts: assets after it never change the
      outcome. */
  lemma OnlyFirstAssetCounts(res: PickerResponse, first: JsVal, rest1: seq<JsVal>, rest2: seq<JsVal>)
    ensures var a := res.(assets := Arr([first] + rest1));
            var b := res.(assets := Arr([first] + rest2));
            PickFromGallery(a) == PickFromGallery(b)
            && (Truthy(Prop(first, "uri")) && !Truthy(res.didCancel) && !Truthy(res.errorCode)
                ==> PickFromGallery(a) == Picked(Prop(first, "uri")))
  {
    assert Index(Arr([first] + rest1), 0) == first;
    assert Index(Arr([first] + rest2), 0) == first;
  }

  /** With the permission granted, the camera and the gallery read a
      response the same way; only the fallback error text differs. */
  lemma CameraAndGalleryAgree(os: Os, answer: PermissionAnswer, res: PickerResponse)
    requires CameraPermission(os, answer)
    ensures var c := PickFromCamera(os, answer, res);
            var g := PickFromGallery(res);
            (c.Picked? <==> g.Picked?) && (c.NoImage? <==> g.NoImage?) && (c.PickError? <==> g.PickError?)
            && (!c.PickError? ==> c == g)
            && (c.PickError? && Truthy(res.errorMessage) ==> c == g)
  {
  }
}
