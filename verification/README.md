# VTStaff driver client: a Dafny model of its core

VTStaff is a React Native app for drivers. A driver signs in with a
mobile number and a one-time code. The app stores the bearer token it
receives. On Home it shows the driver's duty status and offers Start Duty
and End Duty. Each of those sends the device position, an odometer
reading and a resized odometer photo to the server as a multipart form.

This project models the app's decision logic as pure Dafny functions and
proves properties about them:

- the driver API client: auth headers, and how a reply becomes a result
  or a thrown Error;
- the login, code-entry, home, start-duty and end-duty screen handlers;
- the photo picker: the camera permission gate and the classification of
  a picker response.

Everything the app waits for is an input of the model. That covers the
server's reply (or the network failure), the stored token, the permission
answers, the position, the picker response and the resizer's result.

Modules:

- `Optional`: `Option`.
- `JsText`: ECMAScript `trim`, decimal rendering and parsing of integers.
- `JsValue`: the JavaScript values the code handles, with their
  truthiness and the operators it uses: `||`, `??`, `?.`, destructuring
  defaults, `String()`, `Number()` and `new Error(x).message`.
  - A plain property read on `null`/`undefined` is the `TypeError` it
    throws.
  - Numbers are integers plus `NaN`.
- `Http`: replies, requests, multipart parts, and the Error a handler
  catches.
- `DriverApi`: `driverApi.js`.
- `ImagePicker`: `imagePicker.js`, without the resizer's internals.
- `LoginScreen`, `OtpScreen`, `HomeScreen`, `StartDutyScreen` and
  `EndDutyScreen`: the screens of the same names.
- `DutyForm`: the submit logic the two duty screens share.
- `Flows`: runs across several screens.

Three behaviours of the code that the model keeps as they are:

- A sign-in reply without a token leaves the driver on the code screen
  with an error text. It is not a distinct malformed-response error.
- The status call lets a body that fails to parse escape as an exception.
  The two duty calls read such a body as `{}`.
- Location is a single request whose failure is an input (`HomeScreen.Fix`).
  There is no second, low-accuracy attempt.

## Model

| member | source | states |
|---|---|---|
| DriverApi.AuthHeaders | src/services/driverApi.js:11-16 | Authorization is present exactly when a non-empty token is stored. Its value is `Bearer ` + token. No other header is set. |
| DriverApi.Classify | src/services/driverApi.js:22-34 | 401 with a readable body gives Unauthorized. Success requires HTTP 200, a readable body and a body `status` that is absent, falsy or 200. A success returns the body. A readable reply that is neither Unauthorized nor Ok is Failed, and its message is `json.message` when truthy, else the endpoint's fixed text. It throws exactly on a network error (with that error's message) or an unreadable body (a status body that fails to parse, or a `null` body). |
| DriverApi.UnauthorizedIgnoresBodyStatus | src/services/driverApi.js:26-28 | A 401 is Unauthorized whatever the body's `status` says. |
| DriverApi.SuccessStringFails | src/services/driverApi.js:29-31 | A body status of the string `'success'` is a failure even with HTTP 200. |
| DriverApi.DutyToleratesUnparseableBody | src/services/driverApi.js:50-54 | On a duty endpoint, an unparseable body counts as `{}`. With 200 it succeeds. With 401 it is Unauthorized with the text `Unauthorized`. |
| DriverApi.StatusRejectsUnparseableBody | src/services/driverApi.js:24-25 | On the status endpoint, an unparseable body is an exception whatever the HTTP status. |
| DriverApi.DutyEndpointsClassifyLikeStatus | src/services/driverApi.js:71-76 | For a parsed body, the duty endpoints decide exactly as the status endpoint does. Only the fallback text differs. |
| ImagePicker.CameraPermission | src/utils/imagePicker.js:20-33 | Permission is granted on iOS, and on Android exactly when the answer is GRANTED. |
| ImagePicker.ClassifyResponse | src/utils/imagePicker.js:44-54 | Cancel comes first, then an error code, then a missing first-asset URI. An error carries `errorMessage` or the fallback. A pick carries the first asset's URI. |
| ImagePicker.PickFromCamera | src/utils/imagePicker.js:38-55 | A denied permission throws the permission message. Otherwise the camera response is classified with the camera fallback. |
| ImagePicker.PickFromGallery | src/utils/imagePicker.js:57-69 | No permission is asked. An error comes only from the picker's error code, with `Unable to open gallery.` when it has no message. A pick carries the first asset's truthy URI. Anything else is no image. |
| ImagePicker.DeniedCameraNeverLaunches | src/utils/imagePicker.js:39-42 | A denied Android permission decides the outcome before the camera opens. |
| ImagePicker.CancelBeatsError | src/utils/imagePicker.js:45-50 | A cancelled response is "no image" even when it also carries an error code. |
| ImagePicker.OnlyFirstAssetCounts | src/utils/imagePicker.js:65-68 | Assets after the first never change the outcome. |
| ImagePicker.CameraAndGalleryAgree | src/utils/imagePicker.js:57-69 | With permission granted, camera and gallery classify a response alike. Only the fallback error text differs. |
| LoginScreen.HandleSendCode | src/screens/LoginScreen.js:24-51 | A blank number is refused before anything is sent. Otherwise the trimmed number is posted. Code entry follows exactly when the body's status is `'success'`. Any other outcome leaves a truthy error. A network error, an unparseable body or a `null` body shows the caught Error's message, or `Network error. Please try again.` when it is empty. |
| LoginScreen.HttpStatusIgnored | src/screens/LoginScreen.js:40-45 | The HTTP status code never changes the outcome. |
| LoginScreen.RefusalMessage | src/screens/LoginScreen.js:43-45 | A refusal shows the body's `message` when truthy, else `Failed to send OTP`. |
| LoginScreen.TrimmedNumberIsWhatCounts | src/screens/LoginScreen.js:25 | Two inputs that trim to the same number are handled identically. |
| JsText.Trim | src/screens/LoginScreen.js:25 | The result is a contiguous slice of the input. It is empty exactly when the input is all whitespace. Otherwise it neither starts nor ends with whitespace. |
| JsText.TrimIdempotent | src/screens/OTPScreen.js:28 | Trimming twice gives the same result as trimming once. |
| OtpScreen.FirstTruthy | src/screens/OTPScreen.js:52-58 | The first truthy element is returned when there is one, else the last element. |
| OtpScreen.ExtractToken | src/screens/OTPScreen.js:52-58 | A truthy top-level `token` is the token. The result is truthy exactly when one of the six locations is. Otherwise it is the last location's value. |
| OtpScreen.ExtractTokenIsFirstTruthy | src/screens/OTPScreen.js:52-58 | The `\|\|` chain equals the first-truthy search over the six token locations, in order. |
| OtpScreen.TopLevelTokenWins | src/screens/OTPScreen.js:53-58 | A truthy top-level `token`, `jwt` or `access_token` wins over anything nested under `data`. |
| OtpScreen.HandleVerify | src/screens/OTPScreen.js:27-78 | A blank code or a missing number is refused. Sign-in happens exactly when the reply is verified (HTTP 200 and status 200 or `'success'`) and a token is found. The stored token is the first truthy candidate. A verified reply without a token stays on the screen with `Login succeeded but no token received. Check API response.` A network error, an unparseable body or a `null` body shows the caught Error's message, or `Network error. Please try again.` when it is empty. |
| OtpScreen.TokenSignsIn | src/screens/OTPScreen.js:51-66 | Conversely, a verified reply whose chain yields a truthy token always signs in with that token. |
| OtpScreen.RejectionMessage | src/screens/OTPScreen.js:71-72 | An unverified reply shows the body's `message` when truthy, else `Invalid OTP. Please try again.` |
| DutyForm.OnPicked | src/screens/StartDutyScreen.js:35-42 | The photo changes only to a truthy picked URI. An alert is raised exactly when the pick throws. The alert shows the Error's message, or `Failed to get photo.` when the message is empty. |
| DutyForm.Validate | src/screens/StartDutyScreen.js:72-80 | A blank reading is reported first, then a missing photo. It passes exactly when the reading is non-blank and a photo is present. |
| DutyForm.Submit | src/screens/StartDutyScreen.js:71-105 | Local checks run before resizing and sending. Success requires a resized photo and a successful call. The form is built from the trimmed reading and the resized URI. An error alert shows `e.message \|\| fallback`: the resizer's message when resizing failed, else the API Error's message. |
| DutyForm.ChecksPrecedeResizeAndNetwork | src/screens/StartDutyScreen.js:72-80 | When a local check fails, neither the resizer nor the server affects the outcome. |
| StartDutyScreen.ReadParams | src/screens/StartDutyScreen.js:23-29 | Missing route params give empty strings. Each parameter is its route value, or exactly `''` when that value is undefined (a `null` is kept). No parameter is ever undefined. |
| StartDutyScreen.StartForm | src/screens/StartDutyScreen.js:84-95 | Exactly the seven documented parts, in order. The trimmed reading comes first and the JPEG file part last. |
| StartDutyScreen.HandleSubmit | src/screens/StartDutyScreen.js:71-105 | The start form is invalid exactly when the reading is blank or the photo missing. A blank reading is reported first, with `Please enter odometer reading.`, and a missing photo with `Please add odometer photo.` It succeeds exactly when the resize and `startDuty` both succeed, posting the start form. A failed resize alerts its message, else `Failed to start duty.`, with nothing sent. A rejected call, after the form was sent, alerts the API Error's message, else `Failed to start duty.` |
| StartDutyScreen.StartSubmission | src/screens/StartDutyScreen.js:81-99 | An accepted start posted to the start-duty URL with the stored token's headers and the seven part names. It carried the trimmed reading and the resized photo's URI. |
| StartDutyScreen.StartAccepted | src/screens/StartDutyScreen.js:71-99 | Conversely, a non-blank reading, a photo, a successful resize and an accepting server always end in success with that form. |
| StartDutyScreen.ReadingCheckedFirst | src/screens/StartDutyScreen.js:72-76 | A blank reading is reported even when the photo is missing too. |
| StartDutyScreen.PhotoRequired | src/screens/StartDutyScreen.js:77-80 | A missing photo is reported with `Please add odometer photo.` |
| EndDutyScreen.ReadParams | src/screens/EndDutyScreen.js:23 | Missing route params give empty coordinates. Each coordinate is its route value, or exactly `''` when that value is undefined. |
| EndDutyScreen.EndForm | src/screens/EndDutyScreen.js:73-81 | Exactly the four documented parts, in order, ending with the JPEG file part. |
| EndDutyScreen.OnPickedAsWritten | src/screens/EndDutyScreen.js:36-55 | The photo updates as on the start screen, but a failed pick never raises an alert. |
| EndDutyScreen.DeniedCameraIsSilent | src/screens/EndDutyScreen.js:48-51 | A denied camera permission leaves the photo unchanged with no alert. The start screen's handler alerts with the permission message. |
| EndDutyScreen.OnImagePicked | src/screens/StartDutyScreen.js:35-42 | The corrected handler updates the photo as written and alerts exactly when the pick throws, with the Error's message or `Failed to get photo.`, as the start-duty screen does. |
| EndDutyScreen.HandleSubmit | src/screens/EndDutyScreen.js:60-92 | The end form is invalid exactly when the reading is blank or the photo missing. A blank reading is reported first, with `Please enter odometer reading.`, and a missing photo with `Please add end odometer photo.` It succeeds exactly when the resize and `endDuty` both succeed, posting the end form. A failed resize alerts its message, else `Failed to end duty.`, with nothing sent. A rejected call, after the form was sent, alerts the API Error's message, else `Failed to end duty.` |
| EndDutyScreen.EndSubmission | src/screens/EndDutyScreen.js:60-91 | An accepted end posted to the end-duty URL with the stored token's headers and the four part names. It carried the trimmed reading and the resized photo's URI. |
| EndDutyScreen.EndPhotoRequired | src/screens/EndDutyScreen.js:66-69 | A missing photo is reported with `Please add end odometer photo.` |
| HomeScreen.AfterFetch | src/screens/HomeScreen.js:33-48 | A success keeps `res.data`, or the whole body when `data` is nullish, and clears the error. A failure clears the status and shows the Error's message, or `Failed to load status` when that is empty. |
| HomeScreen.ViewOf | src/screens/HomeScreen.js:58-61 | Each of the four fields is the status field when that is not nullish. A missing field, in a partial status or with no status at all, reads as `'off_duty'`, `false`, no booking and `0`. |
| HomeScreen.FailedFetchShowsDefaults | src/screens/HomeScreen.js:41-43 | After a failed fetch the screen shows the defaults. |
| HomeScreen.StatusIsUnwrapped | src/screens/HomeScreen.js:39 | The documented `{ status: 200, data }` reply is unwrapped to `data`. |
| HomeScreen.FormatDuration | src/screens/HomeScreen.js:64-69 | A falsy or non-positive duration shows `0h 0m`. A non-numeric one shows `NaNh NaNm`. |
| HomeScreen.FormatDurationSplits | src/screens/HomeScreen.js:66-68 | For a positive duration, the label shows the unique whole hours and minutes (minutes below 60) whose span contains the duration. |
| HomeScreen.DurationStringRendersAsNumber | src/screens/HomeScreen.js:64-69 | A duration sent as a decimal string renders as the number does. |
| HomeScreen.HandleStartDuty | src/screens/HomeScreen.js:71-108 | The vehicle check comes first, then the booking id. Navigation happens exactly when both pass, the driver confirms, location is permitted and a position is obtained. It carries the booking fields and the position. Once the gates pass, a cancelled confirmation ends silently. A denied permission alerts the settings message. A failed position alerts its message, or `Please enable location and try again.` |
| HomeScreen.GatesPrecedeLocation | src/screens/HomeScreen.js:72-79 | Without a vehicle or a booking, the later steps never affect the outcome. |
| HomeScreen.StartParamsAsRead | src/screens/HomeScreen.js:94-100 | The start form reads the booking id as is and the user name or `''`. It reads the phone as a string, `''` when absent. The coordinates arrive unchanged. |
| HomeScreen.HandleEndDuty | src/screens/HomeScreen.js:110-136 | Navigation happens exactly when confirmed, permitted and located. The end form then reads the two coordinate strings. A cancelled confirmation ends silently. A denied permission alerts the settings message. A failed position alerts its message, or `Please enable location and try again.` |
| HomeScreen.StartDisabled | src/screens/HomeScreen.js:214 | Start Duty is disabled while on duty or without a truthy vehicle, and enabled otherwise. |
| HomeScreen.EndDisabled | src/screens/HomeScreen.js:226 | End Duty is disabled only for the duty status `'off_duty'`. On duty, or with a non-string status, it is enabled. |
| HomeScreen.ButtonsFollowDutyState | src/screens/HomeScreen.js:211-226 | On duty, only End is enabled. Off duty, End is disabled and Start is enabled only with a vehicle. With no status both are disabled. |
| HomeScreen.UnknownStatusEnablesBoth | src/screens/HomeScreen.js:214-226 | Any other duty status enables End, and Start too when a vehicle is assigned. |
| HomeScreen.EnabledStartHasVehicle | src/screens/HomeScreen.js:72-75 | Pressing an enabled Start button never hits the no-vehicle alert. |
| JsValue.OrPicksFirstTruthy | src/screens/OTPScreen.js:53-58 | `a \|\| b` is `a` when truthy, else `b`. |
| JsValue.FalsyValuesAreTheFalsy | src/services/driverApi.js:29 | The falsy values are exactly `undefined`, `null`, `false`, `0`, `NaN` and `''`, so any of them as a body `status` is accepted. |
| JsValue.CoalesceKeepsFalsyValues | src/screens/HomeScreen.js:58-61 | `a ?? b` keeps every value that is not nullish, falsy ones included, where `a \|\| b` would replace them. |
| JsValue.ErrorMessageOfOr | src/services/driverApi.js:27 | `new Error(x \|\| fallback).message` is the fallback when `x` is falsy, else `String(x)`. |
| JsValue.NumberStringRoundTrip | src/screens/HomeScreen.js:65-67 | `Number(String(n))` is `n` for every integer. |
| JsText.IntToDecimalRoundTrip | src/screens/HomeScreen.js:68 | The decimal rendering of an integer parses back to it. |
| Http.CaughtError | src/screens/LoginScreen.js:46-47 | The caught Error's text is truthy. It is the Error's own message when that is non-empty, else `Network error. Please try again.` |
| Flows.StoredAfter | src/screens/OTPScreen.js:59-60 | Storage is unchanged unless the driver signs in. After a sign-in with a string token, it holds that token. |
| Flows.CodeRequestSucceeds | src/screens/LoginScreen.js:41-42 | A `'success'` reply moves to code entry with the same number. |
| Flows.SignInWithToken | src/screens/OTPScreen.js:51-61 | A verified reply `{ status: 200, token: t }` signs in with `t`, having sent the trimmed code. |
| Flows.SignInAuthorizesStatus | src/services/driverApi.js:11-24 | After that sign-in, storage holds `t` and the next status request carries exactly `Authorization: Bearer` + `t`. |
| Flows.NoVehicleBlocksStart | src/screens/HomeScreen.js:72-75 | A status without a vehicle, bare or wrapped in `data`, disables Start, and a press alerts `Cannot start duty`. |
| Flows.StartNavigation | src/screens/HomeScreen.js:94-100 | For a booking with an id, a name and a phone, Home navigates to the start form, which reads the id, name, phone and position unchanged. |
| Flows.StartRequestLayout | src/screens/StartDutyScreen.js:84-96 | With a stored token, the start-duty POST is exactly the seven documented parts in order, with `Authorization: Bearer` + token. |
| Flows.StartSubmissionSent | src/screens/StartDutyScreen.js:71-99 | A reading without surrounding spaces, a resizable photo and an accepting server end in success, with the reading sent as typed. |
| Flows.StartDutyFlow | src/screens/HomeScreen.js:71-100 | From the Start Duty press on Home to the accepted submission. The form holds the reading, the booking's id, name and phone, the position and the resized photo. |

## Left out

- Network, storage and navigation are not executed. Their results are
  inputs: the `Reply`, the stored token, the position, the permission
  answers and the picker response.
- Writing the token to storage is assumed to succeed. `Flows.StoredAfter`
  only covers string tokens. Storing a non-string token is not modelled.
- `src/utils/location.js` is not part of this model. Its answers are the
  `permitted` flag and the `HomeScreen.Fix` input.
- `resizeImage` is a function parameter. The resizer's scaling (1024 px
  wide, quality 70) is not modelled, so its idempotence is not proved.
- `pickImageOptions`, the iOS action sheet and Android alert menus, and
  the rest of the rendering are not modelled. So are the
  `loading`/`refreshing`/`submitting` flags, their reset in `finally`
  on both outcomes, and the disabled Submit button. They are UI state
  with no decision logic.
- Numbers have integer values and `NaN` only. Fractions, `Infinity` and
  `-0` are not represented. Integers are unbounded, so the rounding of
  integers above 2^53 to the nearest double is not represented either; a
  numeric `user_phone` that large would be sent exactly rather than
  rounded (src/screens/HomeScreen.js:97).
- `Number()` on a string accepts only an optional sign and decimal
  digits, after trimming. Anything else gives `NaN`.
- `String()` of a number uses plain decimal form, so exponent notation
  for very large values is not represented.
- Request bodies are the JSON values, not the text `JSON.stringify`
  writes.
- `Prop` reads own properties of objects only. Array and string
  properties such as `length`, and inherited properties, read as
  `undefined`.
- HomeScreen.FormatDuration: the label is characterised for integer
  seconds only, because fractional durations are not modelled.
- The exact wording of a `TypeError` is engine specific. The model uses
  Hermes' wording.

## Findings

| source | as written | input that shows it | evidently intended | confidence | as-written member | corrected member |
|---|---|---|---|---|---|---|
| src/screens/EndDutyScreen.js:36-55 | The camera and gallery callbacks await the picker without a `catch`, so a rejected pick is an unhandled promise rejection and the driver sees nothing | Android, camera permission denied: `pickImageFromCamera` throws the permission message and no alert appears | Report the failure in a 'Camera' alert as the start-duty screen does (src/screens/StartDutyScreen.js:35-42) | medium, not executed | EndDutyScreen.OnPickedAsWritten | EndDutyScreen.OnImagePicked |
