# Access control system: a verified model of its decision logic and client state

The access control system recognises a driver by face and licence plate and
opens the gate when both belong to the same registered user. This project models its core in Dafny:

- **Detection service** (`detect_service.py`). Face detections are filtered by
  size and matched to the closest registered face below distance 0.5.
  Confident YOLO boxes become plate detections. `process_frame` decides
  granted or denied from the most confident face and the first plate.
  `register_user` refuses a frame with no face or a face too similar to a
  registered one, and otherwise stores the largest face under the user's
  name. `known_faces` is an insertion-ordered sequence with distinct names,
  because dictionary order decides ties. The vision libraries are inputs:
  face locations, an encoding function, a distance function, YOLO boxes
  with the OCR texts of each crop, and the percentage formatting.
- **Node server** (`server.js`). The camera list is parsed from ffmpeg's
  device listing: the first "DirectShow video devices" line, then the
  quoted name on each following line that contains a quote. The user
  store is append-only.
- **Dashboard** (`AccessDashboard.tsx`). The frame sampler is guarded by its
  `processingRef` flag. The overlay is a list of draw commands, and a small
  canvas semantics says what those commands leave on the canvas (boxes,
  label backgrounds, texts and their colours). The access check moves
  through its statuses. Each asynchronous handler is split at its `await`
  into a Start and a Complete method. What the browser and the server
  return comes in as parameters.
- **Registration form** (`RegisterUser.tsx`). The picture is shrunk to at
  most 800 pixels wide. Each input edit changes one field. A submission
  posts the fields and the preview, then clears the form or reports the
  error.
- **Settings panel** (`Settings.tsx`). The panel keeps the fetched camera
  list, the selection, the threshold slider, the reset button, and the save
  that writes the selection to local storage.

Shared string operations are modelled once in `text.dfy`: substring
search, `split(sep)[0]`, and splitting into lines together with its
inverse.

Three behaviours of the code as written are modelled, not corrected:

- **Canvas gives no blob.** When `toBlob` produces no blob (a canvas of
  width or height 0, e.g. before the video has reported its size), the
  promise never settles. The sampler then keeps its flag forever
  (`SamplerStalled`), and the access check stays in "processing" with its
  button disabled (`VerifyStalled`).
- **Verify with no video, canvas or context.** A missing video element,
  canvas or 2D context likewise leaves the access check in "processing".
- **Settings save.** The "Save Settings" button is a submit button placed
  outside the `<form>` element, so clicking it does not run the save
  handler. The handler is modelled as written.

## Model

| member | source | states |
|---|---|---|
| Text.IndexOfMeaning | detect_service.py:220 | the index found is the first occurrence of the substring, and there is none exactly when the substring does not occur |
| Text.SplitHead | detect_service.py:220 | `split(sep)[0]` is a prefix of the text that ends where the first occurrence of the separator begins (none occurs inside it), and is the whole text exactly when the separator does not occur |
| Text.SplitPiecesFree | server.js:51 | no piece of `split('\n')` contains the separator |
| Text.JoinSplit | server.js:51 | joining the pieces of a split with the separator gives the text back |
| Text.SplitJoin | server.js:51 | splitting pieces joined by the separator recovers them, when none contains it |
| Plates.RemoveSpaces | detect_service.py:255-256 | the result has no space and is no longer than the input |
| Plates.RemoveSpacesMeaning | detect_service.py:255-256 | every character other than a space is kept exactly as often as it occurs, and a text without spaces is returned unchanged |
| Plates.RemoveSpacesAppend | detect_service.py:255-256 | removing spaces works piece by piece, so the kept characters stay in their order |
| Plates.ComparePlates | detect_service.py:253-257 | plates that are equal after ASCII upper-casing compare equal |
| Plates.ComparePlatesIsEquivalence | detect_service.py:253-257 | the plate comparison is reflexive, symmetric and transitive |
| Plates.SpaceInsensitive | detect_service.py:253-257 | inserting a space anywhere in a plate never changes the comparison |
| Plates.CaseInsensitive | detect_service.py:253-257 | upper-casing a plate never changes the comparison |
| Plates.TabIsSignificant | detect_service.py:255-256 | only spaces are removed: "AB\t12" and "AB12" compare different |
| DetectService.FindName | detect_service.py:231 | a key position found holds that name |
| DetectService.FindNameMeaning | detect_service.py:231 | the first entry with the name is found, and none exactly when no entry has it |
| DetectService.Lookup | detect_service.py:231-232 | a lookup finds a stored entry under that name, and finds nothing only when no entry has the name |
| DetectService.Upsert | detect_service.py:104-108 | storing puts the entry in the dictionary and grows it by at most one |
| DetectService.UpsertKeepsKeys | detect_service.py:104-108 | storing an entry keeps names distinct and in place, and grows the dictionary by one exactly when the name was new |
| DetectService.UpsertIsAssignment | detect_service.py:104-108 | after storing, the name maps to the new entry and every other name keeps its entry |
| DetectService.BestMatch | detect_service.py:143-154 | the index chosen by the strict best-so-far loop lies within the distances |
| DetectService.BestMatchMeaning | detect_service.py:143-154 | no match exactly when no distance is below 0.5; otherwise the match is the smallest distance below 0.5, the first one on ties |
| DetectService.FaceLabel | detect_service.py:165 | an unmatched face is labelled with the bare "Unknown"; a matched one's label starts with the name followed by " (" and ends with ")" |
| DetectService.NameFromLabel | detect_service.py:220 | the name read back is the part of the label before its first " (" (no " (" starts inside it, and one starts right after it), and the whole label when it holds no " (" |
| DetectService.LabelRoundTrip | detect_service.py:165 | `label.split(" (")[0]` gives back the name exactly when the name does not contain " (" |
| DetectService.FaceDetectionFor | detect_service.py:137-167 | a face smaller than 20 in height or width gives no detection; any other gives a face detection at its box |
| DetectService.FaceDetectionMeaning | detect_service.py:143-165 | the label carries the best match's name and the confidence is 1 - distance (above one half for non-negative distances), or "Unknown" with confidence 0 when nothing is below 0.5; a best match registered under the name "Unknown" also gives the label "Unknown" with confidence 0 |
| DetectService.FaceDetectionOfMatch | detect_service.py:156-167 | the name and distance the matching loop ends with determine the detection |
| DetectService.FaceDetectionsFiltered | detect_service.py:137-141 | every face detection is at least 20 by 20, there is at most one per face, and exactly one per face when no face is too small |
| DetectService.FaceDetectionsComplete | detect_service.py:134-167 | every face at least 20 by 20 gives its detection whatever the other faces, and the detections keep the order of the faces |
| DetectService.Truncate | detect_service.py:175 | `int()` of a float truncates toward zero |
| DetectService.PlateOf | detect_service.py:175-194 | a plate detection is labelled with the first OCR text, or "Unknown" when OCR read nothing |
| DetectService.BoxDetectionsMeaning | detect_service.py:173-194 | a plate detection comes only from a box with score above 0.5, with width x2-x1, height y2-y1 and the first OCR text or "Unknown" as label; one per box exactly when every box scores above 0.5 |
| DetectService.BoxDetectionsComplete | detect_service.py:171-194 | every box with score above 0.5 gives its detection whatever the other boxes, and the detections keep the order of the boxes |
| DetectService.DetectPlates | detect_service.py:169-194 | the plate loop emits exactly the plate detections of all results and boxes, in order |
| DetectService.TopFace | detect_service.py:208-209 | the face chosen is the most confident one, the first on ties, and none exactly when there is no face |
| DetectService.FirstPlate | detect_service.py:212 | the plate chosen is the first plate detection, and none exactly when there is no plate |
| DetectService.Verdict | detect_service.py:202-247 | without a face or a plate the decision is the missing-face-or-plate denial; a grant carries the first plate's text and a registered name other than "Unknown" whose plate compares equal |
| DetectService.DeniedWithoutFaceOrPlate | detect_service.py:214-218 | with no face or no plate the verdict is denied for a missing face or plate |
| DetectService.DeniedWhenUnrecognised | detect_service.py:220-228 | when the top face reads as "Unknown", access is denied as not recognised, with that face's confidence |
| DetectService.GrantedIff | detect_service.py:230-247 | access is granted exactly when the top face's name is registered and the first plate compares equal to that user's plate; the grant carries that name and plate |
| DetectService.LargestFace | detect_service.py:87-90 | the face chosen has the largest area, the first one on ties |
| DetectService.DetectionService.DetectObjects | detect_service.py:119-196 | the detections are the face detections followed by the plate detections |
| DetectService.DetectionService.BestKnownFace | detect_service.py:143-154 | the matching loop ends with the name and distance of the best match, or "Unknown" and no distance |
| DetectService.DetectionService.DetectFaces | detect_service.py:134-167 | the face loop emits exactly the face detections of the size-filtered faces, in order |
| DetectService.DetectionService.ProcessFrame | detect_service.py:202-247 | the decision is the verdict on the frame's detections |
| DetectService.DetectionService.RegisterUser | detect_service.py:83-113 | no face leaves the users unchanged and fails; a largest face too close to a registered one fails and leaves the users unchanged; otherwise the user is stored under the name, and success also needs the save |
| Server.MatchFromMeaning | server.js:56 | the match found is the leftmost one of `"([^"]+)"` from the starting point, and there is none exactly when none exists |
| Server.QuotedName | server.js:56 | a capture is never empty |
| Server.QuotedNameMeaning | server.js:56-57 | the capture is non-empty, has no quote and is the inside of the leftmost match; there is none exactly when the line has no match |
| Server.FirstLineWithMeaning | server.js:52-53 | the header line found is the first one containing the marker, and none exactly when no line contains it |
| Server.LineCameras | server.js:56-62 | a scanned line contributes at most one camera |
| Server.ScanFrom | server.js:55-64 | the scan yields at most one camera per line scanned |
| Server.CamerasBound | server.js:52-64 | without a header line there are no cameras; otherwise at most as many as lines after the header |
| Server.ScanFromSound | server.js:55-61 | every camera has id equal to label, the capture of a line the scan reached without passing a line lacking a quote |
| Server.ScanFromComplete | server.js:55-62 | every line the scan reaches that has a capture contributes that camera |
| Server.NoMatchSkipped | server.js:55-57 | a line with a quote but no match adds no camera and does not end the scan |
| Server.LaterLinesIgnored | server.js:55-65 | once a line after the first header lacks a quote, nothing after it (a second header included) changes the list |
| Server.ScanDevices | server.js:55-64 | the inner loop collects exactly the scanned captures |
| Server.CamerasIn | server.js:49-68 | without the header line the list is empty; otherwise it has fewer cameras than lines |
| Server.ListCameras | server.js:49-68 | the handler answers with the cameras after the first header of the split standard error |
| Server.UserStore.constructor | server.js:12-15 | the store starts with the persisted users |
| Server.UserStore.Register | server.js:27-39 | POST appends exactly one record with the submitted fields, the id and the time, after the earlier users |
| Server.UserStore.List | server.js:43-45 | GET returns the users unchanged |
| Server.RegisterThenList | server.js:27-45 | after a POST, GET shows every earlier user in place and the new user last with the submitted fields |
| AccessDashboard.LabelOf | frontend/src/components/access/AccessDashboard.tsx:125 | a missing or empty label reads as "Unknown"; any other label is kept; the result is "Unknown" exactly for a missing, empty or "Unknown" label, and is never empty |
| AccessDashboard.OverlayCommands | frontend/src/components/access/AccessDashboard.tsx:119-136 | the overlay issues eight calls per detection |
| AccessDashboard.MarksAppend | frontend/src/components/access/AccessDashboard.tsx:119-136 | the canvas marks of two batches of calls are those of the first followed by those of the second, drawn in the state the first left |
| AccessDashboard.DetectionMarks | frontend/src/components/access/AccessDashboard.tsx:119-136 | one detection leaves its box in green (face) or blue at width 2, a label background at (x, y-25) of text width + 10 by 20, and the label in white at (x+5, y-10), whatever the context state before |
| AccessDashboard.LabelMarks | frontend/src/components/access/AccessDashboard.tsx:125-135 | the label calls leave the background and the text whatever the context state before |
| AccessDashboard.OverlayMarks | frontend/src/components/access/AccessDashboard.tsx:119-136 | the overlay leaves each detection's three marks, in order |
| AccessDashboard.OverlayOutlines | frontend/src/components/access/AccessDashboard.tsx:119-122 | exactly one rectangle is stroked per detection, in order, at its box, green for a face and blue otherwise |
| AccessDashboard.Dashboard.constructor | frontend/src/components/access/AccessDashboard.tsx:10-35 | the dashboard starts idle, with no detections, no recognition and the sampler flag down |
| AccessDashboard.Dashboard.StartSample | frontend/src/components/access/AccessDashboard.tsx:72-94 | a no-op while the flag is up or without video or canvas; a missing context drops the flag again; otherwise the canvas takes the video size and frame, and a missing blob leaves the sampler stalled |
| AccessDashboard.Dashboard.CompleteSample | frontend/src/components/access/AccessDashboard.tsx:100-143 | detections are replaced and the canvas is redrawn with the overlay only when mounted and detections are present; otherwise both are unchanged; the flag is down on every path |
| AccessDashboard.Dashboard.StartVerify | frontend/src/components/access/AccessDashboard.tsx:158-178 | the status becomes "processing" first, and stays there with nothing pending when video, canvas, context or blob is missing |
| AccessDashboard.Dashboard.CompleteVerify | frontend/src/components/access/AccessDashboard.tsx:180-204 | a failure shows "error"; a reply shows its status; the recognition is replaced only on "granted" |
| RegisterUser.ScaleFactor | frontend/src/components/access/RegisterUser.tsx:36 | the scale factor lies in (0, 1] and is 1 exactly for a picture at most 800 wide |
| RegisterUser.CanvasDimension | frontend/src/components/access/RegisterUser.tsx:37-38 | a canvas size drops the fraction; a size whose truncated value modulo 2^32 exceeds 2^31 - 1 falls back to the dimension's default, in particular every size from 2^31 up to 2^32 |
| RegisterUser.ResizedWidth | frontend/src/components/access/RegisterUser.tsx:36-37 | the width is unchanged up to 800 and exactly 800 beyond |
| RegisterUser.ResizedHeight | frontend/src/components/access/RegisterUser.tsx:36-38 | the height never grows, and is unchanged for a picture at most 800 wide |
| RegisterUser.ResizedWidthBound | frontend/src/components/access/RegisterUser.tsx:36-37 | the resized width is at most 800: unchanged up to 800, exactly 800 beyond |
| RegisterUser.SmallPictureKept | frontend/src/components/access/RegisterUser.tsx:36-38 | a picture at most 800 wide keeps its width and height |
| RegisterUser.ProportionalHeight | frontend/src/components/access/RegisterUser.tsx:36-38 | a wider picture's new height is the whole part of height * 800 / width |
| RegisterUser.WithField | frontend/src/components/access/RegisterUser.tsx:49-52 | the named field takes the value and every other field is unchanged |
| RegisterUser.WithFieldLaws | frontend/src/components/access/RegisterUser.tsx:51 | writing a field's own value back is a no-op, and a later write to a field overrides an earlier one |
| RegisterUser.RequestParts | frontend/src/components/access/RegisterUser.tsx:58-69 | the body has name, contact and carPlate in that order, each with its field's value, and a fourth part, the picture named `<name>.jpg`, exactly when there is a non-empty preview |
| RegisterUser.FailureText | frontend/src/components/access/RegisterUser.tsx:86-93 | the error text is the reply's message, else 'Failed to register user'; for a thrown error its message; it is empty only for a thrown error with an empty message |
| RegisterUser.RegisterForm.constructor | frontend/src/components/access/RegisterUser.tsx:18-24 | the form starts empty, without preview, not loading |
| RegisterUser.RegisterForm.HandleImageChange | frontend/src/components/access/RegisterUser.tsx:27-47 | the preview becomes the picture drawn at the resized size; the fields are unchanged |
| RegisterUser.RegisterForm.HandleInputChange | frontend/src/components/access/RegisterUser.tsx:49-52 | only the named field changes |
| RegisterUser.RegisterForm.BeginSubmit | frontend/src/components/access/RegisterUser.tsx:54-69 | loading starts and the request body is built from the current fields and preview |
| RegisterUser.RegisterForm.FinishSubmit | frontend/src/components/access/RegisterUser.tsx:71-97 | on success the fields reset to empty strings and the preview to null; on failure both are kept and the error toast carries the failure text; loading ends on every path |
| Settings.FetchedSelection | src/components/access/Settings.tsx:34-35 | a non-empty list selects its first camera, a listed one; an empty one leaves the selection |
| Settings.ResetSelection | src/components/access/Settings.tsx:117 | reset selects the first camera, a listed one, or '' when there are none |
| Settings.ResetMatchesFetch | src/components/access/Settings.tsx:116-117 | reset selects the camera a fetch of the same list selects, and '' without cameras |
| Settings.SettingsPanel.constructor | src/components/access/Settings.tsx:20-23 | the panel starts at threshold 80, with no cameras, no selection, not loading |
| Settings.SettingsPanel.FetchCameras | src/components/access/Settings.tsx:31-43 | a fetched list is stored and its first camera selected; a failure leaves list and selection unchanged and reports an error |
| Settings.SettingsPanel.SelectCamera | src/components/access/Settings.tsx:76 | the picker sets the selection |
| Settings.SettingsPanel.HandleConfidenceChange | src/components/access/Settings.tsx:45-47 | the threshold becomes the slider's first value and nothing else changes |
| Settings.SettingsPanel.Reset | src/components/access/Settings.tsx:113-122 | the threshold returns to 80 and the selection to the reset selection |
| Settings.SettingsPanel.BeginSave | src/components/access/Settings.tsx:49-54 | loading starts and the selection of that moment is what will be saved |
| Settings.SettingsPanel.FinishSave | src/components/access/Settings.tsx:55-61 | loading ends and the captured selection is written under 'selectedCamera', with no other key changed |

## Left out

- Face detection, face encodings, face distances, YOLO, EasyOCR, the colour conversion and the choice of torch device. These are foreign libraries; their results are parameters.
- Loading and saving `known_faces` with pickle. A failed save is only the `saved` flag of `RegisterUser`.
- The exception paths of `detect_objects`, `process_frame` and `register_user`. The modelled inputs cannot raise, and an exception raised inside a library call is not modelled.
- The OCR error path. It is the same as OCR reading nothing: an empty list of texts.
- The `timestamp` field of a granted decision and the registration tick. Both are clock readings; the tick is a parameter.
- Plates.UpperChar: Python's `upper()` is modelled for ASCII letters only; Unicode case mapping is not modelled.
- DetectService.FaceLabel: the `:.2%` formatting is an opaque parameter.
- DetectService.FaceDetectionMeaning: confidence above one half is stated only for non-negative distances, as the face library produces them.
- DetectService.TopFace: `x.get("confidence", 0)` always finds the key, because every face detection carries a confidence.
- `app.py`, `frontend/src/lib/api.ts`, `src/lib/utils.ts` and `src/App.tsx` are not part of this model. They are HTTP plumbing, fetch wrappers and view switching.
- Camera acquisition (`getUserMedia`), the one-second interval and its clean-up. The interval's ticks are the calls to `StartSample`; unmounting is the `mounted` parameter.
- `toBlob`, `fetch`, `FileReader`, JPEG encoding and `localStorage` I/O. Their results are parameters; local storage is a map field.
- `measureText` widths and `toLocaleString` times are parameters.
- The placeholder access-history table and the rest of the JSX.
- AccessDashboard.Dashboard.CompleteSample: a `detections` value that is truthy but not an array is not modelled. It would make `forEach` throw after the state was replaced.
- AccessDashboard.Dashboard.CompleteVerify: a reply without a `status` field is not modelled. The status is a string.
- AccessDashboard.Dashboard.StartVerify: a click is modelled only while the button is enabled, that is, while the status is not "processing".
- RegisterUser.ResizedWidthBound: the arithmetic is exact. In double precision, `width * (800 / width)` may round below 800 and be truncated to 799.
- RegisterUser.ResizedWidth: the same exact arithmetic as `ResizedWidthBound`; a double product may be truncated to 799.
- RegisterUser.ProportionalHeight: the arithmetic is exact. In double precision, `height * (800 / width)` may land just below a whole number and be truncated one lower than the whole part of `height * 800 / width`.
- RegisterUser.ResizedHeight: the same exact arithmetic as `ProportionalHeight`.
- RegisterUser.RegisterForm.HandleImageChange: the preview size inherits the exact arithmetic of `ResizedWidth` and `ResizedHeight`; the double-precision result may be one pixel smaller.
- RegisterUser.WithField: an input name other than the three fields adds an extra property in the source. The model leaves the three fields unchanged and does not keep the extra property.
- RegisterUser.RegisterForm.BeginSubmit: the browser's `required` check is modelled as non-empty fields. The required file input is not modelled.
- Settings.SettingsPanel.FinishSave: overlapping saves are not tracked separately. A finishing save always lowers the loading flag.
- Server.UserStore.Register: a failing `db.write()` (the user stays appended in memory and no 201 reply is sent) and absent body fields (`undefined`, dropped from the stored JSON) are not modelled; every field is a string and the write always succeeds.
- Toasts are modelled as returned values only. Their display and timing are not modelled.
