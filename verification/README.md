# BarcodeReaderforBook — a Dafny model of the frame pipeline

The app points the camera at a book's barcode, tracks the barcode from frame
to frame, and looks the book up in the Google Books search service. This
project models the app's own logic in that pipeline. Camera, vision, Combine,
networking and UI calls are left out; what they deliver is passed in as an
input.

- **Capture session** (`capture_session.dfy`). The idempotent start/stop
  guards. The per-sample guard that emits a frame only when the sample has
  both the camera-intrinsics attachment and a pixel buffer. The partial
  conversions from device and interface orientation to video orientation,
  and the debug names of the video orientations.
- **Tracking client** (`tracking_client.dfy`). The `stop` / `tracking(requests)`
  state machine. In `stop`, or in `tracking` with no requests, a frame seeds
  one track request per detected barcode and publishes one `info` dictionary
  per barcode. Otherwise the frame advances the requests through the filter:
  drop, keep with a new hint, or keep marked last-frame. A request is
  kept only when its confidence is strictly above the threshold. Confidences
  are single-precision floats, and so is the literal `0.99`, so the threshold
  is the float nearest 0.99, exactly 0.9900000095367431640625. Every float is
  a real, so comparing reals with this value gives the source's float
  comparison.
- **Tracking view model** (`tracking_view_model.dfy`). A record of the
  published fields. Its transitions are the frame gate on `isAdded`, the
  mapping of observations to rectangles, the `janCode` / `isTracking`
  derivation together with the fetches it launches, the fetch URL, applying a
  fetch result, `resetParameter`, and the device-to-image orientation table.
- **Preview layer** (`preview_layer_view.dfy`). Rotation and scale per device
  orientation. The overlay transform, modelled as exact quarter turns after a
  `(scaleX, -scaleY)` scale. The mapping of each normalised box to a layer
  rectangle, over `real`. The overlay layer's frame is an input.
- **Pipeline** (`pipeline.dfy`). The subscriptions wired together: a sample
  passes the capture guard and the frame gate, then goes to the tracker. The
  tracker's published values flow back into the view model. A fetch result
  and a reset are separate steps.

`optional.dfy`, `geometry.dfy` and `orientations.dfy` hold the shared types.
Rectangles follow Core Graphics: `MinX`, `MaxY`, `Width` and `Height` are
the standardized readings.

Each callback is one atomic transition. The model also records which
published properties a step *assigned*, because a Combine subscriber fires on
every assignment, even when the value is unchanged. This matters for fetches:
every assignment of `true` to `isTracking` launches one.

## Behaviour of the code worth knowing

- A low-confidence track is kept for one more frame, marked last-frame, and
  dropped on the frame after (`TrackingClient.Continue`,
  `TrackingClient.MarkedRequestGoneNextStep`).
- After the filter, only the results of the *last* surviving request are
  published, not the boxes of every survivor (`TrackingClient.Request`).
- There is no single-flight guard on lookups. One fetch is launched per
  non-empty `info` entry, and again on every re-detection, until a fetch
  result sets `isAdded` (`TrackingViewModel.NoSingleFlight`,
  `Pipeline.ScenarioSecondFetchInFlight`).
- A lookup is triggered by a non-empty dictionary, not a non-empty payload.
  Every detected barcode gives a two-key dictionary, so every barcode
  launches a fetch. Every fetch from one detection reads the final JAN code,
  which is the last barcode's dictionary, assuming each fetch runs after the
  info callback (see Left out). So the query is the last barcode's payload,
  and `q=""` when the last barcode has no payload string
  (`Pipeline.DetectionLaunchesOnePerBarcode`).
- `resetParameter` clears only the view model. The tracking client keeps its
  state and its `info` (`Pipeline.FetchClosesGateResetReopens`). Nothing in
  the UI calls `resetParameter`.
- After a failed detection, `info` is left as it was. After a detection that
  finds no barcode, `info` is `[]`, not `[[:]]`.
- Fetches go to `.../volumesq`, the address the code builds; see Findings.

## Model

| member | source | states |
|---|---|---|
| CaptureSession.StartSession | BarcodeReaderforBook/Model/CaptureSession.swift:35-42 | afterwards the session runs; the platform start is issued exactly when it was not already running |
| CaptureSession.StopSession | BarcodeReaderforBook/Model/CaptureSession.swift:44-47 | afterwards the session is stopped; the platform stop is issued exactly when it was running |
| CaptureSession.GuardsAreIdempotent | BarcodeReaderforBook/Model/CaptureSession.swift:35-47 | starting twice is starting once, and the second start issues nothing; likewise for stopping |
| CaptureSession.CaptureOutput | BarcodeReaderforBook/Model/CaptureSession.swift:121-135 | a frame is emitted if and only if the sample has both the intrinsics attachment and a pixel buffer; it carries both unchanged, and its size is the buffer's (width, height) |
| CaptureSession.VideoFromDevice | BarcodeReaderforBook/Model/CaptureSession.swift:156-171 | undefined exactly on face up, face down and unknown; otherwise the video orientation of the same name |
| CaptureSession.VideoFromDeviceByName | BarcodeReaderforBook/Model/CaptureSession.swift:156-171 | each of the four named device orientations maps to its namesake and back; the conversion is undefined exactly on face up, face down and unknown |
| CaptureSession.VideoFromInterface | BarcodeReaderforBook/Model/CaptureSession.swift:173-188 | undefined exactly on unknown; otherwise the video orientation of the same name |
| CaptureSession.VideoFromInterfaceByName | BarcodeReaderforBook/Model/CaptureSession.swift:173-188 | the four named interface orientations map to their namesakes and back; only unknown is undefined; on the named cases it agrees with the device conversion |
| CaptureSession.DebugDescription | BarcodeReaderforBook/Model/CaptureSession.swift:140-154 | each orientation's debug name reads back as that orientation |
| CaptureSession.DebugDescriptionRoundTrip | BarcodeReaderforBook/Model/CaptureSession.swift:140-154 | each debug name reads back as its orientation, so the four names are pairwise distinct; "unknown" names none of them |
| TrackingClient.Initial | BarcodeReaderforBook/Model/TrackingClient.swift:17-19 | the declared initial values: `stop`, so the first frame runs a detection; no observations; `info` is one empty dictionary |
| TrackingClient.ThresholdIsNearestFloat | BarcodeReaderforBook/Model/TrackingClient.swift:43 | the threshold is a 24-bit significand over 2^24, less than half a unit in the last place from 0.99: the float nearest 0.99, and above it |
| TrackingClient.Seed | BarcodeReaderforBook/Model/TrackingClient.swift:104-113 | one track request per barcode observation, in order; each follows its barcode, is not on its last frame, and has no results yet |
| TrackingClient.InfoOf | BarcodeReaderforBook/Model/TrackingClient.swift:96-102 | one dictionary per barcode observation, in order, with exactly the keys `symbology` and `value`; `value` is the payload string, or "" when there is none |
| TrackingClient.Detect | BarcodeReaderforBook/Model/TrackingClient.swift:67-113 | a detection without results changes and assigns nothing; one with barcodes moves to `tracking` with the fresh requests `Seed` characterises, assigns `info` to the two-key entries `InfoOf` characterises, and leaves the observations alone |
| TrackingClient.Advance | BarcodeReaderforBook/Model/TrackingClient.swift:39-51 | a request is kept exactly when it has results and is not on its last frame; a kept one keeps its results, is marked last-frame exactly when the first result's confidence is at most the threshold (the float 0.99), and otherwise takes that result as its hint |
| TrackingClient.Continue | BarcodeReaderforBook/Model/TrackingClient.swift:38-52 | the filter never lengthens the list; every kept request has results; it is marked last-frame exactly when its first result's confidence is at most the threshold (the float 0.99), and otherwise its hint is that result |
| TrackingClient.ContinueIsCompaction | BarcodeReaderforBook/Model/TrackingClient.swift:38-52 | the filter's output is, in input order, one advanced request for each input that has results and is not on its last frame, and nothing for any other input |
| TrackingClient.MarkedRequestGoneNextStep | BarcodeReaderforBook/Model/TrackingClient.swift:42-51 | whatever the tracker reports next, every request kept by the following step had confidence above the threshold in this one; a request marked last-frame survives at most one more step |
| TrackingClient.PublishEach | BarcodeReaderforBook/Model/TrackingClient.swift:60-63 | the loop leaves either the value it started from or the results of one of the requests; when the last request has results, those |
| TrackingClient.PublishEachIsLast | BarcodeReaderforBook/Model/TrackingClient.swift:60-63 | when every request has results, the publishing loop leaves the results of the last request |
| TrackingClient.Request | BarcodeReaderforBook/Model/TrackingClient.swift:23-83 | in `stop`, or in `tracking` with no requests, the frame runs detection and never the filter. A failed detection changes nothing. A successful one seeds the requests and publishes `info`. Otherwise the filter runs and `info` is untouched. An empty result list gives `tracking([])`, empty observations and re-detection on the next frame; a non-empty one publishes the last survivor's results |
| TrackingViewModel.MakeOrientation | BarcodeReaderforBook/Scene/TrackingViewModel.swift:100-111 | portraitUpsideDown ↦ rightMirrored, landscapeLeft ↦ downMirrored, landscapeRight ↦ upMirrored, and exactly the other orientations ↦ leftMirrored; always a mirrored orientation |
| TrackingViewModel.OnCapture | BarcodeReaderforBook/Scene/TrackingViewModel.swift:42-50 | the pixel size follows every frame and nothing else changes; the frame reaches the tracker exactly when `isAdded` is false, with its buffer, its intrinsics and the orientation from the table |
| TrackingViewModel.Boxes | BarcodeReaderforBook/Scene/TrackingViewModel.swift:56-58 | one rectangle per observation, its bounding box, in order |
| TrackingViewModel.OnObservations | BarcodeReaderforBook/Scene/TrackingViewModel.swift:54-59 | one rectangle per observation, its bounding box, in the same order; no other field changes |
| TrackingViewModel.LastNonEmpty | BarcodeReaderforBook/Scene/TrackingViewModel.swift:67-78 | finds the last non-empty dictionary: everything after it is empty, and none is found only when every entry is empty |
| TrackingViewModel.JanCode | BarcodeReaderforBook/Scene/TrackingViewModel.swift:67-78 | the JAN code is non-empty exactly when some entry of `info` is non-empty |
| TrackingViewModel.JanCodeIsLastNonEmpty | BarcodeReaderforBook/Scene/TrackingViewModel.swift:67-78 | the JAN code is the last non-empty dictionary of `info` |
| TrackingViewModel.DeriveJanCode | BarcodeReaderforBook/Scene/TrackingViewModel.swift:67-78 | the subscription's loop computes the JAN code, and assigns `isTracking = true` once per non-empty entry |
| TrackingViewModel.OnInfo | BarcodeReaderforBook/Scene/TrackingViewModel.swift:61-91 | `info` is mirrored and `janCode` is derived from it. `isTracking` becomes true when some entry is non-empty and is never cleared here. One fetch is launched per non-empty entry. No other field changes |
| TrackingViewModel.NoSingleFlight | BarcodeReaderforBook/Scene/TrackingViewModel.swift:69-91 | an `info` with two non-empty entries launches two fetches: there is no single-flight guard |
| TrackingViewModel.RequestUrlAsWritten | BarcodeReaderforBook/Scene/TrackingViewModel.swift:117-123 | the request is built on `https://www.googleapis.com/books/v1/volumesq` with the single query item `q = janCode["value"]` |
| TrackingViewModel.RequestUrlAsWrittenMissesEndpoint | BarcodeReaderforBook/Scene/TrackingViewModel.swift:117-125 | as written, the URL renders as `.../volumesq?q=<value>`, which never begins with the search end point `.../volumes?` |
| TrackingViewModel.RequestUrl | BarcodeReaderforBook/Scene/TrackingViewModel.swift:117-123 | corrected: the request is built on `https://www.googleapis.com/books/v1/volumes` with the query item `q = janCode["value"]` |
| TrackingViewModel.RequestUrlAddressesEndpoint | BarcodeReaderforBook/Scene/TrackingViewModel.swift:117-125 | corrected, the URL renders as `https://www.googleapis.com/books/v1/volumes?q=<value>` |
| TrackingViewModel.ApplyFetch | BarcodeReaderforBook/Scene/TrackingViewModel.swift:127-133 | a non-empty response replaces `book` and sets `isAdded`. An empty response or an error leaves `book` alone and never sets `isAdded`. No other field changes |
| TrackingViewModel.Reset | BarcodeReaderforBook/Scene/TrackingViewModel.swift:136-145 | from any state, the result equals the declared initial values of every published field (lines 22-28 and 113-114) |
| TrackingViewModel.IsTrackingOnlyResetClears | BarcodeReaderforBook/Scene/TrackingViewModel.swift:69-76 | once `isTracking` is true, the frame, observation, info and fetch transitions all keep it true; only the reset clears it |
| PreviewLayerView.MakeOrientationAndScale | BarcodeReaderforBook/UIView/PreviewLayerView.swift:73-97 | rotation is 180 exactly for upside-down, 90 for landscape-left, -90 for landscape-right, and 0 for the rest. `scaleX` times the pixel width is the preview width. In landscape `scaleY == scaleX`; otherwise `scaleY` times the pixel height is the preview height |
| PreviewLayerView.OverlayApply | BarcodeReaderforBook/UIView/PreviewLayerView.swift:47 | the overlay transform of a point, a scale by `(scaleX, -scaleY)` and then the rotation, stated for each quarter turn: unrotated `(sx·x, -sy·y)`; a quarter turn (landscape-left, 90) `(sy·y, sx·x)`; a half turn `(-sx·x, sy·y)`; three quarters (landscape-right, -90) `(-sy·y, -sx·x)` |
| PreviewLayerView.OverlayFlipsY | BarcodeReaderforBook/UIView/PreviewLayerView.swift:47 | for every rotation, the overlay transform maps the unit square to a signed area of `-(scaleX*scaleY)`, so the Y axis is always flipped; unrotated, the up vector goes to `(0, -scaleY)` |
| PreviewLayerView.WholeTurnsChangeNothing | BarcodeReaderforBook/UIView/PreviewLayerView.swift:78-95 | adding whole turns to the angle chosen for any orientation leaves the rotation unchanged |
| PreviewLayerView.QuarterTurnEncoding | BarcodeReaderforBook/UIView/PreviewLayerView.swift:78-95 | a check on the model's quarter-turn encoding of the chosen angles, not a behaviour of the app: the two landscape angles undo each other, and twice landscape-left is upside-down |
| PreviewLayerView.ConvertRect | BarcodeReaderforBook/UIView/PreviewLayerView.swift:55-64 | with an overlay of non-negative size, every layer rectangle has non-negative size |
| PreviewLayerView.ConvertRectRoundTrip | BarcodeReaderforBook/UIView/PreviewLayerView.swift:55-61 | `x = minX*W + overlayMinX`, `y = (1 - maxY)*H`, `width = w*W`, `height = h*H` loses nothing: for an overlay of non-zero size, a box of non-negative size is recovered exactly from its layer rectangle |
| PreviewLayerView.ConvertRectFlipsY | BarcodeReaderforBook/UIView/PreviewLayerView.swift:56-59 | the Y axis is flipped: a box reaching higher lands nearer the top. The overlay's vertical position plays no part, since there is no `minY` offset |
| PreviewLayerView.ConvertRects | BarcodeReaderforBook/UIView/PreviewLayerView.swift:54-68 | exactly one layer rectangle per detected rectangle, in order (the closure never returns nil) |
| PreviewLayerView.DrawObservations | BarcodeReaderforBook/UIView/PreviewLayerView.swift:31-71 | one redraw, for every pixel size: one highlight per detected rectangle, in order. A transform exists exactly when its scales are finite, and it is then the full rotation-and-scale result for the device orientation. A zero pixel size, such as the initial `.zero`, gives none |
| Pipeline.Deliver | BarcodeReaderforBook/Scene/TrackingViewModel.swift:54-91 | the tracker's state becomes the app's. Assigned observations become their boxes, or the rectangles stay. Assigned info is mirrored and gives the JAN code and `isTracking`, with one fetch per non-empty entry. Without info nothing is fetched and the info fields stay. Every fetch is the as-written request for the new JAN code. Pixel size, `isAdded` and `book` are untouched |
| Pipeline.OnSample | BarcodeReaderforBook/Scene/TrackingViewModel.swift:36-91 | a sample without a frame changes nothing. Once a book is added, a frame only sets the pixel size: no tracker step, no fetch. Otherwise the pixel size is set and exactly one tracker step is delivered to the view model. Every fetch goes to the address as the code builds it (`.../volumesq`) |
| Pipeline.DetectionLaunchesOnePerBarcode | BarcodeReaderforBook/Scene/TrackingViewModel.swift:65-91 | a frame that seeds from k barcodes sets `isTracking` and launches k fetches; every one is the as-written request and queries the last barcode's payload, or "" when it has none |
| Pipeline.ContinuationLaunchesNothing | BarcodeReaderforBook/Model/TrackingClient.swift:27-65 | while the tracker follows at least one request, a frame launches no fetch and leaves `info` and `janCode` alone |
| Pipeline.ContinuationRects | BarcodeReaderforBook/Scene/TrackingViewModel.swift:54-59 | after a continuation frame, the rectangles are the boxes of the last surviving request's results, or none when nothing survived |
| Pipeline.FetchClosesGateResetReopens | BarcodeReaderforBook/Scene/TrackingViewModel.swift:44-50 | a non-empty fetch stores the books and closes the gate: later frames leave the tracker untouched and launch nothing. A reset restores the initial view model and leaves the tracker as it was; the next frame reaches the tracker again |
| Pipeline.OnFetched | BarcodeReaderforBook/Scene/TrackingViewModel.swift:127-133 | the tracker is untouched. A response with books stores them and sets `isAdded`, and every other view-model field stays. An error or an empty response changes nothing |
| Pipeline.OnReset | BarcodeReaderforBook/Scene/TrackingViewModel.swift:136-145 | the view model returns to its initial values and the tracker keeps its state |
| Pipeline.FailedFetchChangesNothing | BarcodeReaderforBook/Scene/TrackingViewModel.swift:127-133 | an error or an empty response leaves the whole app unchanged |
| Pipeline.ScenarioLookup | BarcodeReaderforBook/Scene/TrackingViewModel.swift:116-133 | a QR code `9780131101630` launches one fetch, for `https://www.googleapis.com/books/v1/volumesq?q=9780131101630`. One returned book is stored and sets `isAdded`; an error response leaves `book` empty and `isAdded` false |
| Pipeline.ScenarioLookupCorrected | BarcodeReaderforBook/Scene/TrackingViewModel.swift:117-123 | for the same frame, the corrected request would be `https://www.googleapis.com/books/v1/volumes?q=9780131101630`, which is not the address sent |
| Pipeline.ScenarioSecondFetchInFlight | BarcodeReaderforBook/Scene/TrackingViewModel.swift:81-91 | if a barcode is detected, lost, and detected again, a second fetch launches before any fetch has returned |

## Left out

- Camera set-up is platform I/O and is not modelled: session preset, device discovery, inputs and outputs, the preview layer, and the orientation-notification sink.
- The vision framework is not modelled. Its detection and tracking answers are inputs (`TrackingClient.Vision`). The symbology list and its pre-iOS 15 fallback configure that framework only.
- `@unknown default` branches are not modelled, because Dafny's enumerations are closed.
- Concurrency is not modelled: Combine's run-loop hops, the asynchronous `startRunning`, the fetch `Task` and `DispatchQueue.main`. Each callback is one atomic step. The model assumes a launched fetch reads `janCode` after the info callback has finished. Two `startSession` calls racing before the session reports running are not modelled.
- `HttpClient.fetch` (URLSession, status check, JSON decoding) and the `Book` Codable structs are a library wrapper. A fetch is an outcome, `Fetched(books)` or `FetchFailed(error)`, and a book is reduced to an identifier and a title.
- URL rendering does not percent-encode the query value.
- Preview border colour and width are display side effects and are not modelled.
- The platform computes the overlay layer's frame from CALayer geometry, so the model takes it as an input.
- `radiansForDegrees` and the floating-point rotation are not modelled. The rotation is modelled as exact quarter turns of points.
- `TrackingView.swift` (layout, lists, buttons) is UI and is not part of this model.
- Track requests are values. The reference identity of `VNTrackObjectRequest` objects is not modelled; the filter keeps the same objects, so nothing observable is lost.
- TrackingClient.Request: in the source, a present but empty results array reaching `results[0]` traps. The model requires this case away (`CanRequest`) instead of modelling the crash.
- PreviewLayerView.MakeOrientationAndScale: the source divides CGFloat by a zero pixel size, for example before the first frame when `pixelSize` is `.zero`. That gives infinite scales, which reals cannot represent, so the model requires a non-zero pixel width, and a non-zero height outside landscape.
- PreviewLayerView.DrawObservations: where the source draws with infinite scales (a zero pixel size, the value before the first frame and after a reset), the model's drawing has no transform. The highlight rectangles are still given, because they need no scale.

## Findings

| source | as written | input that shows it | evidently intended | confidence | as-written member | corrected member |
|---|---|---|---|---|---|---|
| BarcodeReaderforBook/Scene/TrackingViewModel.swift:117 | `Constants.baseURL + EndPoints.q` builds `https://www.googleapis.com/books/v1/volumesq`, and the query item is appended after it | janCode `["symbology": "QR", "value": "9780131101630"]` gives `https://www.googleapis.com/books/v1/volumesq?q=9780131101630` | `https://www.googleapis.com/books/v1/volumes?q=9780131101630`, the search end point | high; not executed | TrackingViewModel.RequestUrlAsWritten (shown by TrackingViewModel.RequestUrlAsWrittenMissesEndpoint) | TrackingViewModel.RequestUrl (proved by TrackingViewModel.RequestUrlAddressesEndpoint; compared with the sent address in Pipeline.ScenarioLookupCorrected) |
