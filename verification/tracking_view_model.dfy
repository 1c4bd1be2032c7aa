/**
  The session coordinator: the record of the view model's published fields
  and the callbacks that change it.  Each Combine subscription is modelled as
  one atomic transition; the book fetch is an outcome handed in.
 */
module TrackingViewModel {
  import opened Optional
  import opened Geometry
  import opened Orientations
  import opened CaptureSession
  import TC = TrackingClient

  /** A fetched book record; the app reads nothing of it beyond what it shows. */
  datatype Book = Book(id: string, title: string)

  /** The published fields of the view model. */
  datatype ViewModel = ViewModel(
    pixelSize: Size,
    isAdded: bool,
    detectedRects: seq<Rect>,
    info: seq<TC.Dict>,
    isTracking: bool,
    book: seq<Book>,
    janCode: TC.Dict)

  /** The declared initial value of every published field. */
  function Initial(): ViewModel {
    ViewModel(
      pixelSize := ZeroSize,
      isAdded := false,
      detectedRects := [],
      info := [map[]],
      isTracking := false,
      book := [],
      janCode := map[])
  }

  // ---------------------------------------------------------------------------
  // Frame gate
  // ---------------------------------------------------------------------------

  /** The image orientation the tracker is told for a device orientation. */
  function MakeOrientation(d: DeviceOrientation): (o: ImageOrientation)
    ensures o.IsMirrored()
    ensures d == DevicePortraitUpsideDown <==> o == RightMirrored
    ensures d == DeviceLandscapeLeft <==> o == DownMirrored
    ensures d == DeviceLandscapeRight <==> o == UpMirrored
    ensures d !in {DevicePortraitUpsideDown, DeviceLandscapeLeft, DeviceLandscapeRight} <==> o == LeftMirrored
  {
    match d
    case DevicePortraitUpsideDown => RightMirrored
    case DeviceLandscapeLeft => DownMirrored
    case DeviceLandscapeRight => UpMirrored
    case _ => LeftMirrored
  }

  /** A frame handed on to the tracker. */
  datatype TrackerCall = TrackerCall(pixelBuffer: PixelBuffer, orientation: ImageOrientation, intrinsics: Intrinsics)

  datatype Gated = Gated(vm: ViewModel, call: Option<TrackerCall>)

  /** The camera-output subscription: the pixel size follows every frame; the
      frame reaches the tracker only while no book has been added. */
  function OnCapture(vm: ViewModel, out: Outputs, device: DeviceOrientation): (g: Gated)
    ensures g.vm == vm.(pixelSize := out.pixelBufferSize)
    ensures g.call.Some? <==> !vm.isAdded
    ensures g.call.Some? ==> g.call.value == TrackerCall(out.pixelBuffer, MakeOrientation(device), out.cameraIntrinsicData)
  {
    var vm' := vm.(pixelSize := out.pixelBufferSize);
    if !vm'.isAdded then Gated(vm', Some(TrackerCall(out.pixelBuffer, MakeOrientation(device), out.cameraIntrinsicData)))
    else Gated(vm', None)
  }

  // ---------------------------------------------------------------------------
  // Observations to rectangles
  // ---------------------------------------------------------------------------

  function Boxes(observations: seq<TC.Observation>): (rects: seq<Rect>)
    ensures |rects| == |observations|
    ensures forall i :: 0 <= i < |observations| ==> rects[i] == observations[i].boundingBox
  {
    if |observations| == 0 then []
    else [observations[0].boundingBox] + Boxes(observations[1..])
  }

  /** The observations subscription: one rectangle per observation, in order,
      and nothing else changes. */
  function OnObservations(vm: ViewModel, observations: seq<TC.Observation>): (r: ViewModel)
    ensures |r.detectedRects| == |observations|
    ensures forall i :: 0 <= i < |observations| ==> r.detectedRects[i] == observations[i].boundingBox
    ensures r == vm.(detectedRects := r.detectedRects)
  {
    vm.(detectedRects := Boxes(observations))
  }

  // ---------------------------------------------------------------------------
  // Decoded info to JAN code
  // ---------------------------------------------------------------------------

  /** The position of the last non-empty dictionary, if any. */
  function LastNonEmpty(info: seq<TC.Dict>): (r: Option<nat>)
    ensures r.Some? ==> r.value < |info| && |info[r.value]| > 0
    ensures r.Some? ==> forall j :: r.value < j < |info| ==> |info[j]| == 0
    ensures r.None? <==> forall j :: 0 <= j < |info| ==> |info[j]| == 0
  {
    if |info| == 0 then None
    else if |info[|info| - 1]| > 0 then Some(|info| - 1)
    else LastNonEmpty(info[..|info| - 1])
  }

  /** The JAN code: the last non-empty dictionary, or the empty one. */
  function JanCode(info: seq<TC.Dict>): (d: TC.Dict)
    ensures |d| > 0 <==> exists j :: 0 <= j < |info| && |info[j]| > 0
  {
    match LastNonEmpty(info)
    case None => map[]
    case Some(i) => info[i]
  }

  function CountNonEmpty(info: seq<TC.Dict>): (n: nat)
    ensures n <= |info|
    ensures n == 0 <==> forall j :: 0 <= j < |info| ==> |info[j]| == 0
  {
    if |info| == 0 then 0
    else CountNonEmpty(info[..|info| - 1]) + (if |info[|info| - 1]| > 0 then 1 else 0)
  }

  /** The loop of the info subscription: walks the list, keeps the last
      non-empty dictionary, and assigns `isTracking = true` once per non-empty
      entry. */
  method DeriveJanCode(info: seq<TC.Dict>) returns (data: TC.Dict, assignments: nat)
    ensures data == JanCode(info)
    ensures assignments == CountNonEmpty(info)
  {
    data, assignments := map[], 0;
    var i := 0;
    while i < |info|
      invariant 0 <= i <= |info|
      invariant data == JanCode(info[..i])
      invariant assignments == CountNonEmpty(info[..i])
    {
      assert info[..i + 1][..i] == info[..i];
      if |info[i]| > 0 {
        data := info[i];
        assignments := assignments + 1;
      }
      i := i + 1;
    }
    assert info[..|info|] == info;
  }

  /** The effect of one assignment to the tracker's `info`: the new record, and
      how many fetches the `isTracking` subscription launched. */
  datatype InfoEffect = InfoEffect(vm: ViewModel, launched: nat)

  /** The info subscriptions: `info` is mirrored, `janCode` becomes the last
      non-empty entry, `isTracking` is assigned true once per non-empty entry,
      and every such assignment launches a fetch. */
  function OnInfo(vm: ViewModel, info: seq<TC.Dict>): (e: InfoEffect)
    ensures e.vm.info == info
    ensures e.vm.janCode == JanCode(info)
    ensures e.vm.isTracking <==> vm.isTracking || |e.vm.janCode| > 0
    ensures e.launched == CountNonEmpty(info)
    ensures e.vm.pixelSize == vm.pixelSize && e.vm.isAdded == vm.isAdded
    ensures e.vm.detectedRects == vm.detectedRects && e.vm.book == vm.book
  {
    var launched := CountNonEmpty(info);
    InfoEffect(vm.(info := info, janCode := JanCode(info), isTracking := vm.isTracking || launched > 0), launched)
  }

  /** The JAN code is the last non-empty entry when there is one. */
  lemma JanCodeIsLastNonEmpty(info: seq<TC.Dict>, i: nat)
    requires i < |info| && |info[i]| > 0
    requires forall j :: i < j < |info| ==> |info[j]| == 0
    ensures JanCode(info) == info[i]
  {
  }

  /** Fetches are not single-flight: two non-empty entries in one assignment
      launch two. */
  lemma NoSingleFlight(a: TC.Dict, b: TC.Dict)
    requires |a| > 0 && |b| > 0
    ensures OnInfo(Initial(), [a, b]).launched == 2
  {
    assert [a, b][..1] == [a];
    assert [a][..0] == [];
    assert CountNonEmpty([a]) == 1;
    assert CountNonEmpty([a, b]) == 2;
  }

  // ---------------------------------------------------------------------------
  // Book fetch
  // ---------------------------------------------------------------------------

  const BaseURL: string := "https://www.googleapis.com/books/v1/volumes"
  const EndPointQ: string := "q"

  datatype QueryItem = QueryItem(name: string, value: Option<string>)

  /** A URL as its components: everything before the query, and the query items. */
  datatype Url = Url(base: string, query: seq<QueryItem>)

  function RenderItem(item: QueryItem): string {
    match item.value
    case None => item.name
    case Some(v) => item.name + "=" + v
  }

  function RenderQuery(items: seq<QueryItem>): string {
    if |items| == 0 then ""
    else if |items| == 1 then RenderItem(items[0])
    else RenderItem(items[0]) + "&" + RenderQuery(items[1..])
  }

  /** The URL string: the query, when present, follows a `?`. */
  function Render(u: Url): string {
    if |u.query| == 0 then u.base else u.base + "?" + RenderQuery(u.query)
  }

  function Lookup(d: TC.Dict, key: string): Option<string> {
    if key in d then Some(d[key]) else None
  }

  /** The request URL exactly as the fetch builds it: the end point name is
      appended to the base with no separator. */
  function RequestUrlAsWritten(janCode: TC.Dict): (u: Url)
    ensures u.base == "https://www.googleapis.com/books/v1/volumesq"
    ensures u.query == [QueryItem("q", Lookup(janCode, "value"))]
  {
    Url(BaseURL + EndPointQ, [QueryItem("q", Lookup(janCode, "value"))])
  }

  /** The request URL the service's search end point expects. */
  function RequestUrl(janCode: TC.Dict): (u: Url)
    ensures u.base == "https://www.googleapis.com/books/v1/volumes"
    ensures u.query == [QueryItem("q", Lookup(janCode, "value"))]
  {
    Url(BaseURL, [QueryItem("q", Lookup(janCode, "value"))])
  }

  /** As written, the request goes to `.../volumesq`, not to the `volumes`
      search end point: the rendered URL never starts with `.../volumes?`. */
  lemma RequestUrlAsWrittenMissesEndpoint(janCode: TC.Dict)
    requires "value" in janCode
    ensures Render(RequestUrlAsWritten(janCode)) == BaseURL + "q?q=" + janCode["value"]
    ensures Render(RequestUrlAsWritten(janCode))[..|BaseURL| + 1] != BaseURL + "?"
  {
    var s := Render(RequestUrlAsWritten(janCode));
    assert s[|BaseURL|] == 'q';
    assert (BaseURL + "?")[|BaseURL|] == '?';
  }

  /** The corrected request renders as the service's search URL for the JAN
      code's value. */
  lemma RequestUrlAddressesEndpoint(janCode: TC.Dict)
    requires "value" in janCode
    ensures Render(RequestUrl(janCode)) == BaseURL + "?q=" + janCode["value"]
    ensures Render(RequestUrl(janCode))[..|BaseURL| + 1] == BaseURL + "?"
  {
  }

  datatype HttpError = BadURL | BadResponse | ErrorDecodingData | InvalidURL

  /** How a fetch ended: decoded book records, or an error. */
  datatype FetchOutcome = Fetched(books: seq<Book>) | FetchFailed(error: HttpError)

  /** Applying a finished fetch: a non-empty response replaces the books and
      marks the book added; an empty response or an error changes nothing. */
  function ApplyFetch(vm: ViewModel, outcome: FetchOutcome): (r: ViewModel)
    ensures r.isAdded <==> vm.isAdded || (outcome.Fetched? && |outcome.books| > 0)
    ensures r.book == (if outcome.Fetched? && |outcome.books| > 0 then outcome.books else vm.book)
    ensures r == vm.(isAdded := r.isAdded, book := r.book)
  {
    match outcome
    case FetchFailed(_) => vm
    case Fetched(books) =>
      if |books| > 0 then vm.(book := books, isAdded := true) else vm
  }

  // ---------------------------------------------------------------------------
  // Reset
  // ---------------------------------------------------------------------------

  /** Every field back to its declared initial value, whatever it held. */
  function Reset(vm: ViewModel): (r: ViewModel)
    ensures r == Initial()
  {
    vm.(
      detectedRects := [],
      pixelSize := ZeroSize,
      book := [],
      info := [map[]],
      isAdded := false,
      isTracking := false,
      janCode := map[])
  }

  /** Only the reset clears `isTracking`: every other transition keeps it set. */
  lemma IsTrackingOnlyResetClears(vm: ViewModel, out: Outputs, device: DeviceOrientation,
                                  observations: seq<TC.Observation>, info: seq<TC.Dict>, outcome: FetchOutcome)
    requires vm.isTracking
    ensures OnCapture(vm, out, device).vm.isTracking
    ensures OnObservations(vm, observations).isTracking
    ensures OnInfo(vm, info).vm.isTracking
    ensures ApplyFetch(vm, outcome).isTracking
    ensures !Reset(vm).isTracking
  {
  }
}
