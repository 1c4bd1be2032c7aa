/**
  The pieces wired together as the view model's subscriptions wire them:
  a camera sample passes the capture guard, then the view model's frame
  gate, then (while the gate is open) the tracker, whose published values
  flow back into the view model and may launch book fetches.  Every callback
  is one atomic step; a fetch's result arrives as a separate step.
 */
module Pipeline {
  import opened Optional
  import opened Geometry
  import opened Orientations
  import opened CaptureSession
  import TC = TrackingClient
  import VM = TrackingViewModel

  datatype App = App(vm: VM.ViewModel, client: TC.Client)

  function Initial(): App {
    App(VM.Initial(), TC.Initial())
  }

  /** The new app state, and the request URLs of the fetches launched. */
  datatype FrameEffect = FrameEffect(app: App, fetches: seq<VM.Url>)

  /** The tracker can run on this frame if the frame reaches it. */
  predicate CanProcess(a: App, sample: SampleBuffer, v: TC.Vision) {
    CaptureOutput(sample).Some? && !a.vm.isAdded ==> TC.CanRequest(a.client, v)
  }

  /** What the view model's subscriptions make of one tracker step: the
      observations become rectangles, the info becomes the JAN code, and one
      fetch, to the address as the code builds it, is launched per
      assignment of `isTracking`. */
  function Deliver(vm: VM.ViewModel, t: TC.Transition): (e: FrameEffect)
    ensures e.app.client == t.next
    ensures e.app.vm.pixelSize == vm.pixelSize && e.app.vm.isAdded == vm.isAdded && e.app.vm.book == vm.book
    ensures t.emitted.observations.Some? ==> e.app.vm.detectedRects == VM.Boxes(t.emitted.observations.value)
    ensures t.emitted.observations.None? ==> e.app.vm.detectedRects == vm.detectedRects
    ensures t.emitted.info.Some? ==>
      && e.app.vm.info == t.emitted.info.value
      && e.app.vm.janCode == VM.JanCode(t.emitted.info.value)
      && (e.app.vm.isTracking <==> vm.isTracking || |e.app.vm.janCode| > 0)
      && |e.fetches| == VM.CountNonEmpty(t.emitted.info.value)
    ensures t.emitted.info.None? ==>
      && e.app.vm.info == vm.info && e.app.vm.janCode == vm.janCode && e.app.vm.isTracking == vm.isTracking
      && e.fetches == []
    ensures forall i :: 0 <= i < |e.fetches| ==> e.fetches[i] == VM.RequestUrlAsWritten(e.app.vm.janCode)
  {
    var vm1 := match t.emitted.observations
      case None => vm
      case Some(observations) => VM.OnObservations(vm, observations);
    match t.emitted.info
    case None => FrameEffect(App(vm1, t.next), [])
    case Some(info) =>
      var effect := VM.OnInfo(vm1, info);
      FrameEffect(App(effect.vm, t.next), seq(effect.launched, _ => VM.RequestUrlAsWritten(effect.vm.janCode)))
  }

  /** One camera sample through the whole pipeline: the capture guard, the
      frame gate, and, while the gate is open, one tracker step delivered to
      the view model. */
  function OnSample(a: App, sample: SampleBuffer, device: DeviceOrientation, v: TC.Vision): (e: FrameEffect)
    requires CanProcess(a, sample, v)
    ensures CaptureOutput(sample).None? ==> e == FrameEffect(a, [])
    ensures CaptureOutput(sample).Some? && a.vm.isAdded ==>
      e == FrameEffect(App(a.vm.(pixelSize := CaptureOutput(sample).value.pixelBufferSize), a.client), [])
    ensures CaptureOutput(sample).Some? && !a.vm.isAdded ==>
      e == Deliver(a.vm.(pixelSize := CaptureOutput(sample).value.pixelBufferSize), TC.Request(a.client, v))
    ensures CaptureOutput(sample).Some? ==> e.app.vm.pixelSize == CaptureOutput(sample).value.pixelBufferSize
    ensures a.vm.isAdded ==> e.app.client == a.client && e.fetches == [] && e.app.vm.isAdded
    ensures CaptureOutput(sample).Some? && !a.vm.isAdded ==> e.app.client == TC.Request(a.client, v).next
    ensures forall i :: 0 <= i < |e.fetches| ==> e.fetches[i] == VM.RequestUrlAsWritten(e.app.vm.janCode)
  {
    match CaptureOutput(sample)
    case None => FrameEffect(a, [])
    case Some(out) =>
      var g := VM.OnCapture(a.vm, out, device);
      if g.call.None? then FrameEffect(App(g.vm, a.client), [])
      else Deliver(g.vm, TC.Request(a.client, v))
  }

  /** A finished fetch applied to the app; the tracker is not involved. */
  function OnFetched(a: App, outcome: VM.FetchOutcome): (r: App)
    ensures r.client == a.client
    ensures r.vm.isAdded <==> a.vm.isAdded || (outcome.Fetched? && |outcome.books| > 0)
    ensures !(outcome.Fetched? && |outcome.books| > 0) ==> r == a
    ensures outcome.Fetched? && |outcome.books| > 0 ==> r.vm == a.vm.(book := outcome.books, isAdded := true)
  {
    a.(vm := VM.ApplyFetch(a.vm, outcome))
  }

  /** The view model's reset; the tracker is not part of it. */
  function OnReset(a: App): (r: App)
    ensures r.vm == VM.Initial()
    ensures r.client == a.client
  {
    a.(vm := VM.Reset(a.vm))
  }

  // ---------------------------------------------------------------------------
  // Properties of the composition
  // ---------------------------------------------------------------------------

  lemma {:induction false} CountAllNonEmpty(info: seq<TC.Dict>)
    requires forall i :: 0 <= i < |info| ==> |info[i]| > 0
    ensures VM.CountNonEmpty(info) == |info|
  {
    if |info| > 0 {
      CountAllNonEmpty(info[..|info| - 1]);
    }
  }

  lemma InfoEntriesNonEmpty(found: seq<TC.BarcodeObservation>)
    ensures forall i :: 0 <= i < |found| ==> |TC.InfoOf(found)[i]| > 0
  {
    var info := TC.InfoOf(found);
    forall i | 0 <= i < |found| ensures |info[i]| > 0 {
      assert "value" in info[i];
    }
  }

  /** A frame that seeds from `k` barcodes launches `k` fetches, every one of
      them for the last barcode's payload (the empty string when it has none). */
  lemma DetectionLaunchesOnePerBarcode(a: App, sample: SampleBuffer, device: DeviceOrientation, v: TC.Vision)
    requires CaptureOutput(sample).Some? && !a.vm.isAdded
    requires TC.NeedsDetection(a.client.state) && v.detection.Barcodes?
    requires |v.detection.found| > 0
    ensures var e := OnSample(a, sample, device, v);
      |e.fetches| == |v.detection.found| && e.app.vm.isTracking
    ensures var e := OnSample(a, sample, device, v);
      var found := v.detection.found;
      forall i :: 0 <= i < |e.fetches| ==>
        && e.fetches[i] == VM.RequestUrlAsWritten(e.app.vm.janCode)
        && e.fetches[i].query == [VM.QueryItem("q", Some(found[|found| - 1].payload.GetOr("")))]
  {
    var found := v.detection.found;
    var info := TC.InfoOf(found);
    InfoEntriesNonEmpty(found);
    CountAllNonEmpty(info);
    VM.JanCodeIsLastNonEmpty(info, |info| - 1);
    assert "value" in info[|info| - 1];
  }

  /** While the tracker follows at least one request, frames launch no fetch
      and leave the decoded info alone. */
  lemma ContinuationLaunchesNothing(a: App, sample: SampleBuffer, device: DeviceOrientation, v: TC.Vision)
    requires CanProcess(a, sample, v)
    requires !TC.NeedsDetection(a.client.state)
    ensures var e := OnSample(a, sample, device, v);
      e.fetches == [] && e.app.vm.info == a.vm.info && e.app.vm.janCode == a.vm.janCode
  {
  }

  /** After a continuation frame the overlay rectangles are the boxes of the
      last surviving request's results, or none when nothing survived. */
  lemma ContinuationRects(a: App, sample: SampleBuffer, device: DeviceOrientation, v: TC.Vision)
    requires CaptureOutput(sample).Some? && !a.vm.isAdded
    requires !TC.NeedsDetection(a.client.state) && TC.CanRequest(a.client, v)
    ensures var e := OnSample(a, sample, device, v);
      var out := TC.Continue(TC.Tracked(a.client, v));
      && (|out| == 0 ==> e.app.vm.detectedRects == [])
      && (|out| > 0 ==> e.app.vm.detectedRects == VM.Boxes(out[|out| - 1].result.value))
  {
  }

  /** A non-empty fetch result closes the frame gate: later samples no longer
      reach the tracker and launch nothing, until a reset reopens it. */
  lemma FetchClosesGateResetReopens(a: App, books: seq<VM.Book>, sample: SampleBuffer,
                                    device: DeviceOrientation, v: TC.Vision)
    requires |books| > 0
    requires CaptureOutput(sample).Some?
    requires TC.CanRequest(a.client, v)
    ensures var closed := OnFetched(a, VM.Fetched(books));
      && closed.vm.isAdded && closed.vm.book == books
      && OnSample(closed, sample, device, v).app.client == a.client
      && OnSample(closed, sample, device, v).fetches == []
    ensures var reopened := OnReset(OnFetched(a, VM.Fetched(books)));
      && reopened.vm == VM.Initial()
      && reopened.client == a.client
      && OnSample(reopened, sample, device, v).app.client == TC.Request(a.client, v).next
  {
  }

  /** A failed or empty fetch changes nothing: the gate stays as it was. */
  lemma FailedFetchChangesNothing(a: App, error: VM.HttpError)
    ensures OnFetched(a, VM.FetchFailed(error)) == a
    ensures OnFetched(a, VM.Fetched([])) == a
  {
  }

  // ---------------------------------------------------------------------------
  // Scenarios
  // ---------------------------------------------------------------------------

  const Isbn: string := "9780131101630"

  function QrBarcode(): TC.BarcodeObservation {
    TC.BarcodeObservation(Rect(Point(0.25, 0.25), Size(0.5, 0.5)), 1.0, "QR", Some(Isbn))
  }

  function CameraSample(): SampleBuffer {
    SampleBuffer(Some(Intrinsics([])), Some(PixelBuffer(0, 1920, 1080)))
  }

  /** The first frame of the lookup scenario: the QR code is detected, the
      gate stays open, and one fetch is launched for its JAN code. */
  lemma ScenarioFirstFrame()
    ensures var e := OnSample(Initial(), CameraSample(), DevicePortrait, TC.Vision(TC.Barcodes([QrBarcode()]), []));
      && |e.fetches| == 1
      && e.fetches[0] == VM.RequestUrlAsWritten(e.app.vm.janCode)
      && "value" in e.app.vm.janCode && e.app.vm.janCode["value"] == Isbn
      && !e.app.vm.isAdded && e.app.vm.book == []
  {
    var v := TC.Vision(TC.Barcodes([QrBarcode()]), []);
    DetectionLaunchesOnePerBarcode(Initial(), CameraSample(), DevicePortrait, v);
    var info := TC.InfoOf([QrBarcode()]);
    VM.JanCodeIsLastNonEmpty(info, 0);
    assert info[0]["value"] == Isbn;
  }

  /** A detected QR code launches one fetch for its payload, sent to the
      `volumesq` address the app builds; a response with one book stores it
      and closes the gate; an error response leaves the app as it was. */
  lemma ScenarioLookup(book: VM.Book, error: VM.HttpError)
    ensures var e := OnSample(Initial(), CameraSample(), DevicePortrait, TC.Vision(TC.Barcodes([QrBarcode()]), []));
      && |e.fetches| == 1
      && VM.Render(e.fetches[0]) == "https://www.googleapis.com/books/v1/volumesq?q=9780131101630"
      && OnFetched(e.app, VM.Fetched([book])).vm.book == [book]
      && OnFetched(e.app, VM.Fetched([book])).vm.isAdded
      && OnFetched(e.app, VM.FetchFailed(error)).vm.book == []
      && !OnFetched(e.app, VM.FetchFailed(error)).vm.isAdded
  {
    ScenarioFirstFrame();
    LookupAfterFrame(OnSample(Initial(), CameraSample(), DevicePortrait, TC.Vision(TC.Barcodes([QrBarcode()]), [])), book, error);
  }

  /** The rest of the lookup scenario, for any frame that launched one fetch
      for the scenario's JAN code with the gate open. */
  lemma LookupAfterFrame(e: FrameEffect, book: VM.Book, error: VM.HttpError)
    requires |e.fetches| == 1
    requires e.fetches[0] == VM.RequestUrlAsWritten(e.app.vm.janCode)
    requires "value" in e.app.vm.janCode && e.app.vm.janCode["value"] == Isbn
    requires !e.app.vm.isAdded && e.app.vm.book == []
    ensures VM.Render(e.fetches[0]) == "https://www.googleapis.com/books/v1/volumesq?q=9780131101630"
    ensures VM.Render(VM.RequestUrl(e.app.vm.janCode)) == "https://www.googleapis.com/books/v1/volumes?q=9780131101630"
    ensures OnFetched(e.app, VM.Fetched([book])).vm.book == [book]
    ensures OnFetched(e.app, VM.Fetched([book])).vm.isAdded
    ensures OnFetched(e.app, VM.FetchFailed(error)).vm.book == []
    ensures !OnFetched(e.app, VM.FetchFailed(error)).vm.isAdded
  {
    SentUrlText(e.app.vm.janCode);
    CorrectedUrlText(e.app.vm.janCode);
  }

  /** The scenario's JAN code, sent as the code builds the request. */
  lemma SentUrlText(janCode: TC.Dict)
    requires "value" in janCode && janCode["value"] == Isbn
    ensures VM.Render(VM.RequestUrlAsWritten(janCode)) == "https://www.googleapis.com/books/v1/volumesq?q=9780131101630"
  {
    VM.RequestUrlAsWrittenMissesEndpoint(janCode);
    var sent, text := VM.Render(VM.RequestUrlAsWritten(janCode)), "https://www.googleapis.com/books/v1/volumesq?q=9780131101630";
    assert sent == VM.BaseURL + "q?q=" + Isbn;
    assert |sent| == |text|;
    forall i | 0 <= i < |sent| ensures sent[i] == text[i] {}
  }

  /** The scenario's JAN code, sent with the corrected request. */
  lemma CorrectedUrlText(janCode: TC.Dict)
    requires "value" in janCode && janCode["value"] == Isbn
    ensures VM.Render(VM.RequestUrl(janCode)) == "https://www.googleapis.com/books/v1/volumes?q=9780131101630"
  {
    VM.RequestUrlAddressesEndpoint(janCode);
    var corrected, text := VM.Render(VM.RequestUrl(janCode)), "https://www.googleapis.com/books/v1/volumes?q=9780131101630";
    assert corrected == VM.BaseURL + "?q=" + Isbn;
    assert |corrected| == |text|;
    forall i | 0 <= i < |corrected| ensures corrected[i] == text[i] {}
  }

  /** With the corrected URL, the same frame's fetch would address the search
      end point, `.../volumes?q=9780131101630`, which differs from the address
      the app sends to. */
  lemma ScenarioLookupCorrected()
    ensures var e := OnSample(Initial(), CameraSample(), DevicePortrait, TC.Vision(TC.Barcodes([QrBarcode()]), []));
      && VM.Render(VM.RequestUrl(e.app.vm.janCode)) == "https://www.googleapis.com/books/v1/volumes?q=9780131101630"
      && VM.Render(e.fetches[0]) != VM.Render(VM.RequestUrl(e.app.vm.janCode))
  {
    var e := OnSample(Initial(), CameraSample(), DevicePortrait, TC.Vision(TC.Barcodes([QrBarcode()]), []));
    ScenarioFirstFrame();
    LookupAfterFrame(e, VM.Book("", ""), VM.BadURL);
    var sent, corrected := VM.Render(e.fetches[0]), VM.Render(VM.RequestUrl(e.app.vm.janCode));
    assert sent[|VM.BaseURL|] == 'q' && corrected[|VM.BaseURL|] == '?';
  }

  /** Fetches are not single-flight: a barcode detected, lost, and detected
      again launches a second fetch before any fetch has returned. */
  lemma ScenarioSecondFetchInFlight()
    ensures var v1 := TC.Vision(TC.Barcodes([QrBarcode()]), []);
      var e1 := OnSample(Initial(), CameraSample(), DevicePortrait, v1);
      var e2 := OnSample(e1.app, CameraSample(), DevicePortrait, TC.Vision(TC.NoResults, [None]));
      var e3 := OnSample(e2.app, CameraSample(), DevicePortrait, v1);
      && |e1.fetches| == 1 && e2.fetches == [] && |e3.fetches| == 1
      && !e3.app.vm.isAdded
  {
    var v1 := TC.Vision(TC.Barcodes([QrBarcode()]), []);
    DetectionLaunchesOnePerBarcode(Initial(), CameraSample(), DevicePortrait, v1);
    var e1 := OnSample(Initial(), CameraSample(), DevicePortrait, v1);
    var v2 := TC.Vision(TC.NoResults, [None]);
    assert TC.Tracked(e1.app.client, v2)[0].result.None?;
    assert TC.Continue(TC.Tracked(e1.app.client, v2)) == [];
    var e2 := OnSample(e1.app, CameraSample(), DevicePortrait, v2);
    assert TC.NeedsDetection(e2.app.client.state);
    DetectionLaunchesOnePerBarcode(e2.app, CameraSample(), DevicePortrait, v1);
  }
}
