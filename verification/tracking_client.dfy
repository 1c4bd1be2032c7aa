/**
  The barcode tracker: a two-state machine that, for every frame, either
  seeds track requests from a one-shot barcode detection or advances its
  current requests one frame and filters them.  The vision framework's
  answers for the frame are inputs; the client's published properties are
  fields of `Client`, and `Emission` records which of them the step assigned
  (a subscriber fires on every assignment, even of an equal value).
 */
module TrackingClient {
  import opened Optional
  import opened Geometry

  /** A continued track keeps following its object only when the tracker's
      confidence is strictly above this value.  Confidences are single-precision
      floats, and so is the literal `0.99` they are compared with: the threshold
      is the float nearest 0.99, which is exactly this real.  Every float is a
      real, so comparing a float confidence with it agrees with the float
      comparison. */
  const Threshold: real := 0.9900000095367431640625

  /** The threshold is the single-precision float nearest 0.99: a 24-bit
      significand over 2^24, within half a unit in the last place of 0.99. */
  lemma ThresholdIsNearestFloat()
    ensures Threshold == 16609444.0 / 16777216.0
    ensures 8388608 <= 16609444 < 16777216
    ensures -1.0 / 33554432.0 < Threshold - 0.99 < 1.0 / 33554432.0
    ensures Threshold > 0.99
  {
  }

  /** A detected-object observation: a normalised bounding box and a confidence. */
  datatype Observation = Observation(boundingBox: Rect, confidence: real)

  /** A barcode observation: a detected object that also carries the decoded symbol. */
  datatype BarcodeObservation =
    BarcodeObservation(boundingBox: Rect, confidence: real, symbology: string, payload: Option<string>)

  /** One string-keyed dictionary of the published `info` list. */
  type Dict = map<string, string>

  /** A track request: the observation it follows (`hint`), whether it is on its
      last frame, and the results the latest tracking pass left on it. */
  datatype TrackRequest = TrackRequest(hint: Observation, isLastFrame: bool, result: Option<seq<Observation>>)

  datatype State = Stop | Tracking(requests: seq<TrackRequest>)

  /** The tracker with its published properties. */
  datatype Client = Client(state: State, observations: seq<Observation>, info: seq<Dict>)

  /** The declared initial values. */
  function Initial(): (c: Client)
    ensures NeedsDetection(c.state) && c.state.Stop?
    ensures c.observations == [] && c.info == [map[]]
  {
    Client(Stop, [], [map[]])
  }

  /** The detector's answer for a frame: nothing usable (the request failed or
      produced no results array), or the barcodes it found. */
  datatype Detection = NoResults | Barcodes(found: seq<BarcodeObservation>)

  /** The vision framework's answers for one frame.  `tracked[i]` is the results
      the tracking pass leaves on the i-th current request; a list shorter than
      the request list means the pass stopped early and the remaining requests
      keep the results they had. */
  datatype Vision = Vision(detection: Detection, tracked: seq<Option<seq<Observation>>>)

  /** The values a step assigned to the published properties, if it assigned them. */
  datatype Emission = Emission(observations: Option<seq<Observation>>, info: Option<seq<Dict>>)

  datatype Transition = Transition(next: Client, emitted: Emission)

  /** A frame in this state runs a fresh detection instead of continuing. */
  predicate NeedsDetection(s: State) {
    s.Stop? || |s.requests| == 0
  }

  // ---------------------------------------------------------------------------
  // Seeding from a detection
  // ---------------------------------------------------------------------------

  function AsObservation(b: BarcodeObservation): Observation {
    Observation(b.boundingBox, b.confidence)
  }

  function InfoEntry(b: BarcodeObservation): Dict {
    map["symbology" := b.symbology, "value" := b.payload.GetOr("")]
  }

  /** One fresh track request per barcode, in detection order. */
  function Seed(found: seq<BarcodeObservation>): (reqs: seq<TrackRequest>)
    ensures |reqs| == |found|
    ensures forall i :: 0 <= i < |found| ==>
      reqs[i].hint == AsObservation(found[i]) && !reqs[i].isLastFrame && reqs[i].result.None?
  {
    if |found| == 0 then []
    else [TrackRequest(AsObservation(found[0]), false, None)] + Seed(found[1..])
  }

  /** One dictionary per barcode, in detection order, holding exactly the keys
      `symbology` and `value`; the value is empty when there is no payload string. */
  function InfoOf(found: seq<BarcodeObservation>): (info: seq<Dict>)
    ensures |info| == |found|
    ensures forall i :: 0 <= i < |found| ==>
      && info[i].Keys == {"symbology", "value"}
      && info[i]["symbology"] == found[i].symbology
      && (found[i].payload.Some? ==> info[i]["value"] == found[i].payload.value)
      && (found[i].payload.None? ==> info[i]["value"] == "")
  {
    if |found| == 0 then []
    else [InfoEntry(found[0])] + InfoOf(found[1..])
  }

  /** The detection branch: a failed detection changes nothing and assigns
      nothing; a successful one seeds one request per barcode and assigns
      `info`, leaving the published observations alone. */
  function Detect(c: Client, d: Detection): (t: Transition)
    ensures d.NoResults? ==> t.next == c && t.emitted.observations.None? && t.emitted.info.None?
    ensures d.Barcodes? ==>
      && t.next.state == Tracking(Seed(d.found))
      && t.next.info == InfoOf(d.found)
      && t.next.observations == c.observations
      && t.emitted.observations.None? && t.emitted.info == Some(t.next.info)
  {
    match d
    case NoResults => Transition(c, Emission(None, None))
    case Barcodes(found) =>
      Transition(c.(state := Tracking(Seed(found)), info := InfoOf(found)), Emission(None, Some(InfoOf(found))))
  }

  // ---------------------------------------------------------------------------
  // Continuation
  // ---------------------------------------------------------------------------

  /** The request can be filtered without trapping: reading the first element
      of a present results array needs that array to be non-empty. */
  predicate Performable(r: TrackRequest) {
    r.result.Some? ==> |r.result.value| > 0
  }

  predicate AllPerformable(reqs: seq<TrackRequest>) {
    forall i :: 0 <= i < |reqs| ==> Performable(reqs[i])
  }

  /** The requests after the tracking pass has left its results on them. */
  function WithResults(reqs: seq<TrackRequest>, tracked: seq<Option<seq<Observation>>>): seq<TrackRequest> {
    seq(|reqs|, i requires 0 <= i < |reqs| => if i < |tracked| then reqs[i].(result := tracked[i]) else reqs[i])
  }

  /** A request the filter keeps: it has results and is not on its last frame. */
  predicate Survives(r: TrackRequest) {
    r.result.Some? && !r.isLastFrame
  }

  /** The filter rule for one request. */
  function Advance(r: TrackRequest): (a: Option<TrackRequest>)
    requires Performable(r)
    ensures a.Some? <==> Survives(r)
    ensures a.Some? ==> a.value.result == r.result
    ensures a.Some? ==> (a.value.isLastFrame <==> r.result.value[0].confidence <= Threshold)
    ensures a.Some? && !a.value.isLastFrame ==> a.value.hint == r.result.value[0]
    ensures a.Some? && a.value.isLastFrame ==> a.value.hint == r.hint
  {
    match r.result
    case None => None
    case Some(results) =>
      var observation := results[0];
      if !r.isLastFrame then
        if observation.confidence > Threshold then Some(r.(hint := observation))
        else Some(r.(isLastFrame := true))
      else None
  }

  /** The filter over the request list, in order. */
  function Continue(reqs: seq<TrackRequest>): (out: seq<TrackRequest>)
    requires AllPerformable(reqs)
    ensures |out| <= |reqs|
    ensures forall k :: 0 <= k < |out| ==> out[k].result.Some? && |out[k].result.value| > 0
    ensures forall k :: 0 <= k < |out| ==>
      (out[k].isLastFrame <==> out[k].result.value[0].confidence <= Threshold)
    ensures forall k :: 0 <= k < |out| && !out[k].isLastFrame ==> out[k].hint == out[k].result.value[0]
  {
    if |reqs| == 0 then []
    else
      var head := match Advance(reqs[0]) case None => [] case Some(r) => [r];
      head + Continue(reqs[1..])
  }

  /** The positions of the requests the filter keeps, in increasing order. */
  function KeptIndices(reqs: seq<TrackRequest>): seq<nat> {
    if |reqs| == 0 then []
    else (if Survives(reqs[0]) then [0] else []) + Shift(KeptIndices(reqs[1..]))
  }

  function Shift(ks: seq<nat>): seq<nat> {
    seq(|ks|, i requires 0 <= i < |ks| => ks[i] + 1)
  }

  /** Position k of `out` is the advanced request at position `ks[k]`, which survives. */
  ghost predicate Mapped(reqs: seq<TrackRequest>, ks: seq<nat>, out: seq<TrackRequest>)
    requires AllPerformable(reqs)
  {
    && |ks| == |out|
    && forall k :: 0 <= k < |ks| ==> ks[k] < |reqs| && Survives(reqs[ks[k]]) && Advance(reqs[ks[k]]) == Some(out[k])
  }

  ghost predicate Increasing(ks: seq<nat>) {
    forall k, l :: 0 <= k < l < |ks| ==> ks[k] < ks[l]
  }

  /** Every surviving position is listed in `ks`. */
  ghost predicate Covers(reqs: seq<TrackRequest>, ks: seq<nat>) {
    forall i :: 0 <= i < |reqs| && Survives(reqs[i]) ==> i in ks
  }

  lemma TailPerformable(reqs: seq<TrackRequest>)
    requires |reqs| > 0 && AllPerformable(reqs)
    ensures AllPerformable(reqs[1..])
  {
    forall i | 0 <= i < |reqs| - 1 ensures Performable(reqs[1..][i]) {
      assert reqs[1..][i] == reqs[i + 1];
    }
  }

  lemma MappedCons(reqs: seq<TrackRequest>, ks: seq<nat>, out: seq<TrackRequest>)
    requires |reqs| > 0 && AllPerformable(reqs)
    requires AllPerformable(reqs[1..]) && Mapped(reqs[1..], ks, out)
    ensures Survives(reqs[0]) ==> Mapped(reqs, [0] + Shift(ks), [Advance(reqs[0]).value] + out)
    ensures !Survives(reqs[0]) ==> Mapped(reqs, Shift(ks), out)
  {
    if Survives(reqs[0]) {
      var ks2, out2 := [0] + Shift(ks), [Advance(reqs[0]).value] + out;
      forall k | 0 <= k < |ks2|
        ensures ks2[k] < |reqs| && Survives(reqs[ks2[k]]) && Advance(reqs[ks2[k]]) == Some(out2[k])
      {
        if k > 0 {
          assert ks2[k] == ks[k - 1] + 1 && out2[k] == out[k - 1];
          assert reqs[1..][ks[k - 1]] == reqs[ks2[k]];
        }
      }
    } else {
      var ks2 := Shift(ks);
      forall k | 0 <= k < |ks2|
        ensures ks2[k] < |reqs| && Survives(reqs[ks2[k]]) && Advance(reqs[ks2[k]]) == Some(out[k])
      {
        assert reqs[1..][ks[k]] == reqs[ks2[k]];
      }
    }
  }

  lemma IncreasingCons(ks: seq<nat>)
    requires Increasing(ks)
    ensures Increasing(Shift(ks))
    ensures Increasing([0] + Shift(ks))
  {
    var ks2 := [0] + Shift(ks);
    forall k, l | 0 <= k < l < |ks2| ensures ks2[k] < ks2[l] {
      assert ks2[l] == ks[l - 1] + 1;
      if k > 0 {
        assert ks2[k] == ks[k - 1] + 1;
      }
    }
  }

  lemma CoversCons(reqs: seq<TrackRequest>, ks: seq<nat>)
    requires |reqs| > 0 && Covers(reqs[1..], ks)
    ensures Survives(reqs[0]) ==> Covers(reqs, [0] + Shift(ks))
    ensures !Survives(reqs[0]) ==> Covers(reqs, Shift(ks))
  {
    var ks2 := if Survives(reqs[0]) then [0] + Shift(ks) else Shift(ks);
    forall i | 0 <= i < |reqs| && Survives(reqs[i]) ensures i in ks2 {
      if i == 0 {
        assert ks2[0] == 0;
      } else {
        assert reqs[1..][i - 1] == reqs[i];
        var j :| 0 <= j < |ks| && ks[j] == i - 1;
        if Survives(reqs[0]) {
          assert ks2[j + 1] == i;
        } else {
          assert ks2[j] == i;
        }
      }
    }
  }

  /** The filter is a compaction: its output holds, in the same order, one
      advanced request for each input that has results and is not on its last
      frame, and nothing for the others. */
  lemma {:induction false} ContinueIsCompaction(reqs: seq<TrackRequest>)
    requires AllPerformable(reqs)
    ensures |KeptIndices(reqs)| == |Continue(reqs)|
    ensures forall k :: 0 <= k < |KeptIndices(reqs)| ==>
      && KeptIndices(reqs)[k] < |reqs|
      && Survives(reqs[KeptIndices(reqs)[k]])
      && Advance(reqs[KeptIndices(reqs)[k]]) == Some(Continue(reqs)[k])
    ensures forall k, l :: 0 <= k < l < |KeptIndices(reqs)| ==> KeptIndices(reqs)[k] < KeptIndices(reqs)[l]
    ensures forall i :: 0 <= i < |reqs| && Survives(reqs[i]) ==> i in KeptIndices(reqs)
  {
    CompactionHolds(reqs);
  }

  lemma {:induction false} CompactionHolds(reqs: seq<TrackRequest>)
    requires AllPerformable(reqs)
    ensures Mapped(reqs, KeptIndices(reqs), Continue(reqs))
    ensures Increasing(KeptIndices(reqs))
    ensures Covers(reqs, KeptIndices(reqs))
  {
    if |reqs| > 0 {
      TailPerformable(reqs);
      CompactionHolds(reqs[1..]);
      var ks, out := KeptIndices(reqs[1..]), Continue(reqs[1..]);
      MappedCons(reqs, ks, out);
      IncreasingCons(ks);
      CoversCons(reqs, ks);
      if Survives(reqs[0]) {
        assert KeptIndices(reqs) == [0] + Shift(ks);
        assert Continue(reqs) == [Advance(reqs[0]).value] + out;
      } else {
        assert KeptIndices(reqs) == Shift(ks);
        assert Continue(reqs) == out;
      }
    }
  }

  /** The value the per-request publishing loop leaves behind: each request
      with results overwrites the published observations with them. */
  function PublishEach(reqs: seq<TrackRequest>, current: seq<Observation>): (r: seq<Observation>)
    ensures r == current || exists k :: 0 <= k < |reqs| && reqs[k].result == Some(r)
    ensures |reqs| > 0 && reqs[|reqs| - 1].result.Some? ==> r == reqs[|reqs| - 1].result.value
  {
    if |reqs| == 0 then current
    else PublishEach(reqs[1..], reqs[0].result.GetOr(current))
  }

  /** When every request has results, the publishing loop leaves the results
      of the last request. */
  lemma {:induction false} PublishEachIsLast(reqs: seq<TrackRequest>, current: seq<Observation>)
    requires |reqs| > 0
    requires forall k :: 0 <= k < |reqs| ==> reqs[k].result.Some?
    ensures PublishEach(reqs, current) == reqs[|reqs| - 1].result.value
  {
    if |reqs| > 1 {
      PublishEachIsLast(reqs[1..], reqs[0].result.value);
    }
  }

  /** The request list the filter works on for this frame. */
  function Tracked(c: Client, v: Vision): seq<TrackRequest>
    requires c.state.Tracking?
  {
    WithResults(c.state.requests, v.tracked)
  }

  /** What the request method demands to run without trapping. */
  predicate CanRequest(c: Client, v: Vision) {
    !NeedsDetection(c.state) ==> AllPerformable(Tracked(c, v))
  }

  /** One frame through the tracker. */
  function Request(c: Client, v: Vision): (t: Transition)
    requires CanRequest(c, v)
    // idle, or tracking nothing: a fresh detection, never a continuation
    ensures NeedsDetection(c.state) && v.detection.NoResults? ==>
      t.next == c && t.emitted == Emission(None, None)
    ensures NeedsDetection(c.state) && v.detection.Barcodes? ==>
      && t.next.state == Tracking(Seed(v.detection.found))
      && t.next.info == InfoOf(v.detection.found)
      && t.next.observations == c.observations
      && t.emitted == Emission(None, Some(t.next.info))
    // tracking something: the filter runs, the decoded info is left alone
    ensures !NeedsDetection(c.state) ==>
      && t.next.state == Tracking(Continue(Tracked(c, v)))
      && t.next.info == c.info
      && t.emitted == Emission(Some(t.next.observations), None)
    ensures !NeedsDetection(c.state) && |Continue(Tracked(c, v))| == 0 ==>
      t.next.observations == [] && NeedsDetection(t.next.state)
    ensures !NeedsDetection(c.state) && |Continue(Tracked(c, v))| > 0 ==>
      var out := Continue(Tracked(c, v));
      t.next.observations == out[|out| - 1].result.value
  {
    if NeedsDetection(c.state) then Detect(c, v.detection)
    else
      var survivors := Continue(Tracked(c, v));
      if |survivors| == 0 then
        Transition(Client(Tracking([]), [], c.info), Emission(Some([]), None))
      else
        PublishEachIsLast(survivors, c.observations);
        var observations := PublishEach(survivors, c.observations);
        Transition(Client(Tracking(survivors), observations, c.info), Emission(Some(observations), None))
  }

  /** A request the filter marked last-frame in one step is gone in the next,
      whatever the tracker reports for it: every request kept in the second
      step had confidence above the threshold in the first. */
  lemma MarkedRequestGoneNextStep(reqs: seq<TrackRequest>, tracked: seq<Option<seq<Observation>>>)
    requires AllPerformable(reqs)
    requires AllPerformable(WithResults(Continue(reqs), tracked))
    ensures var mid := Continue(reqs);
      var ks := KeptIndices(WithResults(mid, tracked));
      forall k :: 0 <= k < |ks| ==> ks[k] < |mid| && !mid[ks[k]].isLastFrame && mid[ks[k]].result.value[0].confidence > Threshold
  {
    ContinueIsCompaction(WithResults(Continue(reqs), tracked));
  }
}
