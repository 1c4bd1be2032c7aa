/**
  The overlay geometry of the preview: the rotation and scale chosen for the
  device orientation, the overlay's affine transform for the quarter turns
  that rotation takes, and the mapping of each normalised vision box into a
  rectangle of the preview layer.  The overlay layer's frame, which the
  platform computes from that transform, is an input.
 */
module PreviewLayerView {
  import opened Optional
  import opened Geometry
  import opened Orientations

  datatype OrientationAndScale = OrientationAndScale(rotation: int, scaleX: real, scaleY: real)

  /** Degrees the overlay is rotated by for a device orientation. */
  function Rotation(d: DeviceOrientation): int {
    match d
    case DevicePortraitUpsideDown => 180
    case DeviceLandscapeLeft => 90
    case DeviceLandscapeRight => -90
    case _ => 0
  }

  /** The scale ratios can be formed: the pixel width is never divided by
      zero, nor the pixel height outside landscape. */
  predicate ScaleDefined(d: DeviceOrientation, pixelSize: Size) {
    pixelSize.width != 0.0 && (IsLandscape(d) || pixelSize.height != 0.0)
  }

  /** Rotation and scale for the overlay.  Both scales relate the preview's
      visible rect to the pixel buffer; in landscape the vertical scale is the
      horizontal one. */
  function MakeOrientationAndScale(d: DeviceOrientation, videoPreviewRect: Rect, pixelSize: Size): (t: OrientationAndScale)
    requires ScaleDefined(d, pixelSize)
    ensures t.rotation == 180 <==> d == DevicePortraitUpsideDown
    ensures t.rotation == 90 <==> d == DeviceLandscapeLeft
    ensures t.rotation == -90 <==> d == DeviceLandscapeRight
    ensures t.rotation == 0 <==> d !in {DevicePortraitUpsideDown, DeviceLandscapeLeft, DeviceLandscapeRight}
    ensures t.scaleX * pixelSize.width == Width(videoPreviewRect)
    ensures IsLandscape(d) ==> t.scaleY == t.scaleX
    ensures !IsLandscape(d) ==> t.scaleY * pixelSize.height == Height(videoPreviewRect)
  {
    var scaleX := Width(videoPreviewRect) / pixelSize.width;
    match d
    case DevicePortraitUpsideDown =>
      OrientationAndScale(Rotation(d), scaleX, Height(videoPreviewRect) / pixelSize.height)
    case DeviceLandscapeLeft => OrientationAndScale(Rotation(d), scaleX, scaleX)
    case DeviceLandscapeRight => OrientationAndScale(Rotation(d), scaleX, scaleX)
    case _ => OrientationAndScale(Rotation(d), scaleX, Height(videoPreviewRect) / pixelSize.height)
  }

  // ---------------------------------------------------------------------------
  // The overlay transform
  // ---------------------------------------------------------------------------

  /** A rotation by 90 degrees in Core Graphics' convention. */
  function QuarterTurn(p: Point): Point {
    Point(-p.y, p.x)
  }

  /** `k` successive quarter turns. */
  function Rotate(k: nat, p: Point): Point {
    if k == 0 then p else Rotate(k - 1, QuarterTurn(p))
  }

  /** The number of quarter turns, modulo a full turn, in a rotation by a
      multiple of 90 degrees. */
  function Quarters(degrees: int): nat
    requires degrees % 90 == 0
  {
    (degrees / 90) % 4
  }

  /** The overlay's transform applied to a point: scale by (scaleX, -scaleY),
      then rotate. */
  function OverlayApply(t: OrientationAndScale, p: Point): (r: Point)
    requires t.rotation % 90 == 0
    ensures Quarters(t.rotation) == 0 ==> r == Point(t.scaleX * p.x, -t.scaleY * p.y)
    ensures Quarters(t.rotation) == 1 ==> r == Point(t.scaleY * p.y, t.scaleX * p.x)
    ensures Quarters(t.rotation) == 2 ==> r == Point(-(t.scaleX * p.x), t.scaleY * p.y)
    ensures Quarters(t.rotation) == 3 ==> r == Point(-(t.scaleY * p.y), -(t.scaleX * p.x))
  {
    var scaled := Point(t.scaleX * p.x, -t.scaleY * p.y);
    var s1 := QuarterTurn(scaled);
    var s2 := QuarterTurn(s1);
    assert Rotate(1, scaled) == Rotate(0, s1) == s1;
    assert Rotate(2, scaled) == Rotate(1, s1) == s2;
    assert Rotate(3, scaled) == Rotate(2, s1) == Rotate(1, s2) == Rotate(0, QuarterTurn(s2)) == QuarterTurn(s2);
    Rotate(Quarters(t.rotation), scaled)
  }

  /** The signed area spanned by two vectors. */
  function Cross(p: Point, q: Point): real {
    p.x * q.y - p.y * q.x
  }

  /** Turning twice is turning by the sum, and four quarter turns are none. */
  lemma {:induction false} RotateCompose(i: nat, j: nat, p: Point)
    ensures Rotate(i, Rotate(j, p)) == Rotate(i + j, p)
    decreases j
  {
    if j > 0 {
      RotateCompose(i, j - 1, QuarterTurn(p));
    }
  }

  lemma FullTurn(p: Point)
    ensures Rotate(4, p) == p
  {
    var p1 := QuarterTurn(p);
    var p2 := QuarterTurn(p1);
    var p3 := QuarterTurn(p2);
    assert Rotate(4, p) == Rotate(3, p1) == Rotate(2, p2) == Rotate(1, p3) == QuarterTurn(p3);
  }

  lemma {:induction false} RotatePreservesCross(k: nat, p: Point, q: Point)
    ensures Cross(Rotate(k, p), Rotate(k, q)) == Cross(p, q)
  {
    if k > 0 {
      assert Cross(QuarterTurn(p), QuarterTurn(q)) == Cross(p, q);
      RotatePreservesCross(k - 1, QuarterTurn(p), QuarterTurn(q));
    }
  }

  /** The overlay always flips the Y axis: the unit square's image has
      negated signed area, the product of the two scales, whatever the rotation. */
  lemma OverlayFlipsY(t: OrientationAndScale)
    requires t.rotation % 90 == 0
    ensures Cross(OverlayApply(t, Point(1.0, 0.0)), OverlayApply(t, Point(0.0, 1.0))) == -(t.scaleX * t.scaleY)
    ensures t.rotation == 0 ==> OverlayApply(t, Point(0.0, 1.0)) == Point(0.0, -t.scaleY)
  {
    var q := Quarters(t.rotation);
    var a, b := Point(t.scaleX * 1.0, -t.scaleY * 0.0), Point(t.scaleX * 0.0, -t.scaleY * 1.0);
    assert OverlayApply(t, Point(1.0, 0.0)) == Rotate(q, a);
    assert OverlayApply(t, Point(0.0, 1.0)) == Rotate(q, b);
    RotatePreservesCross(q, a, b);
    assert Cross(a, b) == -(t.scaleX * t.scaleY);
  }

  lemma QuartersOfShift(p: int, turns: int)
    requires p % 90 == 0
    ensures (p + 360 * turns) % 90 == 0
    ensures Quarters(p + 360 * turns) == Quarters(p)
  {
    var m := p / 90;
    assert p == 90 * m;
    assert p + 360 * turns == 90 * (m + 4 * turns);
    assert (p + 360 * turns) / 90 == m + 4 * turns;
  }

  /** Rotating by a chosen angle plus whole turns is rotating by the angle. */
  lemma WholeTurnsChangeNothing(d: DeviceOrientation, turns: int, p: Point)
    ensures Rotation(d) % 90 == 0
    ensures Rotate(Quarters(Rotation(d) + 360 * turns), p) == Rotate(Quarters(Rotation(d)), p)
  {
    QuartersOfShift(Rotation(d), turns);
  }

  /** A check on the quarter-turn encoding of the angles (the app itself never
      composes two rotations): the two landscape angles undo each other, and
      twice the landscape-left angle is the upside-down one. */
  lemma QuarterTurnEncoding(p: Point)
    ensures Rotate(Quarters(Rotation(DeviceLandscapeLeft)), Rotate(Quarters(Rotation(DeviceLandscapeRight)), p)) == p
    ensures Rotate(Quarters(Rotation(DeviceLandscapeLeft)), Rotate(Quarters(Rotation(DeviceLandscapeLeft)), p))
         == Rotate(Quarters(Rotation(DevicePortraitUpsideDown)), p)
  {
    assert Quarters(Rotation(DeviceLandscapeLeft)) == 1;
    assert Quarters(Rotation(DeviceLandscapeRight)) == 3;
    assert Quarters(Rotation(DevicePortraitUpsideDown)) == 2;
    RotateCompose(1, 3, p);
    FullTurn(p);
    RotateCompose(1, 1, p);
  }

  // ---------------------------------------------------------------------------
  // Boxes to layer rectangles
  // ---------------------------------------------------------------------------

  /** One vision box (origin bottom-left, unit square) as a rectangle of the
      preview layer: scaled by the overlay's size, shifted by the overlay's
      left edge, and flipped vertically with no top-edge shift. */
  function ConvertRect(box: Rect, overlay: Rect): (r: Rect)
    ensures overlay.size.width >= 0.0 && overlay.size.height >= 0.0 ==>
      r.size.width >= 0.0 && r.size.height >= 0.0
  {
    var w, h := overlay.size.width, overlay.size.height;
    Rect(Point(MinX(box) * w + MinX(overlay), (1.0 - MaxY(box)) * h), Size(Width(box) * w, Height(box) * h))
  }

  /** Reads a layer rectangle back as a vision box. */
  function BoxFromLayer(layer: Rect, overlay: Rect): Rect
    requires overlay.size.width != 0.0 && overlay.size.height != 0.0
  {
    var w, h := overlay.size.width, overlay.size.height;
    Rect(
      Point((layer.origin.x - MinX(overlay)) / w, 1.0 - layer.origin.y / h - layer.size.height / h),
      Size(layer.size.width / w, layer.size.height / h))
  }

  lemma Cancel(a: real, h: real)
    requires h != 0.0
    ensures (a * h) / h == a
  {
  }

  /** Conversion loses nothing: a box with non-negative size comes back from
      its layer rectangle unchanged. */
  lemma ConvertRectRoundTrip(box: Rect, overlay: Rect)
    requires Standard(box)
    requires overlay.size.width != 0.0 && overlay.size.height != 0.0
    ensures BoxFromLayer(ConvertRect(box, overlay), overlay) == box
  {
    var w, h := overlay.size.width, overlay.size.height;
    var x, y, bw, bh := box.origin.x, box.origin.y, box.size.width, box.size.height;
    var layer := ConvertRect(box, overlay);
    assert layer.origin.x - MinX(overlay) == x * w;
    Cancel(x, w);
    assert layer.origin.y == (1.0 - y - bh) * h;
    Cancel(1.0 - y - bh, h);
    assert layer.size.height == bh * h;
    Cancel(bh, h);
    assert layer.size.width == bw * w;
    Cancel(bw, w);
  }

  /** The vertical flip: with a positive overlay height, a box reaching higher
      in vision coordinates lands nearer the top of the layer, and the overlay's
      vertical position plays no part. */
  lemma ConvertRectFlipsY(b1: Rect, b2: Rect, overlay: Rect, shifted: Rect)
    requires overlay.size.height > 0.0
    requires shifted.size == overlay.size
    ensures MaxY(b1) < MaxY(b2) ==> ConvertRect(b1, overlay).origin.y > ConvertRect(b2, overlay).origin.y
    ensures ConvertRect(b1, shifted).origin.y == ConvertRect(b1, overlay).origin.y
  {
    var h := overlay.size.height;
    if MaxY(b1) < MaxY(b2) {
      assert (1.0 - MaxY(b1)) * h - (1.0 - MaxY(b2)) * h == (MaxY(b2) - MaxY(b1)) * h;
      assert (MaxY(b2) - MaxY(b1)) * h > 0.0;
      assert ConvertRect(b1, overlay).origin.y - ConvertRect(b2, overlay).origin.y == (MaxY(b2) - MaxY(b1)) * h;
    }
  }

  /** One layer rectangle per detected rectangle, in order. */
  function ConvertRects(rects: seq<Rect>, overlay: Rect): (layers: seq<Rect>)
    ensures |layers| == |rects|
    ensures forall i :: 0 <= i < |rects| ==> layers[i] == ConvertRect(rects[i], overlay)
  {
    if |rects| == 0 then []
    else [ConvertRect(rects[0], overlay)] + ConvertRects(rects[1..], overlay)
  }

  /** What one redraw puts on the preview: the overlay's rotation and scale,
      and one highlight rectangle per detected rectangle.  The transform is
      absent when a scale would divide by a zero pixel size, as it does
      before the first frame and after a reset. */
  datatype Drawing = Drawing(transform: Option<OrientationAndScale>, layers: seq<Rect>)

  function DrawObservations(d: DeviceOrientation, videoPreviewRect: Rect, pixelSize: Size,
                            overlay: Rect, rects: seq<Rect>): (r: Drawing)
    ensures |r.layers| == |rects|
    ensures forall i :: 0 <= i < |rects| ==> r.layers[i] == ConvertRect(rects[i], overlay)
    ensures r.transform.Some? <==> ScaleDefined(d, pixelSize)
    ensures r.transform.Some? ==> r.transform.value.rotation == Rotation(d)
    ensures r.transform.Some? ==> r.transform.value == MakeOrientationAndScale(d, videoPreviewRect, pixelSize)
  {
    var transform := if ScaleDefined(d, pixelSize) then Some(MakeOrientationAndScale(d, videoPreviewRect, pixelSize)) else None;
    Drawing(transform, ConvertRects(rects, overlay))
  }
}
