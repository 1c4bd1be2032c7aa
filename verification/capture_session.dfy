/**
  The capture session's own logic: the idempotent start/stop guards, the
  per-sample emit guard, and the orientation conversions it adds to the
  video-orientation enumeration.  Device discovery, session configuration and
  the preview layer are platform calls and are not part of this model.
 */
module CaptureSession {
  import opened Optional
  import opened Geometry
  import opened Orientations

  // ---------------------------------------------------------------------------
  // Run-state guards
  // ---------------------------------------------------------------------------

  /** The one piece of session state the guards read. */
  datatype Session = Session(isRunning: bool)

  /** The new session state, and whether the platform start/stop call was issued. */
  datatype Toggle = Toggle(session: Session, issued: bool)

  /** Start the session unless it is already running; the start itself is
      treated as completing atomically. */
  function StartSession(s: Session): (t: Toggle)
    ensures t.session.isRunning
    ensures t.issued <==> !s.isRunning
  {
    if s.isRunning then Toggle(s, false)
    else Toggle(Session(true), true)
  }

  /** Stop the session unless it is not running. */
  function StopSession(s: Session): (t: Toggle)
    ensures !t.session.isRunning
    ensures t.issued <==> s.isRunning
  {
    if !s.isRunning then Toggle(s, false)
    else Toggle(Session(false), true)
  }

  /** Starting twice is starting once, and the second start issues nothing;
      likewise for stopping. */
  lemma GuardsAreIdempotent(s: Session)
    ensures StartSession(StartSession(s).session) == Toggle(StartSession(s).session, false)
    ensures StopSession(StopSession(s).session) == Toggle(StopSession(s).session, false)
  {
  }

  // ---------------------------------------------------------------------------
  // Sample delivery
  // ---------------------------------------------------------------------------

  /** The camera-intrinsic matrix attachment; passed through untouched. */
  datatype Intrinsics = Intrinsics(matrix: seq<real>)

  /** A pixel buffer, reduced to its identity and its dimensions. */
  datatype PixelBuffer = PixelBuffer(id: nat, width: nat, height: nat)

  /** What a sample buffer may carry: the intrinsics attachment and an image buffer. */
  datatype SampleBuffer = SampleBuffer(intrinsics: Option<Intrinsics>, image: Option<PixelBuffer>)

  /** One emitted frame. */
  datatype Outputs = Outputs(cameraIntrinsicData: Intrinsics, pixelBuffer: PixelBuffer, pixelBufferSize: Size)

  /** The frame the delegate callback sends for a sample, if it sends one. */
  function CaptureOutput(sample: SampleBuffer): (r: Option<Outputs>)
    ensures r.Some? <==> sample.intrinsics.Some? && sample.image.Some?
    ensures r.Some? ==> r.value.cameraIntrinsicData == sample.intrinsics.value
    ensures r.Some? ==> r.value.pixelBuffer == sample.image.value
    ensures r.Some? ==> r.value.pixelBufferSize == Size(sample.image.value.width as real, sample.image.value.height as real)
  {
    match sample.intrinsics
    case None => None
    case Some(intrinsics) =>
      match sample.image
      case None => None
      case Some(buffer) =>
        Some(Outputs(intrinsics, buffer, Size(buffer.width as real, buffer.height as real)))
  }

  // ---------------------------------------------------------------------------
  // Video-orientation conversions
  // ---------------------------------------------------------------------------

  /** The video orientation for a device orientation; none for face up, face
      down and unknown. */
  function VideoFromDevice(d: DeviceOrientation): (r: Option<VideoOrientation>)
    ensures r.None? <==> d in {DeviceFaceUp, DeviceFaceDown, DeviceUnknown}
    ensures r.Some? ==> DeviceNamed(r.value) == d
  {
    match d
    case DevicePortrait => Some(Portrait)
    case DevicePortraitUpsideDown => Some(PortraitUpsideDown)
    case DeviceLandscapeLeft => Some(LandscapeLeft)
    case DeviceLandscapeRight => Some(LandscapeRight)
    case DeviceFaceUp => None
    case DeviceFaceDown => None
    case DeviceUnknown => None
  }

  /** The video orientation for an interface orientation; none for unknown. */
  function VideoFromInterface(i: InterfaceOrientation): (r: Option<VideoOrientation>)
    ensures r.None? <==> i == InterfaceUnknown
    ensures r.Some? ==> InterfaceNamed(r.value) == i
  {
    match i
    case InterfaceUnknown => None
    case InterfacePortrait => Some(Portrait)
    case InterfacePortraitUpsideDown => Some(PortraitUpsideDown)
    case InterfaceLandscapeLeft => Some(LandscapeLeft)
    case InterfaceLandscapeRight => Some(LandscapeRight)
  }

  /** The device orientation carrying the same case name as a video orientation. */
  function DeviceNamed(v: VideoOrientation): DeviceOrientation {
    match v
    case Portrait => DevicePortrait
    case PortraitUpsideDown => DevicePortraitUpsideDown
    case LandscapeLeft => DeviceLandscapeLeft
    case LandscapeRight => DeviceLandscapeRight
  }

  /** The interface orientation carrying the same case name as a video orientation. */
  function InterfaceNamed(v: VideoOrientation): InterfaceOrientation {
    match v
    case Portrait => InterfacePortrait
    case PortraitUpsideDown => InterfacePortraitUpsideDown
    case LandscapeLeft => InterfaceLandscapeLeft
    case LandscapeRight => InterfaceLandscapeRight
  }

  /** The device conversion maps each named case to its namesake and is
      undefined exactly on face up, face down and unknown. */
  lemma VideoFromDeviceByName(d: DeviceOrientation)
    ensures forall v :: VideoFromDevice(DeviceNamed(v)) == Some(v)
    ensures VideoFromDevice(d).Some? ==> DeviceNamed(VideoFromDevice(d).value) == d
    ensures VideoFromDevice(d).None? <==> d in {DeviceFaceUp, DeviceFaceDown, DeviceUnknown}
  {
    forall v ensures VideoFromDevice(DeviceNamed(v)) == Some(v) {
      match v
      case Portrait =>
      case PortraitUpsideDown =>
      case LandscapeLeft =>
      case LandscapeRight =>
    }
  }

  /** The interface conversion maps each named case to its namesake, is
      undefined only on unknown, and agrees with the device conversion on the
      four named cases. */
  lemma VideoFromInterfaceByName(i: InterfaceOrientation)
    ensures forall v :: VideoFromInterface(InterfaceNamed(v)) == Some(v)
    ensures VideoFromInterface(i).Some? ==> InterfaceNamed(VideoFromInterface(i).value) == i
    ensures VideoFromInterface(i).None? <==> i == InterfaceUnknown
    ensures forall v :: VideoFromInterface(InterfaceNamed(v)) == VideoFromDevice(DeviceNamed(v))
  {
    forall v ensures VideoFromInterface(InterfaceNamed(v)) == Some(v) {
      match v
      case Portrait =>
      case PortraitUpsideDown =>
      case LandscapeLeft =>
      case LandscapeRight =>
    }
    VideoFromDeviceByName(DeviceUnknown);
  }

  /** The debug name of a video orientation. */
  function DebugDescription(v: VideoOrientation): (s: string)
    ensures FromDebugDescription(s) == Some(v)
  {
    match v
    case Portrait => "portrait"
    case PortraitUpsideDown => "portraitUpsideDown"
    case LandscapeRight => "landscapeRight"
    case LandscapeLeft => "landscapeLeft"
  }

  /** Reads a debug name back. */
  function FromDebugDescription(s: string): Option<VideoOrientation> {
    if s == "portrait" then Some(Portrait)
    else if s == "portraitUpsideDown" then Some(PortraitUpsideDown)
    else if s == "landscapeRight" then Some(LandscapeRight)
    else if s == "landscapeLeft" then Some(LandscapeLeft)
    else None
  }

  /** Every debug name reads back as the orientation it names, so the four
      names are pairwise distinct. */
  lemma DebugDescriptionRoundTrip(v: VideoOrientation, w: VideoOrientation)
    ensures FromDebugDescription(DebugDescription(v)) == Some(v)
    ensures DebugDescription(v) == DebugDescription(w) ==> v == w
    ensures FromDebugDescription("unknown") == None
  {
    assert FromDebugDescription(DebugDescription(w)) == Some(w);
  }
}
