/** The platform's orientation enumerations, case for case. */
module Orientations {

  /** The physical orientation of the device. */
  datatype DeviceOrientation =
    | DeviceUnknown
    | DevicePortrait
    | DevicePortraitUpsideDown
    | DeviceLandscapeLeft
    | DeviceLandscapeRight
    | DeviceFaceUp
    | DeviceFaceDown

  /** The orientation of the application's user interface. */
  datatype InterfaceOrientation =
    | InterfaceUnknown
    | InterfacePortrait
    | InterfacePortraitUpsideDown
    | InterfaceLandscapeLeft
    | InterfaceLandscapeRight

  /** The orientation a capture connection delivers video in. */
  datatype VideoOrientation =
    | Portrait
    | PortraitUpsideDown
    | LandscapeRight
    | LandscapeLeft

  /** The EXIF orientation of an image handed to the vision framework. */
  datatype ImageOrientation =
    | Up
    | UpMirrored
    | Down
    | DownMirrored
    | LeftMirrored
    | Right
    | RightMirrored
    | Left
  {
    predicate IsMirrored() {
      UpMirrored? || DownMirrored? || LeftMirrored? || RightMirrored?
    }
  }

  predicate IsLandscape(d: DeviceOrientation) {
    d.DeviceLandscapeLeft? || d.DeviceLandscapeRight?
  }
}
