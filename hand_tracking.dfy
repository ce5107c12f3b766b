/**
 * The hand-tracking screen: the one-or-two-hands mode toggle, the
 * analyzer `runHandTracking` throttled to one frame every 34 ms, and the
 * landmarker's result listener that forwards hands to the overlay.
 */
module HandTracking {
  import CameraFrames
  import HandOverlay

  /** The minimum spacing of analysed frames, in milliseconds. */
  const AnalyzeGapMs: int := 34

  /** `if (currentNumHands == 2) 1 else 2`. */
  function Toggled(numHands: int): (r: int)
    ensures r == 1 || r == 2
    ensures numHands == 1 || numHands == 2 ==> r != numHands
  {
    if numHands == 2 then 1 else 2
  }

  /** Toggling twice restores a valid mode. */
  lemma ToggleTwiceRestores(numHands: int)
    requires numHands == 1 || numHands == 2
    ensures Toggled(Toggled(numHands)) == numHands
  {
  }

  /** What one `runHandTracking` call did; `Submitted` carries the frame's rotation. */
  datatype Tracking =
    | NoLandmarker
    | Throttled
    | NoBitmap
    | ConversionThrew
    | Submitted(bitmap: CameraFrames.Bitmap, rotationDegrees: int, timestampMs: int)
    | TrackerError


  /** The status line; number formatting is not modelled. */
  datatype StatusLine = Blank | TrackerReady(mode: int) | Hands(count: int, mode: int) | TrackerFailed

  class HandTrackingActivity {
    var hasLandmarker: bool
    /** The number of hands the current landmarker was built for. */
    var landmarkerNumHands: int
    var currentNumHands: int
    var lastAnalyzeTimestampMs: int
    var latestRotationDegrees: int
    var status: StatusLine

    ghost predicate Valid()
      reads this
    {
      (currentNumHands == 1 || currentNumHands == 2)
      && (hasLandmarker ==> landmarkerNumHands == currentNumHands)
    }

    constructor ()
      ensures Valid()
      ensures currentNumHands == 2 && !hasLandmarker
      ensures lastAnalyzeTimestampMs == 0 && latestRotationDegrees == 0 && status == Blank
    {
      hasLandmarker := false;
      landmarkerNumHands := 0;
      currentNumHands := 2;
      lastAnalyzeTimestampMs := 0;
      latestRotationDegrees := 0;
      status := Blank;
    }

    /** `setupHandLandmarker`: replaces the landmarker with one for the current mode. */
    method SetupHandLandmarker()
      requires currentNumHands == 1 || currentNumHands == 2
      modifies this`hasLandmarker, this`landmarkerNumHands, this`status
      ensures Valid()
      ensures hasLandmarker && landmarkerNumHands == currentNumHands
      ensures status == TrackerReady(currentNumHands)
    {
      hasLandmarker := true;
      landmarkerNumHands := currentNumHands;
      status := TrackerReady(currentNumHands);
    }

    /** `toggleNumHands`: switches between one and two hands and rebuilds the landmarker. */
    method ToggleNumHands()
      requires Valid()
      modifies this`currentNumHands, this`hasLandmarker, this`landmarkerNumHands, this`status
      ensures Valid()
      ensures currentNumHands == Toggled(old(currentNumHands)) && currentNumHands != old(currentNumHands)
      ensures hasLandmarker && landmarkerNumHands == currentNumHands
    {
      currentNumHands := Toggled(currentNumHands);
      SetupHandLandmarker();
    }

    /**
     * `runHandTracking` on the frame `proxy` at `nowMs`; `submitAt` is the
     * clock read just before submission and `throws` says whether the
     * landmarker rejects the image. Only a frame that passes the throttle
     * updates the timestamp and the rotation the result listener will use.
     * The frame is closed exactly once, except when `toBitmap` throws, which
     * leaves it open.
     */
    method RunHandTracking(proxy: CameraFrames.ImageProxy, nowMs: int, submitAt: int,
                           throws: CameraFrames.Bitmap -> bool)
      returns (t: Tracking)
      requires Valid()
      modifies this`lastAnalyzeTimestampMs, this`latestRotationDegrees, this`status, proxy`closeCount
      ensures Valid()
      ensures t.ConversionThrew? ==> proxy.closeCount == old(proxy.closeCount)
      ensures !t.ConversionThrew? ==> proxy.closeCount == old(proxy.closeCount) + 1
      ensures !hasLandmarker ==> t == NoLandmarker && unchanged(this)
      ensures hasLandmarker && !CameraFrames.Admits(old(lastAnalyzeTimestampMs), nowMs, AnalyzeGapMs) ==>
        t == Throttled && unchanged(this)
      ensures hasLandmarker && CameraFrames.Admits(old(lastAnalyzeTimestampMs), nowMs, AnalyzeGapMs) ==>
        lastAnalyzeTimestampMs == nowMs && latestRotationDegrees == proxy.image.rotationDegrees
        && match CameraFrames.Convert(proxy.image)
           case NoBitmap => t == NoBitmap && status == old(status)
           case Thrown => t == ConversionThrew && status == old(status)
           case Converted(b) =>
             if throws(b) then t == TrackerError && status == TrackerFailed
             else t == Submitted(b, proxy.image.rotationDegrees, submitAt) && status == old(status)
    {
      if !hasLandmarker {
        proxy.Close();
        return NoLandmarker;
      }
      if nowMs - lastAnalyzeTimestampMs < AnalyzeGapMs {
        proxy.Close();
        return Throttled;
      }
      lastAnalyzeTimestampMs := nowMs;
      var rotationDegrees := proxy.image.rotationDegrees;
      latestRotationDegrees := rotationDegrees;
      var conversion := CameraFrames.ToBitmap(proxy.image);
      match conversion {
        case NoBitmap =>
          proxy.Close();
          t := NoBitmap;
        case Thrown =>
          t := ConversionThrew;
        case Converted(b) =>
          if throws(b) {
            t := TrackerError;
            status := TrackerFailed;
          } else {
            t := Submitted(b, rotationDegrees, submitAt);
          }
          proxy.Close();
      }
    }

    /**
     * The landmarker's result listener: shows the hand count and mode and
     * hands the landmarks, the input image's size and the latest frame
     * rotation to the overlay.
     */
    method OnResult(hands: seq<seq<HandOverlay.Landmark>>, inputWidth: int, inputHeight: int,
                    overlay: HandOverlay.HandOverlayView)
      requires Valid()
      modifies this`status, overlay
      ensures Valid()
      ensures status == Hands(|hands|, currentNumHands)
      ensures overlay.latestHands == hands && overlay.sourceWidth == inputWidth
      ensures overlay.sourceHeight == inputHeight && overlay.rotationDegrees == latestRotationDegrees
    {
      status := Hands(|hands|, currentNumHands);
      overlay.Update(hands, inputWidth, inputHeight, latestRotationDegrees);
    }
  }
}
