/**
 * The object-label screen's analyzer: `runDetection` throttles camera
 * frames to one every 120 ms, converts the frame, runs the detector and
 * posts the result to the label overlay, closing the frame on every path
 * the source closes it.
 */
module ObjectLabels {
  import opened Wrappers
  import CameraFrames
  import LabelOverlay

  /** The minimum spacing of analysed frames, in milliseconds. */
  const AnalyzeGapMs: int := 120

  /**
   * What one `runDetection` call did. `Posted` carries the arguments of
   * the overlay `update` and the detection count for the status line;
   * `ConversionThrew` is an exception escaping `toBitmap`.
   */
  datatype Analysis =
    | NoDetector
    | Throttled
    | NoBitmap
    | ConversionThrew
    | Posted(detections: seq<LabelOverlay.Detection>, width: int, height: int, rotationDegrees: int, nowMs: int)
    | DetectError


  class ObjectLabelsActivity {
    var hasDetector: bool
    var latestRotationDegrees: int
    var lastAnalyzeTimestampMs: int

    constructor ()
      ensures !hasDetector && latestRotationDegrees == 0 && lastAnalyzeTimestampMs == 0
    {
      hasDetector := false;
      latestRotationDegrees := 0;
      lastAnalyzeTimestampMs := 0;
    }

    /** `setupDetector`: the detector exists from now on. */
    method SetupDetector()
      modifies this`hasDetector
      ensures hasDetector
    {
      hasDetector := true;
    }

    /**
     * `runDetection` on the frame `proxy` at `nowMs`. `detect` stands for
     * the detector call: `None` when it throws. A frame that passes the
     * throttle moves the timestamp to `nowMs` and records its rotation,
     * whether or not conversion then succeeds. The frame is closed exactly
     * once, except when `toBitmap` throws, which leaves it open.
     */
    method RunDetection(proxy: CameraFrames.ImageProxy, nowMs: int,
                        detect: CameraFrames.Bitmap -> Option<seq<LabelOverlay.Detection>>)
      returns (a: Analysis)
      modifies this`latestRotationDegrees, this`lastAnalyzeTimestampMs, proxy`closeCount
      ensures a.ConversionThrew? ==> proxy.closeCount == old(proxy.closeCount)
      ensures !a.ConversionThrew? ==> proxy.closeCount == old(proxy.closeCount) + 1
      ensures !hasDetector ==> a == NoDetector && unchanged(this)
      ensures hasDetector && !CameraFrames.Admits(old(lastAnalyzeTimestampMs), nowMs, AnalyzeGapMs) ==>
        a == Throttled && unchanged(this)
      ensures hasDetector && CameraFrames.Admits(old(lastAnalyzeTimestampMs), nowMs, AnalyzeGapMs) ==>
        lastAnalyzeTimestampMs == nowMs && latestRotationDegrees == proxy.image.rotationDegrees
        && match CameraFrames.Convert(proxy.image)
           case NoBitmap => a == NoBitmap
           case Thrown => a == ConversionThrew
           case Converted(b) =>
             a == (if detect(b).Some? then Posted(detect(b).value, b.width, b.height, proxy.image.rotationDegrees, nowMs)
                   else DetectError)
    {
      if !hasDetector {
        proxy.Close();
        return NoDetector;
      }
      if nowMs - lastAnalyzeTimestampMs < AnalyzeGapMs {
        proxy.Close();
        return Throttled;
      }
      lastAnalyzeTimestampMs := nowMs;
      latestRotationDegrees := proxy.image.rotationDegrees;
      var conversion := CameraFrames.ToBitmap(proxy.image);
      match conversion {
        case NoBitmap =>
          proxy.Close();
          a := NoBitmap;
        case Thrown =>
          a := ConversionThrew;
        case Converted(b) =>
          var result := detect(b);
          if result.Some? {
            a := Posted(result.value, b.width, b.height, latestRotationDegrees, nowMs);
          } else {
            a := DetectError;
          }
          proxy.Close();
      }
    }
  }

  /** The overlay side of a posted result: `update` with the frame's size, rotation and time. */
  method ShowPosted(overlay: LabelOverlay.LabelOverlayView, a: Analysis,
                    pinyinOf: string -> Option<string>)
    requires a.Posted? && overlay.Valid()
    modifies overlay.slots
    ensures overlay.Valid()
    ensures overlay.slots[..] == LabelOverlay.UpdateSlots(old(overlay.slots[..]), a.detections, a.nowMs, pinyinOf)
  {
    overlay.Update(a.detections, a.nowMs, pinyinOf);
  }
}
