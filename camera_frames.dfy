/**
 * The camera side shared by the object-label and hand-tracking screens:
 * the `ImageProxy.toBitmap` conversion that repacks a padded RGBA_8888
 * plane into a tightly packed ARGB_8888 bitmap, and the last-timestamp
 * throttle both analyzers apply before converting a frame.
 */
module CameraFrames {
  newtype Byte = x: int | 0 <= x < 256

  /** `PixelFormat.RGBA_8888`. */
  const Rgba8888: int := 1
  /** Bytes per ARGB_8888 bitmap pixel. */
  const BytesPerPixel: int := 4

  /** One image plane: its whole buffer and its strides in bytes. */
  datatype Plane = Plane(buffer: seq<Byte>, rowStride: int, pixelStride: int)

  /** The fields of an `ImageProxy` that the analyzers read. */
  datatype ImageFrame = ImageFrame(format: int, width: int, height: int, planes: seq<Plane>, rotationDegrees: int)

  /** A bitmap's dimensions and its pixel bytes, row after row. */
  datatype Bitmap = Bitmap(width: int, height: int, pixels: seq<Byte>)

  /**
   * The outcome of `toBitmap`: null, a bitmap, or an exception thrown by
   * the platform (`createBitmap` with a non-positive dimension, a row copy
   * outside the source array or past the end of the packed buffer, or a
   * source buffer smaller than the bitmap).
   */
  datatype Conversion = NoBitmap | Converted(bitmap: Bitmap) | Thrown

  /**
   * Row `y` of `rowLen` bytes starting at `y * rowStride` lies inside the
   * source of length `dataLen`, and, written at `y * rowLen`, inside a
   * packed buffer of capacity `cap`.
   */
  predicate RowFits(dataLen: int, rowStride: int, rowLen: int, cap: int, y: nat) {
    0 <= y * rowStride && 0 <= rowLen && y * rowStride + rowLen <= dataLen && y * rowLen + rowLen <= cap
  }

  /** Rows `0 .. n-1` all fit: the copy loop gets through `n` rows without throwing. */
  predicate RowsFit(dataLen: int, rowStride: int, rowLen: int, cap: int, n: nat) {
    n == 0 || (RowsFit(dataLen, rowStride, rowLen, cap, n - 1) && RowFits(dataLen, rowStride, rowLen, cap, n - 1))
  }

  lemma {:induction false} RowsFitPrefix(dataLen: int, rowStride: int, rowLen: int, cap: int, n: nat, y: nat)
    requires RowsFit(dataLen, rowStride, rowLen, cap, n) && y < n
    ensures RowFits(dataLen, rowStride, rowLen, cap, y)
  {
    if y < n - 1 {
      RowsFitPrefix(dataLen, rowStride, rowLen, cap, n - 1, y);
    }
  }

  /** The first `n` rows of `data`, each `rowLen` bytes from `y * rowStride`, concatenated. */
  function Packed(data: seq<Byte>, rowStride: int, rowLen: int, cap: int, n: nat): (r: seq<Byte>)
    requires RowsFit(|data|, rowStride, rowLen, cap, n)
    ensures |r| == n * rowLen
  {
    if n == 0 then []
    else Packed(data, rowStride, rowLen, cap, n - 1) + data[(n - 1) * rowStride .. (n - 1) * rowStride + rowLen]
  }

  /**
   * Byte `k` of packed row `y` is byte `k` of source row `y`: padding
   * between source rows is dropped and nothing is reordered.
   */
  lemma {:induction false} PackedRowContent(data: seq<Byte>, rowStride: int, rowLen: int, cap: int, n: nat,
                                            y: nat, k: nat)
    requires RowsFit(|data|, rowStride, rowLen, cap, n)
    requires y < n && k < rowLen
    ensures RowFits(|data|, rowStride, rowLen, cap, y)
    ensures y * rowLen + k < n * rowLen
    ensures Packed(data, rowStride, rowLen, cap, n)[y * rowLen + k] == data[y * rowStride + k]
  {
    RowsFitPrefix(|data|, rowStride, rowLen, cap, n, y);
    var prefix := Packed(data, rowStride, rowLen, cap, n - 1);
    if y < n - 1 {
      PackedRowContent(data, rowStride, rowLen, cap, n - 1, y, k);
      assert y * rowLen + k < (n - 1) * rowLen;
    } else {
      assert y * rowLen + k == |prefix| + k;
    }
  }

  /** With no padding the packed rows are just the front of the source. */
  lemma {:induction false} PackedWithoutPadding(data: seq<Byte>, rowLen: int, cap: int, n: nat)
    requires RowsFit(|data|, rowLen, rowLen, cap, n)
    ensures n * rowLen <= |data|
    ensures Packed(data, rowLen, rowLen, cap, n) == data[..n * rowLen]
  {
    if n > 0 {
      PackedWithoutPadding(data, rowLen, cap, n - 1);
      assert (n - 1) * rowLen + rowLen == n * rowLen;
      assert data[..(n - 1) * rowLen] + data[(n - 1) * rowLen .. n * rowLen] == data[..n * rowLen];
    }
  }

  /** Without padding, and with room in the packed buffer, the rows fit exactly when the source holds them all. */
  lemma {:induction false} RowsFitWithoutPadding(dataLen: int, rowLen: int, cap: int, n: nat)
    requires 0 <= rowLen && 0 <= dataLen && n * rowLen <= cap
    ensures RowsFit(dataLen, rowLen, rowLen, cap, n) <==> n * rowLen <= dataLen
  {
    if n > 0 {
      MulSucc(n - 1, rowLen);
      assert 0 <= (n - 1) * rowLen;
      RowsFitWithoutPadding(dataLen, rowLen, cap, n - 1);
    }
  }

  lemma MulSucc(y: nat, a: int)
    ensures (y + 1) * a == y * a + a
    ensures a >= 0 ==> y * a >= 0 && y * a <= (y + 1) * a
  {
  }

  function Zeros(n: nat): (r: seq<Byte>)
    ensures |r| == n && forall i :: 0 <= i < n ==> r[i] == 0
  {
    seq(n, _ => 0)
  }

  /** `copyPixelsFromBuffer(buffer)` on the tightly packed fast path. */
  function FastCopy(buffer: seq<Byte>, width: int, height: int): (r: Conversion)
    requires width > 0 && height > 0
    ensures r.Converted? <==> width * height * BytesPerPixel <= |buffer|
    ensures r.Converted? ==> r.bitmap == Bitmap(width, height, buffer[..width * height * BytesPerPixel])
  {
    if |buffer| < width * height * BytesPerPixel then Thrown
    else Converted(Bitmap(width, height, buffer[..width * height * BytesPerPixel]))
  }

  /** The row-by-row repack into a zero-filled buffer of `width * height * 4` bytes. */
  function Repacked(plane: Plane, width: int, height: int): (r: Conversion)
    requires width > 0 && height > 0
    ensures r.Converted? <==>
      RowsFit(|plane.buffer|, plane.rowStride, width * plane.pixelStride, width * height * BytesPerPixel, height)
    ensures r.Converted? ==> r.bitmap.width == width && r.bitmap.height == height
    ensures r.Converted? ==> |r.bitmap.pixels| == width * height * BytesPerPixel
  {
    var rowLen := width * plane.pixelStride;
    var cap := width * height * BytesPerPixel;
    if RowsFit(|plane.buffer|, plane.rowStride, rowLen, cap, height) then
      RowsFitPrefix(|plane.buffer|, plane.rowStride, rowLen, cap, height, height - 1);
      var packed := Packed(plane.buffer, plane.rowStride, rowLen, cap, height);
      Converted(Bitmap(width, height, packed + Zeros(cap - height * rowLen)))
    else Thrown
  }

  /** `ImageProxy.toBitmap`. */
  function Convert(f: ImageFrame): (r: Conversion)
    ensures r == NoBitmap <==> f.format != Rgba8888 || f.planes == []
    ensures r.Converted? ==> r.bitmap.width == f.width && r.bitmap.height == f.height
    ensures r.Converted? ==> |r.bitmap.pixels| == f.width * f.height * BytesPerPixel
    ensures f.format == Rgba8888 && f.planes != [] && (f.width <= 0 || f.height <= 0) ==> r == Thrown
  {
    if f.format != Rgba8888 then NoBitmap
    else if f.planes == [] then NoBitmap
    else if f.width <= 0 || f.height <= 0 then Thrown
    else
      var plane := f.planes[0];
      if plane.pixelStride == BytesPerPixel && plane.rowStride == f.width * BytesPerPixel then
        FastCopy(plane.buffer, f.width, f.height)
      else Repacked(plane, f.width, f.height)
  }

  /**
   * The fast path is only a shortcut: on a plane without padding, the
   * row-by-row repack would throw or produce exactly the same bitmap.
   */
  lemma FastPathIsRepack(plane: Plane, width: int, height: int)
    requires width > 0 && height > 0
    requires plane.pixelStride == BytesPerPixel && plane.rowStride == width * BytesPerPixel
    ensures FastCopy(plane.buffer, width, height) == Repacked(plane, width, height)
  {
    var rowLen := width * BytesPerPixel;
    assert width * height * BytesPerPixel == height * rowLen;
    RowsFitWithoutPadding(|plane.buffer|, rowLen, height * rowLen, height);
    if height * rowLen <= |plane.buffer| {
      PackedWithoutPadding(plane.buffer, rowLen, height * rowLen, height);
      assert Zeros(0) == [];
    }
  }

  /** A repacked bitmap is the packed rows followed by zero padding. */
  lemma RepackedLayout(plane: Plane, width: int, height: int)
    requires width > 0 && height > 0 && Repacked(plane, width, height).Converted?
    ensures var rowLen := width * plane.pixelStride;
      var cap := width * height * BytesPerPixel;
      height * rowLen <= cap
      && Repacked(plane, width, height).bitmap.pixels
         == Packed(plane.buffer, plane.rowStride, rowLen, cap, height) + Zeros(cap - height * rowLen)
  {
    var rowLen := width * plane.pixelStride;
    var cap := width * height * BytesPerPixel;
    RowsFitPrefix(|plane.buffer|, plane.rowStride, rowLen, cap, height, height - 1);
    MulSucc(height - 1, rowLen);
  }

  /**
   * Pixel byte `k` of bitmap row `y` is byte `y * rowStride + k` of the
   * plane: row padding is dropped and nothing is reordered.
   */
  lemma RepackedRowContent(plane: Plane, width: int, height: int, y: nat, k: nat)
    requires width > 0 && height > 0 && Repacked(plane, width, height).Converted?
    requires y < height && k < width * plane.pixelStride
    ensures 0 <= y * plane.rowStride && y * plane.rowStride + k < |plane.buffer|
    ensures 0 <= y * (width * plane.pixelStride) && y * (width * plane.pixelStride) + k < width * height * BytesPerPixel
    ensures Repacked(plane, width, height).bitmap.pixels[y * (width * plane.pixelStride) + k]
         == plane.buffer[y * plane.rowStride + k]
  {
    var rowLen := width * plane.pixelStride;
    var cap := width * height * BytesPerPixel;
    RepackedLayout(plane, width, height);
    PackedRowContent(plane.buffer, plane.rowStride, rowLen, cap, height, y, k);
  }

  /** The bytes after the last copied row are zero. */
  lemma RepackedPadding(plane: Plane, width: int, height: int, i: int)
    requires width > 0 && height > 0 && Repacked(plane, width, height).Converted?
    requires height * (width * plane.pixelStride) <= i < width * height * BytesPerPixel
    ensures Repacked(plane, width, height).bitmap.pixels[i] == 0
  {
    RepackedLayout(plane, width, height);
  }

  /** On the repacking path, `toBitmap` yields the repacked bitmap. */
  lemma ConvertRepacks(f: ImageFrame)
    requires f.format == Rgba8888 && f.planes != [] && f.width > 0 && f.height > 0
    requires !(f.planes[0].pixelStride == BytesPerPixel && f.planes[0].rowStride == f.width * BytesPerPixel)
    ensures Convert(f) == Repacked(f.planes[0], f.width, f.height)
  {
  }

  /** The bulk `put(src, offset, length)` of one row into `dst` at `pos`. */
  method PutRow(dst: array<Byte>, pos: int, src: seq<Byte>, offset: int, length: int)
    requires 0 <= pos && 0 <= offset && 0 <= length && offset + length <= |src| && pos + length <= dst.Length
    modifies dst
    ensures dst[..pos] == old(dst[..pos])
    ensures dst[pos .. pos + length] == src[offset .. offset + length]
    ensures dst[pos + length ..] == old(dst[pos + length ..])
  {
    var k := 0;
    while k < length
      invariant 0 <= k <= length
      invariant dst[..pos] == old(dst[..pos])
      invariant dst[pos .. pos + k] == src[offset .. offset + k]
      invariant dst[pos + length ..] == old(dst[pos + length ..])
    {
      dst[pos + k] := src[offset + k];
      k := k + 1;
    }
  }

  /**
   * The slow path's loop: allocates the zero-filled packed buffer and
   * copies one row per iteration, stopping at the first row that does not
   * fit (where the platform throws).
   */
  method RepackRows(data: seq<Byte>, rowStride: int, rowLen: int, cap: int, height: nat)
    returns (ok: bool, packed: seq<Byte>)
    requires 0 <= cap
    ensures ok <==> RowsFit(|data|, rowStride, rowLen, cap, height)
    ensures ok ==> height * rowLen <= cap
    ensures ok ==> packed == Packed(data, rowStride, rowLen, cap, height) + Zeros(cap - height * rowLen)
  {
    var buf := new Byte[cap](_ => 0);
    var y := 0;
    var pos := 0;
    while y < height
      invariant 0 <= y <= height && pos == y * rowLen
      invariant RowsFit(|data|, rowStride, rowLen, cap, y)
      invariant 0 <= pos <= cap
      invariant buf[..pos] == Packed(data, rowStride, rowLen, cap, y)
      invariant buf[pos ..] == Zeros(cap - pos)
    {
      if !RowFits(|data|, rowStride, rowLen, cap, y) {
        if RowsFit(|data|, rowStride, rowLen, cap, height) {
          RowsFitPrefix(|data|, rowStride, rowLen, cap, height, y);
        }
        return false, [];
      }
      var rowStart := y * rowStride;
      PackStep(data, rowStride, rowLen, cap, y);
      ghost var tail := buf[pos + rowLen ..];
      assert tail == buf[pos ..][rowLen ..];
      assert tail == Zeros(cap - (pos + rowLen));
      PutRow(buf, pos, data, rowStart, rowLen);
      assert buf[..pos + rowLen] == buf[..pos] + buf[pos .. pos + rowLen];
      assert buf[pos + rowLen ..] == tail;
      y, pos := y + 1, pos + rowLen;
    }
    assert buf[..] == buf[..pos] + buf[pos ..];
    return true, buf[..];
  }

  /** One more row that fits extends the packed rows by exactly that row. */
  lemma PackStep(data: seq<Byte>, rowStride: int, rowLen: int, cap: int, y: nat)
    requires RowsFit(|data|, rowStride, rowLen, cap, y) && RowFits(|data|, rowStride, rowLen, cap, y)
    ensures RowsFit(|data|, rowStride, rowLen, cap, y + 1)
    ensures (y + 1) * rowLen == y * rowLen + rowLen
    ensures Packed(data, rowStride, rowLen, cap, y + 1)
         == Packed(data, rowStride, rowLen, cap, y) + data[y * rowStride .. y * rowStride + rowLen]
  {
    MulSucc(y, rowLen);
  }

  /** `toBitmap` as the source runs it. */
  method ToBitmap(f: ImageFrame) returns (r: Conversion)
    ensures r == Convert(f)
  {
    if f.format != Rgba8888 || f.planes == [] {
      return NoBitmap;
    }
    if f.width <= 0 || f.height <= 0 {
      return Thrown;
    }
    var plane := f.planes[0];
    if plane.pixelStride == BytesPerPixel && plane.rowStride == f.width * BytesPerPixel {
      return FastCopy(plane.buffer, f.width, f.height);
    }
    ConvertRepacks(f);
    var ok, packed := RepackRows(plane.buffer, plane.rowStride, f.width * plane.pixelStride,
                                 f.width * f.height * BytesPerPixel, f.height);
    r := if ok then Converted(Bitmap(f.width, f.height, packed)) else Thrown;
  }

  /**
   * A camera frame handed to an analyzer. Only the number of `close()`
   * calls is tracked; the platform's buffer recycling is not modelled.
   */
  class ImageProxy {
    const image: ImageFrame
    var closeCount: nat

    constructor (f: ImageFrame)
      ensures image == f && closeCount == 0
    {
      image := f;
      closeCount := 0;
    }

    method Close()
      modifies this`closeCount
      ensures closeCount == old(closeCount) + 1
    {
      closeCount := closeCount + 1;
    }
  }

  /** The throttle: a frame is analysed only `gap` ms or more after the last analysed one. */
  predicate Admits(lastMs: int, nowMs: int, gapMs: int) {
    nowMs - lastMs >= gapMs
  }

  /**
   * The throttle after a run of arrivals: the time of the last admitted
   * frame (`lastMs` until one is admitted) and the positions in `times` of
   * the admitted frames.
   */
  datatype Throttle = Throttle(lastMs: int, admitted: seq<nat>)

  /**
   * The throttle starting from `lastMs` fed the arrival times `times` in
   * order. Admitted positions lie within `times`, and the throttle
   * remembers the time of the last admitted frame.
   */
  function Throttled(lastMs: int, times: seq<int>, gapMs: int): (r: Throttle)
    ensures forall i :: 0 <= i < |r.admitted| ==> r.admitted[i] < |times|
    ensures r.lastMs == if r.admitted == [] then lastMs else times[r.admitted[|r.admitted| - 1]]
    decreases |times|
  {
    if times == [] then Throttle(lastMs, [])
    else
      var n := |times| - 1;
      var before := Throttled(lastMs, times[..n], gapMs);
      if Admits(before.lastMs, times[n], gapMs) then Throttle(times[n], before.admitted + [n])
      else before
  }

  /**
   * Admitted frames keep their arrival order; the first is at least
   * `gapMs` after `lastMs`, and consecutive admitted frames are at least
   * `gapMs` apart.
   */
  lemma {:induction false} ThrottleSpacing(lastMs: int, times: seq<int>, gapMs: int)
    ensures var a := Throttled(lastMs, times, gapMs).admitted;
      && (forall i :: 0 <= i < |a| - 1 ==> a[i] < a[i + 1])
      && (a != [] ==> times[a[0]] - lastMs >= gapMs)
      && (forall i :: 0 <= i < |a| - 1 ==> times[a[i + 1]] - times[a[i]] >= gapMs)
    decreases |times|
  {
    if times != [] {
      var n := |times| - 1;
      var prefix := times[..n];
      ThrottleSpacing(lastMs, prefix, gapMs);
      var before := Throttled(lastMs, prefix, gapMs);
      var a := Throttled(lastMs, times, gapMs).admitted;
      assert forall i :: 0 <= i < |before.admitted| ==> times[before.admitted[i]] == prefix[before.admitted[i]];
      if a != before.admitted {
        assert a == before.admitted + [n];
        if before.admitted != [] {
          var m := |before.admitted| - 1;
          assert before.admitted[m] < n;
          assert times[n] - times[before.admitted[m]] >= gapMs;
        }
      }
    }
  }

  /**
   * The throttle admits exactly the frames that arrive `gapMs` or more after
   * the last frame admitted before them (or after `lastMs`, if none was).
   */
  lemma {:induction false} ThrottleAdmitsExactly(lastMs: int, times: seq<int>, gapMs: int, k: nat)
    requires k < |times|
    ensures k in Throttled(lastMs, times, gapMs).admitted
        <==> Admits(Throttled(lastMs, times[..k], gapMs).lastMs, times[k], gapMs)
    decreases |times|
  {
    var n := |times| - 1;
    var before := Throttled(lastMs, times[..n], gapMs);
    var after := Throttled(lastMs, times, gapMs);
    assert after.admitted == before.admitted || after.admitted == before.admitted + [n];
    if k == n {
      assert n !in before.admitted by {
        forall i | 0 <= i < |before.admitted|
          ensures before.admitted[i] != n
        {
          assert before.admitted[i] < |times[..n]|;
        }
      }
    } else {
      assert k in after.admitted <==> k in before.admitted;
      ThrottleAdmitsExactly(lastMs, times[..n], gapMs, k);
      assert times[..n][..k] == times[..k];
    }
  }
}
