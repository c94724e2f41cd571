/** Crop geometry of the frame preparation step.

    A camera frame of `width x height` pixels is fed to a pose model whose input
    is `targetWidth x targetHeight`. Before the frame is scaled, a centred
    rectangle with the target aspect ratio is cut out of it, so that the scaling
    never distorts the picture. Exactly one axis of the frame is shortened: the
    one along which the frame is relatively too long.

    The source compares two `double` scale factors and divides by them; here the
    same decisions are made in exact arithmetic, by cross-multiplying integers.
    `ScaleTestExact` and `CropLengthIsCeiling` relate the integer forms to the
    real-number formulas of the source.
 */
module Crop {

  /** A rectangle inside a frame: top-left corner `(x, y)`, size `w x h`. */
  datatype CropRegion = CropRegion(x: int, y: int, w: int, h: int)

  /** The smallest integer that is at least `a / b` (OpenCV's `cvCeil` of an exact quotient). */
  function CeilDiv(a: int, b: int): (r: int)
    requires a >= 0 && b > 0
    ensures r * b >= a && (r - 1) * b < a
  {
    var q := (a + b - 1) / b;
    assert q * b + (a + b - 1) % b == a + b - 1;
    q
  }

  /** Halving as C++ integer division `n / 2` performs it: the quotient is truncated
      toward zero, so the remainder has the sign of `n`. */
  function TruncHalf(n: int): (r: int)
    ensures n >= 0 ==> 0 <= 2 * r <= n <= 2 * r + 1
    ensures n < 0 ==> 2 * r - 1 <= n <= 2 * r <= 0
  {
    if n >= 0 then n / 2 else -((-n) / 2)
  }

  /** The branch test `yScale > xScale`, i.e. `targetHeight / height > targetWidth / width`,
      cross-multiplied: the frame is relatively wider than the target, so its width is cut. */
  predicate WidthIsCropped(width: int, height: int, targetWidth: int, targetHeight: int)
  {
    targetHeight * width > targetWidth * height
  }

  /** The crop that `resizeFrame` cuts out of a `width x height` frame for a
      `targetWidth x targetHeight` model input, computed in exact arithmetic. In exact
      arithmetic the crop always lies inside the frame and is never empty; the source's
      `double` quotient can round up one pixel further (see `SameAspectFullFrame`). */
  function ResizeFrame(width: int, height: int, targetWidth: int, targetHeight: int): (r: CropRegion)
    requires width > 0 && height > 0 && targetWidth > 0 && targetHeight > 0
    ensures 0 <= r.x && 0 < r.w && r.x + r.w <= width
    ensures 0 <= r.y && 0 < r.h && r.y + r.h <= height
  {
    if WidthIsCropped(width, height, targetWidth, targetHeight) then
      // targetWidth / yScale == targetWidth * height / targetHeight
      var sourceWidth := CeilDiv(targetWidth * height, targetHeight);
      assert sourceWidth <= width by {
        CeilDivAtMost(targetWidth * height, targetHeight, width);
      }
      var sourcePad := TruncHalf(width - sourceWidth);
      CropRegion(sourcePad, 0, sourceWidth, height)
    else
      // targetHeight / xScale == targetHeight * width / targetWidth
      var sourceHeight := CeilDiv(targetHeight * width, targetWidth);
      assert sourceHeight <= height by {
        CeilDivAtMost(targetHeight * width, targetWidth, height);
      }
      var sourcePad := TruncHalf(height - sourceHeight);
      CropRegion(0, sourcePad, width, sourceHeight)
  }

  /** `n` is the ceiling of the real number `q`. */
  predicate IsCeiling(n: int, q: real)
  {
    (n - 1) as real < q <= n as real
  }

  /** The source's test `targetHeight / (double)height > targetWidth / (double)width`,
      read in exact arithmetic, is the integer cross-multiplication `WidthIsCropped`. */
  lemma ScaleTestExact(width: int, height: int, targetWidth: int, targetHeight: int)
    requires width > 0 && height > 0 && targetWidth > 0 && targetHeight > 0
    ensures var xScale := targetWidth as real / width as real;
            var yScale := targetHeight as real / height as real;
            yScale > xScale <==> WidthIsCropped(width, height, targetWidth, targetHeight)
  {
  }

  /** The crop length is the ceiling of the source's real-valued quotient
      `targetWidth / yScale` (width cut) or `targetHeight / xScale` (height cut). */
  lemma CropLengthIsCeiling(width: int, height: int, targetWidth: int, targetHeight: int)
    requires width > 0 && height > 0 && targetWidth > 0 && targetHeight > 0
    ensures var r := ResizeFrame(width, height, targetWidth, targetHeight);
            var xScale := targetWidth as real / width as real;
            var yScale := targetHeight as real / height as real;
            if WidthIsCropped(width, height, targetWidth, targetHeight)
            then IsCeiling(r.w, targetWidth as real / yScale)
            else IsCeiling(r.h, targetHeight as real / xScale)
  {
    if WidthIsCropped(width, height, targetWidth, targetHeight) {
      ScaledCeiling(targetWidth, targetHeight, height);
    } else {
      ScaledCeiling(targetHeight, targetWidth, width);
    }
  }

  /** `CeilDiv(t * len, s)` is the ceiling of `t / scale` for the scale factor `s / len`. */
  lemma ScaledCeiling(t: int, s: int, len: int)
    requires t > 0 && s > 0 && len > 0
    ensures IsCeiling(CeilDiv(t * len, s), t as real / (s as real / len as real))
  {
  }

  /** Exactly one axis is cut; the other is kept whole. */
  lemma OneAxisOnly(width: int, height: int, targetWidth: int, targetHeight: int)
    requires width > 0 && height > 0 && targetWidth > 0 && targetHeight > 0
    ensures var r := ResizeFrame(width, height, targetWidth, targetHeight);
            if WidthIsCropped(width, height, targetWidth, targetHeight)
            then r.y == 0 && r.h == height && r.w <= width
            else r.x == 0 && r.w == width && r.h <= height
  {
  }

  /** The crop has the target aspect ratio up to the ceiling rounding of one pixel:
      `w / height` is at least `targetWidth / targetHeight` and less than one pixel above it
      (and symmetrically when the height is cut). */
  lemma AspectWithinOnePixel(width: int, height: int, targetWidth: int, targetHeight: int)
    requires width > 0 && height > 0 && targetWidth > 0 && targetHeight > 0
    ensures var r := ResizeFrame(width, height, targetWidth, targetHeight);
            if WidthIsCropped(width, height, targetWidth, targetHeight)
            then 0 <= r.w * targetHeight - targetWidth * r.h < targetHeight
            else 0 <= r.h * targetWidth - targetHeight * r.w < targetWidth
  {
  }

  /** The crop is centred on the cut axis: the pad is the truncated half of what is cut
      away, so the margin after the crop equals the margin before it or exceeds it by one. */
  lemma Centred(width: int, height: int, targetWidth: int, targetHeight: int)
    requires width > 0 && height > 0 && targetWidth > 0 && targetHeight > 0
    ensures var r := ResizeFrame(width, height, targetWidth, targetHeight);
            r.x == (width - r.w) / 2 && r.y == (height - r.h) / 2 &&
            0 <= (width - r.x - r.w) - r.x <= 1 &&
            0 <= (height - r.y - r.h) - r.y <= 1
  {
  }

  /** A frame that already has the target aspect ratio is used whole (in exact arithmetic;
      with `double` scales a 640 x 480 frame and an 896 x 672 target give a crop length of 481). */
  lemma SameAspectFullFrame(width: int, height: int, targetWidth: int, targetHeight: int)
    requires width > 0 && height > 0 && targetWidth > 0 && targetHeight > 0
    requires targetHeight * width == targetWidth * height
    ensures ResizeFrame(width, height, targetWidth, targetHeight) == CropRegion(0, 0, width, height)
  {
  }

  /** If `a <= n * b` then `a / b` rounds up to at most `n`. */
  lemma CeilDivAtMost(a: int, b: int, n: int)
    requires a >= 0 && b > 0 && a <= n * b
    ensures CeilDiv(a, b) <= n
  {
  }
}
