/**
 * The letterbox arithmetic shared by SlideImageGenerator._resize_to_16_9
 * (src/scripts/generate_video_v2.py) and ImageConverter._resize_to_fit
 * (marp_video_generator/main.py): scale an image to fit a target canvas keeping
 * its aspect ratio, then centre it. Only the integer dimensions are modelled;
 * the ratios are compared exactly.
 */
module Letterbox {
  /** The resized size and where it is pasted on the canvas. */
  datatype Placement = Placement(newW: int, newH: int, pasteX: int, pasteY: int)

  /** Whether the image is wider than the target: `w / h > tw / th`. */
  predicate Wider(tw: int, th: int, w: int, h: int)
    requires tw > 0 && th > 0 && w > 0 && h > 0
  {
    w * th > h * tw
  }

  /** Floor division brackets its numerator. */
  lemma FloorDiv(n: int, d: int)
    requires n >= 0 && d > 0
    ensures 0 <= n / d && (n / d) * d <= n < (n / d) * d + d
  {
    assert n == d * (n / d) + n % d;
  }

  /** Scaling `c` by `b / a` when `c / d < a / b` stays below `d`, to within one unit. */
  lemma ScaleFits(a: int, b: int, c: int, d: int)
    requires a > 0 && b > 0 && c > 0 && d > 0 && c * b <= d * a
    ensures var q := c * b / a; 0 <= q <= d && q * a <= c * b < (q + 1) * a
    ensures c * b < d * a ==> c * b / a < d
  {
    var q := c * b / a;
    FloorDiv(c * b, a);
  }

  lemma MulNonNegative(a: int, b: int)
    requires a >= 0 && b >= 0
    ensures a * b >= 0
  {
  }

  /** Dividing an exact multiple gives the factor back. */
  lemma DivExact(m: int, d: int)
    requires m >= 0 && d > 0
    ensures m * d / d == m
  {
    var q := m * d / d;
    FloorDiv(m * d, d);
    if q < m {
      MulNonNegative(m - q - 1, d);
    } else if q > m {
      MulNonNegative(q - m, d);
    }
  }

  /**
   * The fitted size: a wider image takes the full width and `int(tw / ratio)` rows,
   * any other the full height and `int(th * ratio)` columns; the paste offset centres
   * it with `//`.
   */
  function Fit(tw: int, th: int, w: int, h: int): (p: Placement)
    requires tw > 0 && th > 0 && w > 0 && h > 0
    ensures Wider(tw, th, w, h) ==> p.newW == tw && 0 <= p.newH < th
    ensures !Wider(tw, th, w, h) ==> p.newH == th && 0 <= p.newW <= tw
    ensures 0 <= p.pasteX && p.pasteX + p.newW <= tw && 0 <= p.pasteY && p.pasteY + p.newH <= th
    ensures Wider(tw, th, w, h) ==> p.newH * w <= tw * h < (p.newH + 1) * w
    ensures !Wider(tw, th, w, h) ==> p.newW * h <= th * w < (p.newW + 1) * h
  {
    if Wider(tw, th, w, h) then
      ScaleFits(w, h, tw, th);
      var newH := tw * h / w;
      Placement(tw, newH, 0, (th - newH) / 2)
    else
      ScaleFits(h, w, th, tw);
      var newW := th * w / h;
      Placement(newW, th, (tw - newW) / 2, 0)
  }

  /** The margins left and right (or above and below) differ by at most one pixel. */
  lemma FitCentred(tw: int, th: int, w: int, h: int)
    requires tw > 0 && th > 0 && w > 0 && h > 0
    ensures var p := Fit(tw, th, w, h);
      0 <= (tw - p.newW - p.pasteX) - p.pasteX <= 1 && 0 <= (th - p.newH - p.pasteY) - p.pasteY <= 1
  {
  }

  /** An image already of the target's shape fills the canvas exactly. */
  lemma FitSameShape(tw: int, th: int, k: int)
    requires tw > 0 && th > 0 && k > 0
    ensures Fit(tw, th, k * tw, k * th) == Placement(tw, th, 0, 0)
  {
    var w, h := k * tw, k * th;
    assert th * w == tw * h;
    DivExact(tw, h);
  }
}
