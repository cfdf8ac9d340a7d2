/**
 * The rule both image importers use to size a freshly decoded image: fit it into the
 * 500 x 500 canvas without enlarging it and without changing its aspect ratio, then make a
 * layer whose crop window is the whole image.
 */
module Fit {
  import opened Types
  import opened RealArith

  /** Side of the square editing canvas, in CSS pixels. */
  const Canvas: real := 500.0

  /**
   * The display size of an image of intrinsic size w x h. A landscape image (ratio above 1)
   * takes the capped width and derives the height; any other takes the capped height and
   * derives the width.
   */
  function FitSize(w: real, h: real): (r: (real, real))
    requires w > 0.0 && h > 0.0
    ensures 0.0 < r.0 <= Canvas && r.0 <= w
    ensures 0.0 < r.1 <= Canvas && r.1 <= h
    ensures r.0 / r.1 == w / h
    ensures r.0 == Min(Canvas, w) || r.1 == Min(Canvas, h)
  {
    var ratio := w / h;
    var maxWidth := Min(Canvas, w);
    var maxHeight := Min(Canvas, h);
    var width := if ratio > 1.0 then maxWidth else maxHeight * ratio;
    var height := if ratio > 1.0 then maxWidth / ratio else maxHeight;
    if ratio > 1.0 then
      FitLandscape(w, h, maxWidth, height);
      (width, height)
    else
      FitPortrait(w, h, maxHeight, width);
      (width, height)
  }

  /** Width capped, height derived: both within bounds, ratio kept. */
  lemma FitLandscape(w: real, h: real, mw: real, h2: real)
    requires w > 0.0 && h > 0.0 && w / h > 1.0
    requires 0.0 < mw <= Canvas && mw <= w
    requires h2 == mw / (w / h)
    ensures 0.0 < h2 <= Canvas && h2 <= h && mw / h2 == w / h
  {
    var k := w / h;
    DivMulCancel(w, h);                      // k * h == w
    assert h2 * k == mw by { DivMulCancel(mw, k); }
    assert h2 < mw by { ShrinkByFactor(h2, k, mw); }
    assert h2 <= h by { ScaleMonotone(h2, h, k, mw, w); }
    QuotientOfProduct(mw, h2, k);
  }

  /** Height capped, width derived: both within bounds, ratio kept. */
  lemma FitPortrait(w: real, h: real, mh: real, w2: real)
    requires w > 0.0 && h > 0.0 && w / h <= 1.0
    requires 0.0 < mh <= Canvas && mh <= h
    requires w2 == mh * (w / h)
    ensures 0.0 < w2 <= Canvas && w2 <= w && w2 / mh == w / h
  {
    var k := w / h;
    DivMulCancel(w, h);
    assert 0.0 < k;
    assert w2 <= mh;
    assert w2 <= w by { assert (h - mh) * k >= 0.0; }
    QuotientOfProduct(w2, mh, k);
  }

  /** a * k == b with k above 1 and b positive makes a positive and smaller than b. */
  lemma ShrinkByFactor(a: real, k: real, b: real)
    requires k > 1.0 && b > 0.0 && a * k == b
    ensures 0.0 < a < b
  {
    PositiveFactor(a, k);
    assert b - a == a * (k - 1.0);
  }

  /** A product with a positive factor has the sign of the other factor. */
  lemma PositiveFactor(a: real, k: real)
    requires k > 0.0
    ensures a * k > 0.0 ==> a > 0.0
    ensures a * k >= 0.0 ==> a >= 0.0
  {
    if a < 0.0 {
      assert (-a) * k > 0.0;
    }
  }

  /** a * k == b, h * k == w and b <= w with k positive give a <= h. */
  lemma ScaleMonotone(a: real, h: real, k: real, b: real, w: real)
    requires k > 0.0 && a * k == b && h * k == w && b <= w
    ensures a <= h
  {
    assert (h - a) * k == w - b;
    PositiveFactor(h - a, k);
  }

  /**
   * A layer showing the whole of an image of intrinsic size w x h at its fitted size, with
   * its top-left corner at (left, top) and no rotation.
   */
  function FittedLayer(id: string, content: string, w: real, h: real, top: real, left: real): (l: Layer)
    requires w > 0.0 && h > 0.0
    ensures l.id == id && l.content == content && l.top == top && l.left == left && l.rotation == 0.0
    ensures Positive(l) && WindowInside(l)
    ensures l.srcWidth == w && l.srcHeight == h
    ensures l.croppedLeft == 0.0 && l.croppedTop == 0.0 && l.croppedWidth == w && l.croppedHeight == h
    ensures (l.width, l.height) == FitSize(w, h)
    ensures MaxWidth(l) == l.width && MaxHeight(l) == l.height
    ensures CornerLeft(l) == left && CornerTop(l) == top
  {
    var size := FitSize(w, h);
    var l := Layer(id, size.0, size.1, 0.0, content, top, left, w, h, 0.0, 0.0, w, h);
    DivMulCancel(size.0, w);
    DivMulCancel(size.1, h);
    Regroup(w, w, size.0);
    Regroup(h, h, size.1);
    l
  }

  /** The fitted layer placed so that its centre is the centre of the canvas. */
  function CenteredLayer(id: string, content: string, w: real, h: real): (l: Layer)
    requires w > 0.0 && h > 0.0
    ensures l == FittedLayer(id, content, w, h, l.top, l.left)
    ensures l.top + l.height / 2.0 == Canvas / 2.0 && l.left + l.width / 2.0 == Canvas / 2.0
    ensures 0.0 <= l.top && l.top + l.height <= Canvas && 0.0 <= l.left && l.left + l.width <= Canvas
  {
    var size := FitSize(w, h);
    FittedLayer(id, content, w, h, 250.0 - size.1 / 2.0, 250.0 - size.0 / 2.0)
  }
}
