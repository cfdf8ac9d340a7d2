/**
 * How a layer's box paints its image (src/components/editor/Image.tsx): the whole image is
 * scaled to its projected size and shifted so that only the crop window falls inside the box.
 */
module Display {
  import opened Types
  import opened Transform

  /**
   * The CSS background of the layer's box. An offset is `None` when the generated
   * declaration is not a valid length: the source writes a minus sign in front of the
   * number, so a negative number yields a double minus, the declaration is dropped, and the
   * background keeps its initial position 0.
   */
  datatype Background = Background(width: real, height: real, offsetX: Option<real>, offsetY: Option<real>)

  /** The text `-${v}px` read back as a length. */
  function NegatedOffset(v: real): (r: Option<real>)
    ensures r.Some? <==> v >= 0.0
    ensures r.Some? ==> r.value == -v
  {
    if v >= 0.0 then Some(-v) else None
  }

  /** The position CSS uses for an offset: the dropped declaration falls back to 0. */
  function Used(o: Option<real>): real
  {
    if o.Some? then o.value else 0.0
  }

  function BackgroundOf(l: Layer): (b: Background)
    requires l.croppedWidth != 0.0 && l.croppedHeight != 0.0
    ensures b.width == MaxWidth(l) && b.height == MaxHeight(l)
    ensures b.offsetX.Some? <==> l.croppedLeft / l.croppedWidth * l.width >= 0.0
    ensures b.offsetY.Some? <==> l.croppedTop / l.croppedHeight * l.height >= 0.0
    ensures b.offsetX.Some? ==> l.left + b.offsetX.value == CornerLeft(l)
    ensures b.offsetY.Some? ==> l.top + b.offsetY.value == CornerTop(l)
  {
    Background(l.srcWidth / l.croppedWidth * l.width, l.srcHeight / l.croppedHeight * l.height,
               NegatedOffset(l.croppedLeft / l.croppedWidth * l.width),
               NegatedOffset(l.croppedTop / l.croppedHeight * l.height))
  }

  /** Where on the canvas the image's top-left corner is painted, and at what size. */
  function Painted(l: Layer): (real, real, real, real)
    requires l.croppedWidth != 0.0 && l.croppedHeight != 0.0
  {
    var b := BackgroundOf(l);
    (l.left + Used(b.offsetX), l.top + Used(b.offsetY), b.width, b.height)
  }

  /**
   * With the crop window at the image's origin (as every new layer has it) the offsets
   * are valid and zero, and a window covering the whole image paints the image at exactly
   * the box size.
   */
  lemma FullWindowFillsBox(l: Layer)
    requires l.croppedLeft == 0.0 && l.croppedTop == 0.0
    requires l.croppedWidth == l.srcWidth && l.croppedHeight == l.srcHeight
    requires l.srcWidth != 0.0 && l.srcHeight != 0.0
    ensures BackgroundOf(l) == Background(l.width, l.height, Some(0.0), Some(0.0))
  {
  }

  /** Both offsets are valid lengths, as they are while the crop window starts inside the image. */
  predicate OffsetsValid(l: Layer)
  {
    l.croppedWidth != 0.0 && l.croppedHeight != 0.0
    && l.croppedLeft / l.croppedWidth * l.width >= 0.0 && l.croppedTop / l.croppedHeight * l.height >= 0.0
  }

  /**
   * With valid offsets the image is painted with its top-left corner at the layer's image
   * corner and at its full projected size.
   */
  lemma PaintedAtCorner(l: Layer)
    requires OffsetsValid(l)
    ensures Painted(l) == (CornerLeft(l), CornerTop(l), MaxWidth(l), MaxHeight(l))
  {
  }

  /**
   * A crop-handle drag that keeps both offsets valid leaves the painted image where it was
   * and at the same size: only the visible part changes.
   */
  lemma CropKeepsPaintedImage(l: Layer, dx0: real, dy0: real, c: Corner, cos: real, sin: real, r: Layer)
    requires CropDefined(l) && l.srcWidth != 0.0 && l.srcHeight != 0.0
    requires r == Merge(l, CropLayer(l, dx0, dy0, c, cos, sin))
    requires OffsetsValid(l) && OffsetsValid(r)
    ensures Painted(r) == Painted(l)
  {
    CropKeepsImageFixed(l, dx0, dy0, c, cos, sin);
    PaintedAtCorner(l);
    PaintedAtCorner(r);
  }

  /** The same for a crop-window pan that neither clamp limits. */
  lemma PanKeepsPaintedImage(l: Layer, dx: real, dy: real, r: Layer)
    requires CropDefined(l) && l.srcWidth != 0.0 && l.srcHeight != 0.0
    requires 0.0 <= l.croppedLeft + dx / MaxWidth(l) * l.srcWidth <= l.srcWidth - l.croppedWidth
    requires 0.0 <= l.croppedTop + dy / MaxHeight(l) * l.srcHeight <= l.srcHeight - l.croppedHeight
    requires CornerLeft(l) <= l.left + dx <= CornerLeft(l) + MaxWidth(l) - l.width
    requires CornerTop(l) <= l.top + dy <= CornerTop(l) + MaxHeight(l) - l.height
    requires r == Merge(l, CropTranslate(l, dx, dy))
    requires OffsetsValid(l) && OffsetsValid(r)
    ensures Painted(r) == Painted(l)
  {
    CropTranslateKeepsImageFixed(l, dx, dy);
    assert r.width == l.width && r.height == l.height;
    assert r.croppedWidth == l.croppedWidth && r.croppedHeight == l.croppedHeight;
    assert MaxWidth(r) == MaxWidth(l) && MaxHeight(r) == MaxHeight(l);
    PaintedAtCorner(l);
    PaintedAtCorner(r);
  }

  /**
   * When a crop drag moves the window origin below zero (see Transform.CropCanLeaveImage)
   * the horizontal offset declaration becomes invalid and the painted image jumps to the
   * box's left edge, away from where the image was.
   */
  lemma NegativeOriginMovesPaintedImage()
    ensures var l := Layer("a", 100.0, 100.0, 0.0, "", 0.0, 0.0, 1000.0, 500.0, 0.0, 0.0, 500.0, 500.0);
            var r := Layer("a", 150.0, 100.0, 0.0, "", 0.0, -50.0, 1000.0, 500.0, 0.0, -250.0, 750.0, 500.0);
            r == Merge(l, CropLayer(l, -50.0, 0.0, TL, 1.0, 0.0))
            && BackgroundOf(r).offsetX == None && Painted(r).0 != Painted(l).0
  {
    var l := Layer("a", 100.0, 100.0, 0.0, "", 0.0, 0.0, 1000.0, 500.0, 0.0, 0.0, 500.0, 500.0);
    var p := CropLayer(l, -50.0, 0.0, TL, 1.0, 0.0);
    assert MaxWidth(l) == 200.0 && MaxHeight(l) == 100.0;
    assert p.width == Some(150.0) && p.left == Some(-50.0);
    assert p.croppedWidth == Some(750.0) && p.croppedLeft == Some(-250.0);
    assert p.height == Some(100.0) && p.croppedHeight == Some(500.0);
    var r := Layer("a", 150.0, 100.0, 0.0, "", 0.0, -50.0, 1000.0, 500.0, 0.0, -250.0, 750.0, 500.0);
    assert r.croppedLeft / r.croppedWidth * r.width == -50.0;
  }
}
