/**
 * The transform engine of src/utils.ts: each operation takes the current layer and one
 * pointer step and returns a partial patch of new geometry, which the caller spreads over
 * the layer (`{...prev, ...patch}`).
 */
module Transform {
  import opened Types
  import opened RealArith

  /** The geometry fields a patch may carry. */
  datatype Field = Top | Left | Width | Height | Rotation | CroppedTop | CroppedLeft | CroppedWidth | CroppedHeight

  /** `Partial<Layer>` restricted to the geometry fields: `None` is an absent key. */
  datatype Patch = Patch(
    top: Option<real>,
    left: Option<real>,
    width: Option<real>,
    height: Option<real>,
    rotation: Option<real>,
    croppedTop: Option<real>,
    croppedLeft: Option<real>,
    croppedWidth: Option<real>,
    croppedHeight: Option<real>)

  const NoChange: Patch := Patch(None, None, None, None, None, None, None, None, None)

  /** The pointer's bounding rectangle, as `getBoundingClientRect` reports it. */
  datatype Rect = Rect(left: real, top: real, right: real, bottom: real)

  function FieldValue(l: Layer, f: Field): real
  {
    match f
    case Top => l.top
    case Left => l.left
    case Width => l.width
    case Height => l.height
    case Rotation => l.rotation
    case CroppedTop => l.croppedTop
    case CroppedLeft => l.croppedLeft
    case CroppedWidth => l.croppedWidth
    case CroppedHeight => l.croppedHeight
  }

  function PatchValue(p: Patch, f: Field): Option<real>
  {
    match f
    case Top => p.top
    case Left => p.left
    case Width => p.width
    case Height => p.height
    case Rotation => p.rotation
    case CroppedTop => p.croppedTop
    case CroppedLeft => p.croppedLeft
    case CroppedWidth => p.croppedWidth
    case CroppedHeight => p.croppedHeight
  }

  /** The keys present in a patch. */
  function Fields(p: Patch): set<Field>
  {
    set f: Field | f in {Top, Left, Width, Height, Rotation, CroppedTop, CroppedLeft, CroppedWidth, CroppedHeight}
                   && PatchValue(p, f).Some?
  }

  function Or(o: Option<real>, otherwise: real): real
  {
    if o.Some? then o.value else otherwise
  }

  /**
   * Object spread `{...l, ...p}`: every field present in the patch takes the patch's value,
   * every other field keeps the layer's, and the identity, content and intrinsic size are
   * never touched.
   */
  function Merge(l: Layer, p: Patch): (r: Layer)
    ensures forall f :: FieldValue(r, f) == if f in Fields(p) then PatchValue(p, f).value else FieldValue(l, f)
    ensures r.id == l.id && r.content == l.content && r.srcWidth == l.srcWidth && r.srcHeight == l.srcHeight
  {
    l.(top := Or(p.top, l.top), left := Or(p.left, l.left), width := Or(p.width, l.width),
       height := Or(p.height, l.height), rotation := Or(p.rotation, l.rotation),
       croppedTop := Or(p.croppedTop, l.croppedTop), croppedLeft := Or(p.croppedLeft, l.croppedLeft),
       croppedWidth := Or(p.croppedWidth, l.croppedWidth), croppedHeight := Or(p.croppedHeight, l.croppedHeight))
  }

  // ---------------------------------------------------------------- translate

  /** Moves the display box by the pointer step. */
  function TranslateLayer(l: Layer, dx: real, dy: real): (r: Patch)
    ensures Fields(r) == {Top, Left}
    ensures Merge(l, r).top - l.top == dy && Merge(l, r).left - l.left == dx
  {
    NoChange.(top := Some(l.top + dy), left := Some(l.left + dx))
  }

  /** Two successive translation steps equal one step by the summed deltas. */
  lemma TranslateComposes(l: Layer, dx1: real, dy1: real, dx2: real, dy2: real)
    ensures var m := Merge(l, TranslateLayer(l, dx1, dy1));
            Merge(m, TranslateLayer(m, dx2, dy2)) == Merge(l, TranslateLayer(l, dx1 + dx2, dy1 + dy2))
  {
  }

  // ---------------------------------------------------------------- rotate

  /**
   * Sets the absolute rotation from the pointer's angle around the centre of the box's
   * bounding rectangle. `atan2Deg(y, x)` stands for `Math.atan2(y, x) * 180 / Math.PI`.
   */
  function RotateLayer(rect: Rect, clientX: real, clientY: real, atan2Deg: (real, real) -> real): (r: Patch)
    ensures Fields(r) == {Rotation}
  {
    var centerX := (rect.left + rect.right) / 2.0;
    var centerY := (rect.top + rect.bottom) / 2.0;
    NoChange.(rotation := Some(atan2Deg(clientY - centerY, clientX - centerX) + 90.0))
  }

  /**
   * With the pointer straight above the centre (where atan2 gives -90 degrees) the rotation
   * is 0: the `+ 90` turns atan2's angle into one measured from "up". The first clause only
   * records that the rotation is absolute (the patch never reads the layer, so repeating a
   * step at the same pointer position changes nothing); the second carries the content.
   */
  lemma RotateIsAbsolute(l: Layer, rect: Rect, clientX: real, clientY: real, atan2Deg: (real, real) -> real)
    requires forall y: real :: y < 0.0 ==> atan2Deg(y, 0.0) == -90.0
    ensures var m := Merge(l, RotateLayer(rect, clientX, clientY, atan2Deg));
            Merge(m, RotateLayer(rect, clientX, clientY, atan2Deg)) == m
    ensures clientX == (rect.left + rect.right) / 2.0 && clientY < (rect.top + rect.bottom) / 2.0 ==>
            Merge(l, RotateLayer(rect, clientX, clientY, atan2Deg)).rotation == 0.0
  {
    var centerY := (rect.top + rect.bottom) / 2.0;
    if clientX == (rect.left + rect.right) / 2.0 && clientY < centerY {
      assert atan2Deg(clientY - centerY, 0.0) == -90.0;
    }
  }

  // ---------------------------------------------------------------- resize

  /** Sign normalisation of a handle's horizontal step: positive means "away from the anchor". */
  function SignedDx(c: Corner, dx: real): real { if KeepsDx(c) then dx else -dx }

  /** Sign normalisation of a handle's vertical step. */
  function SignedDy(c: Corner, dy: real): real { if KeepsDy(c) then dy else -dy }

  /**
   * Aspect-preserving resize from corner `c`: the larger-magnitude normalised step drives
   * the size (ties go to the height) and the diagonally opposite corner stays where it was.
   */
  function ResizeLayer(l: Layer, dx0: real, dy0: real, c: Corner): (r: Patch)
    requires l.width != 0.0 && l.height != 0.0
    ensures Fields(r) == {Top, Left, Width, Height}
    ensures Abs(SignedDx(c, dx0)) > Abs(SignedDy(c, dy0)) ==> r.width.value == l.width + SignedDx(c, dx0)
    ensures Abs(SignedDx(c, dx0)) <= Abs(SignedDy(c, dy0)) ==> r.height.value == l.height + SignedDy(c, dy0)
    ensures KeepsDy(c) ==> r.top.value == l.top
    ensures !KeepsDy(c) ==> r.top.value + r.height.value == l.top + l.height
    ensures KeepsDx(c) ==> r.left.value == l.left
    ensures !KeepsDx(c) ==> r.left.value + r.width.value == l.left + l.width
  {
    var size := ResizeSize(l.width, l.height, SignedDx(c, dx0), SignedDy(c, dy0));
    var width := size.0;
    var height := size.1;
    var top := if KeepsDy(c) then l.top else l.top - height + l.height;
    var left := if KeepsDx(c) then l.left else l.left - width + l.width;
    NoChange.(width := Some(width), height := Some(height), top := Some(top), left := Some(left))
  }

  /**
   * The new size of a resize of a `w` by `h` box by the normalised steps `dx`, `dy`: the
   * larger-magnitude step drives its own axis and the other axis follows the old ratio.
   */
  function ResizeSize(w: real, h: real, dx: real, dy: real): (r: (real, real))
    requires w != 0.0 && h != 0.0
    ensures Abs(dx) > Abs(dy) ==> r.0 == w + dx
    ensures Abs(dx) <= Abs(dy) ==> r.1 == h + dy
    ensures r.0 == r.1 * (w / h)
    ensures r.1 != 0.0 ==> r.0 / r.1 == w / h
  {
    var ratio := w / h;
    NonzeroQuotient(w, h);
    if Abs(dx) > Abs(dy) then
      var height := (w + dx) / ratio;
      DivMulCancel(w + dx, ratio);
      KeepsRatio(w + dx, height, ratio);
      (w + dx, height)
    else
      KeepsRatio((h + dy) * ratio, h + dy, ratio);
      ((h + dy) * ratio, h + dy)
  }

  /**
   * Resizing keeps the width/height ratio: the new width is always the new height times the
   * old ratio, so the quotient is the old ratio whenever the new height is nonzero.
   */
  lemma ResizeKeepsAspect(l: Layer, dx0: real, dy0: real, c: Corner)
    requires l.width != 0.0 && l.height != 0.0
    ensures var r := Merge(l, ResizeLayer(l, dx0, dy0, c));
            r.width == r.height * (l.width / l.height)
    ensures var r := Merge(l, ResizeLayer(l, dx0, dy0, c));
            r.height != 0.0 ==> r.width / r.height == l.width / l.height
  {
    var p := ResizeLayer(l, dx0, dy0, c);
    assert Merge(l, p).width == p.width.value && Merge(l, p).height == p.height.value;
    assert p.width.value == p.height.value * (l.width / l.height);
  }

  /** No clamp: a single inward step larger than the box makes its width negative. */
  lemma ResizeCanInvert()
    ensures var l := Layer("a", 100.0, 100.0, 0.0, "", 0.0, 0.0, 100.0, 100.0, 0.0, 0.0, 100.0, 100.0);
            Merge(l, ResizeLayer(l, -150.0, 0.0, BR)).width < 0.0
  {
    var l := Layer("a", 100.0, 100.0, 0.0, "", 0.0, 0.0, 100.0, 100.0, 0.0, 0.0, 100.0, 100.0);
    assert ResizeLayer(l, -150.0, 0.0, BR).width == Some(-50.0);
  }

  // ---------------------------------------------------------------- crop resize

  /**
   * Maps a normalised handle step into the layer's frame with the cosine and sine of its
   * rotation, using the source's formula: both second terms are added, so this is not an
   * inverse rotation.
   */
  function LocalDelta(a: real, b: real, cos: real, sin: real): (real, real)
  {
    (a * cos + b * sin, b * cos + a * sin)
  }

  /**
   * At rotation 0 the mapping is the identity; at 45 degrees (cos = sin) a step along the
   * anti-diagonal is mapped to no movement at all, which no rotation would do.
   */
  lemma LocalDeltaFacts(a: real, b: real, cos: real, sin: real)
    ensures LocalDelta(a, b, 1.0, 0.0) == (a, b)
    ensures cos == sin ==> LocalDelta(a, -a, cos, sin) == (0.0, 0.0)
  {
    assert a * 1.0 + b * 0.0 == a && b * 1.0 + a * 0.0 == b;
    if cos == sin {
      var d := LocalDelta(a, -a, cos, sin);
      assert (-a) * sin == -(a * sin) && (-a) * cos == -(a * cos);
      assert d.0 == a * cos - a * sin == 0.0;
      assert d.1 == a * sin - a * cos == 0.0;
    }
  }

  /** Every divisor the crop formulas use is nonzero. */
  predicate CropDefined(l: Layer)
  {
    l.croppedWidth != 0.0 && l.croppedHeight != 0.0 && MaxWidth(l) != 0.0 && MaxHeight(l) != 0.0
  }

  /**
   * Crop-handle drag: the display box and the crop window shrink or grow together, the box
   * within [1, full projected size], and the corner opposite the handle stays fixed both on
   * the canvas and in the crop window. `cos`/`sin` are those of the layer's rotation.
   * How the new size follows the pointer is stated by CropFollowsPointer and CropWindowShare.
   */
  function CropLayer(l: Layer, dx0: real, dy0: real, c: Corner, cos: real, sin: real): (r: Patch)
    requires CropDefined(l)
    ensures Fields(r) == {Top, Left, Width, Height, CroppedTop, CroppedLeft, CroppedWidth, CroppedHeight}
    ensures MaxWidth(l) >= 1.0 ==> 1.0 <= r.width.value <= MaxWidth(l)
    ensures MaxHeight(l) >= 1.0 ==> 1.0 <= r.height.value <= MaxHeight(l)
    ensures MaxWidth(l) > 0.0 ==> 0.0 < r.width.value <= MaxWidth(l)
    ensures MaxHeight(l) > 0.0 ==> 0.0 < r.height.value <= MaxHeight(l)
    ensures KeepsDy(c) ==> r.croppedTop.value == l.croppedTop && r.top.value == l.top
    ensures !KeepsDy(c) ==> r.croppedTop.value + r.croppedHeight.value == l.croppedTop + l.croppedHeight
                            && r.top.value + r.height.value == l.top + l.height
    ensures KeepsDx(c) ==> r.croppedLeft.value == l.croppedLeft && r.left.value == l.left
    ensures !KeepsDx(c) ==> r.croppedLeft.value + r.croppedWidth.value == l.croppedLeft + l.croppedWidth
                            && r.left.value + r.width.value == l.left + l.width
  {
    var d := LocalDelta(SignedDx(c, dx0), SignedDy(c, dy0), cos, sin);
    var maxWidth := MaxWidth(l);
    var maxHeight := MaxHeight(l);
    var width := Min(maxWidth, Max(1.0, l.width + d.0));
    var height := Min(maxHeight, Max(1.0, l.height + d.1));
    var croppedWidth := width / maxWidth * l.srcWidth;
    var croppedHeight := height / maxHeight * l.srcHeight;
    var croppedTop := if KeepsDy(c) then l.croppedTop else l.croppedTop - croppedHeight + l.croppedHeight;
    var croppedLeft := if KeepsDx(c) then l.croppedLeft else l.croppedLeft - croppedWidth + l.croppedWidth;
    var top := if KeepsDy(c) then l.top else l.top - height + l.height;
    var left := if KeepsDx(c) then l.left else l.left - width + l.width;
    Patch(Some(top), Some(left), Some(width), Some(height), None,
          Some(croppedTop), Some(croppedLeft), Some(croppedWidth), Some(croppedHeight))
  }

  /**
   * The crop box follows the pointer: its new width is the old width plus the horizontal
   * component of the mapped handle step, clamped to [1, full projected width], and likewise
   * the height; the window takes the same share of the intrinsic size as the box takes of
   * the projected size.
   */
  lemma CropFollowsPointer(l: Layer, dx0: real, dy0: real, c: Corner, cos: real, sin: real)
    requires CropDefined(l)
    ensures var r := CropLayer(l, dx0, dy0, c, cos, sin);
            var d := LocalDelta(SignedDx(c, dx0), SignedDy(c, dy0), cos, sin);
            (1.0 <= l.width + d.0 <= MaxWidth(l) ==> r.width.value == l.width + d.0)
            && (l.width + d.0 < 1.0 <= MaxWidth(l) ==> r.width.value == 1.0)
            && (l.width + d.0 > MaxWidth(l) ==> r.width.value == MaxWidth(l))
    ensures var r := CropLayer(l, dx0, dy0, c, cos, sin);
            var d := LocalDelta(SignedDx(c, dx0), SignedDy(c, dy0), cos, sin);
            (1.0 <= l.height + d.1 <= MaxHeight(l) ==> r.height.value == l.height + d.1)
            && (l.height + d.1 < 1.0 <= MaxHeight(l) ==> r.height.value == 1.0)
            && (l.height + d.1 > MaxHeight(l) ==> r.height.value == MaxHeight(l))
  {
  }

  /**
   * The window takes the same share of the intrinsic size as the new box takes of the
   * full projected size.
   */
  lemma CropWindowShare(l: Layer, dx0: real, dy0: real, c: Corner, cos: real, sin: real)
    requires CropDefined(l)
    ensures var r := CropLayer(l, dx0, dy0, c, cos, sin);
            r.croppedWidth.value == r.width.value / MaxWidth(l) * l.srcWidth
            && r.croppedHeight.value == r.height.value / MaxHeight(l) * l.srcHeight
  {
  }

  /** The new crop window size lies in (0, intrinsic size]. */
  lemma CropWindowSize(l: Layer, dx0: real, dy0: real, c: Corner, cos: real, sin: real)
    requires CropDefined(l) && l.srcWidth > 0.0 && l.srcHeight > 0.0 && MaxWidth(l) > 0.0 && MaxHeight(l) > 0.0
    ensures var r := Merge(l, CropLayer(l, dx0, dy0, c, cos, sin));
            0.0 < r.croppedWidth <= l.srcWidth && 0.0 < r.croppedHeight <= l.srcHeight
  {
    var p := CropLayer(l, dx0, dy0, c, cos, sin);
    CropWindowShare(l, dx0, dy0, c, cos, sin);
    ScaledFraction(p.width.value, MaxWidth(l), l.srcWidth);
    ScaledFraction(p.height.value, MaxHeight(l), l.srcHeight);
    assert Merge(l, p).croppedWidth == p.croppedWidth.value && Merge(l, p).croppedHeight == p.croppedHeight.value;
  }

  /** The box drawn by the crop formulas never has zero size. */
  lemma ClampNonzero(max: real, v: real)
    requires max != 0.0
    ensures Min(max, Max(1.0, v)) != 0.0
  {
  }

  /**
   * One axis of a crop resize, on bare numbers: intrinsic size s, window c, display size w
   * (projected size s / c * w); new display size w2 and window c2 = w2 / (s / c * w) * s;
   * the window origin o and box position pos either stay or move by the change in window
   * and box size. The projected size and the position of the uncropped edge do not change.
   */
  lemma CropAxis(s: real, c: real, w: real, w2: real, c2: real, o: real, pos: real, o2: real, pos2: real)
    requires s != 0.0 && c != 0.0 && s / c * w != 0.0 && w2 != 0.0
    requires c2 == w2 / (s / c * w) * s
    requires (o2 == o && pos2 == pos) || (o2 == o - c2 + c && pos2 == pos - w2 + w)
    ensures c2 != 0.0 && s / c2 * w2 == s / c * w && pos2 - o2 / c2 * w2 == pos - o / c * w
  {
    var k := w / c;
    NonzeroFactor(s, c, w);
    NonzeroQuotient(w, c);
    Regroup(s, c, w);              // the projected size is s * k
    CancelFactor(w2, s, k);        // c2 == w2 / k
    NonzeroQuotient(w2, k);
    MulOfQuotient(k, w2);
    QuotientOfProduct(w2, c2, k);  // the new window has the same scale k
    Regroup(s, c2, w2);
    Regroup(o2, c2, w2);
    Regroup(o, c, w);
    MulOfQuotient(c, w);
    Distribute(o, c2, c, k);
  }

  /**
   * Crop resizing keeps the full projected image where it was: its size
   * (intrinsic / window * display) and the canvas position of its uncropped corner.
   */
  lemma CropKeepsImageFixed(l: Layer, dx0: real, dy0: real, c: Corner, cos: real, sin: real)
    requires CropDefined(l) && l.srcWidth != 0.0 && l.srcHeight != 0.0
    ensures var r := Merge(l, CropLayer(l, dx0, dy0, c, cos, sin));
            r.croppedWidth != 0.0 && r.croppedHeight != 0.0
            && MaxWidth(r) == MaxWidth(l) && MaxHeight(r) == MaxHeight(l)
            && CornerTop(r) == CornerTop(l) && CornerLeft(r) == CornerLeft(l)
  {
    var p := CropLayer(l, dx0, dy0, c, cos, sin);
    var r := Merge(l, p);
    var d := LocalDelta(SignedDx(c, dx0), SignedDy(c, dy0), cos, sin);
    assert r.width == p.width.value && r.croppedWidth == p.croppedWidth.value;
    assert r.croppedLeft == p.croppedLeft.value && r.left == p.left.value;
    assert r.height == p.height.value && r.croppedHeight == p.croppedHeight.value;
    assert r.croppedTop == p.croppedTop.value && r.top == p.top.value;
    ClampNonzero(MaxWidth(l), l.width + d.0);
    ClampNonzero(MaxHeight(l), l.height + d.1);
    CropKeepsLeftEdge(l, r);
    CropKeepsTopEdge(l, r);
  }

  /** CropAxis on the horizontal axis, stated on the layer before and after a crop resize. */
  lemma CropKeepsLeftEdge(l: Layer, r: Layer)
    requires CropDefined(l) && l.srcWidth != 0.0 && r.srcWidth == l.srcWidth
    requires r.width != 0.0 && r.croppedWidth == r.width / MaxWidth(l) * l.srcWidth
    requires (r.croppedLeft == l.croppedLeft && r.left == l.left)
          || (r.croppedLeft == l.croppedLeft - r.croppedWidth + l.croppedWidth && r.left == l.left - r.width + l.width)
    ensures r.croppedWidth != 0.0 && MaxWidth(r) == MaxWidth(l) && CornerLeft(r) == CornerLeft(l)
  {
    CropAxis(l.srcWidth, l.croppedWidth, l.width, r.width, r.croppedWidth, l.croppedLeft, l.left, r.croppedLeft, r.left);
  }

  /** CropAxis on the vertical axis. */
  lemma CropKeepsTopEdge(l: Layer, r: Layer)
    requires CropDefined(l) && l.srcHeight != 0.0 && r.srcHeight == l.srcHeight
    requires r.height != 0.0 && r.croppedHeight == r.height / MaxHeight(l) * l.srcHeight
    requires (r.croppedTop == l.croppedTop && r.top == l.top)
          || (r.croppedTop == l.croppedTop - r.croppedHeight + l.croppedHeight && r.top == l.top - r.height + l.height)
    ensures r.croppedHeight != 0.0 && MaxHeight(r) == MaxHeight(l) && CornerTop(r) == CornerTop(l)
  {
    CropAxis(l.srcHeight, l.croppedHeight, l.height, r.height, r.croppedHeight, l.croppedTop, l.top, r.croppedTop, r.top);
  }

  /**
   * The crop origin is not clamped: growing a window that starts at the image's left edge
   * from a left-hand handle moves its origin past that edge, although the window was inside
   * the image.
   */
  lemma CropCanLeaveImage(l: Layer, dx0: real)
    requires CropDefined(l) && WindowInside(l) && l.croppedLeft == 0.0
    requires l.srcWidth > 0.0 && l.croppedWidth > 0.0 && l.width > 0.0
    requires dx0 < 0.0 && 1.0 <= l.width - dx0 <= MaxWidth(l)
    ensures Merge(l, CropLayer(l, dx0, 0.0, TL, 1.0, 0.0)).croppedLeft < 0.0
  {
    var p := CropLayer(l, dx0, 0.0, TL, 1.0, 0.0);
    LocalDeltaFacts(SignedDx(TL, dx0), SignedDy(TL, 0.0), 1.0, 0.0);
    CropFollowsPointer(l, dx0, 0.0, TL, 1.0, 0.0);
    CropWindowShare(l, dx0, 0.0, TL, 1.0, 0.0);
    assert p.width.value == l.width - dx0 > l.width;
    assert p.croppedWidth.value == p.width.value / MaxWidth(l) * l.srcWidth;
    WiderWindow(l.srcWidth, l.croppedWidth, l.width, p.width.value);
    assert !KeepsDx(TL);
    assert Merge(l, p).croppedLeft == p.croppedLeft.value == l.croppedLeft - p.croppedWidth.value + l.croppedWidth;
  }

  /**
   * On bare numbers: with intrinsic size s, window c and display size w, a wider display
   * size w2 takes a wider window w2 / (s / c * w) * s.
   */
  lemma WiderWindow(s: real, c: real, w: real, w2: real)
    requires s > 0.0 && c > 0.0 && w > 0.0 && w2 > w
    ensures w2 / (s / c * w) * s > c
  {
    var k := w / c;
    NonzeroQuotient(w, c);
    Regroup(s, c, w);              // the projected size is s * k
    CancelFactor(w, s, k);
    MulOfQuotient(c, w);
    QuotientOfProduct(w, k, c);    // w / k == c
    assert w / (s / c * w) * s == c;
    ScaleStrict(w, w2, s / c * w, s);
  }

  // ---------------------------------------------------------------- crop translate

  /**
   * Pans the crop window under a fixed display size. The window origin is clamped into
   * [0, intrinsic - window] and the box into the uncropped image's projected bounds.
   * How the unclamped pan follows the pointer is stated by PanFollowsPointer.
   */
  function CropTranslate(l: Layer, dx: real, dy: real): (r: Patch)
    requires CropDefined(l)
    ensures Fields(r) == {Top, Left, CroppedLeft, CroppedTop}
    ensures r.croppedLeft.value >= 0.0 && r.croppedTop.value >= 0.0
    ensures l.srcWidth - l.croppedWidth >= 0.0 ==> r.croppedLeft.value <= l.srcWidth - l.croppedWidth
    ensures l.srcHeight - l.croppedHeight >= 0.0 ==> r.croppedTop.value <= l.srcHeight - l.croppedHeight
    ensures r.top.value >= CornerTop(l) && r.left.value >= CornerLeft(l)
    ensures MaxHeight(l) >= l.height ==> r.top.value <= CornerTop(l) + MaxHeight(l) - l.height
    ensures MaxWidth(l) >= l.width ==> r.left.value <= CornerLeft(l) + MaxWidth(l) - l.width
  {
    var maxWidth := MaxWidth(l);
    var maxHeight := MaxHeight(l);
    var croppedLeft := Max(0.0, Min(l.croppedLeft + dx / maxWidth * l.srcWidth, l.srcWidth - l.croppedWidth));
    var croppedTop := Max(0.0, Min(l.croppedTop + dy / maxHeight * l.srcHeight, l.srcHeight - l.croppedHeight));
    var cornerTop := CornerTop(l);
    var cornerLeft := CornerLeft(l);
    NoChange.(top := Some(Max(cornerTop, Min(l.top + dy, cornerTop + maxHeight - l.height))),
              left := Some(Max(cornerLeft, Min(l.left + dx, cornerLeft + maxWidth - l.width))),
              croppedLeft := Some(croppedLeft),
              croppedTop := Some(croppedTop))
  }

  /**
   * The pan follows the pointer: where no clamp bites, the box moves by exactly the step
   * and the window origin by the step scaled from projected to intrinsic pixels.
   */
  lemma PanFollowsPointer(l: Layer, dx: real, dy: real)
    requires CropDefined(l)
    ensures var r := CropTranslate(l, dx, dy);
            (0.0 <= l.croppedLeft + dx / MaxWidth(l) * l.srcWidth <= l.srcWidth - l.croppedWidth ==>
               r.croppedLeft.value == l.croppedLeft + dx / MaxWidth(l) * l.srcWidth)
            && (0.0 <= l.croppedTop + dy / MaxHeight(l) * l.srcHeight <= l.srcHeight - l.croppedHeight ==>
               r.croppedTop.value == l.croppedTop + dy / MaxHeight(l) * l.srcHeight)
    ensures var r := CropTranslate(l, dx, dy);
            (CornerLeft(l) <= l.left + dx <= CornerLeft(l) + MaxWidth(l) - l.width ==> r.left.value == l.left + dx)
            && (CornerTop(l) <= l.top + dy <= CornerTop(l) + MaxHeight(l) - l.height ==> r.top.value == l.top + dy)
  {
  }

  /**
   * Where a clamp bites, the pan stops at the bound it hit: the window origin at 0 or at
   * intrinsic - window (0 when the window is wider than the image), the box at the
   * uncropped image's projected edge on the side it was pushed towards.
   */
  lemma PanStopsAtClamps(l: Layer, dx: real, dy: real)
    requires CropDefined(l)
    ensures var r := CropTranslate(l, dx, dy);
            var u := l.croppedLeft + dx / MaxWidth(l) * l.srcWidth;
            (u < 0.0 || l.srcWidth - l.croppedWidth < 0.0 ==> r.croppedLeft.value == 0.0)
            && (u > l.srcWidth - l.croppedWidth >= 0.0 ==> r.croppedLeft.value == l.srcWidth - l.croppedWidth)
    ensures var r := CropTranslate(l, dx, dy);
            var v := l.croppedTop + dy / MaxHeight(l) * l.srcHeight;
            (v < 0.0 || l.srcHeight - l.croppedHeight < 0.0 ==> r.croppedTop.value == 0.0)
            && (v > l.srcHeight - l.croppedHeight >= 0.0 ==> r.croppedTop.value == l.srcHeight - l.croppedHeight)
    ensures var r := CropTranslate(l, dx, dy);
            var hi := CornerLeft(l) + MaxWidth(l) - l.width;
            (l.left + dx < CornerLeft(l) || hi < CornerLeft(l) ==> r.left.value == CornerLeft(l))
            && (l.left + dx > hi >= CornerLeft(l) ==> r.left.value == hi)
    ensures var r := CropTranslate(l, dx, dy);
            var hi := CornerTop(l) + MaxHeight(l) - l.height;
            (l.top + dy < CornerTop(l) || hi < CornerTop(l) ==> r.top.value == CornerTop(l))
            && (l.top + dy > hi >= CornerTop(l) ==> r.top.value == hi)
  {
  }

  /** Panning keeps a crop window that was inside the image inside it. */
  lemma CropTranslateKeepsWindowInside(l: Layer, dx: real, dy: real)
    requires CropDefined(l) && WindowInside(l)
    ensures WindowInside(Merge(l, CropTranslate(l, dx, dy)))
  {
    var p := CropTranslate(l, dx, dy);
    assert l.srcWidth - l.croppedWidth >= 0.0 && l.srcHeight - l.croppedHeight >= 0.0;
    assert Merge(l, p).croppedLeft == p.croppedLeft.value;
    assert Merge(l, p).croppedTop == p.croppedTop.value;
  }

  /**
   * While neither clamp bites, panning moves the box and the window together so that the
   * uncropped image stays put on the canvas.
   */
  lemma CropTranslateKeepsImageFixed(l: Layer, dx: real, dy: real)
    requires CropDefined(l) && l.srcWidth != 0.0 && l.srcHeight != 0.0
    requires 0.0 <= l.croppedLeft + dx / MaxWidth(l) * l.srcWidth <= l.srcWidth - l.croppedWidth
    requires 0.0 <= l.croppedTop + dy / MaxHeight(l) * l.srcHeight <= l.srcHeight - l.croppedHeight
    requires CornerLeft(l) <= l.left + dx <= CornerLeft(l) + MaxWidth(l) - l.width
    requires CornerTop(l) <= l.top + dy <= CornerTop(l) + MaxHeight(l) - l.height
    ensures var r := Merge(l, CropTranslate(l, dx, dy));
            CornerLeft(r) == CornerLeft(l) && CornerTop(r) == CornerTop(l)
  {
    var p := CropTranslate(l, dx, dy);
    var r := Merge(l, p);
    assert r.croppedLeft == p.croppedLeft.value && r.left == p.left.value;
    assert r.croppedTop == p.croppedTop.value && r.top == p.top.value;
    assert r.width == l.width && r.height == l.height;
    assert r.croppedWidth == l.croppedWidth && r.croppedHeight == l.croppedHeight;
    assert r.croppedLeft == l.croppedLeft + dx / MaxWidth(l) * l.srcWidth && r.left == l.left + dx;
    assert r.croppedTop == l.croppedTop + dy / MaxHeight(l) * l.srcHeight && r.top == l.top + dy;
    PanKeepsEdges(l, r, dx, dy);
  }

  /** Both axes of PanAxis, stated on the layer before and after an unclamped pan. */
  lemma PanKeepsEdges(l: Layer, r: Layer, dx: real, dy: real)
    requires CropDefined(l) && l.srcWidth != 0.0 && l.srcHeight != 0.0
    requires r.width == l.width && r.height == l.height
    requires r.croppedWidth == l.croppedWidth && r.croppedHeight == l.croppedHeight
    requires r.croppedLeft == l.croppedLeft + dx / MaxWidth(l) * l.srcWidth && r.left == l.left + dx
    requires r.croppedTop == l.croppedTop + dy / MaxHeight(l) * l.srcHeight && r.top == l.top + dy
    ensures CornerLeft(r) == CornerLeft(l) && CornerTop(r) == CornerTop(l)
  {
    PanAxis(dx, l.srcWidth, l.croppedWidth, l.width, l.croppedLeft, l.left, r.croppedLeft, r.left);
    PanAxis(dy, l.srcHeight, l.croppedHeight, l.height, l.croppedTop, l.top, r.croppedTop, r.top);
  }

  /**
   * One axis of an unclamped pan, on bare numbers: a step of d canvas pixels moves the window
   * origin o by d / m * s intrinsic pixels (m = s / c * w the projected size), which projects
   * back to exactly d, so the uncropped edge pos - o / c * w does not move.
   */
  lemma PanAxis(d: real, s: real, c: real, w: real, o: real, pos: real, o2: real, pos2: real)
    requires s != 0.0 && c != 0.0 && s / c * w != 0.0
    requires o2 == o + d / (s / c * w) * s && pos2 == pos + d
    ensures pos2 - o2 / c * w == pos - o / c * w
  {
    var k := w / c;
    NonzeroFactor(s, c, w);
    NonzeroQuotient(w, c);
    Regroup(s, c, w);
    CancelFactor(d, s, k);
    Regroup(o2, c, w);
    DivMulCancel(d, k);
    Distribute(o, d / k, 0.0, k);
    Regroup(o, c, w);
  }
}
