/** The record shapes shared by the editor, the pack view and the store (src/types.d.ts). */
module Types {

  datatype Option<T> = None | Some(value: T)

  /**
   * One image placed on the canvas. `srcWidth`/`srcHeight` are the intrinsic pixel size of
   * `content` (`_width`/`_height` in the source); the four `cropped*` fields are a window
   * into that intrinsic pixel space; `width`/`height`/`top`/`left` are the on-canvas box.
   */
  datatype Layer = Layer(
    id: string,
    width: real,
    height: real,
    rotation: real,
    content: string,
    top: real,
    left: real,
    srcWidth: real,
    srcHeight: real,
    croppedTop: real,
    croppedLeft: real,
    croppedWidth: real,
    croppedHeight: real)

  datatype Sticker = Sticker(id: string, layers: seq<Layer>, emoji: string)

  datatype Pack = Pack(id: string, title: string, author: string, tags: seq<string>, stickerIds: seq<string>)

  /** The four handles of the resize and crop tools. */
  datatype Corner = TL | TR | BL | BR

  /** The handle's horizontal delta is kept as is (right-hand handles) rather than negated. */
  predicate KeepsDx(c: Corner) { c == TR || c == BR }

  /** The handle's vertical delta is kept as is (bottom handles) rather than negated. */
  predicate KeepsDy(c: Corner) { c == BL || c == BR }

  /** The full projected size of the uncropped image on the canvas. */
  function MaxWidth(l: Layer): real
    requires l.croppedWidth != 0.0
  {
    l.srcWidth / l.croppedWidth * l.width
  }

  function MaxHeight(l: Layer): real
    requires l.croppedHeight != 0.0
  {
    l.srcHeight / l.croppedHeight * l.height
  }

  /** On-canvas position of the uncropped image's top-left corner. */
  function CornerTop(l: Layer): real
    requires l.croppedHeight != 0.0
  {
    l.top - l.croppedTop / l.croppedHeight * l.height
  }

  function CornerLeft(l: Layer): real
    requires l.croppedWidth != 0.0
  {
    l.left - l.croppedLeft / l.croppedWidth * l.width
  }

  /** Every divisor the geometry formulas use is nonzero. */
  predicate Nondegenerate(l: Layer)
  {
    l.width != 0.0 && l.height != 0.0 && l.srcWidth != 0.0 && l.srcHeight != 0.0
    && l.croppedWidth != 0.0 && l.croppedHeight != 0.0
  }

  /** All sizes strictly positive: the shape every freshly created layer has. */
  predicate Positive(l: Layer)
  {
    l.width > 0.0 && l.height > 0.0 && l.srcWidth > 0.0 && l.srcHeight > 0.0
    && l.croppedWidth > 0.0 && l.croppedHeight > 0.0
  }

  /** The crop window lies inside the intrinsic image. */
  predicate WindowInside(l: Layer)
  {
    0.0 <= l.croppedLeft && 0.0 <= l.croppedTop
    && l.croppedLeft + l.croppedWidth <= l.srcWidth
    && l.croppedTop + l.croppedHeight <= l.srcHeight
  }

  /** Two layers that differ at most in their image content. */
  predicate SameGeometry(a: Layer, b: Layer)
  {
    a.(content := b.content) == b
  }

  function Min(a: real, b: real): real { if a <= b then a else b }

  function Max(a: real, b: real): real { if a >= b then a else b }

  function Abs(a: real): real { if a < 0.0 then -a else a }
}
