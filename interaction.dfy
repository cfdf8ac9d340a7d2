/**
 * Pointer interaction with one layer on the canvas (src/components/editor/Image.tsx). The
 * view keeps a working copy of the layer and a mode slot; pointer-down on a handle picks the
 * mode, each pointer move spreads one transform patch over the working copy, and release
 * writes the working copy back to the editor session.
 */
module Interaction {
  import opened Types
  import opened Transform
  import opened Editor

  /** The value of the mode slot when it is not null. */
  datatype FuncType = ResizeMode(corner: Corner) | CropTranslateMode | CropMode(corner: Corner) | TranslateMode | RotateMode

  function CornerSuffix(c: Corner): string
  {
    match c
    case TL => "tl"
    case TR => "tr"
    case BL => "bl"
    case BR => "br"
  }

  /** The string the source stores in the slot. */
  function Tag(f: FuncType): string
  {
    match f
    case ResizeMode(c) => "resize-" + CornerSuffix(c)
    case CropTranslateMode => "crop-translate"
    case CropMode(c) => "crop-" + CornerSuffix(c)
    case TranslateMode => "translate"
    case RotateMode => "rotate"
  }

  /** `t.startsWith(p)`. */
  predicate StartsWith(t: string, p: string)
  {
    |p| <= |t| && t[..|p|] == p
  }

  /** The handle a corner-specific tag names, read from its last two letters. */
  function CornerOfTag(t: string): Corner
  {
    var s := if |t| >= 2 then t[|t| - 2..] else "";
    if s == "tl" then TL else if s == "tr" then TR else if s == "bl" then BL else BR
  }

  /** What each test of the move handler's if-chain says about the mode it is applied to. */
  lemma TagFacts(f: FuncType)
    ensures Tag(f) == "translate" <==> f.TranslateMode?
    ensures StartsWith(Tag(f), "resize") <==> f.ResizeMode?
    ensures Tag(f) == "crop-translate" <==> f.CropTranslateMode?
    ensures StartsWith(Tag(f), "crop") <==> f.CropMode? || f.CropTranslateMode?
    ensures Tag(f) == "rotate" <==> f.RotateMode?
    ensures f.ResizeMode? ==> CornerOfTag(Tag(f)) == f.corner
    ensures f.CropMode? ==> CornerOfTag(Tag(f)) == f.corner
  {
    match f
    case ResizeMode(c) =>
      var t := Tag(f);
      assert t[0] == 'r' && t[1] == 'e' && |t| == 9;
      assert t[..6] == "resize";
      assert t[7..] == CornerSuffix(c);
    case CropTranslateMode =>
      var t := Tag(f);
      assert t[..4] == "crop";
      assert t[0] == 'c' && |t| == 14;
    case CropMode(c) =>
      var t := Tag(f);
      assert t[0] == 'c' && |t| == 7;
      assert t[..4] == "crop";
      assert t[5..] == CornerSuffix(c);
    case TranslateMode =>
      assert Tag(f)[0] == 't';
    case RotateMode =>
      assert Tag(f)[0] == 'r' && Tag(f)[1] == 'o';
  }

  /** One `pointermove` event: movement since the last event, position and pressure. */
  datatype PointerEvent = PointerEvent(movementX: real, movementY: real, clientX: real, clientY: real, pressure: real)

  /**
   * The trigonometry the transforms use, in degrees: `cosDeg(a)` stands for
   * `Math.cos(a / 180 * Math.PI)` and `atan2Deg(y, x)` for `Math.atan2(y, x) * 180 / Math.PI`.
   */
  datatype Trig = Trig(cosDeg: real -> real, sinDeg: real -> real, atan2Deg: (real, real) -> real)

  /** The divisions of the mode's transform are defined on the layer. */
  predicate MoveDefined(f: FuncType, l: Layer)
  {
    match f
    case ResizeMode(_) => l.width != 0.0 && l.height != 0.0
    case CropTranslateMode => CropDefined(l)
    case CropMode(_) => CropDefined(l)
    case TranslateMode => true
    case RotateMode => true
  }

  /** The transform each mode is meant to run: the reference the dispatch is checked against. */
  function ModePatch(f: FuncType, l: Layer, e: PointerEvent, rect: Rect, trig: Trig): Patch
    requires MoveDefined(f, l)
  {
    match f
    case ResizeMode(c) => ResizeLayer(l, e.movementX, e.movementY, c)
    case CropTranslateMode => CropTranslate(l, e.movementX, e.movementY)
    case CropMode(c) => CropLayer(l, e.movementX, e.movementY, c, trig.cosDeg(l.rotation), trig.sinDeg(l.rotation))
    case TranslateMode => TranslateLayer(l, e.movementX, e.movementY)
    case RotateMode => RotateLayer(rect, e.clientX, e.clientY, trig.atan2Deg)
  }

  /** The fields a move in each mode may write. */
  function ModeFields(mode: Option<FuncType>): set<Field>
  {
    match mode
    case None => {}
    case Some(f) =>
      match f
      case ResizeMode(_) => {Top, Left, Width, Height}
      case CropTranslateMode => {Top, Left, CroppedLeft, CroppedTop}
      case CropMode(_) => {Top, Left, Width, Height, CroppedTop, CroppedLeft, CroppedWidth, CroppedHeight}
      case TranslateMode => {Top, Left}
      case RotateMode => {Rotation}
  }

  /**
   * The move handler's if-chain on the slot's string: exact "translate", prefix "resize",
   * exact "crop-translate", prefix "crop", exact "rotate"; an empty slot matches nothing.
   */
  function MovePatch(mode: Option<FuncType>, l: Layer, e: PointerEvent, rect: Rect, trig: Trig): (r: Patch)
    requires mode.Some? ==> MoveDefined(mode.value, l)
    ensures Fields(r) == ModeFields(mode)
    ensures Rotation !in Fields(r) ==> Merge(l, r).rotation == l.rotation
  {
    if mode.None? then NoChange
    else
      var t := Tag(mode.value);
      TagFacts(mode.value);
      if t == "translate" then TranslateLayer(l, e.movementX, e.movementY)
      else if StartsWith(t, "resize") then ResizeLayer(l, e.movementX, e.movementY, CornerOfTag(t))
      else if t == "crop-translate" then CropTranslate(l, e.movementX, e.movementY)
      else if StartsWith(t, "crop") then
        CropLayer(l, e.movementX, e.movementY, CornerOfTag(t), trig.cosDeg(l.rotation), trig.sinDeg(l.rotation))
      else if t == "rotate" then RotateLayer(rect, e.clientX, e.clientY, trig.atan2Deg)
      else NoChange
  }

  /**
   * Every mode reaches its own transform through the string tests, in particular
   * "crop-translate" (matched before the "crop" prefix) always pans and never crops; an empty
   * slot leaves the working copy as it is.
   */
  lemma DispatchFollowsMode(mode: Option<FuncType>, l: Layer, e: PointerEvent, rect: Rect, trig: Trig)
    requires mode.Some? ==> MoveDefined(mode.value, l)
    ensures mode.Some? ==> MovePatch(mode, l, e, rect, trig) == ModePatch(mode.value, l, e, rect, trig)
    ensures mode.None? ==> Merge(l, MovePatch(mode, l, e, rect, trig)) == l
  {
    if mode.Some? {
      TagFacts(mode.value);
    }
  }

  /** The parts of a selected layer the pointer can press. */
  datatype Target = Body | RotateHandle | ResizeHandle(corner: Corner) | CropHandle(corner: Corner)

  /** The rotate and resize handles exist outside crop mode, the crop handles inside it. */
  predicate Rendered(t: Target, isCrop: bool)
  {
    match t
    case Body => true
    case RotateHandle => !isCrop
    case ResizeHandle(_) => !isCrop
    case CropHandle(_) => isCrop
  }

  /** The mode a pointer-down on a target stores. */
  function ModeFor(t: Target, isCrop: bool): FuncType
  {
    match t
    case Body => if isCrop then CropTranslateMode else TranslateMode
    case RotateHandle => RotateMode
    case ResizeHandle(c) => ResizeMode(c)
    case CropHandle(c) => CropMode(c)
  }

  predicate IsCropMode(f: FuncType)
  {
    f.CropMode? || f.CropTranslateMode?
  }

  /**
   * In crop mode every reachable mode edits the crop window, outside it none does; and
   * each handle's mode names that handle's corner.
   */
  lemma ModesFollowCropSwitch(t: Target, isCrop: bool)
    requires Rendered(t, isCrop)
    ensures IsCropMode(ModeFor(t, isCrop)) <==> isCrop
    ensures t.ResizeHandle? ==> ModeFor(t, isCrop) == ResizeMode(t.corner)
    ensures t.CropHandle? ==> ModeFor(t, isCrop) == CropMode(t.corner)
  {
  }

  /**
   * One mounted `Image` component. Its working copy (`state`) starts as the very object the
   * session holds for the layer, and every commit puts the copy's object back into the
   * session's list. Until a move spreads a patch into a fresh object, the copy and the
   * session's layer are therefore one object, and an in-place content write by the session
   * reaches the copy too. `detached` records whether the copy is a separate object.
   */
  class LayerView {
    const session: EditorSession
    const layerId: string
    /** The mode slot (`func` ref). */
    var func: Option<FuncType>
    /** The copy's own value: authoritative while detached, else the value it was given last. */
    var state: Layer
    /** A move has made the copy a new object since the last mount or commit. */
    var detached: bool

    constructor (session: EditorSession, layer: Layer)
      ensures this.session == session && layerId == layer.id && state == layer && func == None
      ensures !detached && Valid()
    {
      this.session := session;
      layerId := layer.id;
      state := layer;
      func := None;
      detached := false;
    }

    /** The working copy is a version of the view's own layer. */
    predicate Valid()
      reads this
    {
      state.id == layerId
    }

    /**
     * The working copy as the view sees it: its own value once detached, otherwise the
     * session's layer object it shares (its last value if the layer has left the list).
     */
    function Working(): (w: Layer)
      reads this, session
      ensures !detached && Lookup(session.layers, layerId).Some? ==> w == Lookup(session.layers, layerId).value
      ensures detached || Lookup(session.layers, layerId).None? ==> w == state
      ensures Valid() ==> w.id == layerId
    {
      if !detached && Lookup(session.layers, layerId).Some? then Lookup(session.layers, layerId).value else state
    }

    /** The layer is the selected one, so the move and up handlers are attached. */
    predicate Selected()
      reads session
    {
      session.selectedLayerId == layerId
    }

    /** The layer's background removal is in flight: pointer events are disabled. */
    predicate Loading()
      reads session
    {
      layerId in session.layerIdInBgRemoval
    }

    /** Stores the mode of the pressed target, when the target exists and takes events. */
    method PointerDown(t: Target)
      requires Valid()
      modifies this
      ensures Selected() && !Loading() && Rendered(t, session.isCrop) ==> func == Some(ModeFor(t, session.isCrop))
      ensures !(Selected() && !Loading() && Rendered(t, session.isCrop)) ==> func == old(func)
      ensures state == old(state) && detached == old(detached) && Valid()
    {
      if Selected() && !Loading() && Rendered(t, session.isCrop) {
        func := Some(ModeFor(t, session.isCrop));
      }
    }

    /** `updateLayer(state)`: the copy's object goes back into the list, so the two are shared again. */
    method Commit()
      requires Valid()
      modifies this, session
      ensures session.layers == Replace(old(session.layers), old(Working()))
      ensures state == old(Working()) && !detached && func == old(func) && Valid()
      ensures session.isCrop == old(session.isCrop) && session.selectedLayerId == old(session.selectedLayerId)
      ensures session.layerIdInBgRemoval == old(session.layerIdInBgRemoval)
      ensures session.id == old(session.id) && session.emoji == old(session.emoji)
    {
      var w := Working();
      session.UpdateLayer(w);
      state := w;
      detached := false;
    }

    /**
     * A move with pressure 0 while a mode is set is a missed release: it commits the working
     * copy as it is, without this event's movement, and clears the slot. Any other move
     * spreads the mode's patch over the working copy, into a new object when a mode is set.
     */
    method PointerMove(e: PointerEvent, rect: Rect, trig: Trig)
      requires Valid()
      requires Selected() && !Loading() && e.pressure != 0.0 && func.Some? ==> MoveDefined(func.value, Working())
      modifies this, session
      ensures !old(Selected() && !Loading()) ==>
                func == old(func) && state == old(state) && detached == old(detached)
                && session.layers == old(session.layers)
      ensures old(Selected() && !Loading()) && e.pressure == 0.0 && old(func).Some? ==>
                func == None && !detached && state == old(Working())
                && session.layers == Replace(old(session.layers), old(Working()))
      ensures old(Selected() && !Loading()) && !(e.pressure == 0.0 && old(func).Some?) && old(func).Some? ==>
                func == old(func) && session.layers == old(session.layers) && detached
                && state == Merge(old(Working()), MovePatch(old(func), old(Working()), e, rect, trig))
      ensures old(Selected() && !Loading()) && old(func).None? ==>
                func == None && state == old(state) && detached == old(detached)
                && session.layers == old(session.layers)
      ensures session.isCrop == old(session.isCrop) && session.selectedLayerId == old(session.selectedLayerId)
      ensures session.layerIdInBgRemoval == old(session.layerIdInBgRemoval)
      ensures session.id == old(session.id) && session.emoji == old(session.emoji)
      ensures Valid()
    {
      if Selected() && !Loading() {
        if e.pressure == 0.0 && func.Some? {
          func := None;
          Commit();
        } else if func.Some? {
          var w := Working();
          state := Merge(w, MovePatch(func, w, e, rect, trig));
          detached := true;
        }
      }
    }

    /** Release commits the working copy and clears the slot, whether or not a mode was set. */
    method PointerUp()
      requires Valid()
      modifies this, session
      ensures old(Selected() && !Loading()) ==>
                func == None && !detached && state == old(Working())
                && session.layers == Replace(old(session.layers), old(Working()))
      ensures !old(Selected() && !Loading()) ==>
                func == old(func) && state == old(state) && detached == old(detached)
                && session.layers == old(session.layers)
      ensures session.isCrop == old(session.isCrop) && session.selectedLayerId == old(session.selectedLayerId)
      ensures session.layerIdInBgRemoval == old(session.layerIdInBgRemoval)
      ensures session.id == old(session.id) && session.emoji == old(session.emoji)
      ensures Valid()
    {
      if Selected() && !Loading() {
        Commit();
        func := None;
      }
    }

    /** A click selects the layer (unless its pointer events are disabled). */
    method Click()
      requires Valid()
      modifies session
      ensures !old(Loading()) ==> session.selectedLayerId == state.id && Selected()
      ensures old(Loading()) ==> session.selectedLayerId == old(session.selectedLayerId)
      ensures session.layers == old(session.layers) && session.isCrop == old(session.isCrop)
      ensures session.layerIdInBgRemoval == old(session.layerIdInBgRemoval)
      ensures session.id == old(session.id) && session.emoji == old(session.emoji)
    {
      if !Loading() {
        session.SetSelectedLayerId(state.id);
      }
    }
  }

  /**
   * Grabbing the body of the selected layer in crop mode and moving pans the crop window:
   * the working copy becomes exactly the crop-translate result, as a new object.
   */
  method PanGesture(v: LayerView, e: PointerEvent, rect: Rect, trig: Trig)
    requires v.Valid() && v.Selected() && !v.Loading() && v.session.isCrop
    requires CropDefined(v.Working()) && e.pressure != 0.0
    modifies v, v.session
    ensures v.func == Some(CropTranslateMode) && v.detached
    ensures v.Working() == Merge(old(v.Working()), CropTranslate(old(v.Working()), e.movementX, e.movementY))
    ensures v.session.layers == old(v.session.layers)
  {
    v.PointerDown(Body);
    DispatchFollowsMode(v.func, v.Working(), e, rect, trig);
    v.PointerMove(e, rect, trig);
  }

  /**
   * In the middle of a drag the working copy is its own object: a content change the
   * session makes meanwhile (a completed outline, say) is overwritten by the release with
   * the copy's own content.
   */
  method ReleaseWritesWorkingCopy(v: LayerView, content: string) returns (ok: bool)
    requires v.detached && v.Selected() && Lookup(v.session.layers, v.layerId).Some?
    requires v.Valid() && v.layerId !in v.session.layerIdInBgRemoval
    modifies v, v.session
    ensures ok
    ensures Lookup(v.session.layers, v.layerId) == Some(old(v.state))
  {
    ok := v.session.OutlineLayerComplete(v.layerId, content);
    assert Lookup(v.session.layers, v.layerId).Some? by {
      ContentThenLookup(old(v.session.layers), v.layerId, content);
    }
    var between := v.session.layers;
    v.PointerUp();
    ReplaceThenLookup(between, old(v.state), v.layerId);
  }

  /**
   * Outside a drag the working copy is the session's layer object, so a content change the
   * session makes reaches it, and a later release (a click fires one) keeps that content.
   */
  method ReleaseKeepsSessionWrite(v: LayerView, content: string) returns (ok: bool)
    requires v.Valid() && !v.detached && v.Selected() && Lookup(v.session.layers, v.layerId).Some?
    requires v.layerId !in v.session.layerIdInBgRemoval
    modifies v, v.session
    ensures ok
    ensures Lookup(v.session.layers, v.layerId) == Some(Lookup(old(v.session.layers), v.layerId).value.(content := content))
  {
    ok := v.session.OutlineLayerComplete(v.layerId, content);
    ContentThenLookup(old(v.session.layers), v.layerId, content);
    var between := v.session.layers;
    assert v.Working() == Lookup(between, v.layerId).value;
    v.PointerUp();
    ReplaceThenLookup(between, Lookup(between, v.layerId).value, v.layerId);
  }
}
