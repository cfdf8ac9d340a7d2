/**
 * The sticker editor's session state (src/context/EditorContext.tsx): the layer list, the
 * selection, the crop-mode switch and the ids of layers whose background removal is in
 * flight. Every updater replaces some of the fields; the asynchronous halves of the
 * background-removal and outline commands are separate methods, the image work between
 * them is not modelled.
 */
module Editor {
  import opened Types
  import opened Lists
  import opened Fit

  /** The default emoji of a new sticker (U+1FAE5, dotted line face). */
  const DefaultEmoji: string := "\U{1FAE5}"

  /** `ls.findIndex(({id}) => id === target)`: the first match, or -1. */
  function FindIndex(ls: seq<Layer>, target: string): (i: int)
    ensures -1 <= i < |ls|
    ensures i >= 0 ==> ls[i].id == target && forall j :: 0 <= j < i ==> ls[j].id != target
    ensures i == -1 <==> forall j :: 0 <= j < |ls| ==> ls[j].id != target
  {
    if ls == [] then -1
    else if ls[0].id == target then 0
    else
      var k := FindIndex(ls[1..], target);
      if k == -1 then -1 else k + 1
  }

  /** `ls[ls.findIndex(...)]`: the first layer with the id, `None` for `undefined`. */
  function Lookup(ls: seq<Layer>, target: string): (r: Option<Layer>)
    ensures r.Some? <==> exists j :: 0 <= j < |ls| && ls[j].id == target
    ensures r.Some? ==> r.value in ls && r.value.id == target
    ensures r.Some? ==> exists j :: 0 <= j < |ls| && r.value == ls[j] && forall k :: 0 <= k < j ==> ls[k].id != target
  {
    var i := FindIndex(ls, target);
    if i >= 0 then Some(ls[i]) else None
  }

  /**
   * A copy of ls in which the first layer with layer's id is replaced by layer. When no
   * layer has that id, the write goes to index -1, which is not an element, so nothing
   * changes.
   */
  function Replace(ls: seq<Layer>, layer: Layer): (r: seq<Layer>)
    ensures |r| == |ls|
    ensures (exists j :: 0 <= j < |ls| && ls[j].id == layer.id) ==> r[FindIndex(ls, layer.id)] == layer
    ensures forall j :: 0 <= j < |ls| && j != FindIndex(ls, layer.id) ==> r[j] == ls[j]
    ensures (forall j :: 0 <= j < |ls| ==> ls[j].id != layer.id) ==> r == ls
  {
    var i := FindIndex(ls, layer.id);
    if i >= 0 then ls[i := layer] else ls
  }

  /**
   * The list after an image command completes for `target`: its first layer gets the new
   * content and keeps everything else. `None` when no layer has the id: the source's write
   * through index -1 throws there.
   */
  function SetContent(ls: seq<Layer>, target: string, content: string): (r: Option<seq<Layer>>)
    ensures r.Some? <==> exists j :: 0 <= j < |ls| && ls[j].id == target
    ensures r.Some? ==> |r.value| == |ls|
    ensures r.Some? ==> forall j :: 0 <= j < |ls| ==> SameGeometry(ls[j], r.value[j])
    ensures r.Some? ==> forall j :: 0 <= j < |ls| && j != FindIndex(ls, target) ==> r.value[j] == ls[j]
    ensures r.Some? ==> r.value[FindIndex(ls, target)].content == content
  {
    var i := FindIndex(ls, target);
    if i >= 0 then Some(ls[i := ls[i].(content := content)]) else None
  }

  /** `ls.filter(({id}) => id !== target)`. */
  function WithoutLayer(ls: seq<Layer>, target: string): (r: seq<Layer>)
    ensures forall l :: l in r <==> l in ls && l.id != target
    ensures Lookup(r, target) == None
  {
    Filter(ls, (l: Layer) => l.id != target)
  }

  /** Deleting keeps the surviving layers in their order: it distributes over concatenation. */
  lemma WithoutLayerAppend(a: seq<Layer>, b: seq<Layer>, target: string)
    ensures WithoutLayer(a + b, target) == WithoutLayer(a, target) + WithoutLayer(b, target)
  {
    FilterAppend(a, b, (l: Layer) => l.id != target);
  }

  /** After an update the layer is found under its id; other ids find what they found before. */
  lemma ReplaceThenLookup(ls: seq<Layer>, layer: Layer, other: string)
    requires Lookup(ls, layer.id).Some?
    ensures Lookup(Replace(ls, layer), layer.id) == Some(layer)
    ensures other != layer.id ==> Lookup(Replace(ls, layer), other) == Lookup(ls, other)
  {
    var r := Replace(ls, layer);
    var i := FindIndex(ls, layer.id);
    assert r[i] == layer;
    assert forall j :: 0 <= j < i ==> r[j].id != layer.id;
    if other != layer.id {
      assert forall j :: 0 <= j < |ls| ==> (r[j].id == other <==> ls[j].id == other);
      FindIndexSameIds(ls, r, other);
    }
  }

  /** Two lists that agree on where an id occurs find it at the same index. */
  lemma {:induction false} FindIndexSameIds(a: seq<Layer>, b: seq<Layer>, target: string)
    requires |a| == |b|
    requires forall j :: 0 <= j < |a| ==> (a[j].id == target <==> b[j].id == target)
    ensures FindIndex(a, target) == FindIndex(b, target)
    ensures FindIndex(a, target) >= 0 ==> b[FindIndex(b, target)].id == target
  {
    if a != [] {
      FindIndexSameIds(a[1..], b[1..], target);
    }
  }

  class EditorSession {
    var isCrop: bool
    var id: string
    var layers: seq<Layer>
    var emoji: string
    var selectedLayerId: string
    var layerIdInBgRemoval: seq<string>

    /** The default state: no sticker, no layers, no selection, nothing in flight. */
    constructor ()
      ensures !isCrop && id == "" && layers == [] && emoji == DefaultEmoji
      ensures selectedLayerId == "" && layerIdInBgRemoval == []
    {
      isCrop := false;
      id := "";
      layers := [];
      emoji := DefaultEmoji;
      selectedLayerId := "";
      layerIdInBgRemoval := [];
    }

    /**
     * Appends a layer showing the whole decoded image (intrinsic size width x height) at its
     * fitted size in the canvas's top-left corner and selects it. `newId` is the fresh id.
     */
    method AddLayer(content: string, width: real, height: real, newId: string)
      requires width > 0.0 && height > 0.0
      modifies this
      ensures layers == old(layers) + [FittedLayer(newId, content, width, height, 0.0, 0.0)]
      ensures selectedLayerId == newId
      ensures isCrop == old(isCrop) && id == old(id) && emoji == old(emoji)
      ensures layerIdInBgRemoval == old(layerIdInBgRemoval)
    {
      layers := layers + [FittedLayer(newId, content, width, height, 0.0, 0.0)];
      selectedLayerId := newId;
    }

    /** Writes a layer back over the first layer with its id. */
    method UpdateLayer(layer: Layer)
      modifies this
      ensures layers == Replace(old(layers), layer)
      ensures isCrop == old(isCrop) && id == old(id) && emoji == old(emoji)
      ensures selectedLayerId == old(selectedLayerId) && layerIdInBgRemoval == old(layerIdInBgRemoval)
    {
      var i := FindIndex(layers, layer.id);
      if i >= 0 {
        layers := layers[i := layer];
      }
    }

    /** Removes every layer with the id; the selection is cleared only if it was that id. */
    method DeleteLayer(layerId: string)
      modifies this
      ensures layers == WithoutLayer(old(layers), layerId)
      ensures selectedLayerId == if old(selectedLayerId) == layerId then "" else old(selectedLayerId)
      ensures isCrop == old(isCrop) && id == old(id) && emoji == old(emoji)
      ensures layerIdInBgRemoval == old(layerIdInBgRemoval)
    {
      layers := WithoutLayer(layers, layerId);
      if selectedLayerId == layerId {
        selectedLayerId := "";
      }
    }

    method ToggleCrop()
      modifies this
      ensures isCrop == !old(isCrop)
      ensures id == old(id) && layers == old(layers) && emoji == old(emoji)
      ensures selectedLayerId == old(selectedLayerId) && layerIdInBgRemoval == old(layerIdInBgRemoval)
    {
      isCrop := !isCrop;
    }

    method SetSelectedLayerId(layerId: string)
      modifies this
      ensures selectedLayerId == layerId
      ensures isCrop == old(isCrop) && id == old(id) && layers == old(layers) && emoji == old(emoji)
      ensures layerIdInBgRemoval == old(layerIdInBgRemoval)
    {
      selectedLayerId := layerId;
    }

    /** The window keydown listener: Backspace or Delete removes the selected layer. */
    method KeyDown(key: string)
      modifies this
      ensures key == "Backspace" || key == "Delete" ==>
                layers == WithoutLayer(old(layers), old(selectedLayerId)) && selectedLayerId == ""
      ensures key != "Backspace" && key != "Delete" ==>
                layers == old(layers) && selectedLayerId == old(selectedLayerId)
      ensures isCrop == old(isCrop) && id == old(id) && emoji == old(emoji)
      ensures layerIdInBgRemoval == old(layerIdInBgRemoval)
    {
      if key == "Backspace" || key == "Delete" {
        layers := WithoutLayer(layers, selectedLayerId);
        selectedLayerId := "";
      }
    }

    /**
     * First half of background removal: marks the id as in flight and hands the layer to the
     * removal service. `None` stands for the `undefined` the source passes on when no layer
     * has the id; the removal call then fails and the id stays marked.
     */
    method CleanLayerBgStart(layerId: string) returns (target: Option<Layer>)
      modifies this
      ensures layerIdInBgRemoval == old(layerIdInBgRemoval) + [layerId]
      ensures target == Lookup(layers, layerId)
      ensures isCrop == old(isCrop) && id == old(id) && layers == old(layers) && emoji == old(emoji)
      ensures selectedLayerId == old(selectedLayerId)
    {
      layerIdInBgRemoval := layerIdInBgRemoval + [layerId];
      target := Lookup(layers, layerId);
    }

    /**
     * Second half: the layer gets the returned content and every occurrence of its id leaves
     * the in-flight list. If the layer has been deleted meanwhile the source's update throws
     * (an error React re-raises while rendering); here `ok` is false and nothing changes.
     */
    method CleanLayerBgComplete(layerId: string, content: string) returns (ok: bool)
      modifies this
      ensures ok <==> SetContent(old(layers), layerId, content).Some?
      ensures ok ==> layers == SetContent(old(layers), layerId, content).value
      ensures ok ==> layerIdInBgRemoval == Without(old(layerIdInBgRemoval), layerId)
      ensures !ok ==> layers == old(layers) && layerIdInBgRemoval == old(layerIdInBgRemoval)
      ensures isCrop == old(isCrop) && id == old(id) && emoji == old(emoji)
      ensures selectedLayerId == old(selectedLayerId)
    {
      var r := SetContent(layers, layerId, content);
      ok := r.Some?;
      if ok {
        layers := r.value;
        layerIdInBgRemoval := Without(layerIdInBgRemoval, layerId);
      }
    }

    /**
     * Completion of the outline command: the layer gets the stroked content; the in-flight
     * list is not involved. The start half only reads the layer (see Lookup).
     */
    method OutlineLayerComplete(layerId: string, content: string) returns (ok: bool)
      modifies this
      ensures ok <==> SetContent(old(layers), layerId, content).Some?
      ensures ok ==> layers == SetContent(old(layers), layerId, content).value
      ensures !ok ==> layers == old(layers)
      ensures isCrop == old(isCrop) && id == old(id) && emoji == old(emoji)
      ensures selectedLayerId == old(selectedLayerId) && layerIdInBgRemoval == old(layerIdInBgRemoval)
    {
      var r := SetContent(layers, layerId, content);
      ok := r.Some?;
      if ok {
        layers := r.value;
      }
    }
  }

  /** Toggling crop mode twice restores the whole session. */
  method ToggleCropTwice(s: EditorSession)
    modifies s
    ensures s.isCrop == old(s.isCrop) && s.id == old(s.id) && s.layers == old(s.layers)
    ensures s.emoji == old(s.emoji) && s.selectedLayerId == old(s.selectedLayerId)
    ensures s.layerIdInBgRemoval == old(s.layerIdInBgRemoval)
  {
    s.ToggleCrop();
    s.ToggleCrop();
  }

  /** A started and completed background removal leaves the id out of the in-flight list. */
  method CleanLayerBgRoundTrip(s: EditorSession, layerId: string, content: string) returns (ok: bool)
    modifies s
    ensures ok <==> Lookup(old(s.layers), layerId).Some?
    ensures ok ==> layerId !in s.layerIdInBgRemoval
    ensures ok ==> Lookup(s.layers, layerId) == Some(Lookup(old(s.layers), layerId).value.(content := content))
    ensures s.selectedLayerId == old(s.selectedLayerId) && |s.layers| == |old(s.layers)|
  {
    var target := s.CleanLayerBgStart(layerId);
    ok := s.CleanLayerBgComplete(layerId, content);
    if ok {
      ContentThenLookup(old(s.layers), layerId, content);
    }
  }

  /** After SetContent the id finds its old layer with the new content. */
  lemma ContentThenLookup(ls: seq<Layer>, target: string, content: string)
    requires Lookup(ls, target).Some?
    ensures Lookup(SetContent(ls, target, content).value, target) == Some(Lookup(ls, target).value.(content := content))
  {
    var r := SetContent(ls, target, content).value;
    FindIndexSameIds(ls, r, target);
  }
}
