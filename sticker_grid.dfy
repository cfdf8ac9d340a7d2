/**
 * Dropping image files on the pack's sticker grid (src/components/pack/StickerGrid.tsx):
 * the hover flag, and the import that makes one single-layer sticker per image, stores each
 * one, then adds all their ids to the pack.
 */
module StickerGrid {
  import opened Types
  import opened Lists
  import opened Fit
  import opened Store
  import opened App

  /** A dropped image after decoding: its data URL and intrinsic size. */
  datatype Image = Image(content: string, width: real, height: real)

  predicate Decoded(img: Image)
  {
    img.width > 0.0 && img.height > 0.0
  }

  /**
   * The sticker made from one image: a single unrotated layer showing the whole image at
   * its fitted size, centred on the canvas.
   */
  function NewSticker(stickerId: string, layerId: string, img: Image, emoji: string): (s: Sticker)
    requires Decoded(img)
    ensures s.id == stickerId && s.emoji == emoji && |s.layers| == 1
    ensures var l := s.layers[0];
            l.id == layerId && l.content == img.content && l.rotation == 0.0
            && l.srcWidth == img.width && l.srcHeight == img.height
            && l.croppedLeft == 0.0 && l.croppedTop == 0.0
            && l.croppedWidth == img.width && l.croppedHeight == img.height
            && (l.width, l.height) == FitSize(img.width, img.height)
            && l.top + l.height / 2.0 == Canvas / 2.0 && l.left + l.width / 2.0 == Canvas / 2.0
  {
    Sticker(stickerId, [CenteredLayer(layerId, img.content, img.width, img.height)], emoji)
  }

  /** The stickers of one drop, in image order; ids and emojis are drawn one per image. */
  function Imported(images: seq<Image>, stickerIds: seq<string>, layerIds: seq<string>, emojis: seq<string>): seq<Sticker>
    requires |stickerIds| == |images| && |layerIds| == |images| && |emojis| == |images|
    requires forall i :: 0 <= i < |images| ==> Decoded(images[i])
  {
    seq(|images|, i requires 0 <= i < |images| => NewSticker(stickerIds[i], layerIds[i], images[i], emojis[i]))
  }

  /** The sticker table after writing ss one after the other. */
  function SaveAll(m: map<string, Sticker>, ss: seq<Sticker>): map<string, Sticker>
  {
    if ss == [] then m else SaveAll(m, ss[..|ss| - 1])[ss[|ss| - 1].id := ss[|ss| - 1]]
  }

  function Ids(ss: seq<Sticker>): seq<string>
  {
    seq(|ss|, i requires 0 <= i < |ss| => ss[i].id)
  }

  /** The write requests of writing ss one after the other. */
  function Writes(ss: seq<Sticker>): seq<StoreOp>
  {
    seq(|ss|, i requires 0 <= i < |ss| => WriteSticker(ss[i].id))
  }

  /**
   * After writing ss every one of them is stored, under its own id when the ids are
   * distinct, and every other record is as it was.
   */
  lemma {:induction false} SaveAllStores(m: map<string, Sticker>, ss: seq<Sticker>)
    ensures forall k :: k in SaveAll(m, ss) <==> k in m || k in Ids(ss)
    ensures forall k :: k in m && k !in Ids(ss) ==> SaveAll(m, ss)[k] == m[k]
    ensures forall i :: 0 <= i < |ss| ==> Ids(ss)[i] == ss[i].id && ss[i].id in SaveAll(m, ss)
    ensures NoDup(Ids(ss)) ==> forall i :: 0 <= i < |ss| ==> SaveAll(m, ss)[ss[i].id] == ss[i]
  {
    if ss != [] {
      var init, last := ss[..|ss| - 1], ss[|ss| - 1];
      SaveAllStores(m, init);
      assert SaveAll(m, ss) == SaveAll(m, init)[last.id := last];
      assert Ids(ss) == Ids(init) + [last.id];
      if NoDup(Ids(ss)) {
        assert NoDup(Ids(init)) by {
          forall i, j | 0 <= i < j < |init|
            ensures Ids(init)[i] != Ids(init)[j]
          {
            assert Ids(init)[i] == Ids(ss)[i] && Ids(init)[j] == Ids(ss)[j];
          }
        }
        forall i | 0 <= i < |ss|
          ensures SaveAll(m, ss)[ss[i].id] == ss[i]
        {
          if i < |init| {
            assert Ids(ss)[i] == ss[i].id == init[i].id && Ids(ss)[|ss| - 1] == last.id;
          }
        }
      }
    }
  }

  /** Writing one more sticker: one more table update and one more write request. */
  lemma SaveAllExtend(m: map<string, Sticker>, ss: seq<Sticker>, i: nat)
    requires i < |ss|
    ensures SaveAll(m, ss[..i + 1]) == SaveAll(m, ss[..i])[ss[i].id := ss[i]]
    ensures Writes(ss[..i + 1]) == Writes(ss[..i]) + [WriteSticker(ss[i].id)]
  {
    assert ss[..i + 1][..i] == ss[..i];
  }

  datatype DragEvent = DragEnter | DragOver | DragLeave | Drop

  /** The grid's drop target: `isDragging` is the ref, `dragging` the rendered state. */
  class DropZone {
    var isDragging: bool
    var dragging: bool

    constructor ()
      ensures !isDragging && !dragging
    {
      isDragging := false;
      dragging := false;
    }

    /**
     * Enter and over raise the flag if it is down, leave lowers it if it is up, and a drop
     * (which also starts the import) always leaves it down. Both copies are written
     * together, so they stay equal once equal.
     */
    method HandleDragging(ev: DragEvent)
      modifies this
      ensures ev == DragEnter || ev == DragOver ==> isDragging
      ensures ev == DragLeave || ev == Drop ==> !isDragging
      ensures isDragging == old(isDragging) ==> dragging == old(dragging)
      ensures isDragging != old(isDragging) ==> dragging == isDragging
      ensures old(dragging == isDragging) ==> dragging == isDragging
    {
      if ev == DragEnter || ev == DragOver {
        if !isDragging {
          dragging := true;
          isDragging := true;
        }
      } else if ev == DragLeave || ev == Drop {
        if isDragging {
          dragging := false;
          isDragging := false;
        }
      }
    }
  }

  /**
   * The import a drop starts: for each image in order, build its sticker, remember its id
   * and write it to the store before the next image; after the last, add all the ids to
   * the pack in one call.
   */
  method ImportImages(app: AppState, images: seq<Image>, stickerIds: seq<string>, layerIds: seq<string>, emojis: seq<string>)
    returns (ids: seq<string>)
    requires |stickerIds| == |images| && |layerIds| == |images| && |emojis| == |images|
    requires forall i :: 0 <= i < |images| ==> Decoded(images[i])
    modifies app, app.store
    ensures ids == stickerIds && Ids(Imported(images, stickerIds, layerIds, emojis)) == ids
    ensures app.store.stickers == SaveAll(old(app.store.stickers), Imported(images, stickerIds, layerIds, emojis))
    ensures app.store.trace == old(app.store.trace) + Writes(Imported(images, stickerIds, layerIds, emojis)) + [WritePack(app.pack.id)]
    ensures app.pack == old(app.pack).(stickerIds := AddedIds(old(app.pack.stickerIds), stickerIds))
    ensures app.isBatchProcessing == old(app.isBatchProcessing) && app.isDBReady == old(app.isDBReady)
  {
    ghost var made := Imported(images, stickerIds, layerIds, emojis);
    ids := [];
    var i := 0;
    while i < |images|
      invariant 0 <= i <= |images|
      invariant ids == stickerIds[..i]
      invariant app.store.stickers == SaveAll(old(app.store.stickers), made[..i])
      invariant app.store.trace == old(app.store.trace) + Writes(made[..i])
      invariant app.pack == old(app.pack)
      invariant app.isBatchProcessing == old(app.isBatchProcessing) && app.isDBReady == old(app.isDBReady)
    {
      var sticker := NewSticker(stickerIds[i], layerIds[i], images[i], emojis[i]);
      ids := ids + [sticker.id];
      app.store.SaveSticker(sticker);
      assert made[i] == sticker;
      SaveAllExtend(old(app.store.stickers), made, i);
      i := i + 1;
    }
    assert made[..i] == made;
    assert ids == stickerIds;
    app.AddStickers(ids);
  }
}
