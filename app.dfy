/**
 * The pack-level application state (src/context/AppContext.tsx): the open pack and the
 * batch-processing flag. Every change to the pack is written to the store at once.
 */
module App {
  import opened Types
  import opened Lists
  import opened Store

  /** The empty pack of the default state. */
  const EmptyPack: Pack := Pack("", "", "", [], [])

  /** `setPackField(field, value)`: one key of the pack and its new value. */
  datatype PackField = Id(id: string) | Title(title: string) | Author(author: string)
                     | Tags(tags: seq<string>) | StickerIds(stickerIds: seq<string>)

  /** `{...pack, [field]: value}`: the named field takes the value, every other field stays. */
  function WithField(p: Pack, f: PackField): (r: Pack)
    ensures r.id == (if f.Id? then f.id else p.id)
    ensures r.title == (if f.Title? then f.title else p.title)
    ensures r.author == (if f.Author? then f.author else p.author)
    ensures r.tags == (if f.Tags? then f.tags else p.tags)
    ensures r.stickerIds == (if f.StickerIds? then f.stickerIds else p.stickerIds)
  {
    match f
    case Id(v) => p.(id := v)
    case Title(v) => p.(title := v)
    case Author(v) => p.(author := v)
    case Tags(v) => p.(tags := v)
    case StickerIds(v) => p.(stickerIds := v)
  }

  /** Setting a field to the value it already has changes nothing; setting it twice keeps the last. */
  lemma WithFieldIdempotent(p: Pack, f: PackField, g: PackField)
    ensures WithField(WithField(p, f), f) == WithField(p, f)
    ensures f.Title? && g.Title? ==> WithField(WithField(p, f), g) == WithField(p, g)
  {
  }

  /** The membership list after `addStickers(added)`: the `Set` of old then new ids, in order. */
  function AddedIds(ids: seq<string>, added: seq<string>): (r: seq<string>)
    ensures NoDup(r)
    ensures forall x :: x in r <==> x in ids || x in added
    ensures NoDup(ids) ==> |ids| <= |r| && r[..|ids|] == ids && r == AppendNew(ids, added)
  {
    DedupeExtends(ids, added);
    Dedupe(ids + added)
  }

  /** The membership list after the route names a sticker: appended unless already there. */
  function RouteIds(ids: seq<string>, stickerId: string): (r: seq<string>)
    ensures r == AppendNew(ids, [stickerId])
    ensures stickerId in r
    ensures NoDup(ids) ==> NoDup(r)
  {
    AppendOne(ids, stickerId);
    if stickerId in ids then ids else ids + [stickerId]
  }

  class AppState {
    var isDBReady: bool
    var isBatchProcessing: bool
    var pack: Pack
    const store: Store

    /** The default state, over an already opened store. */
    constructor (store: Store)
      ensures !isDBReady && !isBatchProcessing && pack == EmptyPack && this.store == store
    {
      isDBReady := false;
      isBatchProcessing := false;
      pack := EmptyPack;
      this.store := store;
    }

    /** Completion of opening the store: its outcome becomes the readiness flag. */
    method DatabaseOpened(ready: bool)
      modifies this
      ensures isDBReady == ready && pack == old(pack) && isBatchProcessing == old(isBatchProcessing)
    {
      isDBReady := ready;
    }

    method SetIsBatchProcessing(v: bool)
      modifies this
      ensures isBatchProcessing == v && pack == old(pack) && isDBReady == old(isDBReady)
    {
      isBatchProcessing := v;
    }

    /** Changes one field of the pack and writes the pack. */
    method SetPackField(f: PackField)
      modifies this, store
      ensures pack == WithField(old(pack), f)
      ensures store.packs == old(store.packs)[pack.id := pack] && store.stickers == old(store.stickers)
      ensures store.trace == old(store.trace) + [WritePack(pack.id)]
      ensures isBatchProcessing == old(isBatchProcessing) && isDBReady == old(isDBReady)
    {
      pack := WithField(pack, f);
      store.SavePack(pack);
    }

    /** Adds sticker ids to the pack, each at most once, keeping the existing order, and writes it. */
    method AddStickers(added: seq<string>)
      modifies this, store
      ensures pack == old(pack).(stickerIds := AddedIds(old(pack.stickerIds), added))
      ensures store.packs == old(store.packs)[pack.id := pack] && store.stickers == old(store.stickers)
      ensures store.trace == old(store.trace) + [WritePack(pack.id)]
      ensures isBatchProcessing == old(isBatchProcessing) && isDBReady == old(isDBReady)
    {
      pack := pack.(stickerIds := AddedIds(pack.stickerIds, added));
      store.SavePack(pack);
    }

    /** Drops every occurrence of the id from the pack and writes it. */
    method RemoveSticker(stickerId: string)
      modifies this, store
      ensures pack == old(pack).(stickerIds := Without(old(pack.stickerIds), stickerId))
      ensures store.packs == old(store.packs)[pack.id := pack] && store.stickers == old(store.stickers)
      ensures store.trace == old(store.trace) + [WritePack(pack.id)]
      ensures isBatchProcessing == old(isBatchProcessing) && isDBReady == old(isDBReady)
    {
      pack := pack.(stickerIds := Without(pack.stickerIds, stickerId));
      store.SavePack(pack);
    }

    /**
     * The route effect. When the route names another pack, the pack is read from the store,
     * or, if it is not stored, the current pack is renamed to that id. When the route names
     * the open pack and a sticker, the sticker joins the pack unless it is already in it.
     */
    method SyncRoute(packId: Option<string>, stickerId: Option<string>)
      modifies this, store
      ensures !old(isDBReady) ==> pack == old(pack) && store.trace == old(store.trace)
      ensures old(isDBReady) && packId.Some? && old(pack.id) != packId.value ==>
                pack == (if packId.value in old(store.packs) then old(store.packs)[packId.value]
                         else old(pack).(id := packId.value))
                && store.trace == old(store.trace)
      ensures old(isDBReady) && packId == Some(old(pack.id)) && stickerId.Some? ==>
                pack == old(pack).(stickerIds := RouteIds(old(pack.stickerIds), stickerId.value))
                && store.trace == old(store.trace) + (if stickerId.value in old(pack.stickerIds) then [] else [WritePack(pack.id)])
      ensures old(isDBReady) && packId == Some(old(pack.id)) && stickerId.None? ==>
                pack == old(pack) && store.trace == old(store.trace)
      ensures old(isDBReady) && packId.None? ==> pack == old(pack) && store.trace == old(store.trace)
      ensures store.stickers == old(store.stickers)
      ensures isBatchProcessing == old(isBatchProcessing) && isDBReady == old(isDBReady)
    {
      if !isDBReady {
        return;
      }
      if packId.Some? && pack.id != packId.value {
        if packId.value in store.packs {
          pack := store.packs[packId.value];
        } else {
          pack := pack.(id := packId.value);
        }
      } else if packId.Some? && pack.id == packId.value && stickerId.Some? {
        if stickerId.value !in pack.stickerIds {
          pack := pack.(stickerIds := RouteIds(pack.stickerIds, stickerId.value));
          store.SavePack(pack);
        }
      }
    }

    /** Leaving every pack route resets the pack to the empty default. */
    method ResetPack(packId: Option<string>)
      modifies this
      ensures packId.None? ==> pack == EmptyPack
      ensures packId.Some? ==> pack == old(pack)
      ensures isBatchProcessing == old(isBatchProcessing) && isDBReady == old(isDBReady)
    {
      if packId.None? {
        pack := EmptyPack;
      }
    }
  }
}
