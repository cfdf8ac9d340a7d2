/**
 * The persistent store behind the pack and sticker pages, reduced to what its callers
 * rely on: two keyed tables and the order in which they were read and written. Records are
 * keyed by their own id.
 */
module Store {
  import opened Types

  /** One request to the store, for the trace. */
  datatype StoreOp = ReadSticker(id: string) | WriteSticker(id: string) | WritePack(id: string)

  /** Every sticker sits under its own id. */
  predicate KeyedById(m: map<string, Sticker>)
  {
    forall k :: k in m ==> m[k].id == k
  }

  class Store {
    var stickers: map<string, Sticker>
    var packs: map<string, Pack>
    /** Every request so far, oldest first. */
    var trace: seq<StoreOp>

    constructor (stickers: map<string, Sticker>, packs: map<string, Pack>)
      ensures this.stickers == stickers && this.packs == packs && trace == []
    {
      this.stickers := stickers;
      this.packs := packs;
      trace := [];
    }

    /** Every record sits under its own id. */
    predicate Valid()
      reads this
    {
      KeyedById(stickers) && (forall k :: k in packs ==> packs[k].id == k)
    }

    /** Reads a sticker; `None` is the rejected read of a missing key. */
    method GetSticker(id: string) returns (r: Option<Sticker>)
      modifies this
      ensures r == if id in stickers then Some(stickers[id]) else None
      ensures Valid() && r.Some? ==> r.value.id == id
      ensures stickers == old(stickers) && packs == old(packs)
      ensures trace == old(trace) + [ReadSticker(id)]
    {
      r := if id in stickers then Some(stickers[id]) else None;
      trace := trace + [ReadSticker(id)];
    }

    /** Writes (inserts or overwrites) a sticker under its id. */
    method SaveSticker(s: Sticker)
      modifies this
      ensures stickers == old(stickers)[s.id := s] && packs == old(packs)
      ensures old(Valid()) ==> Valid()
      ensures trace == old(trace) + [WriteSticker(s.id)]
    {
      stickers := stickers[s.id := s];
      trace := trace + [WriteSticker(s.id)];
    }

    /** Writes (inserts or overwrites) a pack under its id. */
    method SavePack(p: Pack)
      modifies this
      ensures packs == old(packs)[p.id := p] && stickers == old(stickers)
      ensures old(Valid()) ==> Valid()
      ensures trace == old(trace) + [WritePack(p.id)]
    {
      packs := packs[p.id := p];
      trace := trace + [WritePack(p.id)];
    }
  }
}
