/**
 * "Clean background for all stickers" (src/components/pack/PackFuncPanel.tsx): a guarded,
 * strictly sequential pass over the pack's stickers that replaces every layer's content
 * with the background-removal service's result and writes each sticker back before
 * reading the next. A rejected read or removal ends the pass where it is.
 */
module Batch {
  import opened Types
  import opened Lists
  import opened Store
  import opened App

  /** The removal service on one layer's content; `None` is a rejected call. */
  type Remover = string -> Option<string>

  predicate AllRemoved(ls: seq<Layer>, remove: Remover)
  {
    forall i :: 0 <= i < |ls| ==> remove(ls[i].content).Some?
  }

  /**
   * The layers after the inner loop: each with the service's content for its own content
   * and nothing else changed; `None` as soon as one call is rejected.
   */
  function CleanLayers(ls: seq<Layer>, remove: Remover): (r: Option<seq<Layer>>)
    ensures r.Some? <==> AllRemoved(ls, remove)
    ensures r.Some? ==> |r.value| == |ls|
    ensures r.Some? ==> forall i :: 0 <= i < |ls| ==> SameGeometry(ls[i], r.value[i])
    ensures r.Some? ==> forall i :: 0 <= i < |ls| ==> r.value[i].content == remove(ls[i].content).value
  {
    if AllRemoved(ls, remove)
    then Some(seq(|ls|, i requires 0 <= i < |ls| => ls[i].(content := remove(ls[i].content).value)))
    else None
  }

  /** Two versions of a sticker that differ at most in the contents of its layers. */
  predicate SameShape(a: Sticker, b: Sticker)
  {
    a.id == b.id && a.emoji == b.emoji && |a.layers| == |b.layers|
    && forall i :: 0 <= i < |a.layers| ==> SameGeometry(a.layers[i], b.layers[i])
  }

  /** The state of a pass: the sticker table, the store's request trace, the counter and whether it is still running. */
  datatype Progress = Progress(stickers: map<string, Sticker>, trace: seq<StoreOp>, finished: nat, ok: bool)

  /** One sticker of the pass: read it, clean all its layers, count it, write it. */
  function Step(p: Progress, id: string, remove: Remover): Progress
  {
    if !p.ok then p
    else
      var t := p.trace + [ReadSticker(id)];
      if id !in p.stickers then p.(trace := t, ok := false)
      else
        var c := CleanLayers(p.stickers[id].layers, remove);
        if c.None? then p.(trace := t, ok := false)
        else
          var s := p.stickers[id].(layers := c.value);
          Progress(p.stickers[s.id := s], t + [WriteSticker(s.id)], p.finished + 1, true)
  }

  /** The pass over ids, one Step per id in order. */
  function Run(p: Progress, ids: seq<string>, remove: Remover): Progress
  {
    if ids == [] then p else Step(Run(p, ids[..|ids| - 1], remove), ids[|ids| - 1], remove)
  }

  /** Once a pass has stopped, the remaining ids change nothing. */
  lemma {:induction false} RunStaysStopped(p: Progress, a: seq<string>, b: seq<string>, remove: Remover)
    requires !Run(p, a, remove).ok
    ensures Run(p, a + b, remove) == Run(p, a, remove)
    decreases |b|
  {
    if b == [] {
      assert a + b == a;
    } else {
      var b' := b[..|b| - 1];
      assert (a + b)[..|a + b| - 1] == a + b';
      RunStaysStopped(p, a, b', remove);
    }
  }

  /**
   * A pass only ever replaces layer contents: the table keeps its keys, stays keyed by id,
   * and every sticker keeps its id, emoji, layer count and layer geometry.
   */
  lemma {:induction false} RunKeepsShape(p: Progress, ids: seq<string>, remove: Remover)
    requires KeyedById(p.stickers)
    ensures KeyedById(Run(p, ids, remove).stickers)
    ensures Run(p, ids, remove).stickers.Keys == p.stickers.Keys
    ensures forall k :: k in p.stickers ==> SameShape(p.stickers[k], Run(p, ids, remove).stickers[k])
  {
    if ids != [] {
      var q := Run(p, ids[..|ids| - 1], remove);
      RunKeepsShape(p, ids[..|ids| - 1], remove);
      var id := ids[|ids| - 1];
      if q.ok && id in q.stickers && CleanLayers(q.stickers[id].layers, remove).Some? {
        var s := q.stickers[id].(layers := CleanLayers(q.stickers[id].layers, remove).value);
        assert s.id == id;
        forall k | k in p.stickers
          ensures SameShape(p.stickers[k], Run(p, ids, remove).stickers[k])
        {
          if k == id {
            SameShapeTrans(p.stickers[k], q.stickers[k], s);
          }
        }
      }
    }
  }

  lemma SameShapeTrans(a: Sticker, b: Sticker, c: Sticker)
    requires SameShape(a, b) && SameShape(b, c)
    ensures SameShape(a, c)
  {
    forall i | 0 <= i < |a.layers|
      ensures SameGeometry(a.layers[i], c.layers[i])
    {
      assert SameGeometry(a.layers[i], b.layers[i]) && SameGeometry(b.layers[i], c.layers[i]);
    }
  }

  /** Stickers whose ids the pass does not visit are left exactly as they were. */
  lemma {:induction false} RunLeavesOthers(p: Progress, ids: seq<string>, remove: Remover, k: string)
    requires KeyedById(p.stickers) && k in p.stickers && k !in ids
    ensures k in Run(p, ids, remove).stickers && Run(p, ids, remove).stickers[k] == p.stickers[k]
  {
    RunKeepsShape(p, ids, remove);
    if ids != [] {
      RunLeavesOthers(p, ids[..|ids| - 1], remove, k);
      RunKeepsShape(p, ids[..|ids| - 1], remove);
      assert k != ids[|ids| - 1];
    }
  }

  /**
   * A pass that ran through over distinct ids leaves every visited sticker exactly as
   * it was stored, with each layer's content replaced by the service's result.
   */
  lemma {:induction false} RunCleansEach(p: Progress, ids: seq<string>, remove: Remover, k: string)
    requires KeyedById(p.stickers) && NoDup(ids) && k in ids && Run(p, ids, remove).ok
    ensures k in p.stickers && k in Run(p, ids, remove).stickers
    ensures CleanLayers(p.stickers[k].layers, remove).Some?
    ensures Run(p, ids, remove).stickers[k] == p.stickers[k].(layers := CleanLayers(p.stickers[k].layers, remove).value)
  {
    var init := ids[..|ids| - 1];
    var id := ids[|ids| - 1];
    var q := Run(p, init, remove);
    RunKeepsShape(p, init, remove);
    assert q.ok && id in q.stickers && CleanLayers(q.stickers[id].layers, remove).Some?;
    assert q.stickers[id].id == id;
    if k == id {
      assert k !in init by {
        forall i | 0 <= i < |init|
          ensures init[i] != k
        {
          assert init[i] == ids[i];
        }
      }
      RunLeavesOthers(p, init, remove, k);
    } else {
      assert ids == init + [id];
      assert k in init;
      assert NoDup(init) by {
        forall i, j | 0 <= i < j < |init|
          ensures init[i] != init[j]
        {
          assert init[i] == ids[i] && init[j] == ids[j];
        }
      }
      RunCleansEach(p, init, remove, k);
    }
  }

  /** Read then write of each finished sticker, in order. */
  function ReadWrites(ids: seq<string>): seq<StoreOp>
  {
    if ids == [] then [] else ReadWrites(ids[..|ids| - 1]) + [ReadSticker(ids[|ids| - 1]), WriteSticker(ids[|ids| - 1])]
  }

  /**
   * The counter counts finished stickers: a pass that ran through counts every id; a pass
   * that stopped counts n < |ids| and is exactly the completed pass over the first n ids
   * plus one more read. Either way each finished sticker is read, then written once,
   * before the next read.
   */
  lemma {:induction false} RunCounts(p: Progress, ids: seq<string>, remove: Remover)
    requires p.ok && KeyedById(p.stickers)
    ensures var r := Run(p, ids, remove);
            var n := r.finished - p.finished;
            0 <= n <= |ids|
            && (r.ok ==> n == |ids| && r.trace == p.trace + ReadWrites(ids))
            && (!r.ok ==> n < |ids| && Run(p, ids[..n], remove).ok && r.stickers == Run(p, ids[..n], remove).stickers
                          && r.trace == p.trace + ReadWrites(ids[..n]) + [ReadSticker(ids[n])])
  {
    if ids != [] {
      var init := ids[..|ids| - 1];
      var id := ids[|ids| - 1];
      RunCounts(p, init, remove);
      var q := Run(p, init, remove);
      var n := q.finished - p.finished;
      var r := Run(p, ids, remove);
      assert r == Step(q, id, remove);
      if q.ok {
        assert ids[..|init|] == init;
        if r.ok {
          RunKeepsShape(p, init, remove);
          assert q.stickers[id].id == id;
          assert r.finished == q.finished + 1 && r.trace == q.trace + [ReadSticker(id), WriteSticker(id)];
          assert ReadWrites(ids) == ReadWrites(init) + [ReadSticker(id), WriteSticker(id)];
        } else {
          assert r.finished == q.finished && r.stickers == q.stickers && r.trace == q.trace + [ReadSticker(id)];
        }
      } else {
        assert init[..n] == ids[..n];
        assert ids[n] == init[n];
      }
    }
  }

  /**
   * The inner loop on one fetched sticker: layer by layer in index order, each layer's
   * content is replaced by the service's result; a rejection abandons the sticker.
   */
  method CleanStickerLayers(s: Sticker, remove: Remover) returns (r: Option<Sticker>)
    ensures CleanLayers(s.layers, remove).None? ==> r.None?
    ensures CleanLayers(s.layers, remove).Some? ==> r == Some(s.(layers := CleanLayers(s.layers, remove).value))
  {
    var layers := s.layers;
    var i := 0;
    while i < |layers|
      invariant 0 <= i <= |layers| && |layers| == |s.layers|
      invariant forall j :: 0 <= j < i ==> remove(s.layers[j].content).Some?
                                           && layers[j] == s.layers[j].(content := remove(s.layers[j].content).value)
      invariant forall j :: i <= j < |layers| ==> layers[j] == s.layers[j]
    {
      var content := remove(layers[i].content);
      if content.None? {
        return None;
      }
      layers := layers[i := layers[i].(content := content.value)];
      i := i + 1;
    }
    assert AllRemoved(s.layers, remove);
    assert layers == CleanLayers(s.layers, remove).value;
    r := Some(s.(layers := layers));
  }

  /**
   * The batch command. If a pass is already running it returns at once. Otherwise it
   * raises the flag, runs the pass over the pack's ids as they were at the call, and lowers
   * the flag only if the pass ran through: a rejected read or removal leaves it raised.
   * `finished` is the progress counter.
   */
  method CleanAllBackground(app: AppState, remove: Remover) returns (started: bool, finished: nat, completed: bool)
    modifies app, app.store
    ensures started == !old(app.isBatchProcessing)
    ensures !started ==> app.isBatchProcessing && !completed && finished == 0
                         && app.store.stickers == old(app.store.stickers) && app.store.trace == old(app.store.trace)
    ensures started ==>
              var r := Run(Progress(old(app.store.stickers), old(app.store.trace), 0, true), old(app.pack.stickerIds), remove);
              app.store.stickers == r.stickers && app.store.trace == r.trace
              && finished == r.finished && completed == r.ok && app.isBatchProcessing == !completed
    ensures app.pack == old(app.pack) && app.store.packs == old(app.store.packs) && app.isDBReady == old(app.isDBReady)
  {
    started, finished, completed := false, 0, false;
    if app.isBatchProcessing {
      return;
    }
    started := true;
    app.SetIsBatchProcessing(true);
    var ids := app.pack.stickerIds;
    ghost var p0 := Progress(app.store.stickers, app.store.trace, 0, true);
    var i := 0;
    while i < |ids|
      invariant 0 <= i <= |ids|
      invariant Run(p0, ids[..i], remove) == Progress(app.store.stickers, app.store.trace, finished, true)
      invariant app.isBatchProcessing && app.pack == old(app.pack)
      invariant app.store.packs == old(app.store.packs) && app.isDBReady == old(app.isDBReady)
    {
      RunExtend(p0, ids, i, remove);
      var sticker := app.store.GetSticker(ids[i]);
      if sticker.None? {
        Stopped(p0, ids, i, remove);
        return;
      }
      var cleaned := CleanStickerLayers(sticker.value, remove);
      if cleaned.None? {
        Stopped(p0, ids, i, remove);
        return;
      }
      finished := finished + 1;
      app.store.SaveSticker(cleaned.value);
      i := i + 1;
    }
    assert ids[..i] == ids;
    app.SetIsBatchProcessing(false);
    completed := true;
  }

  /** The pass over one more id is one more Step. */
  lemma RunExtend(p: Progress, ids: seq<string>, i: nat, remove: Remover)
    requires i < |ids|
    ensures Run(p, ids[..i + 1], remove) == Step(Run(p, ids[..i], remove), ids[i], remove)
  {
    assert ids[..i + 1][..i] == ids[..i];
  }

  /** A pass that stops at ids[i] ends in the state it has right after that step. */
  lemma Stopped(p: Progress, ids: seq<string>, i: nat, remove: Remover)
    requires i < |ids| && !Run(p, ids[..i + 1], remove).ok
    ensures Run(p, ids, remove) == Run(p, ids[..i + 1], remove)
  {
    RunStaysStopped(p, ids[..i + 1], ids[i + 1..], remove);
    assert ids[..i + 1] + ids[i + 1..] == ids;
  }
}
