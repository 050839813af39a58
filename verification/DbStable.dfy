// Non-interference. A step of process i may change its own chain, the free
// list while it holds that lock, the records and values in its own hands, and
// the end of a file while it holds that region; everything another process
// relies on stays as it is.
module DbStable {
  import opened Bytes
  import opened DbFormat
  import opened DbWorld
  import opened DbMachine
  import opened DbInv

  ghost predicate SameRec(w: World, w': World, o: nat) {
    && o in w.recs && o in w'.recs && w'.recs[o] == w.recs[o]
    && o in w.cells && o in w'.cells && w'.cells[o] == w.cells[o]
    && DataOf(w'.dat, w.recs[o]) == DataOf(w.dat, w.recs[o])
  }

  ghost predicate SameKeys(m: Map, m': Map, h: nat) {
    forall key :: Hash(key) == h ==> (key in m <==> key in m') && (key in m ==> m'[key] == m[key])
  }

  ghost predicate SameChain(w: World, w': World, h: nat)
    requires h < |w.chains| && h < |w'.chains|
  {
    && w'.chains[h] == w.chains[h]
    && ChainOff(h) in w.cells && ChainOff(h) in w'.cells && w'.cells[ChainOff(h)] == w.cells[ChainOff(h)]
    && (forall o :: o in w.chains[h] ==> SameRec(w, w', o))
    && SameKeys(w.m, w'.m, h)
  }

  ghost predicate SameFree(w: World, w': World) {
    && w'.free == w.free
    && FREE_OFF in w.cells && FREE_OFF in w'.cells && w'.cells[FREE_OFF] == w.cells[FREE_OFF]
    && (forall o :: o in w.free ==> SameRec(w, w', o))
  }

  ghost predicate SameHeld(w: World, w': World, q: nat) {
    && (forall o :: o in w.loc && w.loc[o] == HeldBy(q) ==>
          SameRec(w, w', o) && o in w'.loc && w'.loc[o] == HeldBy(q))
    && (forall a :: a in w.dloc && w.dloc[a] == Pending(q) ==>
          && a in w'.dloc && w'.dloc[a] == Pending(q)
          && a in w.ext && a in w'.ext && w'.ext[a] == w.ext[a]
          && ReadAt(w'.dat, a, w.ext[a]) == ReadAt(w.dat, a, w.ext[a]))
  }

  // What q, in state p, relies on.
  ghost predicate Undisturbed(w: World, w': World, q: nat, p: Proc)
    requires |w.chains| == NHASH && |w'.chains| == NHASH
  {
    && (HoldsChain(p) ==> SameChain(w, w', HashOf(p)))
    && (HoldsFree(p) ==> SameFree(w, w'))
    && SameHeld(w, w', q)
    && (HoldsDat(p) ==> |w'.dat| == |w.dat|)
    && (HoldsTail(p) ==> |w'.idx| == |w.idx|)
  }

  lemma AtStart(w: World, w': World, p: Proc)
    requires |w.chains| == NHASH && |w'.chains| == NHASH
    requires SameChain(w, w', HashOf(p)) && AtNode(w, p)
    ensures AtNode(w', p) && SameRec(w, w', p.offset)
  {
    var c := w.chains[HashOf(p)];
    forall j | 0 <= j < IndexOf(c, p.offset) && c[j] in w'.recs
      ensures w'.recs[c[j]].key != p.call.key
    {
      assert c[j] in c;
      assert SameRec(w, w', c[j]);
    }
  }

  // The facts that the later program counters are made of.
  lemma StableFacts(w: World, w': World, q: nat, p: Proc)
    requires |w.chains| == NHASH && |w'.chains| == NHASH
    requires Undisturbed(w, w', q, p) && HoldsChain(p) && p.chainoff == ChainOff(HashOf(p))
    ensures p.call.key in w.m <==> p.call.key in w'.m
    ensures SpecResult(w.m, p.call) == SpecResult(w'.m, p.call)
    ensures HasHead(w, p) ==> HasHead(w', p)
    ensures Holding(w, q, p, |p.call.key|) ==>
      (Holding(w', q, p, |p.call.key|)
       && w'.recs[p.idxoff] == w.recs[p.idxoff] && w'.cells[p.idxoff] == w.cells[p.idxoff])
    ensures Holding(w, q, p, |p.call.key|) && HasValue(w, p) ==> HasValue(w', p)
    ensures HasPending(w, q, p) ==> HasPending(w', q, p)
  {
    hide Digits, BodyLen, Hash, ReadAt, NoByte, KeyOk, ChainOff;
    assert SameKeys(w.m, w'.m, HashOf(p));
  }

  lemma StableWalk(w: World, w': World, q: nat, p: Proc)
    requires |w.chains| == NHASH && |w'.chains| == NHASH
    requires WalkInv(w, q, p) && Undisturbed(w, w', q, p) && GoodCall(p)
    ensures WalkInv(w', q, p)
  {
    hide Digits, BodyLen, Hash, ReadAt, NoByte, KeyOk, ChainOff, SpecResult, SameHeld;
    if HoldsChain(p) {
      StableFacts(w, w', q, p);
      if p.pc in {Walk1, Walk2, FReadDat, OverWrite} {
        AtStart(w, w', p);
      }
    }
  }

  lemma StableDelete(w: World, w': World, q: nat, p: Proc)
    requires |w.chains| == NHASH && |w'.chains| == NHASH
    requires DeleteInv(w, q, p) && Undisturbed(w, w', q, p) && GoodCall(p)
    ensures DeleteInv(w', q, p)
  {
    hide Digits, BodyLen, Hash, ReadAt, NoByte, KeyOk, ChainOff, HasHead, Holding, HasPending, HasValue,
      SpecResult, SameHeld;
    if HoldsChain(p) {
      StableFacts(w, w', q, p);
      if p.pc in {DLockFree, DWriteDat} {
        AtStart(w, w', p);
      }
    }
  }

  lemma StableFree(w: World, w': World, q: nat, p: Proc)
    requires |w.chains| == NHASH && |w'.chains| == NHASH
    requires FreeWalkInv(w, q, p) && Undisturbed(w, w', q, p) && GoodCall(p)
    ensures FreeWalkInv(w', q, p)
  {
    hide Digits, BodyLen, Hash, ReadAt, NoByte, KeyOk, ChainOff, HasHead, Holding, HasPending, HasValue,
      SpecResult, SameHeld;
    if HoldsChain(p) {
      StableFacts(w, w', q, p);
    }
  }

  lemma StableAppend(w: World, w': World, q: nat, p: Proc)
    requires |w.chains| == NHASH && |w'.chains| == NHASH
    requires AppendInv(w, q, p) && Undisturbed(w, w', q, p) && GoodCall(p)
    ensures AppendInv(w', q, p)
  {
    hide Digits, BodyLen, Hash, ReadAt, NoByte, KeyOk, ChainOff, HasHead, Holding, HasPending, HasValue,
      SpecResult, SameHeld;
    if HoldsChain(p) {
      StableFacts(w, w', q, p);
    }
  }

  lemma Stable(w: World, w': World, q: nat, p: Proc)
    requires |w.chains| == NHASH && |w'.chains| == NHASH
    requires PInv(w, q, p) && Undisturbed(w, w', q, p)
    ensures PInv(w', q, p)
  {
    hide WalkInv, DeleteInv, FreeWalkInv, AppendInv, Undisturbed;
    if !p.pc.Idle? && !p.pc.Dead? {
      StableWalk(w, w', q, p);
      StableDelete(w, w', q, p);
      StableFree(w, w', q, p);
      StableAppend(w, w', q, p);
    } else {
      NothingToKnow(w', q, p);
    }
  }

  lemma NothingToKnow(w: World, q: nat, p: Proc)
    requires |w.chains| == NHASH && (p.pc.Idle? || p.pc.Dead?)
    ensures PInv(w, q, p)
  {}

  // A chain nobody touched keeps its meaning, also with a pending unlink.
  lemma StableLinked(cells: map<nat, nat>, cells': map<nat, nat>, start: nat, path: seq<nat>)
    requires Linked(cells, start, path)
    requires forall k :: 0 <= k <= |path| ==>
      At(start, path, k) in cells' && cells'[At(start, path, k)] == cells[At(start, path, k)]
    ensures Linked(cells', start, path)
  {}

  lemma ChainCells(w: World, w': World, h: nat, k: nat)
    requires h < |w.chains| && h < |w'.chains| && SameChain(w, w', h) && k <= |w.chains[h]|
    ensures var c := At(ChainOff(h), w.chains[h], k); c in w.cells && c in w'.cells && w'.cells[c] == w.cells[c]
  {
    if k > 0 {
      assert w.chains[h][k - 1] in w.chains[h];
      assert SameRec(w, w', w.chains[h][k - 1]);
    }
  }

  lemma StableContent(w: World, w': World, h: nat, m: Map, m': Map)
    requires h < |w.chains| && h < |w'.chains|
    requires Content(w, h, m) && SameChain(w, w', h) && SameKeys(m, m', h)
    ensures Content(w', h, m')
  {
    hide Hash, ReadAt, DataOf, ChainOff;
    forall o | o in w'.chains[h]
      ensures o in w'.recs && Hash(w'.recs[o].key) == h && w'.recs[o].key in m'
      ensures DataOf(w'.dat, w'.recs[o]) == m'[w'.recs[o].key] + [NEWLINE]
    {
      assert SameRec(w, w', o);
    }
    forall a, b | a in w'.chains[h] && b in w'.chains[h] && a in w'.recs && b in w'.recs
        && w'.recs[a].key == w'.recs[b].key
      ensures a == b
    {
      assert SameRec(w, w', a) && SameRec(w, w', b);
    }
    forall key | key in m' && Hash(key) == h
      ensures HasKey(w', w'.chains[h], key)
    {
      assert HasKey(w, w.chains[h], key);
      var o :| o in w.chains[h] && o in w.recs && w.recs[o].key == key;
      assert SameRec(w, w', o);
    }
  }

  lemma SameKeysEff(p: Proc, m: Map, m': Map)
    requires SameKeys(m, m', HashOf(p))
    ensures SameKeys(Eff(p, m), Eff(p, m'), HashOf(p))
  {
    hide Hash;
    assert p.call.key in m <==> p.call.key in m';
  }

  lemma StableMyChain(w: World, w': World, p: Proc)
    requires |w.chains| == NHASH && |w'.chains| == NHASH
    requires MyChain(w, p) && SameChain(w, w', HashOf(p))
    ensures MyChain(w', p)
  {
    var h := HashOf(p);
    SameKeysEff(p, w.m, w'.m);
    StableContent(w, w', h, Eff(p, w.m), Eff(p, w'.m));
    forall k | 0 <= k <= |w.chains[h]|
      ensures At(ChainOff(h), w.chains[h], k) in CellsFor(w', p)
      ensures CellsFor(w', p)[At(ChainOff(h), w.chains[h], k)] == CellsFor(w, p)[At(ChainOff(h), w.chains[h], k)]
    {
      ChainCells(w, w', h, k);
    }
    StableLinked(CellsFor(w, p), CellsFor(w', p), ChainOff(h), w.chains[h]);
  }

  lemma StablePlain(w: World, w': World, h: nat)
    requires h < |w.chains| && h < |w'.chains|
    requires ChainInv(w, h, w.cells, w.m) && SameChain(w, w', h)
    ensures ChainInv(w', h, w'.cells, w'.m)
  {
    StableContent(w, w', h, w.m, w'.m);
    forall k | 0 <= k <= |w.chains[h]|
      ensures At(ChainOff(h), w.chains[h], k) in w'.cells
      ensures w'.cells[At(ChainOff(h), w.chains[h], k)] == w.cells[At(ChainOff(h), w.chains[h], k)]
    {
      ChainCells(w, w', h, k);
    }
    StableLinked(w.cells, w'.cells, ChainOff(h), w.chains[h]);
  }
}
