// What removing a record from a list, or pushing one on its front, does to the
// links, to the ownership of records, and to the part of the map a chain holds.
module DbStepLists {
  import opened Bytes
  import opened DbFormat
  import opened DbWorld
  import opened DbMachine
  import opened DbInv
  import opened DbStable
  import opened DbStepFrame
  import opened DbStepRead

  // ---------- links ----------

  lemma InRemoveAt(path: seq<nat>, k: nat, o: nat)
    requires k < |path| && NoDup(path)
    ensures o in RemoveAt(path, k) <==> o in path && o != path[k]
    ensures NoDup(RemoveAt(path, k))
  {
    var r := RemoveAt(path, k);
    if o in path && o != path[k] {
      var j :| 0 <= j < |path| && path[j] == o;
      assert r[if j < k then j else j - 1] == o;
    }
  }

  // Redirecting the cell that points at position k past it unlinks position k.
  lemma LinkedRemove(cells: map<nat, nat>, start: nat, path: seq<nat>, k: nat)
    requires Linked(cells, start, path) && NoDup(path) && start !in path && k < |path|
    ensures path[k] in cells
    ensures Linked(cells[At(start, path, k) := cells[path[k]]], start, RemoveAt(path, k))
  {
    var c := At(start, path, k);
    var r := RemoveAt(path, k);
    assert At(start, path, k + 1) == path[k];
    var cells' := cells[c := cells[path[k]]];
    forall j | 0 <= j <= |r|
      ensures At(start, r, j) in cells' && cells'[At(start, r, j)] == Nth(r, j)
    {
      if j < k {
        assert At(start, r, j) == At(start, path, j) != c;
        assert Nth(r, j) == Nth(path, j);
      } else if j == k {
        assert At(start, r, j) == c;
        assert Nth(r, j) == Nth(path, k + 1);
      } else {
        assert At(start, r, j) == At(start, path, j + 1) != c;
        assert Nth(r, j) == Nth(path, j + 1);
      }
    }
  }

  lemma LinkedPush(cells: map<nat, nat>, start: nat, path: seq<nat>, o: nat)
    requires Linked(cells, start, path) && o !in path && o != start && start !in path
    requires o in cells && start in cells && cells[o] == cells[start]
    ensures Linked(cells[start := o], start, [o] + path)
  {
    var r := [o] + path;
    assert cells[At(start, path, 0)] == Nth(path, 0);
    forall j | 0 <= j <= |r|
      ensures At(start, r, j) in cells[start := o] && cells[start := o][At(start, r, j)] == Nth(r, j)
    {
      if j >= 2 {
        assert At(start, r, j) == At(start, path, j - 1);
        assert Nth(r, j) == Nth(path, j - 1);
      } else if j == 1 {
        assert Nth(r, 1) == Nth(path, 0);
      }
    }
  }

  lemma LinkedFrame(cells: map<nat, nat>, start: nat, path: seq<nat>, c: nat, v: nat)
    requires Linked(cells, start, path) && c != start && c !in path
    ensures Linked(cells[c := v], start, path)
  {}

  // ---------- ownership ----------

  predicate Starts(w: World, h: nat) {
    h < |w.chains| && ChainOff(h) !in w.chains[h] && FREE_OFF !in w.chains[h] && ChainOff(h) !in w.free
  }

  lemma StartsOutside(w: World, h: nat)
    requires WorldOk(w) && h < NHASH
    ensures Starts(w, h) && FREE_OFF !in w.free
    ensures HdrCell(ChainOff(h)) && HdrCell(FREE_OFF) && ChainOff(h) in w.cells && FREE_OFF in w.cells
        && ChainOff(h) != FREE_OFF
  {
    hide RecAt, PtrAt, RecOk, DatOk, Linked;
    assert HdrCell(ChainOff(h)) && HdrCell(FREE_OFF);
    assert ChainOff(h) !in w.recs && FREE_OFF !in w.recs;
    assert ChainOff(h) !in w.loc && FREE_OFF !in w.loc;
  }

  function TakeFromChain(w: World, h: nat, k: nat, i: nat): World
    requires h < |w.chains| && k < |w.chains[h]|
  {
    w.(chains := w.chains[h := RemoveAt(w.chains[h], k)], loc := w.loc[w.chains[h][k] := HeldBy(i)])
  }

  function TakeFromFree(w: World, k: nat, i: nat): World
    requires k < |w.free|
  {
    w.(free := RemoveAt(w.free, k), loc := w.loc[w.free[k] := HeldBy(i)])
  }

  function PutOnFree(w: World, o: nat): World { w.(free := [o] + w.free, loc := w.loc[o := OnFree]) }

  function PutOnChain(w: World, h: nat, o: nat): World
    requires h < |w.chains|
  {
    w.(chains := w.chains[h := [o] + w.chains[h]], loc := w.loc[o := OnChain(h)])
  }

  lemma TakeFromChainLists(w: World, h: nat, k: nat, i: nat)
    requires ListsOk(w) && h < NHASH && k < |w.chains[h]|
    ensures ListsOk(TakeFromChain(w, h, k, i))
  {
    var w' := TakeFromChain(w, h, k, i);
    var o := w.chains[h][k];
    assert o in w.chains[h];
    forall g, x | 0 <= g < NHASH
      ensures NoDup(w'.chains[g])
      ensures x in w'.chains[g] <==> x in w'.loc && w'.loc[x] == OnChain(g)
    {
      if g == h {
        TakenFromOwn(w, h, k, i, x);
      } else {
        TakenFromOther(w, h, k, i, g, x);
      }
    }
  }

  lemma TakenFromOwn(w: World, h: nat, k: nat, i: nat, x: nat)
    requires ListsOk(w) && h < NHASH && k < |w.chains[h]|
    ensures var w' := TakeFromChain(w, h, k, i);
      NoDup(w'.chains[h]) && (x in w'.chains[h] <==> x in w'.loc && w'.loc[x] == OnChain(h))
  {
    hide NoDup;
    var o := w.chains[h][k];
    assert o in w.chains[h];
    InRemoveAt(w.chains[h], k, x);
  }

  lemma TakenFromOther(w: World, h: nat, k: nat, i: nat, g: nat, x: nat)
    requires ListsOk(w) && h < NHASH && k < |w.chains[h]| && g < NHASH && g != h
    ensures var w' := TakeFromChain(w, h, k, i);
      NoDup(w'.chains[g]) && (x in w'.chains[g] <==> x in w'.loc && w'.loc[x] == OnChain(g))
  {
    hide NoDup, RemoveAt;
    var o := w.chains[h][k];
    assert o in w.chains[h];
    assert x == o ==> w.loc[x] == OnChain(h);
  }

  lemma TakeFromFreeLists(w: World, k: nat, i: nat)
    requires ListsOk(w) && k < |w.free|
    ensures ListsOk(TakeFromFree(w, k, i))
  {
    var w' := TakeFromFree(w, k, i);
    var o := w.free[k];
    assert o in w.free;
    forall x
      ensures NoDup(w'.free)
      ensures x in w'.free <==> x in w'.loc && w'.loc[x] == OnFree
    {
      InRemoveAt(w.free, k, x);
    }
  }

  lemma PutOnFreeLists(w: World, o: nat, i: nat)
    requires ListsOk(w) && o in w.loc && w.loc[o] == HeldBy(i)
    ensures ListsOk(PutOnFree(w, o))
  {
    assert o !in w.free;
    forall h | 0 <= h < NHASH
      ensures o !in w.chains[h]
    {}
  }

  lemma PutOnChainLists(w: World, h: nat, o: nat, i: nat)
    requires ListsOk(w) && h < NHASH && o in w.loc && w.loc[o] == HeldBy(i)
    ensures ListsOk(PutOnChain(w, h, o))
  {
    assert o !in w.free;
    forall g | 0 <= g < NHASH
      ensures o !in w.chains[g]
    {}
  }

  // ---------- the guarantee, from what is touched ----------

  // Records process i, in state p, may touch.
  ghost predicate Owned(w: World, i: nat, p: Proc, o: nat) {
    && o in w.loc
    && (w.loc[o] == HeldBy(i)
        || (w.loc[o] == OnChain(HashOf(p)) && WritesChain(p))
        || (w.loc[o] == OnFree && HoldsFree(p)))
  }

  ghost predicate HeadsKept(w: World, w': World, p: Proc)
    requires |w.chains| == NHASH && |w'.chains| == NHASH
  {
    && (forall h :: 0 <= h < NHASH && !(WritesChain(p) && HashOf(p) == h) ==>
          && w'.chains[h] == w.chains[h]
          && ChainOff(h) in w.cells && ChainOff(h) in w'.cells && w'.cells[ChainOff(h)] == w.cells[ChainOff(h)]
          && SameKeys(w.m, w'.m, h))
    && (!HoldsFree(p) ==>
          w'.free == w.free && FREE_OFF in w.cells && FREE_OFF in w'.cells && w'.cells[FREE_OFF] == w.cells[FREE_OFF])
  }

  // Every record outside t is as it was, and where it was.
  ghost predicate OnlyRecs(w: World, w': World, t: set<nat>) {
    forall x :: x in w.recs && x !in t ==> SameRec(w, w', x) && x in w.loc && x in w'.loc && w'.loc[x] == w.loc[x]
  }

  ghost predicate PendingKept(w: World, w': World, i: nat) {
    forall a :: a in w.dloc && w.dloc[a].Pending? && w.dloc[a] != Pending(i) ==>
      && a in w'.dloc && w'.dloc[a] == w.dloc[a]
      && a in w.ext && a in w'.ext && w'.ext[a] == w.ext[a]
      && ReadAt(w'.dat, a, w.ext[a]) == ReadAt(w.dat, a, w.ext[a])
  }

  lemma Guaranteed(w: World, w': World, i: nat, p: Proc, t: set<nat>)
    requires ListsOk(w) && |w'.chains| == NHASH
    requires forall o :: o in t && o in w.recs ==> Owned(w, i, p, o)
    requires OnlyRecs(w, w', t) && HeadsKept(w, w', p) && PendingKept(w, w', i)
    requires !HoldsDat(p) ==> |w'.dat| == |w.dat|
    requires !HoldsTail(p) ==> |w'.idx| == |w.idx|
    ensures Guarantee(w, w', i, p)
  {
    hide SameRec, Hash, SameKeys, HoldsFree, HoldsDat, HoldsTail, WritesChain, ReadAt, ChainOff;
    forall h | 0 <= h < NHASH && !(WritesChain(p) && HashOf(p) == h)
      ensures SameChain(w, w', h)
    {
      forall x | x in w.chains[h]
        ensures SameRec(w, w', x)
      {
        assert x in w.loc && w.loc[x] == OnChain(h);
      }
    }
  }

  // ---------- contents ----------

  lemma ContentRemove(w: World, w': World, h: nat, k: nat, m: Map)
    requires h < |w.chains| && h < |w'.chains| && k < |w.chains[h]| && NoDup(w.chains[h])
    requires Content(w, h, m) && w'.chains[h] == RemoveAt(w.chains[h], k)
    requires forall x :: x in w.chains[h] && x != w.chains[h][k] ==> SameRec(w, w', x)
    ensures w.chains[h][k] in w.recs
    ensures Content(w', h, m - {w.recs[w.chains[h][k]].key})
  {
    hide Hash, ReadAt, DataOf;
    var c, c' := w.chains[h], w'.chains[h];
    var o := c[k];
    assert o in c;
    var key := w.recs[o].key;
    forall x | x in c'
      ensures x in c && x != o && SameRec(w, w', x) && w.recs[x].key != key
    {
      InRemoveAt(c, k, x);
    }
    forall y | y in m - {key} && Hash(y) == h
      ensures HasKey(w', c', y)
    {
      assert HasKey(w, c, y);
      var x :| x in c && x in w.recs && w.recs[x].key == y;
      InRemoveAt(c, k, x);
      assert SameRec(w, w', x);
    }
  }

  lemma ContentPush(w: World, w': World, h: nat, o: nat, m: Map, m': Map, key: bytes, data: bytes)
    requires h < |w.chains| && h < |w'.chains|
    requires Content(w, h, m) && w'.chains[h] == [o] + w.chains[h]
    requires forall x :: x in w.chains[h] ==> SameRec(w, w', x)
    requires key !in m && m' == m[key := data] && Hash(key) == h
    requires o in w'.recs && w'.recs[o].key == key && DataOf(w'.dat, w'.recs[o]) == data + [NEWLINE]
    ensures Content(w', h, m')
  {
    hide Hash, ReadAt, DataOf;
    var c, c' := w.chains[h], w'.chains[h];
    forall x | x in c'
      ensures x == o || (x in c && SameRec(w, w', x) && w.recs[x].key != key)
    {}
    forall y | y in m' && Hash(y) == h
      ensures HasKey(w', c', y)
    {
      if y == key {
        assert o in c';
      } else {
        assert HasKey(w, c, y);
        var x :| x in c && x in w.recs && w.recs[x].key == y;
        assert x in c' && SameRec(w, w', x);
      }
    }
  }

  // Rewriting the value of one record on the chain.
  lemma ContentOverwrite(w: World, w': World, h: nat, o: nat, m: Map, data: bytes)
    requires h < |w.chains| && h < |w'.chains| && o in w.chains[h] && o in w.recs
    requires Content(w, h, m) && w'.chains[h] == w.chains[h] && w'.recs == w.recs
    requires forall x :: x in w.chains[h] && x != o ==> SameRec(w, w', x)
    requires DataOf(w'.dat, w.recs[o]) == data + [NEWLINE]
    ensures Content(w', h, m[w.recs[o].key := data])
  {
    hide Hash, ReadAt, DataOf;
    var c := w.chains[h];
    var key := w.recs[o].key;
    var m' := m[key := data];
    forall x | x in c
      ensures x in w'.recs && Hash(w'.recs[x].key) == h && w'.recs[x].key in m'
      ensures DataOf(w'.dat, w'.recs[x]) == m'[w'.recs[x].key] + [NEWLINE]
    {
      if x != o {
        assert SameRec(w, w', x);
        assert w.recs[x].key != key;
      }
    }
    forall y | y in m' && Hash(y) == h
      ensures HasKey(w', c, y)
    {
      assert HasKey(w, c, y);
      var x :| x in c && x in w.recs && w.recs[x].key == y;
    }
  }

  // ---------- a step that writes ----------

  lemma StepWrite(s: Sys, w: World, i: nat, s': Sys, w': World, t: set<nat>)
    requires Inv(s, w) && i < |s.procs| == |s'.procs| && s'.procs == s.procs[i := s'.procs[i]]
    requires s'.locks == s.locks && s'.log == s.log && s'.idx == w'.idx && s'.dat == w'.dat && w'.m == w.m
    requires SameHolds(s.procs[i], s'.procs[i])
    requires WorldOk(w')
    requires forall o :: o in t && o in w.recs ==> Owned(w, i, s.procs[i], o)
    requires OnlyRecs(w, w', t) && HeadsKept(w, w', s.procs[i]) && PendingKept(w, w', i)
    requires !HoldsDat(s.procs[i]) ==> |w'.dat| == |w.dat|
    requires !HoldsTail(s.procs[i]) ==> |w'.idx| == |w.idx|
    requires PInv(w', i, s'.procs[i]) && MyChain(w', s'.procs[i])
    ensures Inv(s', w')
  {
    hide Rep, FreeInv, ListsOk, PInv, MyChain, ChainInv, Hash, LocksOk, HoldsFree, HoldsDat, HoldsTail,
      HoldsChain, Owned, OnlyRecs, HeadsKept, PendingKept, Held, Legal, Replay, Guarantee;
    HeldSame(i, s.procs[i], s'.procs[i]);
    SameLocks(s, s', i, s'.procs[i]);
    Guaranteed(w, w', i, s.procs[i], t);
    Assemble(s, w, i, s', w');
  }
}
