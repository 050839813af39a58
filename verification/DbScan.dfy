// What a sequential scan of the index file sees: the records from an offset on,
// those with an all-blank key left out.
module DbScan {
  import opened Bytes
  import opened DbFormat
  import opened Tiles
  import opened DbWorld
  import opened DbMachine
  import opened DbInv
  import opened DbStepWrite
  import opened DbOwners
  import opened DbStepRead
  import opened DbStepQuiet
  import opened DbStepEnd

  // The start of a record, or the end of the file.
  ghost predicate Boundary(w: World, pos: nat) {
    pos == |w.idx| || pos in w.recs
  }

  ghost function Remaining(w: World, pos: nat): seq<nat>
    decreases |w.idx| - pos
  {
    if pos in w.recs && pos < |w.idx| && EncLen(w.recs[pos]) > 0 then
      (if AllBlank(w.recs[pos].key) then [] else [pos]) + Remaining(w, pos + EncLen(w.recs[pos]))
    else []
  }

  lemma NextBoundary(w: World, pos: nat)
    requires RecsOk(w) && pos in w.recs
    ensures HDR <= pos && pos < pos + EncLen(w.recs[pos]) <= |w.idx| && Boundary(w, pos + EncLen(w.recs[pos]))
  {
    hide RecAt, RecOk, EncLen;
    EncLenPositive(w.recs[pos]);
    TilingNext(IdxExt(w.recs), HDR, |w.idx|, pos);
    RecInside(w.idx, pos, w.cells[pos], w.recs[pos]);
  }

  lemma FirstBoundary(w: World)
    requires RecsOk(w)
    ensures Boundary(w, HDR)
  {
    hide RecAt, RecOk, EncLen;
    TilingFirst(IdxExt(w.recs), HDR, |w.idx|);
  }

  ghost predicate Ascending(l: seq<nat>) {
    forall j, k :: 0 <= j < k < |l| ==> l[j] < l[k]
  }

  lemma AscendingPush(o: nat, l: seq<nat>)
    requires Ascending(l) && forall k :: 0 <= k < |l| ==> o < l[k]
    ensures Ascending([o] + l)
  {}

  // A scan sees exactly the records with a non-blank key, in file order.
  lemma {:induction false} RemainingExact(w: World, pos: nat)
    requires RecsOk(w) && Boundary(w, pos)
    ensures forall o :: o in Remaining(w, pos) <==> o in w.recs && pos <= o && !AllBlank(w.recs[o].key)
    ensures Ascending(Remaining(w, pos))
    decreases |w.idx| - pos
  {
    hide RecAt, RecOk, EncLen, AllBlank, Ascending;
    if pos in w.recs {
      NextBoundary(w, pos);
      var n := pos + EncLen(w.recs[pos]);
      RemainingExact(w, n);
      var l, l' := Remaining(w, pos), Remaining(w, n);
      if AllBlank(w.recs[pos].key) {
        assert l == l';
      } else {
        assert l == [pos] + l';
        forall k | 0 <= k < |l'|
          ensures pos < l'[k]
        {
          assert l'[k] in l';
        }
        AscendingPush(pos, l');
      }
      forall o
        ensures o in l <==> o in w.recs && pos <= o && !AllBlank(w.recs[o].key)
      {
        assert o in w.recs && pos < o ==> n <= o;
        assert o in l <==> o in l' || (o == pos && !AllBlank(w.recs[pos].key));
      }
    } else {
      assert Remaining(w, pos) == [];
      EmptyAscending();
      forall o | o in w.recs
        ensures o < pos
      {
        NextBoundary(w, o);
      }
    }
  }

  lemma EmptyAscending()
    ensures Ascending([])
  {}

  // ---------- what the records met are ----------

  // A reachable state with no call in progress.
  ghost predicate Rested(s: Sys, w: World) { Inv(s, w) && Owners(s, w) && AllQuiet(s) }

  // The key and the value of a record.
  ghost function PairAt(w: World, o: nat): (bytes, bytes) {
    if o !in w.recs then ([], [])
    else
      var d := DataOf(w.dat, w.recs[o]);
      (w.recs[o].key, if d == [] then [] else d[..|d| - 1])
  }

  ghost function Pairs(w: World, l: seq<nat>): seq<(bytes, bytes)> {
    seq(|l|, k requires 0 <= k < |l| => PairAt(w, l[k]))
  }

  // The record is live: the map has its key with its value.
  ghost predicate Live(w: World, o: nat) {
    o in w.recs && w.recs[o].key in w.m && PairAt(w, o) == (w.recs[o].key, w.m[w.recs[o].key])
  }

  // A record with a non-blank key either starts within reach of a pointer, and
  // is live and on the chain of its hash; or it was abandoned by a process that
  // died, and is on no list.
  lemma SeenRecord(s: Sys, w: World, o: nat)
    requires Rested(s, w) && o in w.recs && !AllBlank(w.recs[o].key)
    ensures var r := w.recs[o];
      |DataOf(w.dat, r)| == r.datlen && IsLine(DataOf(w.dat, r)) && DataOf(w.dat, r) == PairAt(w, o).1 + [NEWLINE]
    ensures o <= PTR_MAX ==> Live(w, o) && o in w.chains[Hash(w.recs[o].key)]
    ensures o > PTR_MAX ==> Unlisted(w, o) && !NoDeaths(s.log)
  {
    hide Inv, WorldOk, Hash, Linked, AllBlank, ReadAt, Unlisted, NoDeaths;
    Whole(s, w);
    QuietRecord(s, w, o);
    RecFacts(w, o);
    ValueRead(w, w.recs[o].datoff);
    LineSplit(DataOf(w.dat, w.recs[o]));
    if o <= PTR_MAX {
      QuietChains(s, w);
      assert ChainInv(w, Hash(w.recs[o].key), w.cells, w.m);
      LineJoin(w.m[w.recs[o].key]);
    }
  }

  lemma LineSplit(d: bytes)
    requires IsLine(d)
    ensures d == d[..|d| - 1] + [NEWLINE]
  {}

  lemma LineJoin(v: bytes)
    ensures (v + [NEWLINE])[..|v + [NEWLINE]| - 1] == v
  {}

  lemma ValueRead(w: World, a: nat)
    requires WorldOk(w) && a in w.ext
    ensures |ReadAt(w.dat, a, w.ext[a])| == w.ext[a] && IsLine(ReadAt(w.dat, a, w.ext[a]))
  {
    hide HeaderOk, CellsOk, RecsOk, ListsOk, FreeInv, IsLine;
    ReadData(w, a);
  }

  // Every stored key is that of exactly one record within reach.
  lemma LiveRecord(s: Sys, w: World, key: bytes) returns (o: nat)
    requires Rested(s, w) && key in w.m
    ensures o in w.recs && HDR <= o <= PTR_MAX && w.recs[o].key == key
    ensures forall x :: x in w.recs && x <= PTR_MAX && w.recs[x].key == key && !AllBlank(key) ==> x == o
  {
    hide Inv, WorldOk, Linked, AllBlank, ReadAt, Hash, Unlisted;
    Whole(s, w);
    QuietChains(s, w);
    var h := Hash(key);
    assert ChainInv(w, h, w.cells, w.m);
    assert HasKey(w, w.chains[h], key);
    o :| o in w.chains[h] && o in w.recs && w.recs[o].key == key;
    RecFacts(w, o);
    ListedSmall(w, ChainOff(h), w.chains[h], o);
    forall x | x in w.recs && x <= PTR_MAX && w.recs[x].key == key && !AllBlank(key)
      ensures x == o
    {
      SeenRecord(s, w, x);
    }
  }

  // ---------- a whole scan ----------

  // The pairs are the map: every one of its pairs once, and nothing else.
  ghost predicate Shows(pairs: seq<(bytes, bytes)>, m: Map) {
    && (forall k :: 0 <= k < |pairs| ==> pairs[k].0 in m && m[pairs[k].0] == pairs[k].1)
    && (forall j, k :: 0 <= j < k < |pairs| ==> pairs[j].0 != pairs[k].0)
    && (forall key :: key in m ==> HasPair(pairs, key))
  }

  ghost predicate HasPair(pairs: seq<(bytes, bytes)>, key: bytes) {
    exists k :: 0 <= k < |pairs| && pairs[k].0 == key
  }

  ghost predicate MeetsExactly(w: World, l: seq<nat>) {
    && Ascending(l)
    && (forall o :: o in l <==> o in w.recs && !AllBlank(w.recs[o].key))
    && (forall o :: o in l ==> if o <= PTR_MAX then Live(w, o) else Unlisted(w, o))
    && (forall a, b :: a in l && b in l && a <= PTR_MAX && b <= PTR_MAX && w.recs[a].key == w.recs[b].key ==> a == b)
    && (forall key :: key in w.m && !AllBlank(key) ==> Met(w, l, key))
  }

  // Main result: what a scan meets after db_rewind, once no call is in
  // progress, whatever processes have worked on the files and died. In file
  // order and each once, it meets the pairs of the map whose key is not all
  // blanks, and the records with such a key that were abandoned past the
  // largest pointer, which db_fetch does not find.
  lemma ScanMeets(s: Sys, w: World)
    requires Rested(s, w)
    ensures MeetsExactly(w, Remaining(w, HDR))
    ensures NoDeaths(s.log) ==> forall o :: o in Remaining(w, HDR) ==> o <= PTR_MAX
  {
    hide Inv, WorldOk, AllBlank, ReadAt, Remaining, Hash, Unlisted, NoDeaths, Ascending, Live;
    Whole(s, w);
    Tiled(w);
    var l := Remaining(w, HDR);
    FirstBoundary(w);
    RemainingExact(w, HDR);
    forall o | o in w.recs
      ensures HDR <= o
    {
      NextBoundary(w, o);
    }
    forall o | o in l
      ensures if o <= PTR_MAX then Live(w, o) else Unlisted(w, o)
      ensures NoDeaths(s.log) ==> o <= PTR_MAX
    {
      SeenRecord(s, w, o);
    }
    forall a, b | a in l && b in l && a <= PTR_MAX && b <= PTR_MAX && w.recs[a].key == w.recs[b].key
      ensures a == b
    {
      LiveKey(w, a);
      var o := LiveRecord(s, w, w.recs[a].key);
    }
    forall key | key in w.m && !AllBlank(key)
      ensures Met(w, l, key)
    {
      var o := LiveRecord(s, w, key);
      assert o in l;
    }
  }

  // The scan meets a record of the key that a pointer can lead to.
  ghost predicate Met(w: World, l: seq<nat>, key: bytes) {
    exists o :: o in l && o in w.recs && o <= PTR_MAX && w.recs[o].key == key
  }

  lemma LiveKey(w: World, o: nat)
    requires Live(w, o)
    ensures o in w.recs && w.recs[o].key in w.m
  {}

  // No stored key is all blanks, and no record with another key was abandoned.
  ghost predicate Scannable(w: World) {
    && (forall key :: key in w.m ==> !AllBlank(key))
    && (forall o :: o in w.recs && !AllBlank(w.recs[o].key) ==> o <= PTR_MAX)
  }

  // Main result. A scan shows exactly the map if and only if no stored key is
  // all blanks and no record with a key that is not starts past the largest
  // pointer.
  lemma ScanExact(s: Sys, w: World)
    requires Rested(s, w)
    ensures Shows(Pairs(w, Remaining(w, HDR)), w.m) <==> Scannable(w)
  {
    hide Inv, Owners, AllQuiet, AllBlank, Remaining, Unlisted, NoDeaths, Live, DataOf, Ascending;
    ScanMeets(s, w);
    var l := Remaining(w, HDR);
    var pairs := Pairs(w, l);
    if Scannable(w) {
      ScanAll(w, l);
    }
    if Shows(pairs, w.m) {
      ScanOnly(w, l);
    }
  }

  lemma ScanAll(w: World, l: seq<nat>)
    requires Ascending(l) && Scannable(w)
    requires forall o :: o in l ==> o in w.recs && o <= PTR_MAX && Live(w, o)
    requires forall a, b :: a in l && b in l && w.recs[a].key == w.recs[b].key ==> a == b
    requires forall key :: key in w.m ==> Met(w, l, key)
    ensures Shows(Pairs(w, l), w.m)
  {
    hide AllBlank, DataOf;
    var pairs := Pairs(w, l);
    forall k | 0 <= k < |pairs|
      ensures pairs[k].0 in w.m && w.m[pairs[k].0] == pairs[k].1
    {
      assert l[k] in l;
    }
    forall j, k | 0 <= j < k < |pairs|
      ensures pairs[j].0 != pairs[k].0
    {
      assert l[j] in l && l[k] in l && l[j] != l[k];
    }
    forall key | key in w.m
      ensures HasPair(pairs, key)
    {
      assert Met(w, l, key);
      var o :| o in l && o in w.recs && w.recs[o].key == key;
      var k :| 0 <= k < |l| && l[k] == o;
      assert pairs[k].0 == key;
    }
  }

  lemma ScanOnly(w: World, l: seq<nat>)
    requires Shows(Pairs(w, l), w.m)
    requires forall o :: o in l <==> o in w.recs && !AllBlank(w.recs[o].key)
    requires forall key :: key in w.m && !AllBlank(key) ==> Met(w, l, key)
    ensures Scannable(w)
  {
    hide AllBlank, DataOf;
    var pairs := Pairs(w, l);
    forall key | key in w.m
      ensures !AllBlank(key)
    {
      assert HasPair(pairs, key);
      var k :| 0 <= k < |pairs| && pairs[k].0 == key;
      assert l[k] in l;
    }
    forall o | o in w.recs && !AllBlank(w.recs[o].key)
      ensures o <= PTR_MAX
    {
      assert o in l;
      var k :| 0 <= k < |l| && l[k] == o;
      assert pairs[k].0 == w.recs[o].key;
      assert Met(w, l, w.recs[o].key);
      var x :| x in l && x in w.recs && x <= PTR_MAX && w.recs[x].key == w.recs[o].key;
      var j :| 0 <= j < |l| && l[j] == x;
      assert pairs[j].0 == pairs[k].0;
    }
  }

  lemma Tiled(w: World)
    requires WorldOk(w)
    ensures RecsOk(w)
  {}

  // The failing input: a store that has appended its record past the largest
  // pointer ends with its key absent, and a scan of the files as it leaves them
  // meets that key.
  lemma AbandonedIsMet(s: Sys, w: World, i: nat)
    requires Inv(s, w) && i < |s.procs| && s.procs[i].pc.LinkHead?
    requires s.procs[i].idxoff > PTR_MAX && !AllBlank(s.procs[i].call.key)
    ensures var p, w' := s.procs[i], WDieLink(w, s.procs[i]);
      && Inv(DoLinkHead(s, i), w') && p.call.key !in w'.m
      && p.idxoff in Remaining(w', HDR) && p.idxoff in w'.recs && w'.recs[p.idxoff].key == p.call.key
  {
    hide Inv, AllBlank, Remaining, Hash, WorldOk, MyChain, PInv, Eff, CellsFor, PatchOf;
    var p := s.procs[i];
    var w' := WDieLink(w, p);
    StepDieLink(s, w, i);
    Mine(s, w, i);
    AppendOnly(w, i, p);
    Whole(DoLinkHead(s, i), w');
    Tiled(w');
    FirstBoundary(w');
    RemainingExact(w', HDR);
    NextBoundary(w', p.idxoff);
  }
}
