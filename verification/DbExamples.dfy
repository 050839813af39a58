// The two inputs at which a scan of the database is not the database: a key of
// blanks only, and an index file that has grown past the largest pointer.
module DbExamples {
  import opened Bytes
  import opened DbFormat
  import opened DbWorld
  import opened DbMachine
  import opened DbInv
  import opened DbOwners
  import opened DbScan
  import opened DbSingle
  import opened DbHandle

  // A stored key of one blank is fetched, and a scan ends without it.
  method BlankKeyIsMissed()
    returns (rc: Option<int>, got: Option<bytes>, pairs: seq<(bytes, bytes)>)
    ensures rc == Some(0) && got == Some([65]) && pairs == []
  {
    hide Machine, Counted, Remaining, MustAppend, MeetsExactly, Hash, BodyLen, Shows, Scannable, EncLen,
      LenOk, KeyOk, Rested;
    var db := new Db();
    BlankFits();
    EmptyFree(db);
    rc := db.Store([SPACE], [65], Upsert);
    got := db.Fetch([SPACE]);
    pairs := db.Scan();
    FilesOf(db);
    OnlyBlank(db.sys, db.w);
  }

  lemma FilesOf(db: Db)
    requires db.Valid()
    ensures Rested(db.sys, db.w) && db.w.idx == db.idx
  {
    hide Machine, Rested, Counted;
    RestedAlone(db.sys, db.w);
    SameIdxFile(db.sys, db.w);
  }

  lemma SameIdxFile(s: Sys, w: World)
    requires Machine(s, w)
    ensures s.idx == w.idx
  {}

  lemma BlankFits()
    ensures LenOk([SPACE], [65], 0) && KeyOk([SPACE]) && EncLen(Rec([SPACE], 0, 2)) == 16
  {
    assert Digits(0) == [48] && Digits(2) == [50];
  }

  // With no free record a new key has to be appended.
  lemma EmptyFree(db: Db)
    requires db.w.free == []
    ensures forall key, data, flag :: key !in db.w.m && flag != Replace ==> MustAppend(db.w, key, data, flag)
  {}

  // Where the map has no key but blank ones, and the file is small, a scan meets
  // nothing.
  lemma OnlyBlank(s: Sys, w: World)
    requires Rested(s, w) && |w.idx| <= PTR_MAX && forall key :: key in w.m ==> AllBlank(key)
    ensures Remaining(w, HDR) == []
  {
    hide Inv, Owners, AllBlank, Unlisted, DataOf, Remaining, WorldOk, Ascending;
    var l := Remaining(w, HDR);
    ScanMeets(s, w);
    Whole(s, w);
    if l != [] {
      var o := l[0];
      assert o in l;
      InsideFile(w, o);
      assert false;
    }
  }

  // ---------- a record past the largest pointer ----------

  // A thousand keys of a thousand characters.
  function LongKey(i: nat): bytes
    requires i <= 1000
  {
    seq(1000, k => if k < i then 65 else 66)
  }

  lemma LongKeyFacts(i: nat, n: nat)
    requires i <= 1000 && n <= 9999
    ensures KeyOk(LongKey(i)) && !AllBlank(LongKey(i)) && LenOk(LongKey(i), [68], n)
    ensures EncLen(Rec(LongKey(i), n, 2)) >= 1015
    ensures forall j: nat :: j < i ==> LongKey(j) != LongKey(i)
  {
    DigitsWidth(n);
    assert Digits(2) == [50];
    assert LongKey(i)[0] != SPACE;
    forall j: nat | j < i
      ensures LongKey(j) != LongKey(i)
    {
      assert LongKey(j)[j] != LongKey(i)[j];
    }
  }

  // The store of a key whose record comes to lie past the largest pointer ends
  // the process. Another process that opens the files does not find the key,
  // but its scan shows it.
  method AbandonedIsShown() returns (key: bytes, rc: Option<int>, got: Option<bytes>, pairs: seq<(bytes, bytes)>)
    ensures rc == None && got == None && (key, [68]) in pairs
  {
    hide Machine, Counted, Remaining, MustAppend, MeetsExactly, Hash, BodyLen, Shows, Scannable, EncLen,
      LenOk, Digits, LongKey, KeyOk, AllBlank, Pairs, Rested;
    var db := new Db();
    var i := 0;
    while |db.idx| <= PTR_MAX
      invariant db.Valid() && fresh(db) && NoneFree(db) && |db.dat| == 2 * i
      invariant HDR + 1015 * i <= |db.idx| && i <= 1000
      invariant forall k :: k in db.w.m ==> Used(k, i)
      decreases 1000 - i
    {
      rc := StoreLong(db, i);
      i := i + 1;
    }
    key := LongKey(i);
    LongKeyFacts(i, |db.dat|);
    EmptyFree(db);
    ghost var o := |db.idx|;
    rc := db.Store(key, [68], Upsert);
    assert Rested(db.sys, db.w) by {
      RestedAlone(db.sys, db.w);
    }
    var other := new Db.Open(db.idx, db.dat, db.sys, db.w);
    ghost var w := other.w;
    pairs := other.Scan();
    AbandonedInScan(w, key, [68], o);
    got := other.Fetch(key);
  }

  predicate Used(key: bytes, i: nat) { exists j: nat :: j < i <= 1000 && key == LongKey(j) }

  // Nothing has been deleted, so nothing is free.
  ghost predicate NoneFree(db: Db)
    reads db
  {
    db.w.free == []
  }

  // One more of the long keys.
  method StoreLong(db: Db, i: nat) returns (rc: Option<int>)
    requires db.Valid() && NoneFree(db) && i < 1000 && |db.dat| == 2 * i && |db.idx| <= PTR_MAX
    requires forall k :: k in db.w.m ==> Used(k, i)
    modifies db
    ensures db.Valid() && NoneFree(db) && |db.dat| == 2 * (i + 1) && |db.idx| >= old(|db.idx|) + 1015
    ensures forall k :: k in db.w.m ==> Used(k, i + 1)
  {
    hide Machine, Counted, MustAppend, Hash, BodyLen, EncLen, LenOk, Digits, LongKey, KeyOk, AllBlank;
    LongKeyFacts(i, |db.dat|);
    EmptyFree(db);
    rc := db.Store(LongKey(i), [68], Upsert);
    assert Used(LongKey(i), i + 1);
    forall k | k in db.w.m
      ensures Used(k, i + 1)
    {
      if k != LongKey(i) {
        var j: nat :| j < i && k == LongKey(j);
      }
    }
  }

  lemma AbandonedInScan(w: World, key: bytes, data: bytes, o: nat)
    requires MeetsExactly(w, Remaining(w, HDR)) && Abandoned(w, key, data, o) && !AllBlank(key)
    ensures (key, data) in Pairs(w, Remaining(w, HDR))
  {
    hide AllBlank, Remaining, Unlisted, Live, DataOf, Ascending;
    var l := Remaining(w, HDR);
    assert o in l;
    var k :| 0 <= k < |l| && l[k] == o;
    assert Pairs(w, l)[k] == (key, data);
  }
}
