// Why a key may not hold a ':': what becomes of the chain it is stored on.
module DbSeparator {
  import opened Bytes
  import opened DbFormat
  import opened DbWorld
  import opened DbMachine

  lemma SepThere(x: bytes, y: bytes)
    requires NoByte(x, 0)
    ensures Find(x + [SEP] + y, SEP) < |x + [SEP] + y|
  {
    var s := x + [SEP] + y;
    FindIff(s, SEP);
    assert s[|x|] == SEP && s[..|x|] == x;
  }

  // What is formatted from a C string comes back if and only if it has no ':',
  // which would make too many separators, and the length of the value is one
  // that a value may have.
  lemma SeparatorLost(r: Rec)
    requires NoByte(r.key, 0)
    ensures ParseBody(Body(r)) == if SEP in r.key || r.datlen < 1 || r.datlen > 1024 then None else Some(r)
  {
    hide Digits, Find, ParseExtent;
    var u := Digits(r.datoff) + [SEP] + Digits(r.datlen);
    var t := r.key + [SEP] + u;
    assert Body(r)[..|Body(r)| - 1] == t;
    if SEP in r.key {
      SplitInside(r.key, u);
      var rest := r.key[Find(t, SEP) + 1..];
      TooMany(r.key[..Find(t, SEP)], rest, r);
      assert rest + [SEP] + u == rest + [SEP] + Digits(r.datoff) + [SEP] + Digits(r.datlen);
    } else {
      SplitFirst(r.key, u);
      ExtentRead(r.key, r.datoff, r.datlen);
    }
  }

  lemma ExtentRead(key: bytes, off: nat, len: nat)
    ensures ParseExtent(key, Digits(off) + [SEP] + Digits(len)) ==
      if len < 1 || len > 1024 then None else Some(Rec(key, off, len))
  {
    SplitFirst(Digits(off), Digits(len));
    FindNone(Digits(len), SEP);
    AtolOfDigits(off);
    AtolOfDigits(len);
  }

  // Neither is a record without its newline read back, nor one with fewer than
  // two separators.
  lemma Unfinished(buf: bytes, key: bytes, rest: bytes)
    requires NoByte(key, SEP) && NoByte(rest, SEP)
    ensures buf == [] || buf[|buf| - 1] != 10 ==> ParseBody(buf) == None
    ensures ParseBody(key + [NEWLINE]) == None && ParseBody(key + [SEP] + rest + [NEWLINE]) == None
  {
    var a, b := key + [NEWLINE], key + [SEP] + rest + [NEWLINE];
    assert a[..|a| - 1] == key && b[..|b| - 1] == key + [SEP] + rest;
    FindNone(key, SEP);
    var t := key + [SEP] + rest;
    var k := Find(t, SEP);
    if k < |t| {
      assert k == |key|;
      assert t[k + 1..] == rest;
      FindNone(rest, SEP);
    }
  }

  // The first separator is one of the key.
  lemma SplitInside(key: bytes, u: bytes)
    requires NoByte(key, 0) && SEP in key
    ensures var t := key + [SEP] + u;
      && Find(t, SEP) < |key| && t[..Find(t, SEP)] == key[..Find(t, SEP)]
      && t[Find(t, SEP) + 1..] == key[Find(t, SEP) + 1..] + [SEP] + u
  {
    var t := key + [SEP] + u;
    SepThere(key, u);
    var j :| 0 <= j < |key| && key[j] == SEP;
    assert t[j] == SEP;
    FirstBefore(t, j);
  }

  lemma FirstBefore(t: bytes, j: nat)
    requires j < |t| && t[j] == SEP && Find(t, SEP) < |t|
    ensures Find(t, SEP) <= j
  {
    var k := Find(t, SEP);
    assert forall i :: 0 <= i < k ==> t[i] == t[..k][i];
  }

  // The second separator is not the last one.
  lemma TooMany(key: bytes, rest: bytes, r: Rec)
    requires NoByte(rest, 0)
    ensures ParseExtent(key, rest + [SEP] + Digits(r.datoff) + [SEP] + Digits(r.datlen)) == None
  {
    hide Atol;
    var off, len := Digits(r.datoff), Digits(r.datlen);
    var u := rest + [SEP] + off + [SEP] + len;
    SepThere(rest, off + [SEP] + len);
    assert rest + [SEP] + (off + [SEP] + len) == u;
    var k := Find(u, SEP);
    assert u[|rest|] == SEP;
    FirstBefore(u, |rest|);
    var x := (rest + [SEP] + off)[k + 1..];
    assert u[k + 1..] == x + [SEP] + len;
    SepThere(x, len);
  }

  // The record at o is one that is read, and then found to have too many.
  predicate Spoiled(f: bytes, o: nat, ptr: nat, r: Rec) {
    && RecAt(f, o, ptr, r) && ptr <= PTR_MAX && IDXLEN_MIN <= BodyLen(r) <= IDXLEN_MAX && 0 < r.datlen <= DATLEN_MAX
    && NoByte(r.key, 0) && SEP in r.key
  }

  // A walk that comes to it ends the process.
  lemma SpoiledKills(s: Sys, i: nat, ptr: nat, r: Rec)
    requires i < |s.procs| && s.procs[i].pc.Walk1? && Spoiled(s.idx, s.procs[i].offset, ptr, r)
    ensures Next(Next(s, i), i).procs[i].pc.Dead?
  {
    hide Atol, ReadAt, Body, BodyLen, RecAt, ParseBody, OnFound, OnMissing;
    RecAtFields(s.idx, s.procs[i].offset, ptr, r);
    SeparatorLost(r);
    assert Next(s, i) == DoWalk1(s, i);
    assert Next(Next(s, i), i) == DoWalk2(Next(s, i), i);
  }

  // What CallOk is for. A store that links a record of such a key, and any other
  // call that begins its walk over that chain while the index file is as the
  // store has left it: the third system call of the walk ends that process.
  lemma SeparatorKills(s: Sys, i: nat, s1: Sys, k: nat, r: Rec)
    requires i < |s.procs| && s.procs[i].pc.LinkHead? && 0 < s.procs[i].idxoff <= PTR_MAX
    requires s.procs[i].chainoff + PTR_SZ <= s.procs[i].idxoff
    requires Spoiled(s.idx, s.procs[i].idxoff, s.procs[i].headval, r)
    requires s1.idx == Next(s, i).idx && k < |s1.procs| && s1.procs[k].pc.ReadHead?
    requires s1.procs[k].ptroff == s.procs[i].chainoff
    ensures Next(Next(Next(s1, k), k), k).procs[k].pc.Dead?
  {
    hide Digits, Pad, Atol, ReadAt, WriteAt, Body, BodyLen, RecAt, NoByte, Spoiled, PtrAt, DoWalk1, DoWalk2;
    var p := s.procs[i];
    assert Next(s, i).idx == WriteAt(s.idx, p.chainoff, Pad(p.idxoff, PTR_SZ));
    HeadWritten(s.idx, p.chainoff, p.idxoff, p.headval, r);
    assert Next(s1, k) == DoReadHead(s1, k);
    SpoiledKills(Next(s1, k), k, p.headval, r);
  }

  // The pointer is there, and the record is as it was.
  lemma HeadWritten(f: bytes, c: nat, o: nat, ptr: nat, r: Rec)
    requires c + PTR_SZ <= o <= PTR_MAX && Spoiled(f, o, ptr, r)
    ensures var f' := WriteAt(f, c, Pad(o, PTR_SZ)); GetPtr(f', c) == Some(o) && Spoiled(f', o, ptr, r)
  {
    hide Digits, Pad, Atol, WriteAt, Body, BodyLen;
    PtrRoundTrip(o);
    RecAtFrame(f, c, Pad(o, PTR_SZ), o, ptr, r);
    SliceWritten(f, c, Pad(o, PTR_SZ));
  }
}
