// One handle on a database of its own, as db.c is written: the DB structure is
// the object, the two files are byte strings it rewrites in place, the searches
// are loops. Beside every method runs, in ghost variables, the process machine
// with one process, so what is proved about the machine holds of this code; the
// err_dump checks that the machine never fails appear here as facts.
module DbHandle {
  import opened Bytes
  import opened DbFormat
  import opened DbWorld
  import opened DbMachine
  import opened DbInv
  import opened DbStepRead
  import opened DbStepQuiet
  import opened DbStepWrite
  import opened DbStepEnd
  import opened DbTheorems
  import opened DbProgress
  import opened DbOwners
  import opened DbScan
  import opened DbSingle

  // The counters of the DB structure.
  datatype Counters = Counters(
    delOk: nat, delErr: nat, fetchOk: nat, fetchErr: nat, nextRec: nat,
    stor1: nat, stor2: nat, stor3: nat, stor4: nat, storErr: nat)

  const ZERO := Counters(0, 0, 0, 0, 0, 0, 0, 0, 0, 0)

  // How many stored pairs, free records and index records there are.
  datatype Sizes = Sizes(live: nat, free: nat, recs: nat)

  ghost function SizesOf(w: World): Sizes { Sizes(|w.m|, |w.free|, |w.recs|) }

  // Conservation, from what the handle found when it was opened: live records,
  // free records and physical index records, from the counters.
  ghost predicate Counted(w: World, c: Counters, b: Sizes) {
    && |w.m| + c.delOk == b.live + c.stor1 + c.stor2
    && |w.free| + c.stor2 == b.free + c.delOk + c.stor3
    && |w.recs| == b.recs + c.stor1 + c.stor3
  }

  // f' is f with at most the n bytes at off rewritten or added.
  predicate OnlyAt(f: bytes, f': bytes, off: nat, n: nat) {
    && off <= |f| && |f'| == (if off + n <= |f| then |f| else off + n)
    && f'[..off] == f[..off]
    && (off + n <= |f| ==> f'[off + n..] == f[off + n..])
  }

  // Reading f at off as _db_readidx does gives the pointer and the record.
  predicate ReadsAs(f: bytes, off: nat, ptr: nat, r: Rec) {
    var front := ReadAt(f, off, PTR_SZ + IDXLEN_SZ);
    && |front| == PTR_SZ + IDXLEN_SZ && Atol(front[..PTR_SZ]) == ptr && Atol(front[PTR_SZ..]) == BodyLen(r)
    && ParseBody(ReadAt(f, off + PTR_SZ + IDXLEN_SZ, BodyLen(r))) == Some(r)
  }

  class Db {
    var idx: bytes
    var dat: bytes
    // Where the sequential scan stands in the index file; unknown once another
    // call has moved the descriptor.
    var scan: Option<nat>

    var idxbuf: bytes
    var datbuf: bytes
    var idxoff: nat
    var idxlen: nat
    var datoff: nat
    var datlen: nat
    var ptrval: nat
    var ptroff: nat
    var chainoff: nat

    var cnt: Counters

    ghost const base: Sizes
    ghost var sys: Sys
    ghost var w: World

    ghost predicate Valid()
      reads this
    {
      Mirrors(sys, w, idx, dat) && sys.procs[0].pc.Idle? && Counted(w, cnt, base)
    }

    ghost function Contents(): Map
      reads this
    {
      w.m
    }

    // db_open with O_CREAT | O_TRUNC.
    constructor ()
      ensures Valid() && Contents() == map[] && scan == Some(HDR) && Boundary(w, HDR)
      ensures cnt == ZERO && base == Sizes(0, 0, 0) && |idx| == HDR && dat == [] && w.free == []
    {
      idx, dat, scan := EmptyIndex(), [], Some(HDR);
      idxbuf, datbuf := [], [];
      idxoff, idxlen, datoff, datlen, ptrval, ptroff, chainoff := 0, 0, 0, 0, 0, 0, 0;
      cnt, base := ZERO, Sizes(0, 0, 0);
      sys, w := Init(1), EmptyWorld();
      new;
      InvInit(1);
      OwnersInit(1);
      EmptySize();
    }

    // db_open of files that other processes have worked on and, some of them
    // perhaps in the middle of a store, left.
    constructor Open(idx: bytes, dat: bytes, ghost s: Sys, ghost u: World)
      requires Rested(s, u) && s.idx == idx && s.dat == dat
      ensures Valid() && Contents() == u.m && this.idx == idx && this.dat == dat && w == u
      ensures scan == Some(HDR) && Boundary(w, HDR) && cnt == ZERO && base == SizesOf(u)
    {
      this.idx, this.dat, scan := idx, dat, Some(HDR);
      idxbuf, datbuf := [], [];
      idxoff, idxlen, datoff, datlen, ptrval, ptroff, chainoff := 0, 0, 0, 0, 0, 0, 0;
      cnt, base := ZERO, SizesOf(u);
      sys, w := Sys(idx, dat, [FRESH], {}, s.log), u;
      new;
      Reopened(s, u);
      Whole(s, u);
      Tiled(u);
      FirstBoundary(u);
    }

    // ---------- reading and writing the files ----------

    // _db_readptr
    method ReadPtr(offset: nat, ghost u: World) returns (v: nat)
      requires WorldOk(u) && u.idx == idx && offset in u.cells
      ensures v == u.cells[offset] && GetPtr(idx, offset) == Some(v)
    {
      hide WorldOk, Atol, ReadAt;
      GetCell(u, offset);
      var asciiptr := ReadAt(idx, offset, PTR_SZ);
      v := Atol(asciiptr);
    }

    // _db_readidx at an offset; None at end of file, which only a scan can meet.
    method ReadIdx(offset: nat, ghost u: World) returns (next: Option<nat>)
      requires WorldOk(u) && u.idx == idx && (offset == |idx| || offset in u.recs)
      modifies this`idxoff, this`ptrval, this`idxlen, this`idxbuf, this`datoff, this`datlen
      ensures idxoff == offset
      ensures next.None? <==> offset == |idx|
      ensures next.Some? ==>
        && offset in u.recs && offset in u.cells && next.value == ptrval == u.cells[offset]
        && idxlen == BodyLen(u.recs[offset]) && u.recs[offset] == Rec(idxbuf, datoff, datlen)
    {
      hide Atol, ReadAt, BodyLen, ListsOk, FreeInv, RecAt, PtrAt, HeaderOk, CellsOk, DatOk, RecOk, ParseBody;
      idxoff := offset;
      if offset in u.recs {
        ReadRec(u, offset);
        InsideFile(u, offset);
      }
      var front := ReadAt(idx, idxoff, PTR_SZ + IDXLEN_SZ);
      if |front| != PTR_SZ + IDXLEN_SZ {
        return None;
      }
      EndOfFile(idx, idxoff);
      ptrval := Atol(front[..PTR_SZ]);
      idxlen := Atol(front[PTR_SZ..]);
      var r := ParseBody(ReadAt(idx, idxoff + PTR_SZ + IDXLEN_SZ, idxlen)).value;
      idxbuf, datoff, datlen := r.key, r.datoff, r.datlen;
      next := Some(ptrval);
    }

    // _db_readdat; its check of the newline cannot fail.
    method ReadDat() returns (data: bytes)
      requires |ReadAt(dat, datoff, datlen)| == datlen && IsLine(ReadAt(dat, datoff, datlen))
      modifies this`datbuf
      ensures data == datbuf && data + [NEWLINE] == ReadAt(dat, datoff, datlen)
    {
      datbuf := ReadAt(dat, datoff, datlen);
      datbuf := datbuf[..datlen - 1];
      data := datbuf;
    }

    // _db_writeptr; false stands for its err_quit. A pointer written over a field
    // of the file is read back as itself, and no other byte changes.
    method WritePtr(offset: nat, v: nat) returns (ok: bool)
      modifies this`idx
      ensures ok <==> v <= PTR_MAX
      ensures !ok ==> idx == old(idx)
      ensures ok ==> idx == WriteAt(old(idx), offset, Pad(v, PTR_SZ))
      ensures ok && offset + PTR_SZ <= old(|idx|) ==>
        GetPtr(idx, offset) == Some(v) && OnlyAt(old(idx), idx, offset, PTR_SZ)
    {
      if v > PTR_MAX {
        return false;
      }
      PtrWritten(idx, offset, v);
      idx := WriteAt(idx, offset, Pad(v, PTR_SZ));
      ok := true;
    }

    // _db_writeidx; false stands for its err_quit and err_dump. A record written
    // in place of one of its length, or at the end, is read back as itself, and
    // no other byte changes.
    method WriteIdx(key: bytes, offset: nat, ptr: nat) returns (ok: bool)
      modifies this`idx, this`idxoff, this`ptrval, this`idxbuf
      ensures ok <==> Writable(ptr, Rec(key, datoff, datlen))
      ensures !ok ==> idx == old(idx)
      ensures ok ==>
        && idxoff == offset && ptrval == ptr
        && idx == WriteAt(old(idx), offset, Enc(ptr, Rec(key, datoff, datlen)))
      ensures var r := Rec(key, datoff, datlen);
        ok && RecOk(r) && (offset + EncLen(r) <= old(|idx|) || offset == old(|idx|)) ==>
          ReadsAs(idx, offset, ptr, r) && OnlyAt(old(idx), idx, offset, EncLen(r))
    {
      hide ReadsAs, OnlyAt, Enc, Body, BodyLen, RecOk, EncLen;
      ptrval := ptr;
      if ptrval > PTR_MAX {
        return false;
      }
      ghost var r := Rec(key, datoff, datlen);
      idxbuf := Body(Rec(key, datoff, datlen));
      BodyLength(r);
      var len := |idxbuf|;
      if len < IDXLEN_MIN || len > IDXLEN_MAX {
        return false;
      }
      RecWritten(idx, offset, ptr, r);
      assert Enc(ptr, r) == Pad(ptr, PTR_SZ) + Pad(len, IDXLEN_SZ) + idxbuf by {
        EncUnfold(ptr, r);
      }
      var asciiptrlen := Pad(ptr, PTR_SZ) + Pad(len, IDXLEN_SZ);
      idxoff := offset;
      idx := WriteAt(idx, idxoff, asciiptrlen + idxbuf);
      ok := true;
    }

    // _db_writedat. A value written in place of one of its length, or at the end,
    // is there with a newline, and no other byte changes.
    method WriteDat(data: bytes, offset: nat)
      modifies this`dat, this`datoff, this`datlen
      ensures datoff == offset && datlen == |data| + 1 && dat == WriteAt(old(dat), offset, data + [NEWLINE])
      ensures offset + datlen <= old(|dat|) || offset == old(|dat|) ==>
        ReadAt(dat, datoff, datlen) == data + [NEWLINE] && OnlyAt(old(dat), dat, datoff, datlen)
    {
      datoff := offset;
      datlen := |data| + 1;
      DatWritten(dat, offset, data + [NEWLINE]);
      dat := WriteAt(dat, datoff, data + [NEWLINE]);
    }

    // ---------- searching ----------

    // _db_hash: an unsigned sum that wraps around at 2^64, of characters that are
    // signed.
    method HashKey(key: bytes) returns (h: nat)
      ensures h == Hash(key) < NHASH
    {
      var hval := 0;
      var i := 0;
      while i < |key|
        invariant i <= |key| && hval == HashSum(key, i) % 0x1_0000_0000_0000_0000
      {
        var c := SignedChar(key[i]);
        i := i + 1;
        WrapAdd(HashSum(key, i - 1), c * i);
        hval := (hval + c * i) % 0x1_0000_0000_0000_0000;
      }
      h := hval % NHASH;
    }

    // The fields that the machine's process shares with the object.
    ghost predicate SameFields(q: Proc)
      reads this`chainoff, this`ptroff, this`idxoff, this`ptrval, this`datoff, this`datlen
    {
      && q.chainoff == chainoff && q.ptroff == ptroff && q.idxoff == idxoff && q.ptrval == ptrval
      && q.datoff == datoff && q.datlen == datlen
    }

    // _db_find_and_lock
    method FindAndLock(key: bytes, ghost c: Call, ghost s: Sys, ghost u: World) returns (found: bool, ghost s': Sys)
      requires Mirrors(s, u, idx, dat) && s.procs[0].pc.LockChain? && s.procs[0].call == c && c.key == key
      modifies this`scan, this`idxoff, this`ptrval, this`idxlen, this`idxbuf, this`datoff, this`datlen,
          this`ptroff, this`chainoff
      ensures Mirrors(s', u, idx, dat) && s'.log == s.log
      ensures found <==> key in u.m
      ensures found ==> datlen == |u.m[key]| + 1
      ensures s'.procs[0].call == c && s'.procs[0].chainoff == chainoff
      ensures found ==> s'.procs[0].pc == FoundPC(c, datlen) && SameFields(s'.procs[0]) && idxbuf == key
      ensures !found ==> s'.procs[0].pc == MissingPC(c)
      ensures unchanged(this`cnt, this`sys, this`w)
    {
      hide Inv, Owners, Hash, ChainOff, GetPtr, Left, WorldOk, BodyLen, EncLen, FoundPC, MissingPC;
      scan := None;
      var h := HashKey(key);
      chainoff := ChainOff(h);
      ptroff := chainoff;
      s' := GoLock(s, u);
      var offset := ReadPtr(ptroff, u);
      s' := GoHead(s', u);
      found := false;
      while offset != 0
        invariant Mirrors(s', u, idx, dat) && s'.log == s.log
        invariant if offset == 0 then s'.procs[0].pc == MissingPC(c) && s'.procs[0].call == c
            && s'.procs[0].chainoff == chainoff && key !in u.m
                  else Walking(s'.procs[0], offset, c, ptroff, chainoff)
        decreases offset != 0, Left(u, s'.procs[0])
      {
        s' := GoFront(s', u);
        InsideFile(u, offset);
        var next := ReadIdx(offset, u);
        s' := GoRest(s', u);
        if idxbuf == key {
          found := true;
          break;
        }
        ptroff := offset;
        offset := ptrval;
      }
    }

    // ---------- deleting ----------

    // _db_dodelete, on the record that was found; idxbuf holds its key.
    method DoDelete(ghost s: Sys, ghost u: World) returns (ghost s': Sys, ghost u': World)
      requires Mirrors(s, u, idx, dat) && s.procs[0].pc.DLockFree? && SameFields(s.procs[0])
      requires idxbuf == s.procs[0].call.key
      modifies this`idx, this`dat, this`idxoff, this`ptrval, this`idxbuf, this`datbuf, this`datoff, this`datlen
      ensures Mirrors(s', u', idx, dat) && u'.m == u.m && s'.log == s.log
      ensures s'.procs[0].call == s.procs[0].call && s'.procs[0].chainoff == chainoff
      ensures s'.procs[0].pc == if s'.procs[0].call.Store? then AReadHead else UnlockChain
      ensures |u'.free| == |u.free| + 1 && |u'.recs| == |u.recs|
      ensures |idx| == old(|idx|) && |dat| == old(|dat|)
      ensures unchanged(this`cnt, this`sys, this`w)
    {
      hide Machine, WriteAt, GetPtr, Enc, Pad, BodyLen, Body, Blanks, BlankData, WorldOk, ReadsAs, OnlyAt,
        RecOk;
      BlankedData(datlen);
      s', u' := GoDelete(s, u);
      SameKeyCount(u.recs, u'.recs);
      datbuf := Spaced(if datlen == 0 then 0 else datlen - 1);
      idxbuf := Spaced(|idxbuf|);
      WriteDat(datbuf, datoff);
      var freeptr := ReadPtr(FREE_OFF, u);
      var saveptr := ptrval;
      var ok := WriteIdx(idxbuf, idxoff, freeptr);
      assert ok;
      ok := WritePtr(FREE_OFF, idxoff);
      assert ok;
      ok := WritePtr(ptroff, saveptr);
      assert ok;
    }

    // ---------- storing ----------

    // _db_findfree: first fit, taken off the free list.
    method FindFree(keylen: nat, size: nat, ghost s: Sys, ghost u: World)
      returns (hit: bool, ghost s': Sys, ghost u': World)
      requires Mirrors(s, u, idx, dat) && s.procs[0].pc.FLockFree?
      requires |s.procs[0].call.key| == keylen && |StoreData(s.procs[0].call)| == size
      modifies this`idx, this`idxoff, this`ptrval, this`idxlen, this`idxbuf, this`datoff, this`datlen
      ensures Mirrors(s', u', idx, dat) && s'.log == s.log && u'.m == u.m && |u'.recs| == |u.recs|
      ensures var p, p' := s.procs[0], s'.procs[0];
        p'.call == p.call && p'.headval == p.headval && p'.chainoff == p.chainoff
      ensures !hit <==> NoFit(u, keylen, size)
      ensures hit ==>
        && s'.procs[0].pc.RWriteDat? && s'.procs[0].idxoff == idxoff <= PTR_MAX
        && s'.procs[0].datoff == datoff
      ensures hit ==> |u'.free| + 1 == |u.free|
      ensures !hit ==> u' == u && s'.procs[0].pc.ALockDat? && idx == old(idx)
      ensures unchanged(this`cnt, this`sys, this`w)
    {
      hide Inv, Owners, Hash, GetPtr, Left, WorldOk, BodyLen, EncLen, StoreData, WriteAt, Pad;
      u' := u;
      s' := GoFLock(s, u);
      var saveoffset := FREE_OFF;
      var offset := ReadPtr(FREE_OFF, u);
      s' := GoFHead(s', u);
      hit := false;
      while offset != 0
        invariant idx == old(idx) && Mirrors(s', u, idx, dat) && s'.log == s.log && SameCall(s'.procs[0], s.procs[0])
        invariant if offset == 0 then s'.procs[0].pc.FUnlockMiss? && NoFit(u, keylen, size)
                  else Seeking(u, s'.procs[0]) && s'.procs[0].offset == offset && s'.procs[0].saveoffset == saveoffset
        decreases offset != 0, Left(u, s'.procs[0])
      {
        s' := GoFFront(s', u);
        InsideFile(u, offset);
        var next := ReadIdx(offset, u);
        s' := GoFRest(s', u);
        if |idxbuf| == keylen && datlen == size {
          hit := true;
          break;
        }
        saveoffset := offset;
        offset := ptrval;
      }
      if hit {
        s', u' := GoTake(s', u);
        var ok := WritePtr(saveoffset, ptrval);
        assert ok;
      } else {
        s' := GoMiss(s', u);
      }
    }

    // Appending to both files and linking at the head of the chain, as the two
    // appending paths of db_store do; it can end the process on the way.
    method AppendRecord(key: bytes, data: bytes, ptr: nat, ghost s: Sys, ghost u: World)
      returns (alive: bool, ghost s': Sys, ghost u': World)
      requires Mirrors(s, u, idx, dat) && s.procs[0].pc.ALockDat?
      requires var p := s.procs[0];
        && p.headval == ptr && p.chainoff == chainoff && p.call.Store?
        && p.call.key == key && p.call.data == data
      modifies this`idx, this`dat, this`idxoff, this`ptrval, this`idxbuf, this`datoff, this`datlen
      ensures Mirrors(s', u', idx, dat) && |u'.free| == |u.free|
      ensures alive <==> Appendable(key, data, old(|dat|), old(|idx|))
      ensures if alive then s'.procs[0].pc.UnlockChain? && s'.procs[0].call == s.procs[0].call && s'.log == s.log
          && u'.m == u.m && |u'.recs| == |u.recs| + 1
              else s'.procs[0].pc.Dead? && u'.m == u.m - {key}
      ensures alive ==> Grown(key, data, old(|idx|), old(|dat|), |idx|, |dat|)
      ensures !alive && LenOk(key, data, old(|dat|)) ==> Abandoned(u', key, data, old(|idx|))
      ensures unchanged(this`cnt, this`sys, this`w)
    {
      hide Inv, Owners, WriteAt, Pad, Enc, BodyLen, Body, ReadsAs, RecOk, WorldOk;
      ghost var n, size := |dat|, |idx|;
      ChainInside(s, u);
      s', u' := GoAppendDat(s, u);
      WriteDat(data, |dat|);
      if LenOk(key, data, n) {
        s', u' := GoAppendIdx(s', u');
        NewRecOk(s', u', size, key, data, n);
      }
      var ok := WriteIdx(key, |idx|, ptr);
      if !ok {
        return false, s', u';
      }
      ok := WritePtr(chainoff, idxoff);
      alive := ok;
    }

    // Writing over the free record that was taken, and linking it.
    method ReuseRecord(key: bytes, data: bytes, ptr: nat, ghost s: Sys, ghost u: World)
      returns (ghost s': Sys, ghost u': World)
      requires Mirrors(s, u, idx, dat) && s.procs[0].pc.RWriteDat? && s.procs[0].idxoff == idxoff <= PTR_MAX
          && s.procs[0].datoff == datoff
      requires var p := s.procs[0];
        && p.headval == ptr && p.chainoff == chainoff && p.call.Store?
        && p.call.key == key && p.call.data == data
      modifies this`idx, this`dat, this`idxoff, this`ptrval, this`idxbuf, this`datoff, this`datlen
      ensures Mirrors(s', u', idx, dat) && |u'.free| == |u.free| && |u'.recs| == |u.recs| && u'.m == u.m
          && s'.log == s.log
      ensures s'.procs[0].pc.UnlockChain? && s'.procs[0].call == s.procs[0].call
      ensures unchanged(this`cnt, this`sys, this`w)
    {
      hide Machine, WriteAt, Pad, Enc, BodyLen, Body, ReadsAs, OnlyAt, RecOk, GetPtr;
      s', u' := GoReuse(s, u);
      WriteDat(data, datoff);
      var ok := WriteIdx(key, idxoff, ptr);
      assert ok;
      ok := WritePtr(chainoff, idxoff);
      assert ok;
    }

    // The call is over because the process is.
    ghost predicate Ended()
      reads this
    {
      Mirrors(sys, w, idx, dat) && sys.procs[0].pc.Dead?
    }

    // db_delete
    method Delete(key: bytes) returns (rc: int)
      requires Valid() && KeyOk(key)
      modifies this
      ensures Valid()
      ensures rc == if key in old(Contents()) then 0 else -1
      ensures Contents() == old(Contents()) - {key}
      ensures cnt == (if rc == 0 then old(cnt).(delOk := old(cnt).delOk + 1)
                      else old(cnt).(delErr := old(cnt).delErr + 1))
    {
      hide Machine, Hash, Counted;
      ghost var c := Call.Delete(key);
      ghost var u := w;
      ghost var s := GoBegin(sys, u, c);
      var found;
      found, s := FindAndLock(key, c, s, u);
      if found {
        s, u := DoDelete(s, u);
        cnt := cnt.(delOk := cnt.delOk + 1);
        rc := 0;
      } else {
        cnt := cnt.(delErr := cnt.delErr + 1);
        rc := -1;
      }
      s, u := GoUnlock(s, u);
      assert Counted(u, cnt, base) by {
        CountDelete(w, u, key, old(cnt), cnt, base);
      }
      sys, w := s, u;
    }

    // ---------- scanning ----------

    // db_rewind
    method Rewind()
      requires Valid()
      modifies this`scan
      ensures Valid() && scan == Some(HDR) && Boundary(w, HDR)
    {
      hide Inv, Owners, WorldOk, RecsOk, Counted;
      Whole(sys, w);
      Tiled(w);
      FirstBoundary(w);
      scan := Some(HDR);
    }

    // db_nextrec: the key and the value of the next record with a non-blank key,
    // None at end of file.
    method NextRec() returns (r: Option<(bytes, bytes)>)
      requires Valid() && scan.Some? && Boundary(w, scan.value)
      modifies this`scan, this`idxoff, this`ptrval, this`idxlen, this`idxbuf, this`datoff, this`datlen,
          this`datbuf, this`cnt
      ensures Valid() && scan.Some? && Boundary(w, scan.value)
      ensures var l := Remaining(w, old(scan.value));
        if l == [] then r == None && scan.value == |idx|
        else Remaining(w, scan.value) == l[1..] && l[0] in w.recs && r == Some(PairAt(w, l[0]))
      ensures cnt == old(cnt).(nextRec := old(cnt).nextRec + if r.Some? then 1 else 0)
    {
      hide Inv, Owners, WorldOk, RecsOk, Counted, Remaining, ReadAt, AllBlank, BodyLen, PairAt;
      Mine(sys, w, 0);
      Tiled(w);
      var pos := scan.value;
      ghost var l := Remaining(w, pos);
      pos, r := SkipBlank(pos, l);
      scan := Some(pos);
      if r.Some? {
        ScanValue(sys, w, idxoff);
        var data := ReadDat();
        r := Some((idxbuf, data));
        CountNext(w, cnt, base);
        cnt := cnt.(nextRec := cnt.nextRec + 1);
      }
    }

    // The loop of db_nextrec: up to a record with a non-blank key.
    method SkipBlank(start: nat, ghost l: seq<nat>) returns (pos: nat, r: Option<(bytes, bytes)>)
      requires WorldOk(w) && RecsOk(w) && w.idx == idx && Boundary(w, start) && l == Remaining(w, start)
      modifies this`idxoff, this`ptrval, this`idxlen, this`idxbuf, this`datoff, this`datlen
      ensures Boundary(w, pos)
      ensures if l == [] then r == None && pos == |idx|
              else r.Some? && Remaining(w, pos) == l[1..] && l[0] == idxoff && idxoff in w.recs
                   && w.recs[idxoff] == Rec(idxbuf, datoff, datlen) && !AllBlank(idxbuf)
    {
      hide WorldOk, RecsOk, Remaining, AllBlank, BodyLen;
      pos := start;
      while true
        invariant Boundary(w, pos) && Remaining(w, pos) == l
        decreases |idx| - pos
      {
        RemainingStep(w, pos);
        var next := ReadIdx(pos, w);
        if next.None? {
          return pos, None;
        }
        NextBoundary(w, pos);
        pos := pos + PTR_SZ + IDXLEN_SZ + idxlen;
        var blank := IsBlank(idxbuf);
        if !blank {
          return pos, Some((idxbuf, []));
        }
      }
    }

    // A whole scan, as a caller makes it: db_rewind, and db_nextrec until NULL.
    method Scan() returns (pairs: seq<(bytes, bytes)>)
      requires Valid()
      modifies this`scan, this`idxoff, this`ptrval, this`idxlen, this`idxbuf, this`datoff, this`datlen,
          this`datbuf, this`cnt
      ensures Valid() && pairs == Pairs(w, Remaining(w, HDR)) && MeetsExactly(w, Remaining(w, HDR))
      ensures Shows(pairs, Contents()) <==> Scannable(w)
    {
      hide Machine, Counted, Remaining, Pairs, PairAt, MeetsExactly, Shows, Scannable, Boundary;
      Rewind();
      ghost var l := Remaining(w, HDR);
      ghost var k := 0;
      pairs := [];
      PairsStart(w, l);
      while true
        invariant Valid() && scan.Some? && Boundary(w, scan.value)
        invariant k <= |l| && Remaining(w, scan.value) == l[k..] && pairs == Pairs(w, l[..k])
        decreases |l| - k
      {
        PairsNext(w, l, k);
        var r := NextRec();
        if r.None? {
          break;
        }
        pairs := pairs + [r.value];
        k := k + 1;
      }
      assert Rested(sys, w) by {
        RestedAlone(sys, w);
      }
      ScanMeets(sys, w);
      ScanExact(sys, w);
    }

    // db_fetch
    method Fetch(key: bytes) returns (r: Option<bytes>)
      requires Valid() && KeyOk(key)
      modifies this
      ensures Valid() && Contents() == old(Contents()) && idx == old(idx) && dat == old(dat)
      ensures r == if key in old(Contents()) then Some(old(Contents())[key]) else None
      ensures cnt == (if r.Some? then old(cnt).(fetchOk := old(cnt).fetchOk + 1)
                      else old(cnt).(fetchErr := old(cnt).fetchErr + 1))
    {
      hide Inv, Owners, Hash, ReadAt, Counted;
      ghost var c := Call.Fetch(key);
      ghost var u := w;
      ghost var s := GoBegin(sys, u, c);
      var found;
      found, s := FindAndLock(key, c, s, u);
      if !found {
        r := None;
        cnt := cnt.(fetchErr := cnt.fetchErr + 1);
      } else {
        s := GoReadDat(s, u);
        LineJoin(u.m[key]);
        var data := ReadDat();
        LineJoin(data);
        assert data == u.m[key];
        r := Some(data);
        cnt := cnt.(fetchOk := cnt.fetchOk + 1);
      }
      s, u := GoUnlock(s, u);
      CountFetch(w, old(cnt), cnt, base);
      sys, w := s, u;
    }

    // db_store, when the key is not there.
    method StoreNew(ghost c: Call, key: bytes, data: bytes, flag: Flag, ghost s: Sys, ghost u: World)
      returns (rc: Option<int>, ghost s': Sys, ghost u': World)
      requires Mirrors(s, u, idx, dat) && s.procs[0].call == c && s.procs[0].chainoff == chainoff
      requires c.Store? && c.flag != BadFlag && !BadSize(c.data)
      requires c == Call.Store(key, data, flag) && key !in u.m && s.procs[0].pc == MissingPC(c)
      modifies this`idx, this`dat, this`idxoff, this`ptrval, this`idxlen, this`idxbuf, this`datoff, this`datlen,
          this`cnt
      ensures unchanged(this`sys, this`w) && Mirrors(s', u', idx, dat)
      ensures rc.None? <==> MustAppend(u, c.key, c.data, c.flag) && !Appendable(c.key, c.data, old(|dat|), old(|idx|))
      ensures rc.None? ==> s'.procs[0].pc.Dead? && u'.m == u.m - {c.key}
      ensures rc.Some? ==>
        && s'.procs[0].pc.UnlockChain? && s'.procs[0].call == c && s'.log == s.log && u'.m == u.m
        && rc.value == (if flag == Replace then -1 else 0) && StoreCounted(u, u', c, old(cnt), cnt)
        && (flag != Replace ==> (cnt.stor2 == old(cnt).stor2 + 1 <==> !NoFit(u, |key|, |data| + 1)))
      ensures rc.Some? && MustAppend(u, key, data, flag) ==> Grown(key, data, old(|idx|), old(|dat|), |idx|, |dat|)
      ensures rc.None? && LenOk(key, data, old(|dat|)) ==> Abandoned(u', key, data, old(|idx|))
    {
      hide Machine, Hash, StoreData, GetPtr, WriteAt, Pad, Enc, NoFit, Appendable, WorldOk, Grown, Abandoned;
      s', u' := s, u;
      StoreSize(c);
      if flag == Replace {
        cnt := cnt.(storErr := cnt.storErr + 1);
        return Some(-1), s', u';
      }
      s' := GoGetHead(s', u');
      var ptr := ReadPtr(chainoff, u');
      var hit;
      hit, s', u' := FindFree(|key|, |data| + 1, s', u');
      if !hit {
        var alive;
        alive, s', u' := AppendRecord(key, data, ptr, s', u');
        if !alive {
          return None, s', u';
        }
        cnt := cnt.(stor1 := cnt.stor1 + 1);
      } else {
        s', u' := ReuseRecord(key, data, ptr, s', u');
        cnt := cnt.(stor2 := cnt.stor2 + 1);
      }
      rc := Some(0);
    }

    // db_store, when the key is there.
    method StoreExisting(ghost c: Call, key: bytes, data: bytes, flag: Flag, ghost s: Sys, ghost u: World)
      returns (rc: Option<int>, ghost s': Sys, ghost u': World)
      requires Mirrors(s, u, idx, dat) && s.procs[0].call == c && s.procs[0].chainoff == chainoff
      requires c.Store? && c.flag != BadFlag && !BadSize(c.data)
      requires c == Call.Store(key, data, flag) && key in u.m && s.procs[0].pc == FoundPC(c, datlen)
      requires SameFields(s.procs[0]) && idxbuf == key && datlen == |u.m[key]| + 1
      modifies this`idx, this`dat, this`idxoff, this`ptrval, this`idxbuf, this`datbuf, this`datoff, this`datlen,
          this`cnt
      ensures unchanged(this`sys, this`w) && Mirrors(s', u', idx, dat)
      ensures rc.None? <==> MustAppend(u, c.key, c.data, c.flag) && !Appendable(c.key, c.data, old(|dat|), old(|idx|))
      ensures rc.None? ==> s'.procs[0].pc.Dead? && u'.m == u.m - {c.key}
      ensures rc.Some? ==>
        && s'.procs[0].pc.UnlockChain? && s'.procs[0].call == c && s'.log == s.log && u'.m == u.m
        && rc.value == (if flag == Insert then 1 else 0) && StoreCounted(u, u', c, old(cnt), cnt)
        && (flag != Insert ==> (cnt.stor4 == old(cnt).stor4 + 1 <==> |u.m[key]| == |data|))
      ensures rc.Some? && MustAppend(u, key, data, flag) ==> Grown(key, data, old(|idx|), old(|dat|), |idx|, |dat|)
      ensures rc.None? && LenOk(key, data, old(|dat|)) ==> Abandoned(u', key, data, old(|idx|))
    {
      hide Machine, Hash, StoreData, GetPtr, WriteAt, Pad, Enc, NoFit, Appendable, WorldOk, Grown, Abandoned;
      s', u' := s, u;
      StoreSize(c);
      if flag == Insert {
        cnt := cnt.(storErr := cnt.storErr + 1);
        return Some(1), s', u';
      }
      if |data| + 1 != datlen {
        ghost var sizes := (|dat|, |idx|);
        s', u' := DoDelete(s', u');
        s' := GoGetHead(s', u');
        var ptr := ReadPtr(chainoff, u');
        var alive;
        alive, s', u' := AppendRecord(key, data, ptr, s', u');
        if !alive {
          return None, s', u';
        }
        cnt := cnt.(stor3 := cnt.stor3 + 1);
      } else {
        s', u' := GoOverWrite(s', u');
        WriteDat(data, datoff);
        cnt := cnt.(stor4 := cnt.stor4 + 1);
      }
      rc := Some(0);
    }

    // db_store. None means that the process has ended in err_dump or err_quit:
    // before anything happened when the value's length is out of range; otherwise
    // with the key absent, even where it was there before.
    method Store(key: bytes, data: bytes, flag: Flag) returns (rc: Option<int>)
      requires Valid() && CallOk(Call.Store(key, data, flag))
      modifies this
      ensures rc.Some? ==> Valid()
      ensures rc.Some? ==>
        if flag == Insert && key in old(Contents()) then rc.value == 1 && Contents() == old(Contents())
        else if (flag == Replace && key !in old(Contents())) || flag == BadFlag then
          rc.value == -1 && Contents() == old(Contents())
        else rc.value == 0 && Contents() == old(Contents())[key := data]
      ensures rc.Some? && flag != BadFlag ==> StoreCounted(old(w), w, Call.Store(key, data, flag), old(cnt), cnt)
      ensures rc == Some(0) && key !in old(Contents()) ==>
        (cnt.stor2 == old(cnt).stor2 + 1 <==> HasFit(old(w), |key|, |data| + 1))
      ensures rc == Some(0) && key in old(Contents()) ==>
        (cnt.stor4 == old(cnt).stor4 + 1 <==> |old(Contents())[key]| == |data|)
      ensures rc.Some? && flag != BadFlag && MustAppend(old(w), key, data, flag) ==>
        Grown(key, data, old(|idx|), old(|dat|), |idx|, |dat|)
      ensures rc.None? && !BadSize(data) && LenOk(key, data, old(|dat|)) ==> Abandoned(w, key, data, old(|idx|))
      ensures rc.None? ==> Ended() && Contents() == if BadSize(data) then old(Contents()) else old(Contents()) - {key}
      ensures rc.None? <==>
        (flag != BadFlag
         && (BadSize(data) || (MustAppend(old(w), key, data, flag) && !Appendable(key, data, old(|dat|), old(|idx|)))))
      ensures rc.None? && 1 <= |data| <= 1023 ==>
        && (if key in old(Contents()) then flag != Insert && |old(Contents())[key]| != |data|
            else flag != Replace && !HasFit(old(w), |key|, |data| + 1))
        && (old(|idx|) > 999999 || !(6 <= |key| + |Digits(old(|dat|))| + |Digits(|data| + 1)| + 3 <= 1024))
    {
      hide Machine, Hash, Counted, StoreCounted, MustAppend, Appendable, KeyOk, NoByte, FoundPC, MissingPC,
        Grown, Abandoned, LenOk, NoFit, HasFit;
      StoreLimits(sys, w, key, data, flag, |dat|, |idx|);
      if flag == BadFlag {
        return Some(-1);
      }
      if |data| + 1 < DATLEN_MIN || |data| + 1 > DATLEN_MAX {
        sys := GoRefused(sys, w, Call.Store(key, data, flag));
        return None;
      }
      ghost var c := Call.Store(key, data, flag);
      ghost var u := w;
      ghost var s := GoBegin(sys, u, c);
      var found;
      found, s := FindAndLock(key, c, s, u);
      if found {
        rc, s, u := StoreExisting(c, key, data, flag, s, u);
      } else {
        rc, s, u := StoreNew(c, key, data, flag, s, u);
      }
      if rc.Some? {
        ghost var u1 := u;
        s, u := GoUnlock(s, u);
        assert Counted(u, cnt, base) by {
          CountStore(w, u1, u, c, old(cnt), cnt, base);
        }
        assert StoreCounted(w, u, c, old(cnt), cnt) by {
          SameCounts(w, u1, u, c, old(cnt), cnt);
        }
      }
      sys, w := s, u;
    }
  }

  lemma WrapAdd(a: int, b: int)
    ensures (a % 0x1_0000_0000_0000_0000 + b) % 0x1_0000_0000_0000_0000 == (a + b) % 0x1_0000_0000_0000_0000
  {}

  ghost predicate SameCall(p: Proc, p0: Proc) {
    p.call == p0.call && p.headval == p0.headval && p.chainoff == p0.chainoff
  }

  // The limits an appended record has to meet, from the sizes of the files.
  predicate Appendable(key: bytes, data: bytes, datsize: nat, idxsize: nat) {
    LenOk(key, data, datsize) && idxsize <= PTR_MAX
  }

  predicate LenOk(key: bytes, data: bytes, datsize: nat) {
    IDXLEN_MIN <= BodyLen(Rec(key, datsize, |data| + 1)) <= IDXLEN_MAX
  }

  // Both files have grown by one record.
  predicate Grown(key: bytes, data: bytes, idxsize: nat, datsize: nat, idxsize': nat, datsize': nat) {
    idxsize' == idxsize + EncLen(Rec(key, datsize, |data| + 1)) && datsize' == datsize + |data| + 1
  }

  // The record that was appended at o is there, with its key and its value, and
  // no pointer can lead to it.
  ghost predicate Abandoned(w: World, key: bytes, data: bytes, o: nat) {
    o > PTR_MAX && o in w.recs && PairAt(w, o) == (key, data)
  }

  // The record just appended has valid fields, and its value is there.
  lemma NewRecOk(s: Sys, w: World, o: nat, key: bytes, data: bytes, a: nat)
    requires Machine(s, w) && o in w.recs && w.recs[o] == Rec(key, a, |data| + 1)
    requires ReadAt(s.dat, a, |data| + 1) == data + [NEWLINE]
    ensures RecOk(w.recs[o])
    ensures o > PTR_MAX ==> Abandoned(w, key, data, o)
  {
    hide Inv, Owners, RecOk, ReadAt;
    Whole(s, w);
    SameDat(s, w);
    RecFacts(w, o);
    LineJoin(data);
  }

  lemma ChainInside(s: Sys, w: World)
    requires Machine(s, w) && MidCall(s.procs[0])
    ensures s.procs[0].chainoff + PTR_SZ <= |s.idx|
  {
    hide Inv, Owners, Hash, WorldOk, MyChain;
    Mine(s, w, 0);
    HeadCells(w, s.procs[0].chainoff);
    CellInFile(w, s.procs[0].chainoff);
  }

  lemma CellInFile(w: World, c: nat)
    requires WorldOk(w) && c in w.cells
    ensures c + PTR_SZ <= |w.idx|
  {
    hide Rep;
    CellInside(w, c);
  }

  predicate BadSize(data: bytes) { |data| + 1 < DATLEN_MIN || |data| + 1 > DATLEN_MAX }

  // When db_store has to append: a new key without a free record of exactly its
  // sizes, or a replacement of another length (which never looks for one).
  ghost predicate MustAppend(w: World, key: bytes, data: bytes, flag: Flag) {
    if key in w.m then flag != Insert && |w.m[key]| != |data|
    else flag != Replace && NoFit(w, |key|, |data| + 1)
  }

  // A free record has exactly these sizes of key and value.
  ghost predicate HasFit(w: World, keylen: nat, size: nat) {
    exists o :: o in w.free && o in w.recs && |w.recs[o].key| == keylen && w.recs[o].datlen == size
  }

  // What decides whether a store has to append, and whether it can.
  lemma StoreLimits(s: Sys, w: World, key: bytes, data: bytes, flag: Flag, datsize: nat, idxsize: nat)
    requires Machine(s, w)
    ensures NoFit(w, |key|, |data| + 1) <==> !HasFit(w, |key|, |data| + 1)
    ensures MustAppend(w, key, data, flag) <==>
      if key in w.m then flag != Insert && |w.m[key]| != |data| else flag != Replace && !HasFit(w, |key|, |data| + 1)
    ensures Appendable(key, data, datsize, idxsize) <==>
      idxsize <= 999999 && 6 <= |key| + |Digits(datsize)| + |Digits(|data| + 1)| + 3 <= 1024
  {
    hide Inv, Owners, WorldOk;
    Whole(s, w);
    forall o | o in w.free
      ensures o in w.recs
    {
      FreeRecs(w, o);
    }
  }

  lemma StoreSize(c: Call)
    requires c.Store?
    ensures |StoreData(c)| == |c.data| + 1 && StoreData(c) == c.data + [NEWLINE]
  {}

  // The loop of db_nextrec over the key: up to the NUL or a non-blank.
  method IsBlank(s: bytes) returns (b: bool)
    ensures b <==> AllBlank(s)
  {
    var i := 0;
    while i < |s| && s[i] == SPACE
      invariant i <= |s| && AllBlank(s[..i])
    {
      i := i + 1;
    }
    b := i == |s|;
    assert s[..|s|] == s;
  }

  lemma RemainingStep(w: World, pos: nat)
    requires RecsOk(w) && Boundary(w, pos)
    ensures if pos == |w.idx| then Remaining(w, pos) == []
            else
              pos in w.recs
              && Remaining(w, pos) == (if AllBlank(w.recs[pos].key) then [] else [pos]) +
                  Remaining(w, pos + EncLen(w.recs[pos]))
  {
    hide AllBlank, RecAt, RecOk;
    if pos in w.recs {
      NextBoundary(w, pos);
    }
  }

  lemma PairsStart(w: World, l: seq<nat>)
    ensures l[0..] == l && Pairs(w, l[..0]) == []
  {}

  lemma PairsNext(w: World, l: seq<nat>, k: nat)
    requires k <= |l|
    ensures if l[k..] == [] then l[..k] == l
            else
              k < |l| && l[k..][0] == l[k] && l[k..][1..] == l[k + 1..]
              && Pairs(w, l[..k + 1]) == Pairs(w, l[..k]) + [PairAt(w, l[k])]
  {
    hide PairAt;
  }

  lemma CountNext(w: World, k: Counters, b: Sizes)
    requires Counted(w, k, b)
    ensures Counted(w, k.(nextRec := k.nextRec + 1), b)
  {}

  // The value of a record that a scan meets.
  lemma ScanValue(s: Sys, w: World, o: nat)
    requires Machine(s, w) && s.procs[0].pc.Idle? && o in w.recs && !AllBlank(w.recs[o].key)
    ensures var d := ReadAt(s.dat, w.recs[o].datoff, w.recs[o].datlen);
      |d| == w.recs[o].datlen && IsLine(d) && PairAt(w, o) == (w.recs[o].key, d[..|d| - 1])
  {
    hide Inv, Owners, ReadAt, AllBlank;
    RestedAlone(s, w);
    SeenRecord(s, w, o);
    SameDat(s, w);
  }

  lemma SameDat(s: Sys, w: World)
    requires Inv(s, w)
    ensures s.dat == w.dat
  {}

  lemma RestedAlone(s: Sys, w: World)
    requires Machine(s, w) && (s.procs[0].pc.Idle? || s.procs[0].pc.Dead?)
    ensures Rested(s, w)
  {
    hide Inv, Owners;
  }

  // A process that comes to files where no call is in progress.
  lemma Reopened(s: Sys, w: World)
    requires Rested(s, w)
    ensures Machine(Sys(s.idx, s.dat, [FRESH], {}, s.log), w)
  {
    hide WorldOk, ChainInv, Replay, Legal, MyChain, PlacesRight, NothingLost;
    QuietChains(s, w);
    var s' := Sys(s.idx, s.dat, [FRESH], {}, s.log);
    assert Held(0, FRESH) == {};
    assert forall o :: o in w.loc && w.loc[o].HeldBy? ==> w.loc[o].pid < |s.procs|;
  }

  lemma EmptySize()
    ensures |EmptyIndex()| == HDR && SizesOf(EmptyWorld()) == Sizes(0, 0, 0)
  {
    hide Digits, Pad, Repeat;
    PtrRoundTrip(0);
    RepeatLength(Pad(0, 6), NHASH + 1);
  }

  // ---------- what a write leaves ----------

  lemma OnlyThere(f: bytes, off: nat, b: bytes)
    requires off + |b| <= |f| || off == |f|
    ensures OnlyAt(f, WriteAt(f, off, b), off, |b|) && ReadAt(WriteAt(f, off, b), off, |b|) == b
  {
    SliceWritten(f, off, b);
  }

  lemma PtrWritten(f: bytes, off: nat, v: nat)
    requires v <= PTR_MAX
    ensures off + PTR_SZ <= |f| ==>
      var f' := WriteAt(f, off, Pad(v, PTR_SZ));
      GetPtr(f', off) == Some(v) && OnlyAt(f, f', off, PTR_SZ)
  {
    hide Digits, Pad, Atol, WriteAt, OnlyAt;
    PtrRoundTrip(v);
    if off + PTR_SZ <= |f| {
      OnlyThere(f, off, Pad(v, PTR_SZ));
    }
  }

  lemma EncUnfold(ptr: nat, r: Rec)
    ensures Enc(ptr, r) == Pad(ptr, PTR_SZ) + Pad(BodyLen(r), IDXLEN_SZ) + Body(r)
  {
    hide Pad, Body, BodyLen;
  }

  lemma RecWritten(f: bytes, off: nat, ptr: nat, r: Rec)
    requires ptr <= PTR_MAX
    ensures RecOk(r) && (off + EncLen(r) <= |f| || off == |f|) ==>
      var f' := WriteAt(f, off, Enc(ptr, r));
      ReadsAs(f', off, ptr, r) && OnlyAt(f, f', off, EncLen(r))
  {
    hide Digits, Pad, Atol, WriteAt, OnlyAt, Enc, EncLen, RecOk, BodyLen, ParseBody, ReadAt;
    if RecOk(r) && (off + EncLen(r) <= |f| || off == |f|) {
      EncParts(ptr, r);
      OnlyThere(f, off, Enc(ptr, r));
      RecAtWritten(f, off, ptr, r);
      RecAtParts(WriteAt(f, off, Enc(ptr, r)), off, ptr, r);
    }
  }

  lemma DatWritten(f: bytes, off: nat, b: bytes)
    ensures off + |b| <= |f| || off == |f| ==>
      ReadAt(WriteAt(f, off, b), off, |b|) == b && OnlyAt(f, WriteAt(f, off, b), off, |b|)
  {
    if off + |b| <= |f| || off == |f| {
      OnlyThere(f, off, b);
    }
  }

  // The loops that fill a buffer with blanks.
  method Spaced(n: nat) returns (s: bytes)
    ensures s == Blanks(n)
  {
    s := [];
    for i := 0 to n
      invariant s == Blanks(i)
    {
      s := s + [SPACE];
    }
  }

  lemma BlankedData(n: nat)
    ensures Blanks(if n == 0 then 0 else n - 1) + [NEWLINE] == BlankData(n)
    ensures |BlankData(n)| == |Blanks(if n == 0 then 0 else n - 1)| + 1
  {}

  lemma SameKeyCount(m: map<nat, Rec>, m': map<nat, Rec>)
    requires m.Keys == m'.Keys
    ensures |m| == |m'|
  {
    assert |m.Keys| == |m| && |m'.Keys| == |m'|;
  }

  lemma RemoveCount(m: Map, key: bytes)
    ensures |m - {key}| + (if key in m then 1 else 0) == |m|
    ensures key !in m ==> m - {key} == m
  {
    var m' := m - {key};
    if key in m {
      assert m'.Keys == m.Keys - {key};
      assert |m'.Keys| == |m'| && |m.Keys| == |m|;
    } else {
      assert m' == m;
    }
  }

  lemma CountDelete(w: World, w': World, key: bytes, c: Counters, c': Counters, b: Sizes)
    requires Counted(w, c, b) && w'.m == w.m - {key} && |w'.recs| == |w.recs|
    requires |w'.free| == |w.free| + (if key in w.m then 1 else 0)
    requires if key in w.m then c' == c.(delOk := c.delOk + 1) else c' == c.(delErr := c.delErr + 1)
    ensures Counted(w', c', b)
  {
    RemoveCount(w.m, key);
  }

  lemma CountFetch(w: World, c: Counters, c': Counters, b: Sizes)
    requires Counted(w, c, b) && (c' == c.(fetchOk := c.fetchOk + 1) || c' == c.(fetchErr := c.fetchErr + 1))
    ensures Counted(w, c', b)
  {}

  lemma PutCount(m: Map, key: bytes, data: bytes)
    ensures |m[key := data]| == |m| + (if key in m then 0 else 1)
  {
    var m' := m[key := data];
    assert m'.Keys == m.Keys + {key};
    assert |m'.Keys| == |m'| && |m.Keys| == |m|;
  }

  // How a store that returned has moved the counters.
  ghost predicate StoreCounted(w: World, w': World, c: Call, k: Counters, k': Counters)
    requires c.Store?
  {
    var n, f := |w'.recs| - |w.recs|, |w'.free| - |w.free|;
    if c.key !in w.m then
      (c.flag == Replace && n == 0 && f == 0 && k' == k.(storErr := k.storErr + 1))
      || (c.flag != Replace && n == 1 && f == 0 && k' == k.(stor1 := k.stor1 + 1))
      || (c.flag != Replace && n == 0 && f == -1 && k' == k.(stor2 := k.stor2 + 1))
    else
      (c.flag == Insert && n == 0 && f == 0 && k' == k.(storErr := k.storErr + 1))
      || (c.flag != Insert && n == 1 && f == 1 && k' == k.(stor3 := k.stor3 + 1))
      || (c.flag != Insert && n == 0 && f == 0 && k' == k.(stor4 := k.stor4 + 1))
  }

  lemma CountStore(w: World, w1: World, w': World, c: Call, k: Counters, k': Counters, b: Sizes)
    requires c.Store? && c.flag != BadFlag && Counted(w, k, b) && StoreCounted(w, w1, c, k, k')
    requires w' == w1.(m := SpecMap(w.m, c))
    ensures Counted(w', k', b)
  {
    PutCount(w.m, c.key, c.data);
  }

  lemma SameCounts(w: World, w1: World, w': World, c: Call, k: Counters, k': Counters)
    requires c.Store? && StoreCounted(w, w1, c, k, k') && w'.recs == w1.recs && w'.free == w1.free
    ensures StoreCounted(w, w', c, k, k')
  {}

  // A value of impossible length ends the process before anything is touched.
  lemma GoRefused(s: Sys, w: World, c: Call) returns (s': Sys)
    requires Machine(s, w) && s.procs[0].pc.Idle? && CallOk(c) && c.Store? && c.flag != BadFlag && BadSize(c.data)
    ensures Machine(s', w) && s'.procs[0].pc.Dead? && s'.idx == s.idx && s'.dat == s.dat
  {
    hide Inv, Owners, Hash, KeyOk, NoByte;
    StepBegin(s, w, 0, c);
    OwnersBegin(s, w, 0, c);
    s' := Begin(s, 0, c);
  }

  // A call begins on the machine as well.
  lemma GoBegin(s: Sys, w: World, c: Call) returns (s': Sys)
    requires Machine(s, w) && s.procs[0].pc.Idle? && CallOk(c)
    requires c.Store? ==> c.flag != BadFlag && DATLEN_MIN <= |c.data| + 1 <= DATLEN_MAX
    ensures Machine(s', w) && s'.procs[0].pc.LockChain? && s'.procs[0].call == c
    ensures s'.idx == s.idx && s'.dat == s.dat && s'.log == s.log
  {
    hide Inv, Owners, Hash, KeyOk, NoByte;
    StepBegin(s, w, 0, c);
    OwnersBegin(s, w, 0, c);
    s' := Begin(s, 0, c);
  }

  lemma InsideFile(w: World, o: nat)
    requires WorldOk(w) && o in w.recs
    ensures o + EncLen(w.recs[o]) <= |w.idx| && o < |w.idx|
  {
    hide ListsOk, FreeInv, HeaderOk, CellsOk, DatOk, RecOk;
  }

  lemma EndOfFile(f: bytes, off: nat)
    ensures off == |f| ==> ReadAt(f, off, PTR_SZ + IDXLEN_SZ) == []
  {}
}
