// Any number of processes, each with its own handle, running db_fetch,
// db_store and db_delete on the two shared files. One step is one system call
// together with the private computation up to the next one. Nothing here is
// about what the bytes mean: a process reads bytes, decodes them as db.c does,
// and writes bytes.
module DbMachine {
  import opened Bytes
  import opened DbFormat

  datatype Flag = Insert | Replace | Upsert | BadFlag

  datatype Call =
    | Fetch(key: bytes)
    | Delete(key: bytes)
    | Store(key: bytes, data: bytes, flag: Flag)

  datatype Result = Value(data: bytes) | Null | Code(rc: int)

  // A line of the history: a call with the result it is about to return, or a
  // call whose process died in err_dump/err_quit with the chain locked.
  datatype Event = Done(pid: nat, call: Call, result: Result) | Died(pid: nat, call: Call)

  // Where a process is: the next system call it makes.
  datatype PC =
    | Idle | Dead
    | LockChain | ReadHead | Walk1 | Walk2              // _db_find_and_lock
    | FReadDat                                          // _db_readdat
    | OverWrite                                         // same-length replace
    | DLockFree | DWriteDat | DReadFree | DWriteIdx | DWriteFree | DUnlink | DUnlockFree
    | AReadHead                                         // reread the chain head after a delete
    | SReadHead                                         // read the chain head for a new key
    | FLockFree | FReadFree | FWalk1 | FWalk2 | FTake | FUnlockHit | FUnlockMiss
    | RWriteDat | RWriteIdx                             // reuse a free record
    | ALockDat | ASeekDat | AWriteDat | AUnlockDat      // append the value
    | ALockIdx | ASeekIdx | AWriteIdx | AUnlockIdx      // append the index record
    | LinkHead | UnlockChain

  // The part of the DB structure and of the local variables that the three
  // calls use, under their names in db.c; headval is db_store's ptrval.
  datatype Proc = Proc(
    pc: PC, call: Call, result: Result,
    chainoff: nat, ptroff: nat, offset: nat,
    idxoff: nat, idxlen: int, ptrval: nat, idxbuf: bytes, datoff: nat, datlen: nat,
    saveptr: nat, freeptr: nat, saveoffset: nat, headval: nat)

  // fcntl record locks: len 0 reaches to the largest possible offset.
  datatype File = Idx | Dat
  datatype Lock = Lock(pid: nat, file: File, start: nat, len: nat, write: bool)

  predicate Overlap(a: Lock, b: Lock) {
    && a.file == b.file
    && (a.len == 0 || b.start < a.start + a.len)
    && (b.len == 0 || a.start < b.start + b.len)
  }

  predicate Conflict(a: Lock, b: Lock) {
    a.pid != b.pid && Overlap(a, b) && (a.write || b.write)
  }

  ghost predicate Grantable(locks: set<Lock>, l: Lock) {
    forall x :: x in locks ==> !Conflict(l, x)
  }

  datatype Sys = Sys(idx: bytes, dat: bytes, procs: seq<Proc>, locks: set<Lock>, log: seq<Event>)

  // ---------- the locks a call uses ----------

  predicate IsStoreOrDelete(c: Call) { !c.Fetch? }

  function HashOf(p: Proc): nat { Hash(p.call.key) }

  function ChainLock(i: nat, p: Proc): Lock {
    Lock(i, Idx, ChainOff(HashOf(p)), 1, IsStoreOrDelete(p.call))
  }

  function FreeLock(i: nat): Lock { Lock(i, Idx, FREE_OFF, 1, true) }

  function TailLock(i: nat): Lock { Lock(i, Idx, HDR, 0, true) }

  function DatLock(i: nat): Lock { Lock(i, Dat, 0, 0, true) }

  // ---------- building blocks of a step ----------

  // Only process i moved.
  predicate OnlyProc(s: Sys, i: nat, s': Sys) {
    i < |s.procs| == |s'.procs| && s'.procs == s.procs[i := s'.procs[i]]
  }

  function Become(s: Sys, i: nat, p: Proc): Sys
    requires i < |s.procs|
  {
    s.(procs := s.procs[i := p])
  }

  function Acquire(s: Sys, i: nat, p: Proc, l: Lock): Sys
    requires i < |s.procs|
  {
    s.(procs := s.procs[i := p], locks := s.locks + {l})
  }

  function Release(s: Sys, i: nat, p: Proc, l: Lock): Sys
    requires i < |s.procs|
  {
    s.(procs := s.procs[i := p], locks := s.locks - {l})
  }

  function DropAll(locks: set<Lock>, i: nat): set<Lock> {
    set l | l in locks && l.pid != i
  }

  // err_dump, err_quit: the process is gone and the kernel drops its locks.
  function Die(s: Sys, i: nat): (s': Sys)
    requires i < |s.procs|
    ensures OnlyProc(s, i, s')
  {
    var p := s.procs[i];
    s.(procs := s.procs[i := p.(pc := Dead)], locks := DropAll(s.locks, i), log := s.log + [Died(i, p.call)])
  }

  function WriteIdxFile(s: Sys, off: nat, b: bytes): Sys { s.(idx := WriteAt(s.idx, off, b)) }

  function WriteDatFile(s: Sys, off: nat, b: bytes): Sys { s.(dat := WriteAt(s.dat, off, b)) }

  function Spaces(s: bytes): bytes { Blanks(|s|) }

  // ---------- the calls ----------

  // What follows a successful _db_find_and_lock.
  function OnFound(p: Proc): Proc {
    match p.call
    case Fetch(_) => p.(pc := FReadDat)
    case Delete(_) => p.(pc := DLockFree, idxbuf := Spaces(p.idxbuf))
    case Store(_, data, flag) =>
      if flag == Insert then p.(pc := UnlockChain, result := Code(1))
      else if |data| + 1 != p.datlen then p.(pc := DLockFree, idxbuf := Spaces(p.idxbuf))
      else p.(pc := OverWrite)
  }

  // What follows an unsuccessful one.
  function OnMissing(p: Proc): Proc {
    match p.call
    case Fetch(_) => p.(pc := UnlockChain, result := Null)
    case Delete(_) => p.(pc := UnlockChain, result := Code(-1))
    case Store(_, _, flag) =>
      if flag == Replace then p.(pc := UnlockChain, result := Code(-1))
      else p.(pc := SReadHead)
  }

  // A call begins: everything before the first system call. A data length out
  // of range is an err_dump, an unknown flag an immediate return of -1.
  function Begin(s: Sys, i: nat, c: Call): Sys
    requires i < |s.procs|
  {
    var p := s.procs[i];
    if c.Store? && c.flag == BadFlag then
      s.(log := s.log + [Done(i, c, Code(-1))])
    else if c.Store? && (|c.data| + 1 < DATLEN_MIN || |c.data| + 1 > DATLEN_MAX) then
      Become(s, i, p.(pc := Dead))
    else
      var off := ChainOff(Hash(c.key));
      Become(s, i, p.(pc := LockChain, call := c, chainoff := off, ptroff := off))
  }

  // The pointer field read at off, None when the file is too short.
  function GetPtr(f: bytes, off: nat): Option<nat> {
    var b := ReadAt(f, off, PTR_SZ);
    if |b| != PTR_SZ || Atol(b) < 0 then None else Some(Atol(b))
  }

  function DoReadHead(s: Sys, i: nat): (s': Sys)
    requires i < |s.procs|
    ensures OnlyProc(s, i, s')
  {
    var p := s.procs[i];
    match GetPtr(s.idx, p.ptroff)
    case None => Die(s, i)
    case Some(v) =>
      if v == 0 then Become(s, i, OnMissing(p.(offset := 0)))
      else Become(s, i, p.(pc := Walk1, offset := v))
  }

  // _db_readidx, first read: the chain pointer and the length.
  function ReadFront(f: bytes, p: Proc, next: PC): Option<Proc> {
    var b := ReadAt(f, p.offset, PTR_SZ + IDXLEN_SZ);
    if |b| != PTR_SZ + IDXLEN_SZ then None
    else
      var v, n := Atol(b[..PTR_SZ]), Atol(b[PTR_SZ..]);
      if v < 0 || n < IDXLEN_MIN || n > IDXLEN_MAX then None
      else Some(p.(pc := next, idxoff := p.offset, ptrval := v, idxlen := n))
  }

  // _db_readidx, second read: the key and the data extent.
  function ReadRest(f: bytes, p: Proc): Option<Proc> {
    if p.idxlen < 0 then None
    else
      var b := ReadAt(f, p.idxoff + PTR_SZ + IDXLEN_SZ, p.idxlen);
      if |b| != p.idxlen then None
      else
        match ParseBody(b)
        case None => None
        case Some(r) => Some(p.(idxbuf := r.key, datoff := r.datoff, datlen := r.datlen))
  }

  function DoWalk1(s: Sys, i: nat): (s': Sys)
    requires i < |s.procs|
    ensures OnlyProc(s, i, s')
  {
    match ReadFront(s.idx, s.procs[i], Walk2)
    case None => Die(s, i)
    case Some(p) => Become(s, i, p)
  }

  function DoWalk2(s: Sys, i: nat): (s': Sys)
    requires i < |s.procs|
    ensures OnlyProc(s, i, s')
  {
    match ReadRest(s.idx, s.procs[i])
    case None => Die(s, i)
    case Some(p) =>
      if p.idxbuf == p.call.key then Become(s, i, OnFound(p))
      else if p.ptrval == 0 then Become(s, i, OnMissing(p.(ptroff := p.offset, offset := 0)))
      else Become(s, i, p.(pc := Walk1, ptroff := p.offset, offset := p.ptrval))
  }

  function DoReadDat(s: Sys, i: nat): (s': Sys)
    requires i < |s.procs|
    ensures OnlyProc(s, i, s')
  {
    var p := s.procs[i];
    var b := ReadAt(s.dat, p.datoff, p.datlen);
    if |b| != p.datlen || b == [] || b[|b| - 1] != NEWLINE then Die(s, i)
    else Become(s, i, p.(pc := UnlockChain, result := Value(b[..|b| - 1])))
  }

  function StoreData(c: Call): bytes {
    if c.Store? then c.data + [NEWLINE] else [NEWLINE]
  }

  function DoOverWrite(s: Sys, i: nat): (s': Sys)
    requires i < |s.procs|
    ensures OnlyProc(s, i, s')
  {
    var p := s.procs[i];
    Become(WriteDatFile(s, p.datoff, StoreData(p.call)), i, p.(pc := UnlockChain, result := Code(0)))
  }

  // _db_dodelete
  function BlankData(n: nat): bytes { Blanks(if n == 0 then 0 else n - 1) + [NEWLINE] }

  function DoDWriteDat(s: Sys, i: nat): (s': Sys)
    requires i < |s.procs|
    ensures OnlyProc(s, i, s')
  {
    var p := s.procs[i];
    var b := BlankData(p.datlen);
    Become(WriteDatFile(s, p.datoff, b), i, p.(pc := DReadFree, datlen := |b|))
  }

  function DoDReadFree(s: Sys, i: nat): (s': Sys)
    requires i < |s.procs|
    ensures OnlyProc(s, i, s')
  {
    var p := s.procs[i];
    match GetPtr(s.idx, FREE_OFF)
    case None => Die(s, i)
    case Some(v) => Become(s, i, p.(pc := DWriteIdx, freeptr := v, saveptr := p.ptrval))
  }

  function DoDWriteIdx(s: Sys, i: nat): (s': Sys)
    requires i < |s.procs|
    ensures OnlyProc(s, i, s')
  {
    var p := s.procs[i];
    var r := Rec(p.idxbuf, p.datoff, p.datlen);
    if p.freeptr > PTR_MAX || BodyLen(r) < IDXLEN_MIN || BodyLen(r) > IDXLEN_MAX then Die(s, i)
    else Become(WriteIdxFile(s, p.idxoff, Enc(p.freeptr, r)), i, p.(pc := DWriteFree, ptrval := p.freeptr))
  }

  function DoDWriteFree(s: Sys, i: nat): (s': Sys)
    requires i < |s.procs|
    ensures OnlyProc(s, i, s')
  {
    var p := s.procs[i];
    if p.idxoff > PTR_MAX then Die(s, i)
    else Become(WriteIdxFile(s, FREE_OFF, Pad(p.idxoff, PTR_SZ)), i, p.(pc := DUnlink))
  }

  function DoDUnlink(s: Sys, i: nat): (s': Sys)
    requires i < |s.procs|
    ensures OnlyProc(s, i, s')
  {
    var p := s.procs[i];
    if p.saveptr > PTR_MAX then Die(s, i)
    else Become(WriteIdxFile(s, p.ptroff, Pad(p.saveptr, PTR_SZ)), i, p.(pc := DUnlockFree))
  }

  function DoDUnlockFree(s: Sys, i: nat): (s': Sys)
    requires i < |s.procs|
    ensures OnlyProc(s, i, s')
  {
    var p := s.procs[i];
    var p' := if p.call.Store? then p.(pc := AReadHead) else p.(pc := UnlockChain, result := Code(0));
    Release(s, i, p', FreeLock(i))
  }

  // db_store: the chain head, for the new record's chain pointer.
  function DoGetHead(s: Sys, i: nat, next: PC): (s': Sys)
    requires i < |s.procs|
    ensures OnlyProc(s, i, s')
  {
    var p := s.procs[i];
    match GetPtr(s.idx, p.chainoff)
    case None => Die(s, i)
    case Some(v) => Become(s, i, p.(pc := next, headval := v))
  }

  // _db_findfree
  function DoFReadFree(s: Sys, i: nat): (s': Sys)
    requires i < |s.procs|
    ensures OnlyProc(s, i, s')
  {
    var p := s.procs[i];
    match GetPtr(s.idx, FREE_OFF)
    case None => Die(s, i)
    case Some(v) =>
      Become(s, i, p.(pc := if v == 0 then FUnlockMiss else FWalk1, saveoffset := FREE_OFF, offset := v))
  }

  function DoFWalk1(s: Sys, i: nat): (s': Sys)
    requires i < |s.procs|
    ensures OnlyProc(s, i, s')
  {
    match ReadFront(s.idx, s.procs[i], FWalk2)
    case None => Die(s, i)
    case Some(p) => Become(s, i, p)
  }

  function DoFWalk2(s: Sys, i: nat): (s': Sys)
    requires i < |s.procs|
    ensures OnlyProc(s, i, s')
  {
    match ReadRest(s.idx, s.procs[i])
    case None => Die(s, i)
    case Some(p) =>
      if |p.idxbuf| == |p.call.key| && p.datlen == |StoreData(p.call)| then Become(s, i, p.(pc := FTake))
      else
        Become(s, i, p.(pc := if p.ptrval == 0 then FUnlockMiss else FWalk1,
                        saveoffset := p.offset, offset := p.ptrval))
  }

  function DoFTake(s: Sys, i: nat): (s': Sys)
    requires i < |s.procs|
    ensures OnlyProc(s, i, s')
  {
    var p := s.procs[i];
    if p.ptrval > PTR_MAX then Die(s, i)
    else Become(WriteIdxFile(s, p.saveoffset, Pad(p.ptrval, PTR_SZ)), i, p.(pc := FUnlockHit))
  }

  // The reused record.
  function DoRWriteDat(s: Sys, i: nat): (s': Sys)
    requires i < |s.procs|
    ensures OnlyProc(s, i, s')
  {
    var p := s.procs[i];
    var b := StoreData(p.call);
    Become(WriteDatFile(s, p.datoff, b), i, p.(pc := RWriteIdx, datlen := |b|))
  }

  function DoRWriteIdx(s: Sys, i: nat): (s': Sys)
    requires i < |s.procs|
    ensures OnlyProc(s, i, s')
  {
    var p := s.procs[i];
    var r := Rec(p.call.key, p.datoff, p.datlen);
    if p.headval > PTR_MAX || BodyLen(r) < IDXLEN_MIN || BodyLen(r) > IDXLEN_MAX then Die(s, i)
    else Become(WriteIdxFile(s, p.idxoff, Enc(p.headval, r)), i, p.(pc := LinkHead, ptrval := p.headval))
  }

  // The appended record.
  function DoAWriteDat(s: Sys, i: nat): (s': Sys)
    requires i < |s.procs|
    ensures OnlyProc(s, i, s')
  {
    var p := s.procs[i];
    Become(WriteDatFile(s, p.datoff, StoreData(p.call)), i, p.(pc := AUnlockDat))
  }

  // The length of the index record is checked before the index file is locked.
  function DoAUnlockDat(s: Sys, i: nat): (s': Sys)
    requires i < |s.procs|
    ensures OnlyProc(s, i, s')
  {
    var p := s.procs[i];
    var r := Rec(p.call.key, p.datoff, p.datlen);
    if p.headval > PTR_MAX || BodyLen(r) < IDXLEN_MIN || BodyLen(r) > IDXLEN_MAX then Die(s, i)
    else Release(s, i, p.(pc := ALockIdx, ptrval := p.headval), DatLock(i))
  }

  function DoAWriteIdx(s: Sys, i: nat): (s': Sys)
    requires i < |s.procs|
    ensures OnlyProc(s, i, s')
  {
    var p := s.procs[i];
    Become(WriteIdxFile(s, p.idxoff, Enc(p.headval, Rec(p.call.key, p.datoff, p.datlen))), i, p.(pc := AUnlockIdx))
  }

  function DoLinkHead(s: Sys, i: nat): (s': Sys)
    requires i < |s.procs|
    ensures OnlyProc(s, i, s')
  {
    var p := s.procs[i];
    if p.idxoff > PTR_MAX then Die(s, i)
    else Become(WriteIdxFile(s, p.chainoff, Pad(p.idxoff, PTR_SZ)), i, p.(pc := UnlockChain, result := Code(0)))
  }

  function DoUnlockChain(s: Sys, i: nat): (s': Sys)
    requires i < |s.procs|
    ensures OnlyProc(s, i, s')
  {
    var p := s.procs[i];
    Release(s, i, p.(pc := Idle), ChainLock(i, p)).(log := s.log + [Done(i, p.call, p.result)])
  }

  // The lock a process asks for next, when its next call is a lock request.
  function Wanted(i: nat, p: Proc): Option<Lock> {
    match p.pc
    case LockChain => Some(ChainLock(i, p))
    case DLockFree => Some(FreeLock(i))
    case FLockFree => Some(FreeLock(i))
    case ALockDat => Some(DatLock(i))
    case ALockIdx => Some(TailLock(i))
    case _ => None
  }

  // A process in the middle of a call can make its next system call, unless
  // that is a lock request that has to wait.
  ghost predicate Ready(s: Sys, i: nat)
    requires i < |s.procs|
  {
    var p := s.procs[i];
    && !p.pc.Idle? && !p.pc.Dead?
    && (Wanted(i, p).Some? ==> Grantable(s.locks, Wanted(i, p).value))
  }

  function Next(s: Sys, i: nat): (s': Sys)
    requires i < |s.procs|
    ensures OnlyProc(s, i, s')
  {
    var p := s.procs[i];
    match p.pc
    case Idle => s
    case Dead => s
    case LockChain => Acquire(s, i, p.(pc := ReadHead), ChainLock(i, p))
    case ReadHead => DoReadHead(s, i)
    case Walk1 => DoWalk1(s, i)
    case Walk2 => DoWalk2(s, i)
    case FReadDat => DoReadDat(s, i)
    case OverWrite => DoOverWrite(s, i)
    case DLockFree => Acquire(s, i, p.(pc := DWriteDat), FreeLock(i))
    case DWriteDat => DoDWriteDat(s, i)
    case DReadFree => DoDReadFree(s, i)
    case DWriteIdx => DoDWriteIdx(s, i)
    case DWriteFree => DoDWriteFree(s, i)
    case DUnlink => DoDUnlink(s, i)
    case DUnlockFree => DoDUnlockFree(s, i)
    case AReadHead => DoGetHead(s, i, ALockDat)
    case SReadHead => DoGetHead(s, i, FLockFree)
    case FLockFree => Acquire(s, i, p.(pc := FReadFree), FreeLock(i))
    case FReadFree => DoFReadFree(s, i)
    case FWalk1 => DoFWalk1(s, i)
    case FWalk2 => DoFWalk2(s, i)
    case FTake => DoFTake(s, i)
    case FUnlockHit => Release(s, i, p.(pc := RWriteDat), FreeLock(i))
    case FUnlockMiss => Release(s, i, p.(pc := ALockDat), FreeLock(i))
    case RWriteDat => DoRWriteDat(s, i)
    case RWriteIdx => DoRWriteIdx(s, i)
    case ALockDat => Acquire(s, i, p.(pc := ASeekDat), DatLock(i))
    case ASeekDat => Become(s, i, p.(pc := AWriteDat, datoff := |s.dat|, datlen := |StoreData(p.call)|))
    case AWriteDat => DoAWriteDat(s, i)
    case AUnlockDat => DoAUnlockDat(s, i)
    case ALockIdx => Acquire(s, i, p.(pc := ASeekIdx), TailLock(i))
    case ASeekIdx => Become(s, i, p.(pc := AWriteIdx, idxoff := |s.idx|))
    case AWriteIdx => DoAWriteIdx(s, i)
    case AUnlockIdx => Release(s, i, p.(pc := LinkHead), TailLock(i))
    case LinkHead => DoLinkHead(s, i)
    case UnlockChain => DoUnlockChain(s, i)
  }

  // What a caller may pass: C strings, and no separator in the key.
  predicate CallOk(c: Call) {
    KeyOk(c.key) && (c.Store? ==> NoByte(c.data, 0))
  }

  // Process i moves: it makes its next system call, or starts a call.
  ghost predicate Moves(s: Sys, i: nat, s': Sys) {
    && i < |s.procs|
    && ((Ready(s, i) && s' == Next(s, i))
        || (s.procs[i].pc.Idle? && exists c :: CallOk(c) && s' == Begin(s, i, c)))
  }

  ghost predicate Step(s: Sys, s': Sys) {
    exists i :: Moves(s, i, s')
  }

  // ---------- what db_open leaves behind ----------

  function Repeat(b: bytes, n: nat): bytes {
    if n == 0 then [] else Repeat(b, n - 1) + b
  }

  // The 138 zero pointers and the newline that db_open writes.
  function EmptyIndex(): bytes { Repeat(Pad(0, PTR_SZ), NHASH + 1) + [NEWLINE] }

  const FRESH: Proc := Proc(Idle, Fetch([]), Null, 0, 0, 0, 0, 0, 0, [], 0, 0, 0, 0, 0, 0)

  function Init(n: nat): Sys {
    Sys(EmptyIndex(), [], seq(n, _ => FRESH), {}, [])
  }

  ghost predicate Run(t: seq<Sys>, n: nat) {
    && t != [] && t[0] == Init(n)
    && forall k :: 0 <= k < |t| - 1 ==> Step(t[k], t[k + 1])
  }

  // ---------- the atomic map ----------

  type Map = map<bytes, bytes>

  function SpecMap(m: Map, c: Call): Map {
    match c
    case Fetch(_) => m
    case Delete(key) => m - {key}
    case Store(key, data, flag) =>
      if flag == BadFlag || (flag == Replace && key !in m) || (flag == Insert && key in m) then m
      else m[key := data]
  }

  function SpecResult(m: Map, c: Call): Result {
    match c
    case Fetch(key) => if key in m then Value(m[key]) else Null
    case Delete(key) => if key in m then Code(0) else Code(-1)
    case Store(key, data, flag) =>
      if flag == BadFlag then Code(-1)
      else if key in m then (if flag == Insert then Code(1) else Code(0))
      else (if flag == Replace then Code(-1) else Code(0))
  }

  // The effect of one line of the history. A store that dies at a size limit
  // leaves its key absent: a replacement of another length has by then deleted
  // the old record.
  function Effect(m: Map, e: Event): Map {
    match e
    case Done(_, c, _) => SpecMap(m, c)
    case Died(_, c) => if c.Store? then m - {c.key} else m
  }

  function Replay(log: seq<Event>): Map {
    if log == [] then map[] else Effect(Replay(log[..|log| - 1]), log[|log| - 1])
  }

  // Every returned result is the one the atomic map gives at that point.
  predicate Legal(log: seq<Event>) {
    forall k :: 0 <= k < |log| && log[k].Done? ==> log[k].result == SpecResult(Replay(log[..k]), log[k].call)
  }
}
