// The invariant of the running system: the bytes encode a world, the world's
// lists partition its records, each hash chain nobody is writing holds exactly
// its share of the abstract map, and every process in the middle of a call
// knows what its program counter says it knows.
module DbInv {
  import opened Bytes
  import opened DbFormat
  import opened DbWorld
  import opened DbMachine

  // ---------- linked lists of file offsets ----------

  // The cell that points at position k of a list, and the offset stored there.
  function At(start: nat, path: seq<nat>, k: nat): nat
    requires k <= |path|
  {
    if k == 0 then start else path[k - 1]
  }

  function Nth(path: seq<nat>, k: nat): nat
    requires k <= |path|
  {
    if k == |path| then 0 else path[k]
  }

  // Following the cells from start visits path and ends in 0.
  ghost predicate Linked(cells: map<nat, nat>, start: nat, path: seq<nat>) {
    forall k :: 0 <= k <= |path| ==>
      At(start, path, k) in cells && cells[At(start, path, k)] == Nth(path, k)
  }

  ghost predicate NoDup(path: seq<nat>) {
    forall j, k :: 0 <= j < k < |path| ==> path[j] != path[k]
  }

  ghost function IndexOf(path: seq<nat>, o: nat): (k: nat)
    requires o in path
    ensures k < |path| && path[k] == o
  {
    var k :| 0 <= k < |path| && path[k] == o;
    k
  }

  function RemoveAt(path: seq<nat>, k: nat): seq<nat>
    requires k < |path|
  {
    path[..k] + path[k + 1..]
  }

  // ---------- what the world satisfies ----------

  ghost predicate ListsOk(w: World) {
    && |w.chains| == NHASH
    && w.loc.Keys == w.recs.Keys
    && (forall o :: o in w.loc && w.loc[o].OnChain? ==> w.loc[o].h < NHASH)
    && (forall h :: 0 <= h < NHASH ==> NoDup(w.chains[h]))
    && (forall h, o :: 0 <= h < NHASH ==> (o in w.chains[h] <==> o in w.loc && w.loc[o] == OnChain(h)))
    && NoDup(w.free)
    && (forall o :: o in w.free <==> o in w.loc && w.loc[o] == OnFree)
  }

  ghost predicate FreeInv(w: World) {
    && Linked(w.cells, FREE_OFF, w.free)
    && (forall o :: o in w.free ==> o in w.recs && AllBlank(w.recs[o].key))
  }

  ghost predicate HasKey(w: World, c: seq<nat>, key: bytes) {
    exists o :: o in c && o in w.recs && w.recs[o].key == key
  }

  // Chain h holds the part of m that hashes to h, and nothing else.
  ghost predicate Content(w: World, h: nat, m: Map)
    requires h < |w.chains|
  {
    var c := w.chains[h];
    && (forall o :: o in c ==>
          && o in w.recs
          && Hash(w.recs[o].key) == h
          && w.recs[o].key in m
          && DataOf(w.dat, w.recs[o]) == m[w.recs[o].key] + [NEWLINE])
    && (forall a, b :: a in c && b in c && a in w.recs && b in w.recs && w.recs[a].key == w.recs[b].key ==> a == b)
    && (forall key :: key in m && Hash(key) == h ==> HasKey(w, c, key))
  }

  ghost predicate ChainInv(w: World, h: nat, cells: map<nat, nat>, m: Map)
    requires h < |w.chains|
  {
    Linked(cells, ChainOff(h), w.chains[h]) && Content(w, h, m)
  }

  // ---------- which locks a process holds ----------

  predicate HoldsChain(p: Proc) { !p.pc.Idle? && !p.pc.Dead? && !p.pc.LockChain? }

  predicate HoldsFree(p: Proc) {
    p.pc.DWriteDat? || p.pc.DReadFree? || p.pc.DWriteIdx? || p.pc.DWriteFree?
    || p.pc.DUnlink? || p.pc.DUnlockFree? || p.pc.FReadFree? || p.pc.FWalk1? || p.pc.FWalk2?
    || p.pc.FTake? || p.pc.FUnlockHit? || p.pc.FUnlockMiss?
  }

  predicate HoldsDat(p: Proc) { (p.pc.ASeekDat? || p.pc.AWriteDat? || p.pc.AUnlockDat?) }

  predicate HoldsTail(p: Proc) { (p.pc.ASeekIdx? || p.pc.AWriteIdx? || p.pc.AUnlockIdx?) }

  predicate WritesChain(p: Proc) { HoldsChain(p) && IsStoreOrDelete(p.call) }

  function Held(i: nat, p: Proc): set<Lock> {
    (if HoldsChain(p) then {ChainLock(i, p)} else {})
    + (if HoldsFree(p) then {FreeLock(i)} else {})
    + (if HoldsDat(p) then {DatLock(i)} else {})
    + (if HoldsTail(p) then {TailLock(i)} else {})
  }

  // The three locks taken and dropped while the chain is locked.
  datatype Region = FreeList | DataFile | IndexTail

  predicate HoldsRegion(p: Proc, r: Region) {
    match r
    case FreeList => HoldsFree(p)
    case DataFile => HoldsDat(p)
    case IndexTail => HoldsTail(p)
  }

  function RegionLock(i: nat, r: Region): Lock {
    match r
    case FreeList => FreeLock(i)
    case DataFile => DatLock(i)
    case IndexTail => TailLock(i)
  }

  // Both in the same call, holding the same locks.
  predicate SameHolds(p: Proc, p': Proc) {
    HoldsChain(p) && HoldsChain(p') && p'.call == p.call
    && HoldsFree(p') == HoldsFree(p) && HoldsDat(p') == HoldsDat(p) && HoldsTail(p') == HoldsTail(p)
  }

  predicate GainsRegion(p: Proc, p': Proc, r: Region) {
    && HoldsChain(p) && HoldsChain(p') && p'.call == p.call
    && !HoldsRegion(p, r) && HoldsRegion(p', r)
    && (r.FreeList? || HoldsFree(p') == HoldsFree(p))
    && (r.DataFile? || HoldsDat(p') == HoldsDat(p))
    && (r.IndexTail? || HoldsTail(p') == HoldsTail(p))
  }

  ghost predicate LocksOk(s: Sys) {
    && (forall l :: l in s.locks <==> l.pid < |s.procs| && l in Held(l.pid, s.procs[l.pid]))
    && (forall a, b :: a in s.locks && b in s.locks ==> !Conflict(a, b))
  }

  // ---------- what a process knows ----------

  // The pointer write that will complete the unlinking under way, if any.
  function PatchOf(p: Proc): Option<(nat, nat)> {
    if p.pc.DReadFree? then Some((p.ptroff, p.ptrval))
    else if p.pc.DWriteIdx? || p.pc.DWriteFree? || p.pc.DUnlink? then Some((p.ptroff, p.saveptr))
    else None
  }

  // The cells as they will be then.
  function CellsFor(w: World, p: Proc): map<nat, nat> {
    match PatchOf(p)
    case None => w.cells
    case Some(e) => w.cells[e.0 := e.1]
  }

  predicate Mid(p: Proc) {
    p.pc.DReadFree? || p.pc.DWriteIdx? || p.pc.DWriteFree? || p.pc.DUnlink?
    || p.pc.DUnlockFree? || p.pc.AReadHead? || p.pc.ALockDat? || p.pc.ASeekDat?
    || p.pc.AWriteDat? || p.pc.AUnlockDat? || p.pc.ALockIdx? || p.pc.ASeekIdx?
    || p.pc.AWriteIdx? || p.pc.AUnlockIdx? || p.pc.FLockFree? || p.pc.FReadFree? || p.pc.FWalk1?
    || p.pc.FWalk2? || p.pc.FTake? || p.pc.FUnlockHit? || p.pc.FUnlockMiss? || p.pc.RWriteDat?
    || p.pc.RWriteIdx? || p.pc.LinkHead?
  }

  // The map its chain holds right now, when the log so far has produced m.
  function Eff(p: Proc, m: Map): Map {
    if p.pc.UnlockChain? then SpecMap(m, p.call)
    else if Mid(p) then m - {p.call.key}
    else m
  }

  ghost predicate MyChain(w: World, p: Proc)
    requires |w.chains| == NHASH
  {
    ChainInv(w, HashOf(p), CellsFor(w, p), Eff(p, w.m))
  }

  ghost predicate AtNode(w: World, p: Proc)
    requires |w.chains| == NHASH
  {
    var c := w.chains[HashOf(p)];
    && p.offset in c && p.offset in w.cells && p.offset in w.recs
    && p.ptroff == At(p.chainoff, c, IndexOf(c, p.offset))
    && (forall j :: 0 <= j < IndexOf(c, p.offset) && c[j] in w.recs ==> w.recs[c[j]].key != p.call.key)
  }

  // _db_readidx has read the record at offset.
  ghost predicate NodeRead(w: World, p: Proc) {
    && p.offset in w.cells && p.offset in w.recs
    && p.idxoff == p.offset && p.ptrval == w.cells[p.offset]
    && p.datoff == w.recs[p.offset].datoff && p.datlen == w.recs[p.offset].datlen
  }

  ghost predicate Found(w: World, p: Proc)
    requires |w.chains| == NHASH
  {
    AtNode(w, p) && NodeRead(w, p) && w.recs[p.offset].key == p.call.key
  }

  ghost predicate AtFree(w: World, p: Proc) {
    && p.offset in w.free && p.offset in w.cells && p.offset in w.recs
    && p.saveoffset == At(FREE_OFF, w.free, IndexOf(w.free, p.offset))
  }

  predicate Growing(m: Map, c: Call) {
    && c.Store? && c.flag != BadFlag
    && (if c.key in m then c.flag != Insert else c.flag != Replace)
  }

  ghost predicate HasHead(w: World, p: Proc) {
    p.chainoff in w.cells && p.headval == w.cells[p.chainoff]
  }

  // A record in the process's hands whose sizes fit the key and the value.
  ghost predicate Holding(w: World, i: nat, p: Proc, klen: nat) {
    && p.idxoff in w.loc && w.loc[p.idxoff] == HeldBy(i)
    && p.idxoff in w.recs && p.idxoff in w.cells
    && |w.recs[p.idxoff].key| == klen
    && w.recs[p.idxoff].datoff == p.datoff && w.recs[p.idxoff].datlen == p.datlen
  }

  ghost predicate HasValue(w: World, p: Proc) {
    ReadAt(w.dat, p.datoff, p.datlen) == StoreData(p.call)
  }

  ghost predicate HasPending(w: World, i: nat, p: Proc) {
    && p.datoff in w.dloc && w.dloc[p.datoff] == Pending(i)
    && p.datoff in w.ext && w.ext[p.datoff] == p.datlen == |StoreData(p.call)|
    && HasValue(w, p)
  }

  predicate SizesOk(p: Proc) {
    IDXLEN_MIN <= BodyLen(Rec(p.call.key, p.datoff, p.datlen)) <= IDXLEN_MAX
  }

  predicate GoodCall(p: Proc) {
    && p.chainoff == ChainOff(HashOf(p)) && CallOk(p.call)
    && (p.call.Store? ==> p.call.flag != BadFlag && DATLEN_MIN <= |p.call.data| + 1 <= DATLEN_MAX)
  }

  predicate WillDelete(p: Proc) {
    p.call.Delete? || (p.call.Store? && p.call.flag != Insert)
  }

  // _db_find_and_lock, and what is done with a record it found
  ghost predicate WalkInv(w: World, i: nat, p: Proc)
    requires |w.chains| == NHASH
  {
    match p.pc
    case LockChain => p.ptroff == p.chainoff
    case ReadHead => p.ptroff == p.chainoff
    case Walk1 => AtNode(w, p)
    case Walk2 => AtNode(w, p) && p.idxoff == p.offset && p.ptrval == w.cells[p.offset]
           && p.idxlen == BodyLen(w.recs[p.offset])
    case FReadDat => p.call.Fetch? && Found(w, p)
    case OverWrite => Growing(w.m, p.call) && Found(w, p) && |p.call.data| + 1 == p.datlen
    case UnlockChain => p.result == SpecResult(w.m, p.call)
    case _ => true
  }

  // _db_dodelete
  ghost predicate DeleteInv(w: World, i: nat, p: Proc)
    requires |w.chains| == NHASH
  {
    match p.pc
    case DLockFree => WillDelete(p) && Found(w, p) && p.idxbuf == Blanks(|p.call.key|)
    case DWriteDat => WillDelete(p) && Found(w, p) && p.idxbuf == Blanks(|p.call.key|)
    case DReadFree => Deleting(w, p) && p.idxbuf == Blanks(|p.call.key|) && p.ptrval <= PTR_MAX
        && Holding(w, i, p, |p.call.key|)
    case DWriteIdx => Deleting(w, p) && p.idxbuf == Blanks(|p.call.key|) && p.saveptr <= PTR_MAX
        && Holding(w, i, p, |p.call.key|)
           && FREE_OFF in w.cells && p.freeptr == w.cells[FREE_OFF]
    case DWriteFree => Deleting(w, p) && p.saveptr <= PTR_MAX && Holding(w, i, p, |p.call.key|)
           && FREE_OFF in w.cells && w.cells[p.idxoff] == w.cells[FREE_OFF]
           && w.recs[p.idxoff].key == Blanks(|p.call.key|)
    case DUnlink => Deleting(w, p) && p.saveptr <= PTR_MAX
    case DUnlockFree => WillDelete(p) && p.call.key in w.m
    case _ => true
  }

  // _db_findfree, and the reuse of the record it found
  ghost predicate FreeWalkInv(w: World, i: nat, p: Proc)
    requires |w.chains| == NHASH
  {
    match p.pc
    case SReadHead => Growing(w.m, p.call) && p.call.key !in w.m
    case FLockFree => Growing(w.m, p.call) && HasHead(w, p)
    case FReadFree => Growing(w.m, p.call) && HasHead(w, p)
    case FWalk1 => Growing(w.m, p.call) && HasHead(w, p) && AtFree(w, p)
    case FWalk2 => Growing(w.m, p.call) && HasHead(w, p) && AtFree(w, p) && p.idxoff == p.offset
           && p.ptrval == w.cells[p.offset] && p.idxlen == BodyLen(w.recs[p.offset])
    case FTake => Growing(w.m, p.call) && HasHead(w, p) && AtFree(w, p) && NodeRead(w, p)
           && |w.recs[p.offset].key| == |p.call.key| && p.datlen == |StoreData(p.call)|
    case FUnlockHit => Growing(w.m, p.call) && HasHead(w, p) && Holding(w, i, p, |p.call.key|)
           && p.datlen == |StoreData(p.call)|
    case FUnlockMiss => Growing(w.m, p.call) && HasHead(w, p)
    case RWriteDat => Growing(w.m, p.call) && HasHead(w, p) && Holding(w, i, p, |p.call.key|)
           && p.datlen == |StoreData(p.call)|
    case RWriteIdx => Growing(w.m, p.call) && HasHead(w, p) && Holding(w, i, p, |p.call.key|) && HasValue(w, p)
    case _ => true
  }

  // the appending paths and the final link
  ghost predicate AppendInv(w: World, i: nat, p: Proc)
    requires |w.chains| == NHASH
  {
    match p.pc
    case AReadHead => Growing(w.m, p.call)
    case ALockDat => Growing(w.m, p.call) && HasHead(w, p)
    case ASeekDat => Growing(w.m, p.call) && HasHead(w, p)
    case AWriteDat => Growing(w.m, p.call) && HasHead(w, p) && p.datoff == |w.dat|
           && p.datlen == |StoreData(p.call)|
    case AUnlockDat => Growing(w.m, p.call) && HasHead(w, p) && HasPending(w, i, p)
    case ALockIdx => Growing(w.m, p.call) && HasHead(w, p) && HasPending(w, i, p) && SizesOk(p)
    case ASeekIdx => Growing(w.m, p.call) && HasHead(w, p) && HasPending(w, i, p) && SizesOk(p)
    case AWriteIdx => Growing(w.m, p.call) && HasHead(w, p) && HasPending(w, i, p) && SizesOk(p)
           && p.idxoff == |w.idx|
    case AUnlockIdx => Growing(w.m, p.call) && HasHead(w, p) && Linkable(w, i, p)
    case LinkHead => Growing(w.m, p.call) && HasHead(w, p) && Linkable(w, i, p)
    case _ => true
  }

  ghost predicate PInv(w: World, i: nat, p: Proc)
    requires |w.chains| == NHASH
  {
    && (!p.pc.Idle? && !p.pc.Dead? ==> GoodCall(p))
    && WalkInv(w, i, p) && DeleteInv(w, i, p) && FreeWalkInv(w, i, p) && AppendInv(w, i, p)
  }

  ghost predicate Deleting(w: World, p: Proc)
    requires |w.chains| == NHASH
  {
    && WillDelete(p) && p.call.key in w.m && p.idxoff <= PTR_MAX
    && (p.ptroff == p.chainoff || p.ptroff in w.chains[HashOf(p)])
  }

  ghost predicate Linkable(w: World, i: nat, p: Proc) {
    && Holding(w, i, p, |p.call.key|)
    && w.recs[p.idxoff].key == p.call.key
    && w.cells[p.idxoff] == p.headval
    && HasValue(w, p)
  }

  predicate Survives(s: Sys, i: nat) { i < |s.procs| && !s.procs[i].pc.Dead? }

  // ---------- the invariant ----------

  ghost predicate NoWriter(s: Sys, h: nat) {
    forall i :: 0 <= i < |s.procs| && WritesChain(s.procs[i]) ==> HashOf(s.procs[i]) != h
  }

  ghost predicate Coupled(s: Sys, w: World) {
    w.idx == s.idx && w.dat == s.dat && w.m == Replay(s.log) && Legal(s.log)
  }

  ghost predicate WorldOk(w: World) { |w.chains| == NHASH && Rep(w) && ListsOk(w) && FreeInv(w) }

  ghost predicate Inv(s: Sys, w: World) {
    && Coupled(s, w) && WorldOk(w) && LocksOk(s)
    && (forall i :: 0 <= i < |s.procs| ==> PInv(w, i, s.procs[i]))
    && (forall i :: 0 <= i < |s.procs| && HoldsChain(s.procs[i]) ==> MyChain(w, s.procs[i]))
    && (forall h :: 0 <= h < NHASH && NoWriter(s, h) ==> ChainInv(w, h, w.cells, w.m))
  }
}
