// The results about every run of any number of processes.
module DbTheorems {
  import opened Bytes
  import opened DbFormat
  import opened DbWorld
  import opened DbMachine
  import opened DbInv
  import opened DbStepRead
  import opened DbStepQuiet
  import opened DbStepDelete
  import opened DbStepStore
  import opened DbStepEnd

  // ---------- one step ----------

  // Where a store can die: its index record has an impossible length, or was
  // appended past the largest offset a pointer field can hold.
  predicate AtLimit(p: Proc) {
    (p.pc.AUnlockDat? && !SizesOk(p)) || (p.pc.LinkHead? && p.idxoff > PTR_MAX)
  }

  // The world after process i's next system call.
  ghost function WNext(s: Sys, w: World, i: nat): World
    requires i < |s.procs|
  {
    var p := s.procs[i];
    match p.pc
    case OverWrite => WOverWrite(w, p)
    case DWriteDat => if |w.chains| == NHASH && p.offset in w.chains[HashOf(p)] then WDWriteDat(w, i, p) else w
    case DWriteIdx => WDWriteIdx(w, p)
    case DWriteFree => WDWriteFree(w, p)
    case DUnlink => WDUnlink(w, p)
    case FTake => if p.offset in w.free then WFTake(w, i, p) else w
    case RWriteDat => WRWriteDat(w, p)
    case RWriteIdx => WRWriteIdx(w, p)
    case AWriteDat => WAWriteDat(w, i, p)
    case AUnlockDat => if SizesOk(p) then w else WDieAppend(w, p)
    case AWriteIdx => WAWriteIdx(w, i, p)
    case LinkHead => if p.idxoff > PTR_MAX then WDieLink(w, p) else if |w.chains| == NHASH then WLinkHead(w, p) else w
    case UnlockChain => WUnlockChain(w, p)
    case _ => w
  }

  // Every system call of every process keeps the invariant, and no process
  // ever fails one of its consistency checks: it dies at a size limit only.
  lemma InvNext(s: Sys, w: World, i: nat)
    requires Inv(s, w) && i < |s.procs| && Ready(s, i)
    ensures Inv(Next(s, i), WNext(s, w, i))
    ensures Survives(Next(s, i), i) <==> !AtLimit(s.procs[i])
  {
    hide Inv, PInv, Hash, BodyLen, WriteAt, ReadAt, Grantable, Held, SpecMap, SpecResult;
    var p := s.procs[i];
    match p.pc {
      case LockChain => StepLockChain(s, w, i);
      case ReadHead => StepReadHead(s, w, i);
      case Walk1 => StepWalk1(s, w, i);
      case Walk2 => StepWalk2(s, w, i);
      case FReadDat => StepReadDat(s, w, i);
      case OverWrite => StepOverWrite(s, w, i);
      case DLockFree => StepDLockFree(s, w, i);
      case DWriteDat => StepDWriteDat(s, w, i);
      case DReadFree => StepDReadFree(s, w, i);
      case DWriteIdx => StepDWriteIdx(s, w, i);
      case DWriteFree => StepDWriteFree(s, w, i);
      case DUnlink => StepDUnlink(s, w, i);
      case DUnlockFree => StepDUnlockFree(s, w, i);
      case AReadHead => StepAReadHead(s, w, i);
      case SReadHead => StepSReadHead(s, w, i);
      case FLockFree => StepFLockFree(s, w, i);
      case FReadFree => StepFReadFree(s, w, i);
      case FWalk1 => StepFWalk1(s, w, i);
      case FWalk2 => StepFWalk2(s, w, i);
      case FTake => StepFTake(s, w, i);
      case FUnlockHit => StepFUnlockHit(s, w, i);
      case FUnlockMiss => StepFUnlockMiss(s, w, i);
      case RWriteDat => StepRWriteDat(s, w, i);
      case RWriteIdx => StepRWriteIdx(s, w, i);
      case ALockDat => StepALockDat(s, w, i);
      case ASeekDat => StepASeekDat(s, w, i);
      case AWriteDat => StepAWriteDat(s, w, i);
      case AUnlockDat =>
        if SizesOk(p) {
          StepAUnlockDat(s, w, i);
        } else {
          StepDieAppend(s, w, i);
        }
      case ALockIdx => StepALockIdx(s, w, i);
      case ASeekIdx => StepASeekIdx(s, w, i);
      case AWriteIdx => StepAWriteIdx(s, w, i);
      case AUnlockIdx => StepAUnlockIdx(s, w, i);
      case LinkHead =>
        if p.idxoff > PTR_MAX {
          StepDieLink(s, w, i);
        } else {
          StepLinkHead(s, w, i);
        }
      case UnlockChain => StepUnlockChain(s, w, i);
    }
  }

  // ---------- the beginning ----------

  ghost function EmptyWorld(): World {
    World(EmptyIndex(), [], map c: nat | 0 <= c < 828 && c % 6 == 0 :: 0, map[], map[], map[], map[],
          seq(NHASH, _ => []), [], map[])
  }

  lemma {:induction false} RepeatAt(b: bytes, n: nat, k: nat)
    requires |b| == 6 && k < n
    ensures |Repeat(b, n)| == 6 * n && Repeat(b, n)[6 * k..6 * k + 6] == b
  {
    RepeatLength(b, n);
    RepeatLength(b, n - 1);
    if k < n - 1 {
      RepeatAt(b, n - 1, k);
      assert Repeat(b, n)[6 * k..6 * k + 6] == Repeat(b, n - 1)[6 * k..6 * k + 6];
    }
  }

  lemma {:induction false} RepeatLength(b: bytes, n: nat)
    requires |b| == 6
    ensures |Repeat(b, n)| == 6 * n
  {
    if n > 0 {
      RepeatLength(b, n - 1);
    }
  }

  lemma EmptyRep()
    ensures Rep(EmptyWorld())
  {
    hide Digits, Pad, Repeat;
    var w := EmptyWorld();
    PtrRoundTrip(0);
    RepeatLength(Pad(0, 6), NHASH + 1);
    forall c: nat | HdrCell(c)
      ensures c in w.cells && PtrAt(w.idx, c, w.cells[c])
    {
      RepeatAt(Pad(0, 6), NHASH + 1, c / 6);
      assert c == 6 * (c / 6);
      assert w.idx[c..c + 6] == Repeat(Pad(0, 6), NHASH + 1)[c..c + 6];
    }
    assert IdxExt(w.recs) == map[];
  }

  lemma EmptyLists()
    ensures ListsOk(EmptyWorld()) && FreeInv(EmptyWorld())
    ensures forall h :: 0 <= h < NHASH ==> ChainInv(EmptyWorld(), h, EmptyWorld().cells, map[])
  {
    hide Hash, EmptyIndex;
    var w := EmptyWorld();
    forall h | 0 <= h < NHASH
      ensures ChainInv(w, h, w.cells, map[])
    {
      assert HdrCell(ChainOff(h));
    }
  }

  lemma InvInit(n: nat)
    ensures Inv(Init(n), EmptyWorld())
  {
    hide Rep, ListsOk, FreeInv, EmptyIndex, ChainInv, Hash;
    EmptyRep();
    EmptyLists();
    var s, w := Init(n), EmptyWorld();
    forall i | 0 <= i < n
      ensures PInv(w, i, s.procs[i]) && !HoldsChain(s.procs[i]) && Held(i, s.procs[i]) == {}
    {}
  }

  // ---------- every run ----------

  lemma InvStep(s: Sys, w: World, s': Sys) returns (w': World)
    requires Inv(s, w) && Step(s, s')
    ensures Inv(s', w')
  {
    hide Inv, Next, Begin, CallOk, Ready, WNext;
    var i :| Moves(s, i, s');
    if Ready(s, i) && s' == Next(s, i) {
      InvNext(s, w, i);
      w' := WNext(s, w, i);
    } else {
      var c :| CallOk(c) && s' == Begin(s, i, c);
      StepBegin(s, w, i, c);
      w' := w;
    }
  }

  lemma {:induction false} RunInv(t: seq<Sys>, n: nat) returns (w: World)
    requires Run(t, n)
    ensures Inv(t[|t| - 1], w)
  {
    hide Inv, Step, Init;
    if |t| == 1 {
      InvInit(n);
      w := EmptyWorld();
    } else {
      var t0 := t[..|t| - 1];
      assert t[|t| - 2] == t0[|t0| - 1];
      var w0 := RunInv(t0, n);
      assert Step(t[|t| - 2], t[|t| - 1]);
      w := InvStep(t[|t| - 2], w0, t[|t| - 1]);
    }
  }

  // Main result. In every run every call returned what the atomic map gives at
  // the point where it let go of its chain, and the map went on from there. The
  // map begins empty. A fetch returns the value of its key, or NULL; a delete
  // takes its key away and returns 0, or returns -1 if it is not there; a store
  // returns 1 for a key that was not to be there and is, -1 for one that was to
  // be there and is not or for an unknown flag, and otherwise puts the pair in
  // the map and returns 0. One that dies leaves its key absent.
  lemma Linearizable(t: seq<Sys>, n: nat)
    requires Run(t, n)
    ensures Legal(t[|t| - 1].log) && Replay([]) == map[]
    ensures var log := t[|t| - 1].log;
      forall k :: 0 <= k < |log| ==>
        var m, m' := Replay(log[..k]), Replay(log[..k + 1]);
        match log[k]
        case Done(_, Fetch(key), r) => m' == m && r == if key in m then Value(m[key]) else Null
        case Done(_, Delete(key), r) => m' == m - {key} && r == Code(if key in m then 0 else -1)
        case Done(_, Store(key, data, flag), r) =>
          if flag == Insert && key in m then m' == m && r == Code(1)
          else if (flag == Replace && key !in m) || flag == BadFlag then m' == m && r == Code(-1)
          else m' == m[key := data] && r == Code(0)
        case Died(_, c) => c.Store? ==> m' == m - {c.key}
  {
    hide Inv;
    var w := RunInv(t, n);
    var log := t[|t| - 1].log;
    assert Legal(log) by {
      LegalNow(t[|t| - 1], w);
    }
    forall k | 0 <= k < |log|
      ensures Replay(log[..k + 1]) == Effect(Replay(log[..k]), log[k])
    {
      assert log[..k + 1] == log[..k] + [log[k]];
      ReplayAppend(log[..k], log[k]);
    }
  }

  lemma LegalNow(s: Sys, w: World)
    requires Inv(s, w)
    ensures Legal(s.log)
  {}
}
