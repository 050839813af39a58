// The traversal itself: myftw and dopath of ftw4.c, myFTW and doPath of
// myfind.c, editing one path buffer in place and bumping global counters.
module TreeWalker {
  import opened TreeWalk

  datatype Counts = Counts(
    nreg: nat, nsreg: nat, ndir: nat, nblk: nat, nchr: nat, nfifo: nat, nslink: nat, nsock: nat)

  function Get(n: Counts, c: Counter): nat {
    match c
    case Small => n.nsreg
    case Of(Reg) => n.nreg
    case Of(DirKind) => n.ndir
    case Of(Blk) => n.nblk
    case Of(Chr) => n.nchr
    case Of(Fifo) => n.nfifo
    case Of(Lnk) => n.nslink
    case Of(Sock) => n.nsock
  }

  // What is in the buffer when a traversal is over, first being the result of
  // its first call: a readable directory loses one trailing slash, an
  // unreadable one keeps the slash it was given, anything else is as it was.
  function After(path: Path, node: Node, merge: bool, first: int): Path {
    if !node.Dir? || first != 0 then path
    else
      var b := Base(path, merge);
      if node.readable then b[..|b| - 1] else b
  }

  // Exactly when the buffer is as it was at the start.
  lemma BufferRestored(path: Path, node: Node, merge: bool, first: int)
    requires path != []
    ensures After(path, node, merge, first) == path <==>
      (!node.Dir? || first != 0 || node.readable != (merge && path[|path| - 1] == SLASH))
  {
    var b := Base(path, merge);
    assert |b| == |path| + (if merge && path[|path| - 1] == SLASH then 0 else 1);
  }

  // How much of the start of the buffer a traversal leaves alone throughout.
  function Kept(path: Path, merge: bool): nat {
    if merge && path != [] && path[|path| - 1] == SLASH then |path| - 1 else |path|
  }

  // The result of the first call of a traversal.
  function First(func: Func, log: seq<Call>, path: Path): int { Result(func, log + [Call(path, D, DirKind, 0)]) }

  class Walker {
    const w: World
    const func: Func
    const merge: bool
    const fullpath: array<char>
    var n: Counts
    var dumped: bool          // err_dump was called
    var log: seq<Call>        // the calls made, which a function may go by

    // The buffer holds the C string p.
    predicate Holds(p: Path)
      reads fullpath
    {
      |p| < fullpath.Length && fullpath[..|p|] == p && fullpath[|p|] == NUL && NUL !in p
    }

    // The counters agree with the calls made so far.
    ghost predicate Tallied()
      reads `n, `log
    {
      !func.Any? ==> forall c: Counter :: Get(n, c) == if c.Small? && func.MyFunc? then 0 else Tally(log, c)
    }

    // path_alloc, and the counters as a program finds them.
    constructor (w: World, func: Func, merge: bool, size: nat)
      requires size > 0
      ensures this.w == w && this.func == func && this.merge == merge
      ensures fresh(fullpath) && fullpath.Length == size
      ensures log == [] && !dumped && Tallied()
    {
      this.w, this.func, this.merge := w, func, merge;
      fullpath := new char[size](_ => NUL);
      n, dumped, log := Counts(0, 0, 0, 0, 0, 0, 0, 0), false, [];
    }

    method StrLen(ghost p: Path) returns (len: nat)
      requires Holds(p)
      ensures len == |p|
    {
      len := 0;
      assert forall i :: 0 <= i < |p| ==> fullpath[i] == fullpath[..|p|][i] == p[i];
      while fullpath[len] != NUL
        invariant len <= |p|
        decreases |p| - len
      {
        len := len + 1;
      }
    }

    // strcpy(fullpath + at, name)
    method StrCpy(at: nat, name: Name)
      requires at + |name| < fullpath.Length
      modifies fullpath
      ensures fullpath[..at] == old(fullpath[..at])
      ensures fullpath[at..at + |name|] == name && fullpath[at + |name|] == NUL
    {
      var i := 0;
      while i < |name|
        invariant i <= |name|
        invariant fullpath[..at] == old(fullpath[..at])
        invariant fullpath[at..at + i] == name[..i]
        modifies fullpath
      {
        fullpath[at + i] := name[i];
        i := i + 1;
      }
      fullpath[at + i] := NUL;
    }

    // func(fullpath, &statbuf, type), which is the caller's function or one of
    // myfunc and findStat.
    method CallFunc(path: Path, typ: Type, kind: Kind, size: int) returns (ret: int)
      requires Tallied()
      modifies `n, `dumped, `log
      ensures Tallied() && log == old(log) + [Call(path, typ, kind, size)]
      ensures ret == Result(func, log)
      ensures dumped == (old(dumped) || (func.MyFunc? && typ.F? && kind.DirKind?))
    {
      var call := Call(path, typ, kind, size);
      log := log + [call];
      assert log[..|log| - 1] == old(log);
      if func.Any? {
        ret := func.f(log);
      } else {
        match typ {
        case F =>
          match kind {
            case Reg =>
              n := n.(nreg := n.nreg + 1,
                      nsreg := if func.FindStat? && 0 <= size <= 4096 then n.nsreg + 1 else n.nsreg);
            case Blk => n := n.(nblk := n.nblk + 1);
            case Chr => n := n.(nchr := n.nchr + 1);
            case Fifo => n := n.(nfifo := n.nfifo + 1);
            case Lnk => n := n.(nslink := n.nslink + 1);
            case Sock => n := n.(nsock := n.nsock + 1);
            case DirKind => dumped := dumped || func.MyFunc?;
          }
        case D => n := n.(ndir := n.ndir + 1);
        case DNR =>
        case NS =>
        }
        ret := 0;
      }
    }

    // ptr = fullpath + strlen(fullpath), and the slash after it.
    method AddSlash(ghost path: Path, len: nat) returns (ptr: nat)
      requires Holds(path) && path != [] && len == |path| && len + 2 <= fullpath.Length
      modifies fullpath
      ensures Holds(Base(path, merge)) && ptr == |Base(path, merge)|
      ensures fullpath[..len] == old(fullpath[..len])
    {
      ptr := len;
      assert fullpath[..len][len - 1] == fullpath[len - 1];
      if !merge || fullpath[ptr - 1] != SLASH {
        fullpath[ptr] := SLASH;
        ptr := ptr + 1;
        fullpath[ptr] := NUL;
      }
    }

    // dopath and doPath: fullpath is all they know of where they are. path and
    // node are what that path is and what hangs there.
    method DoPath(ghost path: Path, ghost node: Node) returns (ret: int)
      requires Holds(path) && Denotes(w, path, node) && Fits(path, node, merge, fullpath.Length) && Tallied()
      modifies fullpath, `n, `dumped, `log
      ensures Outcome(log, ret) == Perform(func, old(log), Calls(path, node, merge))
      ensures Holds(After(path, node, merge, First(func, old(log), path)))
      ensures fullpath[..Kept(path, merge)] == old(fullpath[..Kept(path, merge)])
      ensures Tallied() && dumped == old(dumped)
      decreases node, 1
    {
      hide Tallied, Perform, Fits, CallsIn, KeyOf;
      assert |path| + 2 <= fullpath.Length by {
        FitsNow(path, node, merge, fullpath.Length);
      }
      PerformFirst(func, log, Calls(path, node, merge));
      var len := StrLen(path);
      var here := fullpath[..len];
      if !Exists(w, here) {
        PerformSingle(func, log, Call(path, NS, Reg, 0));
        ret := CallFunc(here, NS, Reg, 0);
        return;
      }
      var inode := w[KeyOf(here)];
      if !inode.kind.DirKind? {
        PerformSingle(func, log, Call(path, F, inode.kind, inode.size));
        ret := CallFunc(here, F, inode.kind, inode.size);
        return;
      }
      ret := CallFunc(here, D, DirKind, 0);
      if ret != 0 {
        return;
      }
      var ptr := AddSlash(path, len);
      BaseKey(path, node);
      var dp := w[KeyOf(fullpath[..ptr])];
      if !dp.readable {
        PerformSingle(func, log, Call(Base(path, merge), DNR, DirKind, 0));
        ret := CallFunc(fullpath[..ptr], DNR, DirKind, 0);
        return;
      }
      EntriesListed(path, node);
      assert Calls(path, node, merge)[1..] == CallsIn(Base(path, merge), node.entries, node, merge);
      ret := DoEntries(Base(path, merge), node, dp.names, ptr);
      fullpath[ptr - 1] := NUL;
    }

    // The readdir loop of dopath; ptr is just after the slash.
    method DoEntries(ghost base: Path, ghost node: Node, names: seq<Name>, ptr: nat) returns (ret: int)
      requires Holds(base) && ptr == |base| && base != [] && base[ptr - 1] == SLASH
      requires node.Dir? && Tallied() && Listed(base, node.entries, names)
      modifies fullpath, `n, `dumped, `log
      ensures Outcome(log, ret) == Perform(func, old(log), CallsIn(base, node.entries, node, merge))
      ensures fullpath[..ptr] == base
      ensures Tallied() && dumped == old(dumped)
      decreases node, 0
    {
      hide Tallied, Perform, Denotes, Fits, Calls, CallsIn;
      ghost var es := node.entries;
      ret := 0;
      var i := 0;
      assert es[0..] == es;
      while i < |names|
        invariant i <= |names| && ret == 0
        invariant fullpath[..ptr] == base
        invariant Perform(func, old(log), CallsIn(base, es, node, merge)) ==
            Perform(func, log, CallsIn(base, es[i..], node, merge))
        invariant Tallied() && dumped == old(dumped)
      {
        ghost var rest := CallsIn(base, es[i + 1..], node, merge);
        CallsInStep(base, es, i, node, merge);
        if Dots(names[i]) {
          assert [] + rest == rest;
          i := i + 1;
          continue;
        }
        ghost var child := base + names[i];
        FitsNow(child, es[i].node, merge, fullpath.Length);
        StrCpy(ptr, names[i]);
        assert fullpath[..|child|] == fullpath[..ptr] + fullpath[ptr..|child|];
        PerformAppend(func, log, Calls(child, es[i].node, merge), rest);
        ret := DoPath(child, es[i].node);
        assert fullpath[..ptr] == fullpath[..|child|][..ptr];
        if ret != 0 {
          return;
        }
        i := i + 1;
      }
      CallsInNone(base, node, merge);
      PerformNone(func, log);
    }

    // The entries of a directory as they are met in the loop.
    ghost predicate Listed(base: Path, es: seq<Entry>, names: seq<Name>) {
      && |es| == |names|
      && forall i :: 0 <= i < |es| ==> ListedAt(base, es[i], names[i])
    }

    ghost predicate ListedAt(base: Path, e: Entry, name: Name) {
      && e.name == name && GoodName(name)
      && (!Dots(name) ==> Denotes(w, base + name, e.node) && Fits(base + name, e.node, merge, fullpath.Length))
    }

    // opendir finds the directory that lstat has found.
    lemma BaseKey(path: Path, node: Node)
      requires Denotes(w, path, node) && node.Dir?
      ensures KeyOf(Base(path, merge)) in w && w[KeyOf(Base(path, merge))] == w[KeyOf(path)]
    {
      KeyOfChild(path, "x");
    }

    lemma EntriesListed(path: Path, node: Node)
      requires Denotes(w, path, node) && Fits(path, node, merge, fullpath.Length) && node.Dir? && node.readable
      ensures Listed(Base(path, merge), node.entries, w[KeyOf(path)].names)
    {
      var es, names := node.entries, w[KeyOf(path)].names;
      forall i | 0 <= i < |es|
        ensures ListedAt(Base(path, merge), es[i], names[i])
      {
        KeyOfChild(path, names[i]);
      }
    }

    // Main result of the two programs: with the buffer first set to pathname,
    // the calls made are those of the preorder of the tree that it names, up to
    // the first that returns nonzero, and that result is returned. With myfunc
    // or findStat nothing stops the traversal, each counter ends as the census
    // of the tree says, and the S_IFDIR case of FTW_F is never met.
    method MyFtw(pathname: Path, ghost node: Node) returns (ret: int)
      requires NUL !in pathname && Denotes(w, pathname, node) && Fits(pathname, node, merge, fullpath.Length)
      requires log == [] && Tallied() && !dumped
      modifies fullpath, `n, `dumped, `log
      ensures Outcome(log, ret) == Perform(func, [], Calls(pathname, node, merge))
      ensures Holds(After(pathname, node, merge, First(func, [], pathname)))
      ensures !dumped
      ensures !func.Any? ==> ret == 0 && log == Calls(pathname, node, merge)
      ensures !func.Any? ==> n == Counts(Census(node, Of(Reg)), if func.MyFunc? then 0 else Census(node, Small),
        Census(node, Of(DirKind)), Census(node, Of(Blk)), Census(node, Of(Chr)), Census(node, Of(Fifo)),
        Census(node, Of(Lnk)), Census(node, Of(Sock)))
    {
      StrCpy(0, pathname);
      ret := DoPath(pathname, node);
      if !func.Any? {
        AllCalled(func, [], Calls(pathname, node, merge));
        assert [] + Calls(pathname, node, merge) == Calls(pathname, node, merge);
        forall c: Counter
          ensures Get(n, c) == if c.Small? && func.MyFunc? then 0 else Census(node, c)
        {
          DenotesCounts(w, pathname, node, merge, c);
        }
        Counters(n);
      }
    }
  }

  lemma Counters(n: Counts)
    ensures n == Counts(Get(n, Of(Reg)), Get(n, Small), Get(n, Of(DirKind)), Get(n, Of(Blk)), Get(n, Of(Chr)),
      Get(n, Of(Fifo)), Get(n, Of(Lnk)), Get(n, Of(Sock)))
  {}

  lemma {:induction false} AllCalled(func: Func, log: seq<Call>, calls: seq<Call>)
    requires !func.Any?
    ensures Perform(func, log, calls) == Outcome(log + calls, 0)
    decreases |calls|
  {
    if calls == [] {
      assert log + calls == log;
    } else {
      AllCalled(func, log + [calls[0]], calls[1..]);
      assert log + [calls[0]] + calls[1..] == log + calls;
    }
  }

  lemma DenotesCounts(w: World, path: Path, node: Node, merge: bool, c: Counter)
    requires Denotes(w, path, node)
    ensures Tally(Calls(path, node, merge), c) == Census(node, c)
    ensures NeverFDir(Calls(path, node, merge))
  {
    if path != [] {
      AtNoDirLeaf(w, KeyOf(path), node);
    }
    CallsCount(path, node, merge, c);
  }

  // ---------- the inputs at which the buffer is not restored ----------

  function OneDir(readable: bool): World {
    var d := Inode(DirKind, 0, readable, []);
    map[Key(false, ["d"], false) := d, Key(false, ["d"], true) := d]
  }

  lemma PathKeys(name: Name)
    requires GoodName(name)
    ensures KeyOf(name) == Key(false, [name], false) && KeyOf(name + [SLASH]) == Key(false, [name], true)
  {
    PartsName(name, []);
    assert [] + name == name && name[0] in name && name[|name| - 1] in name;
    KeyOfChild(name, "x");
  }

  // A directory with nothing in it.
  lemma EmptyDir(w: World, path: Path, readable: bool, merge: bool)
    requires path != [] && |path| <= 8 && KeyOf(path) in w && AsDir(KeyOf(path)) in w
    requires w[KeyOf(path)] == w[AsDir(KeyOf(path))] == Inode(DirKind, 0, readable, [])
    ensures Denotes(w, path, Dir(readable, [])) && Fits(path, Dir(readable, []), merge, 10)
    ensures Calls(path, Dir(readable, []), merge) ==
      [Call(path, D, DirKind, 0)] + if readable then [] else [Call(Base(path, merge), DNR, DirKind, 0)]
  {
    hide KeyOf;
  }

  // ftw4 on an unreadable directory: it is reported with a slash, which stays.
  method UnreadableDir() returns (w: Walker, ret: int)
    ensures fresh(w) && ret == 0 && w.Holds("d/")
    ensures w.log == [Call("d", D, DirKind, 0), Call("d/", DNR, DirKind, 0)]
  {
    hide Denotes, Fits, Calls, Census, KeyOf, Perform;
    PathKeys("d");
    assert "d" + [SLASH] == "d/";
    EmptyDir(OneDir(false), "d", false, false);
    w := new Walker(OneDir(false), MyFunc, false, 10);
    ret := w.MyFtw("d", Dir(false, []));
  }

  // myfind on an empty directory given with a slash, which is erased.
  method ErasedSlash() returns (w: Walker, ret: int)
    ensures fresh(w) && ret == 0 && w.Holds("d") && w.log == [Call("d/", D, DirKind, 0)]
  {
    hide Denotes, Fits, Calls, Census, KeyOf, Perform;
    PathKeys("d");
    assert "d" + [SLASH] == "d/";
    EmptyDir(OneDir(true), "d/", true, true);
    w := new Walker(OneDir(true), FindStat, true, 10);
    ret := w.MyFtw("d/", Dir(true, []));
    assert "d/"[..1] == "d";
  }

  lemma Nothing(w: World, path: Path, merge: bool)
    requires path != [] && |path| <= 8 && KeyOf(path) !in w
    ensures Denotes(w, path, Missing) && Fits(path, Missing, merge, 10)
    ensures Calls(path, Missing, merge) == [Call(path, NS, Reg, 0)]
  {
    hide KeyOf;
  }

  // A regular file given with a slash is one that cannot be stat'ed; a link to
  // an empty directory given with a slash is that directory.
  method TrailingSlash() returns (w: Walker, file: int, v: Walker, link: int)
    ensures fresh(w) && fresh(v) && file == 0 && link == 0
    ensures w.log == [Call("f/", NS, Reg, 0)] && v.log == [Call("l/", D, DirKind, 0)]
  {
    hide Denotes, Fits, Calls, Census, KeyOf, Perform, After;
    PathKeys("f");
    PathKeys("l");
    assert "f" + [SLASH] == "f/" && "l" + [SLASH] == "l/";
    var world := map[Key(false, ["f"], false) := Inode(Reg, 5, true, []),
      Key(false, ["l"], false) := Inode(Lnk, 1, true, []), Key(false, ["l"], true) := Inode(DirKind, 0, true, [])];
    Nothing(world, "f/", false);
    EmptyDir(world, "l/", true, false);
    w := new Walker(world, MyFunc, false, 10);
    file := w.MyFtw("f/", Missing);
    v := new Walker(world, MyFunc, false, 10);
    link := v.MyFtw("l/", Dir(true, []));
  }

  // ---------- a hidden file ----------

  const HIDDEN := Dir(true, [Entry(".", Missing), Entry("..", Missing), Entry(".p", Leaf(Reg, 5))])

  function WithHidden(): World {
    var d := Inode(DirKind, 0, true, [".", "..", ".p"]);
    map[Key(false, ["d"], false) := d, Key(false, ["d"], true) := d,
      Key(false, ["d", ".p"], false) := Inode(Reg, 5, true, [])]
  }

  // It is walked and counted, unlike the two names that lead back.
  method HiddenFile() returns (w: Walker, ret: int)
    ensures fresh(w) && ret == 0 && w.log == [Call("d", D, DirKind, 0), Call("d/.p", F, Reg, 5)]
    ensures w.n.nreg == 1 && w.n.ndir == 1
  {
    hide Denotes, Fits, Calls, Census, KeyOf, Perform, After;
    HiddenThere();
    HiddenCalls();
    w := new Walker(WithHidden(), MyFunc, false, 10);
    ret := w.MyFtw("d", HIDDEN);
  }

  lemma HiddenThere()
    ensures Denotes(WithHidden(), "d", HIDDEN) && Fits("d", HIDDEN, false, 10)
  {
    hide KeyOf, Fits;
    PathKeys("d");
    var key := Key(false, ["d"], false);
    assert Child(key, ".p") == Key(false, ["d", ".p"], false);
    assert At(WithHidden(), Child(key, ".p"), Leaf(Reg, 5));
    HiddenFits();
  }

  lemma HiddenFits()
    ensures Fits("d", HIDDEN, false, 10)
  {
    assert |Base("d", false) + ".p"| == 4;
  }

  lemma HiddenCalls()
    ensures Calls("d", HIDDEN, false) == [Call("d", D, DirKind, 0), Call("d/.p", F, Reg, 5)]
    ensures Census(HIDDEN, Of(Reg)) == 1 && Census(HIDDEN, Of(DirKind)) == 1
  {
    hide Calls, Census;
    var es := HIDDEN.entries;
    CallsOf("d", HIDDEN, false);
    assert Base("d", false) == "d/" && "d/" + ".p" == "d/.p";
    CallsOf("d/.p", es[2].node, false);
    assert OfEntries(Base("d", false), es, HIDDEN, false) == [[], [], [Call("d/.p", F, Reg, 5)]];
    FlatThree([], [], [Call("d/.p", F, Reg, 5)]);
    HiddenCensus(Of(Reg));
    HiddenCensus(Of(DirKind));
  }

  lemma FlatThree(a: seq<Call>, b: seq<Call>, c: seq<Call>)
    ensures Flat([a, b, c]) == a + b + c
  {
    assert [a, b, c][1..] == [b, c] && [b, c][1..] == [c] && [c][1..] == [];
    assert Flat([c]) == c + Flat([]);
    assert Flat([b, c]) == b + Flat([c]);
  }

  lemma HiddenCensus(c: Counter)
    ensures Census(HIDDEN, c) == if c == Of(Reg) || c == Of(DirKind) || c == Small then 1 else 0
  {
    hide Census;
    CensusOf(HIDDEN, c);
    CensusOf(Leaf(Reg, 5), c);
    var one := if c == Of(Reg) || c == Small then 1 else 0;
    assert CensusOfEntries(HIDDEN.entries, HIDDEN, c) == [0, 0, one];
    assert [0, 0, one][1..] == [0, one] && [0, one][1..] == [one] && [one][1..] == [];
    assert Sum([one]) == one + Sum([]);
    assert Sum([0, one]) == Sum([one]);
  }
}
