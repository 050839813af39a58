// apue.2e/file/ftw4.c and Exp_2's myfind.c: what a traversal is, on values.
module TreeWalk {

  type Name = string
  type Path = string

  const SLASH: char := '/'
  const NUL: char := '\0'

  // The S_IFMT part of a mode.
  datatype Kind = Reg | DirKind | Blk | Chr | Fifo | Lnk | Sock

  // A finite directory tree, as lstat and readdir show it. Missing is a name
  // that cannot be stat'ed. The entries of a directory are in the order of
  // readdir, dot and dot-dot among them; what those two lead to is not used.
  datatype Node =
    | Missing
    | Leaf(kind: Kind, size: int)
    | Dir(readable: bool, entries: seq<Entry>)

  datatype Entry = Entry(name: Name, node: Node)

  predicate Dots(name: Name) { name == "." || name == ".." }

  // ---------- the kernel's view of a path ----------

  // Whether the path is absolute, its components, and whether a slash ends it;
  // slashes may be doubled.
  datatype Key = Key(absolute: bool, parts: seq<Name>, slash: bool)

  datatype Inode = Inode(kind: Kind, size: int, readable: bool, names: seq<Name>)

  type World = map<Key, Inode>

  // The components of a path, given what has been read of the last one.
  function Parts(path: Path, part: Name): seq<Name> {
    if path == [] then (if part == [] then [] else [part])
    else if path[0] == SLASH then (if part == [] then [] else [part]) + Parts(path[1..], [])
    else Parts(path[1..], part + [path[0]])
  }

  function KeyOf(path: Path): Key {
    Key(path != [] && path[0] == SLASH, Parts(path, []), path != [] && path[|path| - 1] == SLASH)
  }

  function AsDir(key: Key): Key { key.(slash := true) }

  function Child(key: Key, name: Name): Key { Key(key.absolute, key.parts + [name], false) }

  predicate Exists(w: World, path: Path) { path != [] && KeyOf(path) in w }

  predicate GoodName(name: Name) { name != [] && SLASH !in name && NUL !in name }

  // The tree that hangs at key. With a slash at its end a path leads to the same
  // directory as without, or through a link to one, and otherwise to nothing.
  ghost predicate At(w: World, key: Key, node: Node)
    decreases node
  {
    match node
    case Missing => key !in w
    case Leaf(kind, size) => key in w && w[key].kind == kind && w[key].size == size && !kind.DirKind? && !key.slash
    case Dir(readable, es) =>
      && key in w && w[key].kind.DirKind? && w[key].readable == readable
      && AsDir(key) in w && w[AsDir(key)] == w[key]
      && (readable ==>
            && |w[key].names| == |es|
            && (forall i :: 0 <= i < |es| ==> w[key].names[i] == es[i].name && GoodName(es[i].name))
            && (forall i :: 0 <= i < |es| && !Dots(es[i].name) ==>
                  At(w, Child(key, es[i].name), es[i].node)))
  }

  ghost predicate Denotes(w: World, path: Path, node: Node) {
    if path == [] then node.Missing? else At(w, KeyOf(path), node)
  }

  lemma {:induction false} PartsAppend(a: Path, b: Path, part: Name)
    ensures Parts(a + [SLASH] + b, part) == Parts(a, part) + Parts(b, [])
  {
    if a == [] {
      assert a + [SLASH] + b == [SLASH] + b;
      assert ([SLASH] + b)[1..] == b;
    } else {
      assert (a + [SLASH] + b)[0] == a[0];
      assert (a + [SLASH] + b)[1..] == a[1..] + [SLASH] + b;
      PartsAppend(a[1..], b, if a[0] == SLASH then [] else part + [a[0]]);
    }
  }

  lemma {:induction false} PartsName(name: Name, part: Name)
    requires SLASH !in name
    ensures Parts(name, part) == if part + name == [] then [] else [part + name]
  {
    if name == [] {
      assert part + name == part;
    } else {
      assert (part + [name[0]]) + name[1..] == part + name;
      assert SLASH !in name[1..];
      PartsName(name[1..], part + [name[0]]);
    }
  }

  // A name after a path and a slash is one more component, whether or not the
  // path ends in a slash already.
  lemma KeyOfChild(path: Path, name: Name)
    requires path != [] && GoodName(name)
    ensures KeyOf(path + [SLASH]) == AsDir(KeyOf(path))
    ensures KeyOf(path + [SLASH] + name) == Child(KeyOf(path), name)
    ensures path[|path| - 1] == SLASH ==> KeyOf(path + name) == Child(KeyOf(path), name)
  {
    assert name[|name| - 1] in name;
    PartsAppend(path, [], []);
    assert path + [SLASH] + [] == path + [SLASH];
    PartsAppend(path, name, []);
    PartsName(name, []);
    assert [] + name == name;
    if path[|path| - 1] == SLASH {
      var front := path[..|path| - 1];
      assert path == front + [SLASH] + [];
      PartsAppend(front, [], []);
      assert path + name == front + [SLASH] + name;
      PartsAppend(front, name, []);
    }
  }

  // ---------- the calls of a traversal ----------

  datatype Type = F | D | DNR | NS

  datatype Call = Call(path: Path, typ: Type, kind: Kind, size: int)

  // What is appended to a directory's path before the names in it: ftw4 always
  // adds a slash, myfind (merge) does not double one.
  function Base(path: Path, merge: bool): (b: Path)
    ensures path <= b && b != [] && b[|b| - 1] == SLASH
  {
    if merge && path != [] && path[|path| - 1] == SLASH then path else path + [SLASH]
  }

  // Preorder: a directory before its entries, an unreadable one a second time.
  function Calls(path: Path, node: Node, merge: bool): seq<Call>
    decreases node, 0
  {
    match node
    case Missing => [Call(path, NS, Reg, 0)]
    case Leaf(kind, size) => [Call(path, F, kind, size)]
    case Dir(readable, es) =>
      [Call(path, D, DirKind, 0)] +
      (if readable then CallsIn(Base(path, merge), es, node, merge) else [Call(Base(path, merge), DNR, DirKind, 0)])
  }

  function CallsIn(base: Path, es: seq<Entry>, parent: Node, merge: bool): seq<Call>
    requires forall i :: 0 <= i < |es| ==> es[i].node < parent
    decreases parent, 0, |es|
  {
    if es == [] then []
    else
      (if Dots(es[0].name) then [] else Calls(base + es[0].name, es[0].node, merge))
      + CallsIn(base, es[1..], parent, merge)
  }

  // ---------- which entries ----------

  function Flat(parts: seq<seq<Call>>): seq<Call> {
    if parts == [] then [] else parts[0] + Flat(parts[1..])
  }

  function Sum(parts: seq<nat>): nat { if parts == [] then 0 else parts[0] + Sum(parts[1..]) }

  // The calls that each entry of a directory has by itself: those of its tree
  // under its own path, and none for the two names that lead back.
  function OfEntries(base: Path, es: seq<Entry>, parent: Node, merge: bool): seq<seq<Call>>
    requires forall i :: 0 <= i < |es| ==> es[i].node < parent
    decreases parent, 1, |es|
  {
    seq(|es|, k requires 0 <= k < |es| =>
      if es[k].name == "." || es[k].name == ".." then [] else Calls(base + es[k].name, es[k].node, merge))
  }

  // Main result. What cannot be stat'ed has one call, with FTW_NS, and what is no
  // directory one, with FTW_F; an unreadable directory two, FTW_D and FTW_DNR. A
  // readable one has FTW_D and then, in the order of readdir, the calls of every
  // entry whose name is neither "." nor "..", hidden or not.
  lemma CallsOf(path: Path, node: Node, merge: bool)
    ensures node.Missing? ==> Calls(path, node, merge) == [Call(path, NS, Reg, 0)]
    ensures node.Leaf? ==> Calls(path, node, merge) == [Call(path, F, node.kind, node.size)]
    ensures node.Dir? && !node.readable ==>
      Calls(path, node, merge) == [Call(path, D, DirKind, 0), Call(Base(path, merge), DNR, DirKind, 0)]
    ensures node.Dir? && node.readable ==>
      Calls(path, node, merge) ==
        [Call(path, D, DirKind, 0)] + Flat(OfEntries(Base(path, merge), node.entries, node, merge))
  {
    if node.Dir? && node.readable {
      CallsInFlat(Base(path, merge), node.entries, node, merge);
    }
  }

  lemma {:induction false} CallsInFlat(base: Path, es: seq<Entry>, parent: Node, merge: bool)
    requires forall i :: 0 <= i < |es| ==> es[i].node < parent
    ensures CallsIn(base, es, parent, merge) == Flat(OfEntries(base, es, parent, merge))
    decreases |es|
  {
    if es != [] {
      CallsInFlat(base, es[1..], parent, merge);
      assert OfEntries(base, es, parent, merge)[1..] == OfEntries(base, es[1..], parent, merge);
    }
  }

  lemma CallsInNone(base: Path, parent: Node, merge: bool)
    ensures CallsIn(base, [], parent, merge) == []
  {}

  lemma CallsInStep(base: Path, es: seq<Entry>, i: nat, parent: Node, merge: bool)
    requires i < |es| && forall k :: 0 <= k < |es| ==> es[k].node < parent
    ensures CallsIn(base, es[i..], parent, merge) ==
      (if Dots(es[i].name) then [] else Calls(base + es[i].name, es[i].node, merge))
      + CallsIn(base, es[i + 1..], parent, merge)
  {
    hide Calls, Dots;
    assert es[i..][0] == es[i] && es[i..][1..] == es[i + 1..];
  }

  // A caller's function: any, with a result that may depend on all it has been
  // called with so far; or one of the two that count.
  datatype Func = Any(f: seq<Call> -> int) | MyFunc | FindStat

  function Result(func: Func, log: seq<Call>): int {
    match func
    case Any(f) => f(log)
    case MyFunc => 0
    case FindStat => 0
  }

  datatype Outcome = Outcome(log: seq<Call>, ret: int)

  // Making calls until one returns nonzero.
  function Perform(func: Func, log: seq<Call>, calls: seq<Call>): Outcome
    decreases |calls|
  {
    if calls == [] then Outcome(log, 0)
    else
      var r := Result(func, log + [calls[0]]);
      if r != 0 then Outcome(log + [calls[0]], r) else Perform(func, log + [calls[0]], calls[1..])
  }

  lemma {:induction false} PerformAppend(func: Func, log: seq<Call>, a: seq<Call>, b: seq<Call>)
    ensures var o := Perform(func, log, a);
      Perform(func, log, a + b) == if o.ret != 0 then o else Perform(func, o.log, b)
    decreases |a|
  {
    if a == [] {
      assert a + b == b;
    } else {
      assert (a + b)[0] == a[0] && (a + b)[1..] == a[1..] + b;
      PerformAppend(func, log + [a[0]], a[1..], b);
    }
  }

  lemma PerformNone(func: Func, log: seq<Call>)
    ensures Perform(func, log, []) == Outcome(log, 0)
  {}

  lemma PerformFirst(func: Func, log: seq<Call>, calls: seq<Call>)
    requires calls != []
    ensures var r := Result(func, log + [calls[0]]);
      Perform(func, log, calls) == if r != 0 then Outcome(log + [calls[0]], r)
          else Perform(func, log + [calls[0]], calls[1..])
  {}

  lemma PerformSingle(func: Func, log: seq<Call>, call: Call)
    ensures Perform(func, log, [call]) == Outcome(log + [call], Result(func, log + [call]))
  {
    assert [call][1..] == [];
  }

  // Perform in closed form: the calls made are the shortest prefix that ends in
  // a nonzero result, and that result is returned; or all calls, and 0.
  lemma {:induction false} PerformStops(func: Func, log: seq<Call>, calls: seq<Call>) returns (k: nat)
    ensures k <= |calls| && Perform(func, log, calls).log == log + calls[..k]
    ensures forall i :: 0 < i < k ==> Result(func, log + calls[..i]) == 0
    ensures Perform(func, log, calls).ret == if k == 0 then 0 else Result(func, log + calls[..k])
    ensures k < |calls| ==> Perform(func, log, calls).ret != 0
    decreases |calls|
  {
    if calls == [] {
      k := 0;
      assert log + calls[..0] == log;
    } else {
      var log1 := log + [calls[0]];
      assert log + calls[..1] == log1;
      if Result(func, log1) != 0 {
        k := 1;
      } else {
        var m := PerformStops(func, log1, calls[1..]);
        k := m + 1;
        forall i | 0 < i <= k
          ensures log + calls[..i] == log1 + calls[1..][..i - 1]
        {}
      }
    }
  }

  // ---------- what the counters count ----------

  // The counters of the two programs: one for each kind of file, and the
  // regular files of at most 4096 bytes.
  datatype Counter = Of(kind: Kind) | Small

  function One(kind: Kind, size: int, c: Counter): nat {
    match c
    case Of(k) => if k == kind then 1 else 0
    case Small => if kind.Reg? && 0 <= size <= 4096 then 1 else 0
  }

  // How many things that c counts there are in the part of a tree that can be
  // seen.
  function Census(node: Node, c: Counter): nat
    decreases node, 0
  {
    match node
    case Missing => 0
    case Leaf(kind, size) => One(kind, size, c)
    case Dir(readable, es) => One(DirKind, 0, c) + (if readable then CensusIn(es, node, c) else 0)
  }

  function CensusIn(es: seq<Entry>, parent: Node, c: Counter): nat
    requires forall i :: 0 <= i < |es| ==> es[i].node < parent
    decreases parent, 0, |es|
  {
    if es == [] then 0
    else (if Dots(es[0].name) then 0 else Census(es[0].node, c)) + CensusIn(es[1..], parent, c)
  }

  // The same sum, entry by entry.
  function CensusOfEntries(es: seq<Entry>, parent: Node, c: Counter): seq<nat>
    requires forall i :: 0 <= i < |es| ==> es[i].node < parent
    decreases parent, 1, |es|
  {
    seq(|es|, k requires 0 <= k < |es| =>
      if es[k].name == "." || es[k].name == ".." then 0 else Census(es[k].node, c))
  }

  // A thing counts for its own kind, a regular file of at most 4096 bytes also as
  // a small one, and a readable directory for itself and all its entries but the
  // two that lead back.
  lemma CensusOf(node: Node, c: Counter)
    ensures node.Missing? ==> Census(node, c) == 0
    ensures node.Leaf? ==>
      Census(node, c) ==
        if c == Of(node.kind) || (c == Small && node.kind == Reg && 0 <= node.size <= 4096) then 1 else 0
    ensures node.Dir? ==>
      Census(node, c) == (if c == Of(DirKind) then 1 else 0)
        + if node.readable then Sum(CensusOfEntries(node.entries, node, c)) else 0
  {
    if node.Dir? && node.readable {
      CensusInSum(node.entries, node, c);
    }
  }

  lemma {:induction false} CensusInSum(es: seq<Entry>, parent: Node, c: Counter)
    requires forall i :: 0 <= i < |es| ==> es[i].node < parent
    ensures CensusIn(es, parent, c) == Sum(CensusOfEntries(es, parent, c))
    decreases |es|
  {
    if es != [] {
      CensusInSum(es[1..], parent, c);
      assert CensusOfEntries(es, parent, c)[1..] == CensusOfEntries(es[1..], parent, c);
    }
  }

  // What a call adds to a counter.
  function Tally1(call: Call, c: Counter): nat {
    match call.typ
    case F => if call.kind.DirKind? then 0 else One(call.kind, call.size, c)
    case D => One(DirKind, 0, c)
    case DNR => 0
    case NS => 0
  }

  function Tally(calls: seq<Call>, c: Counter): nat {
    if calls == [] then 0 else Tally(calls[..|calls| - 1], c) + Tally1(calls[|calls| - 1], c)
  }

  lemma {:induction false} TallyAppend(a: seq<Call>, b: seq<Call>, c: Counter)
    ensures Tally(a + b, c) == Tally(a, c) + Tally(b, c)
  {
    if b == [] {
      assert a + b == a;
    } else {
      assert (a + b)[..|a + b| - 1] == a + b[..|b| - 1];
      TallyAppend(a, b[..|b| - 1], c);
    }
  }

  lemma TallySingle(call: Call, c: Counter)
    ensures Tally([call], c) == Tally1(call, c)
  {
    assert [call][..0] == [];
  }

  ghost predicate NoDirLeaf(node: Node)
    decreases node
  {
    match node
    case Missing => true
    case Leaf(kind, _) => !kind.DirKind?
    case Dir(readable, es) => readable ==> forall i :: 0 <= i < |es| && !Dots(es[i].name) ==> NoDirLeaf(es[i].node)
  }

  predicate NeverFDir(calls: seq<Call>) { forall k :: 0 <= k < |calls| && calls[k].typ.F? ==> !calls[k].kind.DirKind? }

  // Main result: over the calls of a whole traversal the counters come to the
  // census of the tree, and FTW_F never comes with S_IFDIR.
  lemma {:induction false} CallsCount(path: Path, node: Node, merge: bool, c: Counter)
    requires NoDirLeaf(node)
    ensures Tally(Calls(path, node, merge), c) == Census(node, c)
    ensures NeverFDir(Calls(path, node, merge))
    decreases node, 0
  {
    var calls := Calls(path, node, merge);
    match node
    case Missing => TallySingle(calls[0], c);
    case Leaf(_, _) => TallySingle(calls[0], c);
    case Dir(readable, es) =>
      TallySingle(calls[0], c);
      TallyAppend([calls[0]], calls[1..], c);
      assert calls == [calls[0]] + calls[1..];
      if readable {
        CallsInCount(Base(path, merge), es, node, merge, c);
      } else {
        TallySingle(calls[1], c);
      }
  }

  lemma {:induction false} CallsInCount(base: Path, es: seq<Entry>, parent: Node, merge: bool, c: Counter)
    requires forall i :: 0 <= i < |es| ==> es[i].node < parent && (!Dots(es[i].name) ==> NoDirLeaf(es[i].node))
    ensures Tally(CallsIn(base, es, parent, merge), c) == CensusIn(es, parent, c)
    ensures NeverFDir(CallsIn(base, es, parent, merge))
    decreases parent, 0, |es|
  {
    if es != [] {
      CallsInCount(base, es[1..], parent, merge, c);
      if !Dots(es[0].name) {
        CallsCount(base + es[0].name, es[0].node, merge, c);
      }
      TallyAppend(if Dots(es[0].name) then [] else Calls(base + es[0].name, es[0].node, merge),
                  CallsIn(base, es[1..], parent, merge), c);
    }
  }

  lemma {:induction false} AtNoDirLeaf(w: World, key: Key, node: Node)
    requires At(w, key, node)
    ensures NoDirLeaf(node)
    decreases node
  {
    if node.Dir? && node.readable {
      forall i | 0 <= i < |node.entries| && !Dots(node.entries[i].name)
        ensures NoDirLeaf(node.entries[i].node)
      {
        AtNoDirLeaf(w, Child(key, node.entries[i].name), node.entries[i].node);
      }
    }
  }

  // The path of a call leads to a thing of the type that the call says.
  predicate Right(w: World, c: Call) {
    match c.typ
    case NS => !Exists(w, c.path)
    case F => Exists(w, c.path) && w[KeyOf(c.path)].kind == c.kind && w[KeyOf(c.path)].size == c.size
        && !c.kind.DirKind?
    case D => Exists(w, c.path) && w[KeyOf(c.path)].kind.DirKind?
    case DNR => Exists(w, c.path) && w[KeyOf(c.path)].kind.DirKind? && !w[KeyOf(c.path)].readable
  }

  predicate AllRight(w: World, calls: seq<Call>) { forall k :: 0 <= k < |calls| ==> Right(w, calls[k]) }

  // Main result: full paths are right all the way down, doubled or merged
  // slashes notwithstanding.
  lemma {:induction false} CallsRight(w: World, path: Path, node: Node, merge: bool)
    requires Denotes(w, path, node)
    ensures AllRight(w, Calls(path, node, merge))
    decreases node, 1, 0
  {
    hide KeyOf;
    if node.Dir? {
      KeyOfChild(path, "x");
      if node.readable {
        CallsInRight(w, path, node, node.entries, merge);
      }
    }
  }

  lemma {:induction false} CallsInRight(w: World, path: Path, node: Node, es: seq<Entry>, merge: bool)
    requires Denotes(w, path, node) && node.Dir? && node.readable
    requires |es| <= |node.entries| && es == node.entries[|node.entries| - |es|..]
    ensures AllRight(w, CallsIn(Base(path, merge), es, node, merge))
    decreases node, 0, |es|
  {
    hide KeyOf, Right, Calls;
    if es != [] {
      var k := |node.entries| - |es|;
      assert es[0] == node.entries[k] && es[1..] == node.entries[k + 1..];
      CallsInRight(w, path, node, es[1..], merge);
      if !Dots(es[0].name) {
        KeyOfChild(path, es[0].name);
        CallsRight(w, Base(path, merge) + es[0].name, es[0].node, merge);
      }
    }
  }

  // ---------- paths that fit in the buffer ----------

  ghost predicate Fits(path: Path, node: Node, merge: bool, size: int)
    decreases node
  {
    && |path| + 2 <= size
    && (node.Dir? && node.readable ==>
          forall i :: 0 <= i < |node.entries| && !Dots(node.entries[i].name) ==>
            Fits(Base(path, merge) + node.entries[i].name, node.entries[i].node, merge, size))
  }

  lemma FitsNow(path: Path, node: Node, merge: bool, size: int)
    requires Fits(path, node, merge, size)
    ensures |path| + 2 <= size
  {}
}
