// apue.2e/calld/expectstr.c: waiting for a string from the modem.
module Expect {

  const NUL: char := '\0'
  const MAXLINE: nat := 4096
  const BACKSLASH: char := '\\'

  // An expect string with its escapes converted, or what is wrong with it.
  datatype Decoded = Plain(text: string) | Incomplete | Unknown(c: char)

  function Decode(s: string): Decoded {
    if s == [] then Plain([])
    else if s[0] != BACKSLASH then Prepend(s[0], Decode(s[1..]))
    else if |s| == 1 then Incomplete
    else if s[1] == 'r' then Prepend('\r', Decode(s[2..]))
    else if s[1] == 's' then Prepend(' ', Decode(s[2..]))
    else Unknown(s[1])
  }

  function Prepend(c: char, d: Decoded): Decoded { if d.Plain? then Plain([c] + d.text) else d }

  function Behind(done: string, d: Decoded): Decoded { if d.Plain? then Plain(done + d.text) else d }

  // What becomes of the first backslash: with an r it is a return, with an s a
  // blank, with anything else or nothing behind it the conversion fails. What is
  // before it is kept, and what is behind is converted in turn.
  lemma FirstEscape(before: string, c: char, rest: string)
    requires '\\' !in before
    ensures Decode(before) == Plain(before) && Decode(before + ['\\']) == Incomplete
    ensures Decode(before + ['\\', c] + rest) ==
      if c == 'r' then Behind(before + ['\r'], Decode(rest))
      else if c == 's' then Behind(before + [' '], Decode(rest))
      else Unknown(c)
  {
    assert before + [] == before;
    PlainBefore(before, []);
    PlainBefore(before, ['\\']);
    var escape := ['\\', c] + rest;
    assert before + ['\\', c] + rest == before + escape && escape[2..] == rest;
    PlainBefore(before, escape);
    BehindBehind(before, if c == 'r' then '\r' else ' ', Decode(rest));
  }

  // What has no backslash is kept.
  lemma {:induction false} PlainBefore(before: string, rest: string)
    requires '\\' !in before
    ensures Decode(before + rest) == Behind(before, Decode(rest))
  {
    if before == [] {
      assert before + rest == rest;
      assert Decode(rest).Plain? ==> [] + Decode(rest).text == Decode(rest).text;
    } else {
      assert before[0] in before && forall x :: x in before[1..] ==> x in before;
      PlainBefore(before[1..], rest);
      assert (before + rest)[1..] == before[1..] + rest;
      BehindOne(before[0], before[1..], Decode(rest));
      assert [before[0]] + before[1..] == before;
    }
  }

  lemma BehindBehind(before: string, c: char, d: Decoded)
    ensures Behind(before, Prepend(c, d)) == Behind(before + [c], d)
  {
    if d.Plain? {
      assert before + ([c] + d.text) == before + [c] + d.text;
    }
  }

  lemma BehindOne(c: char, done: string, d: Decoded)
    ensures Prepend(c, Behind(done, d)) == Behind([c] + done, d)
  {
    if d.Plain? {
      assert [c] + (done + d.text) == [c] + done + d.text;
    }
  }

  // Writing a text so that it can be an argument in a file of words: blanks and
  // returns escaped.
  function Escape(text: string): string {
    if text == [] then []
    else (if text[0] == '\r' then "\\r" else if text[0] == ' ' then "\\s" else [text[0]]) + Escape(text[1..])
  }

  lemma {:induction false} EscapeRoundTrip(text: string)
    requires BACKSLASH !in text
    ensures Decode(Escape(text)) == Plain(text)
  {
    if text != [] {
      EscapeRoundTrip(text[1..]);
      var head := if text[0] == '\r' then "\\r" else if text[0] == ' ' then "\\s" else [text[0]];
      assert Escape(text)[|head|..] == Escape(text[1..]);
      assert [text[0]] + text[1..] == text;
    }
  }

  lemma {:induction false} DecodeNoBackslash(s: string)
    ensures Decode(s).Plain? ==> BACKSLASH !in Decode(s).text
    decreases |s|
  {
    if s != [] {
      if s[0] != BACKSLASH {
        DecodeNoBackslash(s[1..]);
      } else if |s| > 1 {
        DecodeNoBackslash(s[2..]);
      }
    }
  }

  // The texts that can be waited for are those without a backslash, for which
  // there is no escape.
  lemma ExpressibleIff(text: string)
    ensures (exists s :: Decode(s) == Plain(text)) <==> BACKSLASH !in text
  {
    if BACKSLASH !in text {
      EscapeRoundTrip(text);
    }
    forall s | Decode(s) == Plain(text)
      ensures BACKSLASH !in text
    {
      DecodeNoBackslash(s);
    }
  }

  // ---------- occurrences ----------

  predicate Occurs(text: string, s: string, k: int) {
    0 <= k && k + |text| <= |s| && s[k..k + |text|] == text
  }

  ghost predicate OccursIn(text: string, s: string) { exists k :: Occurs(text, s, k) }

  // text ends at the end of s and nowhere before: s is the shortest prefix of
  // itself in which text occurs.
  ghost predicate EndsFirst(text: string, s: string) {
    Occurs(text, s, |s| - |text|) && forall k :: k < |s| - |text| ==> !Occurs(text, s, k)
  }

  // What is waited for: an empty string waits for a NUL byte.
  function Goal(text: string): string { if text == [] then [NUL] else text }

  lemma SliceOccurs(goal: string, s: string, start: nat, end: nat, k: int)
    requires start <= end <= |s|
    ensures Occurs(goal, s[start..end], k) <==> k >= 0 && start + k + |goal| <= end && Occurs(goal, s, start + k)
  {
    if k >= 0 && start + k + |goal| <= end {
      var a, b := s[start..end][k..k + |goal|], s[start + k..start + k + |goal|];
      assert |a| == |b|;
      assert forall i :: 0 <= i < |a| ==> a[i] == b[i] == s[start + k + i];
      assert a == b;
    }
  }

  // No occurrence starts where the first character is another.
  lemma NoneBefore(goal: string, s: string, start: nat, end: nat)
    requires goal != [] && start <= end <= |s| && forall j :: start <= j < end ==> s[j] != goal[0]
    ensures forall j :: start <= j < end ==> !Occurs(goal, s, j)
  {
    forall j | start <= j < end
      ensures !Occurs(goal, s, j)
    {
      if j + |goal| <= |s| {
        assert s[j..j + |goal|][0] == s[j];
      }
    }
  }

  lemma Tail(s: string, i: nat)
    requires i <= |s|
    ensures s[i..|s|] == s[i..]
  {}

  lemma NotInSlice(goal: string, s: string, start: nat, end: nat)
    requires start <= end <= |s|
    requires forall j :: start <= j && j + |goal| <= end ==> !Occurs(goal, s, j)
    ensures !OccursIn(goal, s[start..end])
  {
    forall k
      ensures !Occurs(goal, s[start..end], k)
    {
      SliceOccurs(goal, s, start, end, k);
    }
  }

  lemma InSlice(goal: string, s: string, start: nat, at: nat, end: nat)
    requires start <= at && end == at + |goal| <= |s|
    requires Occurs(goal, s, at) && forall j :: start <= j < at ==> !Occurs(goal, s, j)
    ensures EndsFirst(goal, s[start..end])
    ensures OccursIn(goal, s[start..])
  {
    SliceOccurs(goal, s, start, |s|, at - start);
    Tail(s, start);
    forall k | k <= at - start
      ensures Occurs(goal, s[start..end], k) <==> k == at - start
    {
      SliceOccurs(goal, s, start, end, k);
    }
  }

  // ---------- how much is kept ----------

  // Where the first occurrence at or after i ends, or the length.
  ghost function EndAfter(text: string, s: string, i: nat): nat
    decreases |s| - i
  {
    if i + |text| > |s| then |s| else if Occurs(text, s, i) then i + |text| else EndAfter(text, s, i + 1)
  }

  // The first c at or after i, or the length.
  ghost function FirstAt(c: char, s: string, i: nat): nat
    decreases |s| - i
  {
    if i >= |s| then |s| else if s[i] == c then i else FirstAt(c, s, i + 1)
  }

  lemma {:induction false} EndSkips(text: string, s: string, i: nat, j: nat)
    requires i <= j <= |s| && forall k :: i <= k < j ==> !Occurs(text, s, k)
    ensures EndAfter(text, s, i) == EndAfter(text, s, j)
    ensures EndAfter(text, s, j) == |s| || EndAfter(text, s, j) >= j + |text|
    decreases |s| - i
  {
    if i < j {
      EndSkips(text, s, i + 1, j);
    } else if i + |text| <= |s| && !Occurs(text, s, i) && i < |s| {
      EndSkips(text, s, i + 1, i + 1);
    }
  }

  lemma {:induction false} FirstIs(c: char, s: string, i: nat, j: nat)
    requires i <= j <= |s| && (forall k :: i <= k < j ==> s[k] != c) && (j < |s| ==> s[j] == c)
    ensures FirstAt(c, s, i) == j
    decreases j - i
  {
    if i < j {
      FirstIs(c, s, i + 1, j);
    }
  }

  lemma {:induction false} EndComes(text: string, s: string, i: nat)
    requires i <= |s|
    ensures !OccursIn(text, s[i..]) ==> EndAfter(text, s, i) == |s|
    decreases |s| - i
  {
    Tail(s, i);
    SliceOccurs(text, s, i, |s|, 0);
    if i + |text| <= |s| && i < |s| {
      var rest := s[i + 1..];
      Tail(s, i + 1);
      if k :| Occurs(text, rest, k) {
        SliceOccurs(text, s, i + 1, |s|, k);
        SliceOccurs(text, s, i, |s|, k + 1);
      }
      EndComes(text, s, i + 1);
    }
  }

  // More than max bytes arrive, from the first character of the text on, before
  // the text first ends.
  ghost predicate Overruns(text: string, s: string, start: nat, max: nat)
    requires text != []
  {
    EndAfter(text, s, start) - FirstAt(text[0], s, start) > max
  }

  // ---------- the program ----------

  // size_t, as which the -1 of exp_read comes back: it is not negative.
  function SizeT(x: int): nat { x % 0x1_0000_0000_0000_0000 }

  // How expect_str ends. It returns; the process ends in log_sys; a byte that
  // was read is written beyond the end of inbuf, which is not checked; or, after
  // a time-out that it does not notice, it calls exp_read for ever, or its window
  // leaves inbuf over bytes that were never read.
  datatype Outcome = Ret(value: int) | Exited | Overrun | Hangs | Stray

  // The line to the modem: what it will deliver before the read that fails, by
  // the alarm or otherwise. stack is what inbuf holds before it is written.
  class Line {
    const input: string
    const timesOut: bool
    const stack: string
    var pos: nat

    ghost predicate Valid()
      reads this
    {
      pos <= |input| && |stack| == MAXLINE
    }

    constructor (input: string, timesOut: bool, stack: string)
      requires |stack| == MAXLINE
      ensures this.input == input && this.timesOut == timesOut && this.stack == stack && pos == 0 && Valid()
    {
      this.input, this.timesOut, this.stack, pos := input, timesOut, stack, 0;
    }

    // exp_read, with what its buffer holds before and after. The process is not
    // alive after a failure that is not the alarm; once that has gone off every
    // call fails, and leaves the buffer as it was.
    method ExpRead(buf: char) returns (alive: bool, r: nat, c: char)
      requires Valid()
      modifies this`pos
      ensures Valid()
      ensures old(pos) < |input| ==> alive && r == 1 && c == input[old(pos)] && pos == old(pos) + 1
      ensures old(pos) == |input| ==> alive == timesOut && r == SizeT(-1) > 0 && c == buf && pos == old(pos)
    {
      if pos < |input| {
        alive, r, c := true, 1, input[pos];
        pos := pos + 1;
      } else {
        alive, r, c := timesOut, SizeT(-1), buf;
      }
    }

    // The character and the position after n calls of exp_read with one buffer.
    ghost function Reads(n: nat, c: char, p: nat): (char, nat)
      requires p <= |input|
      ensures Reads(n, c, p).1 == if p + n <= |input| then p + n else |input|
    {
      if n == 0 then (c, p)
      else
        var (c', p') := Reads(n - 1, c, p);
        if p' < |input| then (input[p'], p' + 1) else (c', p')
    }

    // The first loop of expect_str: the string is converted into expstr.
    method Convert(ptr: string, expstr: array<char>) returns (r: Decoded)
      requires NUL !in ptr && |ptr| < expstr.Length
      modifies expstr
      ensures r == Decode(ptr)
      ensures r.Plain? ==>
        && |r.text| <= |ptr| && expstr[..|r.text|] == r.text && expstr[|r.text|] == NUL
        && NUL !in r.text
    {
      var src, dst := 0, 0;
      assert ptr[0..] == ptr;
      while src < |ptr|
        invariant dst <= src <= |ptr| && NUL !in expstr[..dst]
        invariant Decode(ptr) == Behind(expstr[..dst], Decode(ptr[src..]))
        modifies expstr
      {
        var c := ptr[src];
        ghost var rest := ptr[src..];
        src := src + 1;
        assert rest[1..] == ptr[src..];
        if c == BACKSLASH {
          if src == |ptr| {
            return Incomplete;
          }
          c := ptr[src];
          src := src + 1;
          assert rest[2..] == ptr[src..];
          match c
          case 'r' => c := '\r';
          case 's' => c := ' ';
          case _ => return Unknown(c);
        }
        BehindBehind(expstr[..dst], c, Decode(ptr[src..]));
        expstr[dst] := c;
        dst := dst + 1;
        assert expstr[..dst] == expstr[..dst - 1] + [c];
      }
      expstr[dst] := NUL;
      r := Plain(expstr[..dst]);
    }

    // Main result. A string of two double quotes expects nothing; a string that
    // cannot be converted fails without reading. Otherwise what becomes of the
    // call is exactly as Verdict says, however much is delivered and whatever
    // inbuf held; once it has begun to read it never returns -1.
    method ExpectStr(ptr: string) returns (o: Outcome)
      requires Valid() && NUL !in ptr && |ptr| < MAXLINE
      modifies this`pos
      ensures Valid()
      ensures ptr == "\"\"" ==> o == Ret(0) && pos == old(pos)
      ensures ptr != "\"\"" && !Decode(ptr).Plain? ==> o == Ret(-1) && pos == old(pos)
      ensures ptr != "\"\"" && Decode(ptr).Plain? ==> Waited(Decode(ptr).text, old(pos), o) && o != Ret(-1)
    {
      if ptr == "\"\"" {
        return Ret(0);
      }
      var expstr := new char[MAXLINE](_ => NUL);
      var inbuf := new char[MAXLINE](i requires 0 <= i < MAXLINE => stack[i]);
      var r := Convert(ptr, expstr);
      if !r.Plain? {
        return Ret(-1);
      }
      var matchlen := StrLen(expstr, r.text);
      assert expstr[..matchlen] == r.text;
      assert inbuf[..] == stack;
      o := Match(expstr, inbuf, matchlen);
    }

    // What inbuf holds in the end if nothing but a time-out stops the reading
    // from base on: what has come, and behind it what was there.
    ghost function Kept(base: nat): string
      requires base <= |input| && |stack| == MAXLINE
    {
      input[base..] + if |input| - base <= MAXLINE then stack[|input| - base..] else []
    }

    // What becomes of waiting for the text from position start on. The goal has
    // come, and no more than MAXLINE bytes had to be kept; or more had; or a read
    // failed first. If that was a time-out, the call succeeds all the same if
    // what inbuf holds behind the bytes that came happens to complete the text,
    // or if the text is empty and nothing has come.
    ghost function Verdict(text: string, start: nat): Outcome
      requires start <= |input| && |stack| == MAXLINE
    {
      var goal := Goal(text);
      var first := FirstAt(goal[0], input, start);
      if Overruns(goal, input, start, MAXLINE) then Overrun
      else if OccursIn(goal, input[start..]) then Ret(0)
      else if !timesOut then Exited
      else if first >= |input| then if text == [] && start == |input| then Ret(0) else Hangs
      else if OccursIn(text, Kept(first)) then Ret(0)
      else Stray
    }

    // That, and what has been read: the shortest prefix that ends in the goal, one
    // byte more than inbuf holds, or everything.
    ghost predicate Waited(text: string, start: nat, o: Outcome)
      reads this
    {
      && Valid() && start <= pos
      && o == Verdict(text, start)
      && (if o == Overrun then pos == FirstAt(Goal(text)[0], input, start) + MAXLINE + 1
          else if OccursIn(Goal(text), input[start..]) then EndsFirst(Goal(text), input[start..pos])
          else pos == |input|)
    }

    // The rest of expect_str, with the pattern in expstr.
    method Match(expstr: array<char>, inbuf: array<char>, matchlen: nat) returns (o: Outcome)
      requires Valid() && expstr != inbuf && inbuf[..] == stack && matchlen < expstr.Length <= MAXLINE
      requires NUL !in expstr[..matchlen] && expstr[matchlen] == NUL
      modifies this`pos, inbuf
      ensures Waited(expstr[..matchlen], old(pos), o)
    {
      hide Waited, EndAfter, FirstAt, Began, NotYet;
      ghost var text, start := expstr[..matchlen], pos;
      assert Goal(text)[0] == expstr[0];
      var c;
      o, c := SkipTo(expstr[0]);
      if o != Ret(0) {
        NoneCame(text, start, o);
        return;
      }
      inbuf[0] := c;
      if matchlen == 0 {
        CameEmpty(start);
      }
      ghost var base: nat := if matchlen == 0 then 0 else pos - 1;
      if matchlen > 0 {
        FirstCame(text, start, base);
      }
      var alive := Fill(inbuf, matchlen, base);
      if !alive {
        NoneIn(text, start, base, 0);
        return Exited;
      }
      o := Slide(expstr, inbuf, matchlen, start, base);
    }

    // The skip until first chars are equal; c starts as the NUL at which the
    // conversion ended. After a time-out the loop goes on for ever, since no call
    // of exp_read changes c any more.
    method SkipTo(first: char) returns (o: Outcome, c: char)
      requires Valid()
      modifies this`pos
      ensures Valid() && old(pos) <= pos
      ensures forall j :: old(pos) <= j < (if o == Ret(0) && old(pos) < pos then pos - 1 else pos) ==> input[j] != first
      ensures o == Ret(0) ==>
        c == first && if old(pos) < pos then input[pos - 1] == first else timesOut && pos == |input| && first == NUL
      ensures o != Ret(0) ==>
        pos == |input| && o == (if timesOut then Hangs else Exited) && (timesOut ==> first != NUL || old(pos) < pos)
      ensures o == Hangs ==> forall n: nat :: n > 0 ==> Reads(n, NUL, old(pos)).0 != first
    {
      ghost var n := 1;
      var alive, r;
      c := NUL;
      alive, r, c := ExpRead(c);
      if !alive {
        return Exited, c;
      }
      if r < 0 {
        assert false; // return(-1)
      }
      while c != first
        invariant n > 0 && alive && Valid() && (c, pos) == Reads(n, NUL, old(pos))
        invariant r == 1 || (r == SizeT(-1) && pos == |input| && timesOut)
        invariant if old(pos) < pos then c == input[pos - 1] && (r != 1 ==> c != first) else r != 1 && c == NUL
        invariant forall j :: old(pos) <= j < pos - 1 ==> input[j] != first
        invariant forall m: nat :: 0 < m < n ==> Reads(m, NUL, old(pos)).0 != first
        decreases |input| - pos, r == 1
      {
        if r != 1 {
          NoMore(n, first, old(pos));
          return Hangs, c;
        }
        alive, r, c := ExpRead(c);
        n := n + 1;
        if !alive {
          return Exited, c;
        }
        if r < 0 {
          assert false; // return(-1)
        }
      }
      o := Ret(0);
    }

    // The loop that reads matchlen chars, the first of which is there. It goes on
    // to its end over a time-out, and what has not come stays as it was.
    method Fill(inbuf: array<char>, matchlen: nat, ghost base: nat) returns (alive: bool)
      requires Valid() && inbuf.Length == MAXLINE && matchlen < MAXLINE
      requires matchlen > 0 ==> base < |input| && pos == base + 1 && Holds(inbuf[..], base, pos)
      modifies this`pos, inbuf
      ensures Valid() && old(pos) <= pos
      ensures matchlen == 0 ==> alive && pos == old(pos)
      ensures matchlen > 0 ==> Holds(inbuf[..], base, pos)
      ensures !alive ==> !timesOut && pos == |input| < base + matchlen
      ensures matchlen > 0 && alive ==> pos == base + matchlen || (timesOut && pos == |input| < base + matchlen)
    {
      var inptr := 0;
      var i := 1;
      alive := true;
      while i < matchlen
        invariant 1 <= i && (matchlen > 0 ==> i <= matchlen) && (matchlen == 0 ==> i == 1) && inptr == i - 1
        invariant Valid() && old(pos) <= pos && (matchlen == 0 ==> pos == old(pos))
        invariant matchlen > 0 ==>
          Holds(inbuf[..], base, pos) && (pos == base + i || (timesOut && pos == |input| < base + i))
        decreases matchlen - i
      {
        inptr := inptr + 1;
        var r;
        alive, r, inbuf[inptr] := ExpRead(inbuf[inptr]);
        if !alive {
          return;
        }
        if r < 0 {
          assert false; // return(-1)
        }
        i := i + 1;
      }
    }

    // inbuf holds what has been read from base on, and otherwise what it held.
    ghost predicate Holds(buf: string, base: nat, end: nat) {
      && |buf| == |stack| == MAXLINE && base <= end <= |input|
      && forall k :: 0 <= k < MAXLINE ==> buf[k] == if k < end - base then input[base + k] else stack[k]
    }

    // The window of matchlen chars that moves on until it is a match, over a
    // time-out and the bytes that have not come as well.
    method Slide(expstr: array<char>, inbuf: array<char>, matchlen: nat, ghost start: nat, ghost base: nat)
      returns (o: Outcome)
      requires Valid() && expstr != inbuf && inbuf.Length == MAXLINE && matchlen < expstr.Length <= MAXLINE
      requires NUL !in expstr[..matchlen]
      requires matchlen > 0 ==> Began(expstr[..matchlen], start, base) && Holds(inbuf[..], base, pos)
      requires matchlen > 0 ==> pos == base + matchlen || (timesOut && pos == |input| < base + matchlen)
      modifies this`pos, inbuf
      ensures Valid() && (matchlen == 0 ==> o == Ret(0) && pos == old(pos))
      ensures matchlen > 0 ==> Waited(expstr[..matchlen], start, o)
    {
      hide Waited, Occurs, Began, NotYet, Kept;
      var cmpptr, inptr := 0, if matchlen == 0 then 0 else matchlen - 1;
      ghost var text := expstr[..matchlen];
      if matchlen > 0 {
        NotYetNext(text, base);
      }
      while true
        invariant Valid() && expstr[..matchlen] == text && (matchlen == 0 ==> cmpptr == 0 && pos == old(pos))
        invariant matchlen > 0 ==>
          && inptr + 1 == cmpptr + matchlen && inptr < MAXLINE && Holds(inbuf[..], base, pos)
          && (pos == base + inptr + 1 || (timesOut && pos == |input| <= base + inptr))
          && NotYet(text, base, cmpptr)
        decreases MAXLINE - cmpptr
      {
        var same := Same(inbuf, cmpptr, expstr, matchlen);
        if matchlen > 0 {
          Compared(inbuf[..], text, base, cmpptr);
        }
        if same {
          if matchlen > 0 {
            Found(text, start, base, cmpptr);
          }
          return Ret(0);
        }
        NotYetNext(text, base);
        inptr := inptr + 1;
        if inptr == MAXLINE {
          o := Leave(text, start, base);
          return;
        }
        var alive, r, c := ExpRead(inbuf[inptr]);
        if !alive {
          NoneIn(text, start, base, cmpptr + 1);
          return Exited;
        }
        inbuf[inptr] := c;
        if r < 0 {
          assert false; // return(-1)
        }
        cmpptr := cmpptr + 1;
      }
    }

    // The read for which inbuf has no place any more: a byte that comes would be
    // written beyond its end, and without one the window leaves it.
    method Leave(ghost text: string, ghost start: nat, ghost base: nat) returns (o: Outcome)
      requires Valid() && Began(text, start, base) && |text| <= MAXLINE && NotYet(text, base, MAXLINE - |text| + 1)
      requires pos == base + MAXLINE || (timesOut && pos == |input| < base + MAXLINE)
      modifies this`pos
      ensures Valid() && Waited(text, start, o)
    {
      hide Waited;
      var alive, r, c := ExpRead(NUL);
      if !alive {
        NoneIn(text, start, base, MAXLINE - |text| + 1);
        return Exited;
      }
      if r == 1 {
        TooMuch(text, start, base);
        return Overrun;
      }
      NeverComplete(text, start, base);
      o := Stray;
    }

    // ---------- what the loops have found ----------

    // The first character of the text has first come at base.
    ghost predicate Began(text: string, start: nat, base: nat) {
      && text != [] && start <= base < |input| && base == FirstAt(text[0], input, start)
      && forall j :: start <= j < base ==> !Occurs(text, input, j)
    }

    // The text is at none of these places of what inbuf holds in the end.
    ghost predicate NotYet(text: string, base: nat, end: nat)
      requires base <= |input| && |stack| == MAXLINE
    {
      forall k :: 0 <= k < end ==> !Occurs(text, Kept(base), k)
    }

    lemma FirstCame(text: string, start: nat, base: nat)
      requires text != [] && |stack| == MAXLINE && start <= base < |input| && input[base] == text[0]
      requires forall j :: start <= j < base ==> input[j] != text[0]
      ensures Began(text, start, base) && NotYet(text, base, 0)
    {
      NoneBefore(text, input, start, base);
      FirstIs(text[0], input, start, base);
    }

    lemma NotYetNext(text: string, base: nat)
      requires base <= |input| && |stack| == MAXLINE
      ensures NotYet(text, base, 0)
      ensures forall k: nat :: NotYet(text, base, k) && !Occurs(text, Kept(base), k) ==> NotYet(text, base, k + 1)
    {}

    // After a read that fails every read does, and the character stays.
    lemma {:induction false} Still(m: nat, n: nat, c: char, p: nat)
      requires p <= |input| <= p + m && m <= n
      ensures Reads(n, c, p) == Reads(m, c, p)
    {
      if m < n {
        Still(m, n - 1, c, p);
      }
    }

    lemma NoMore(n: nat, first: char, p: nat)
      requires n > 0 && p <= |input| <= p + n && Reads(n, NUL, p).0 != first
      requires forall m: nat :: 0 < m < n ==> Reads(m, NUL, p).0 != first
      ensures forall m: nat :: m > 0 ==> Reads(m, NUL, p).0 != first
    {
      forall m: nat | m > 0
        ensures Reads(m, NUL, p).0 != first
      {
        if m >= n {
          Still(n, m, NUL, p);
        }
      }
    }

    // The first character has not come.
    lemma NoneCame(text: string, start: nat, o: Outcome)
      requires Valid() && start <= pos == |input| && o == (if timesOut then Hangs else Exited)
      requires forall j :: start <= j < |input| ==> input[j] != Goal(text)[0]
      requires o == Hangs && text == [] ==> start < |input|
      ensures Waited(text, start, o)
    {
      var goal := Goal(text);
      NoneBefore(goal, input, start, |input|);
      FirstIs(goal[0], input, start, |input|);
      Tail(input, start);
      NotInSlice(goal, input, start, |input|);
      EndSkips(goal, input, start, |input|);
    }

    // The NUL byte that an empty text waits for, or the NUL that was there before.
    lemma CameEmpty(start: nat)
      requires Valid() && start <= pos
      requires if start < pos then input[pos - 1] == NUL else timesOut && pos == |input|
      requires forall j :: start <= j < (if start < pos then pos - 1 else pos) ==> input[j] != NUL
      ensures Waited([], start, Ret(0))
    {
      var goal := Goal([]);
      if start < pos {
        NoneBefore(goal, input, start, pos - 1);
        FirstIs(NUL, input, start, pos - 1);
        assert Occurs(goal, input, pos - 1);
        InSlice(goal, input, start, pos - 1, pos);
        EndSkips(goal, input, start, pos - 1);
      } else {
        FirstIs(NUL, input, start, |input|);
        assert input[start..] == [];
      }
    }

    lemma KeptAt(base: nat, k: nat)
      requires base <= |input| && |stack| == MAXLINE && k < MAXLINE
      ensures k < |Kept(base)| && Kept(base)[k] == if base + k < |input| then input[base + k] else stack[k]
    {}

    // What strncmp finds is whether the text is there.
    lemma Compared(buf: string, text: string, base: nat, at: nat)
      requires Valid() && Holds(buf, base, pos) && text != [] && at + |text| <= MAXLINE
      requires pos == base + at + |text| || pos == |input|
      ensures buf[at..at + |text|] == text <==> Occurs(text, Kept(base), at)
    {
      forall k | at <= k < at + |text|
        ensures k < |Kept(base)| && buf[k] == Kept(base)[k]
      {
        KeptAt(base, k);
      }
      KeptAt(base, at + |text| - 1);
      assert buf[at..at + |text|] == Kept(base)[at..at + |text|];
    }

    // As far as the input goes it is what inbuf holds.
    lemma InInput(text: string, base: nat, k: nat)
      requires base <= |input| && |stack| == MAXLINE && base + k + |text| <= |input|
      ensures Occurs(text, Kept(base), k) <==> Occurs(text, input, base + k)
    {
      assert Kept(base)[k..k + |text|] == input[base + k..base + k + |text|];
    }

    lemma NoneSoFar(text: string, start: nat, base: nat, next: nat)
      requires |stack| == MAXLINE && Began(text, start, base) && NotYet(text, base, next)
      ensures forall j :: start <= j < base + next && j + |text| <= |input| ==> !Occurs(text, input, j)
    {
      forall j | start <= j < base + next && j + |text| <= |input|
        ensures !Occurs(text, input, j)
      {
        if j >= base {
          InInput(text, base, j - base);
        }
      }
    }

    // Everything has been read, and the text was not in it.
    lemma NothingIn(text: string, start: nat, base: nat, next: nat)
      requires |stack| == MAXLINE && Began(text, start, base) && NotYet(text, base, next)
      requires |input| < base + next + |text|
      ensures !OccursIn(text, input[start..]) && EndAfter(text, input, start) == |input|
    {
      NoneSoFar(text, start, base, next);
      Tail(input, start);
      NotInSlice(text, input, start, |input|);
      EndComes(text, input, start);
    }

    lemma NoneIn(text: string, start: nat, base: nat, next: nat)
      requires Valid() && Began(text, start, base) && NotYet(text, base, next)
      requires !timesOut && pos == |input| < base + next + |text| && |input| <= base + MAXLINE
      ensures Waited(text, start, Exited)
    {
      NothingIn(text, start, base, next);
    }

    lemma NeverComplete(text: string, start: nat, base: nat)
      requires Valid() && Began(text, start, base) && |text| <= MAXLINE && NotYet(text, base, MAXLINE - |text| + 1)
      requires timesOut && pos == |input| <= base + MAXLINE
      ensures Waited(text, start, Stray)
    {
      NothingIn(text, start, base, MAXLINE - |text| + 1);
      assert |Kept(base)| == MAXLINE;
    }

    // The text is there: it has come, or what was there before completes it.
    lemma Found(text: string, start: nat, base: nat, at: nat)
      requires Valid() && Began(text, start, base) && NotYet(text, base, at) && at + |text| <= MAXLINE
      requires pos == base + at + |text| || (timesOut && pos == |input| < base + at + |text|)
      requires Occurs(text, Kept(base), at)
      ensures Waited(text, start, Ret(0))
    {
      if pos == base + at + |text| {
        InInput(text, base, at);
        NoneSoFar(text, start, base, at);
        InSlice(text, input, start, base + at, pos);
        EndSkips(text, input, start, base + at);
      } else {
        NothingIn(text, start, base, at);
        assert OccursIn(text, Kept(base));
      }
    }

    // The byte just read has no place, and the text has not ended before it.
    lemma TooMuch(text: string, start: nat, base: nat)
      requires Valid() && Began(text, start, base) && |text| <= MAXLINE && NotYet(text, base, MAXLINE - |text| + 1)
      requires pos == base + MAXLINE + 1
      ensures Waited(text, start, Overrun)
    {
      var next := MAXLINE - |text| + 1;
      NoneSoFar(text, start, base, next);
      EndSkips(text, input, start, base + next);
    }

    method StrLen(s: array<char>, ghost text: string) returns (n: nat)
      requires |text| < s.Length && s[..|text|] == text && s[|text|] == NUL && NUL !in text
      ensures n == |text|
    {
      n := 0;
      assert forall i :: 0 <= i < |text| ==> s[i] == s[..|text|][i] == text[i];
      while s[n] != NUL
        invariant n <= |text|
        decreases |text| - n
      {
        n := n + 1;
      }
    }

    // strncmp(s + at, t, n) == 0: the comparison stops at a NUL in both.
    method Same(s: array<char>, at: nat, t: array<char>, n: nat) returns (same: bool)
      requires at + n <= s.Length && n <= t.Length && NUL !in t[..n]
      ensures same <==> s[at..at + n] == t[..n]
    {
      var i := 0;
      while i < n && s[at + i] == t[i] && t[i] != NUL
        invariant i <= n && s[at..at + i] == t[..i]
      {
        i := i + 1;
      }
      same := i == n || s[at + i] == t[i];
      assert i < n ==> t[..n][i] == t[i];
      assert i < n ==> s[at..at + n][i] == s[at + i];
    }
  }

  // ---------- inputs at which it does not do what it is for ----------

  // A line that keeps sending the first character of the pattern, once more than
  // inbuf holds, and never the pattern.
  method Babble(stack: string) returns (o: Outcome)
    requires |stack| == MAXLINE
    ensures o == Overrun
  {
    hide EndAfter, FirstAt, Decode;
    var line := new Line(seq(MAXLINE + 1, _ => 'A'), true, stack);
    DecodePlain();
    o := line.ExpectStr("AB");
    FirstIs('A', line.input, 0, 0);
    forall k | 0 <= k < |line.input|
      ensures !Occurs("AB", line.input, k)
    {
      if k + 2 <= |line.input| {
        assert line.input[k..k + 2][1] == 'A';
      }
    }
    EndSkips("AB", line.input, 0, |line.input|);
    TheVerdict(line, "AB", o);
  }

  // One byte less, the last of them the end of the pattern, just fits.
  method JustFits(stack: string) returns (o: Outcome)
    requires |stack| == MAXLINE
    ensures o == Ret(0)
  {
    hide EndAfter, FirstAt, Decode;
    var line := new Line(seq(MAXLINE - 1, _ => 'A') + ['B'], true, stack);
    DecodePlain();
    o := line.ExpectStr("AB");
    var s, at := line.input, MAXLINE - 2;
    FirstIs('A', s, 0, 0);
    forall k | 0 <= k < at
      ensures !Occurs("AB", s, k)
    {
      assert s[k..k + 2][1] == 'A';
    }
    assert s[at..at + 2] == "AB";
    InSlice("AB", s, 0, at, MAXLINE);
    EndSkips("AB", s, 0, at);
    EndHere("AB", s, at);
    TheVerdict(line, "AB", o);
  }

  lemma EndHere(text: string, s: string, at: nat)
    requires Occurs(text, s, at)
    ensures EndAfter(text, s, at) == at + |text|
  {}

  lemma DecodePlain()
    ensures Decode("AB") == Plain("AB")
  {
    assert "AB"[1..] == "B" && "B"[1..] == [];
    assert Decode("B") == Plain("B");
  }

  lemma TheVerdict(line: Line, text: string, o: Outcome)
    requires line.Waited(text, 0, o)
    ensures line.Valid() && o == line.Verdict(text, 0)
  {}

  // A line that sends nothing until the alarm: a call that waits for AB does not
  // return, and one that waits for an empty string, that is for a NUL byte,
  // succeeds.
  method Silence(stack: string) returns (o: Outcome, empty: Outcome)
    requires |stack| == MAXLINE
    ensures o == Hangs && empty == Ret(0)
  {
    hide EndAfter, FirstAt, Decode;
    var line := new Line("", true, stack);
    DecodePlain();
    o := line.ExpectStr("AB");
    FirstIs('A', line.input, 0, 0);
    EndComes("AB", "", 0);
    TheVerdict(line, "AB", o);
    var other := new Line("", true, stack);
    DecodeEmpty();
    empty := other.ExpectStr("");
    FirstIs(NUL, other.input, 0, 0);
    EndComes([NUL], "", 0);
    TheVerdict(other, "", empty);
  }

  lemma DecodeEmpty()
    ensures Decode("") == Plain("")
  {}

  // A line that sends A and nothing more until the alarm: a call that waits for
  // AB succeeds where inbuf happens to hold a B behind it.
  method HalfCame(stack: string) returns (o: Outcome)
    requires |stack| == MAXLINE
    ensures stack[1] == 'B' ==> o == Ret(0)
    ensures (forall k :: 0 <= k < MAXLINE ==> stack[k] == NUL) ==> o == Stray
  {
    hide EndAfter, FirstAt, Decode;
    var line := new Line("A", true, stack);
    DecodePlain();
    o := line.ExpectStr("AB");
    FirstIs('A', line.input, 0, 0);
    assert "A"[0..] == "A";
    forall k
      ensures !Occurs("AB", "A"[0..], k)
    {}
    EndComes("AB", "A", 0);
    TheVerdict(line, "AB", o);
    var kept := line.Kept(0);
    if stack[1] == 'B' {
      assert kept[0..2] == "AB";
      assert Occurs("AB", kept, 0);
    } else if OccursIn("AB", kept) {
      var k :| Occurs("AB", kept, k);
      assert kept[k..k + 2][1] == 'B' == kept[k + 1] == stack[k + 1];
    }
  }
}
