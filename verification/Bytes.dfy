// Bytes, C strings, decimal numerals and in-place file writes: the vocabulary
// shared by every module that works on files or character buffers.
module Bytes {
  type byte = x: int | 0 <= x < 256
  type bytes = seq<byte>

  datatype Option<T> = None | Some(value: T)

  const SPACE: byte := 32
  const NEWLINE: byte := 10
  const SEP: byte := 58
  const MINUS: byte := 45
  const PLUS: byte := 43

  // ---------- numerals ----------

  // The shortest decimal numeral of n, as printf("%ld") writes it.
  function Digits(n: nat): (d: bytes)
    ensures 1 <= |d|
    ensures forall i :: 0 <= i < |d| ==> 48 <= d[i] <= 57
  {
    if n < 10 then [48 + n] else Digits(n / 10) + [48 + n % 10]
  }

  function Blanks(n: nat): (s: bytes)
    ensures |s| == n && AllBlank(s)
  {
    seq(n, _ => SPACE)
  }

  predicate AllBlank(s: bytes) {
    forall i :: 0 <= i < |s| ==> s[i] == SPACE
  }

  // printf("%*ld", w, n): right justified, never truncated.
  function Pad(n: nat, w: nat): bytes {
    var d := Digits(n);
    if |d| >= w then d else Blanks(w - |d|) + d
  }

  predicate IsSpace(b: byte) { b == SPACE || 9 <= b <= 13 }

  predicate IsDigit(b: byte) { 48 <= b <= 57 }

  function DigitsVal(s: bytes, acc: nat): nat {
    if s == [] || !IsDigit(s[0]) then acc
    else DigitsVal(s[1..], 10 * acc + (s[0] - 48))
  }

  function SkipSpace(s: bytes): bytes {
    if s != [] && IsSpace(s[0]) then SkipSpace(s[1..]) else s
  }

  // atol(3): optional white space, optional sign, digits up to the first non-digit.
  function Atol(s: bytes): int {
    var t := SkipSpace(s);
    if t != [] && t[0] == MINUS then 0 - (DigitsVal(t[1..], 0) as int)
    else if t != [] && t[0] == PLUS then DigitsVal(t[1..], 0)
    else DigitsVal(t, 0)
  }

  lemma {:induction false} DigitsValOfDigits(n: nat, rest: bytes)
    ensures DigitsVal(Digits(n) + rest, 0) == DigitsVal(rest, n)
  {
    if n < 10 {
      assert (Digits(n) + rest)[1..] == rest;
    } else {
      var d: byte := 48 + n % 10;
      assert Digits(n) + rest == Digits(n / 10) + ([d] + rest);
      DigitsValOfDigits(n / 10, [d] + rest);
      assert ([d] + rest)[1..] == rest;
    }
  }

  lemma AtolOfDigits(n: nat)
    ensures Atol(Digits(n)) == n
  {
    DigitsValOfDigits(n, []);
    assert Digits(n) + [] == Digits(n);
  }

  // A sign is heeded, and what is behind the digits is not.
  lemma AtolParts(n: nat, rest: bytes)
    requires rest == [] || !IsDigit(rest[0])
    ensures Atol(Digits(n) + rest) == Atol([PLUS] + Digits(n) + rest) == n
    ensures Atol([MINUS] + Digits(n) + rest) == 0 - (n as int)
  {
    var d := Digits(n) + rest;
    DigitsValOfDigits(n, rest);
    assert d[0] == Digits(n)[0];
    assert [PLUS] + Digits(n) + rest == [PLUS] + d && [MINUS] + Digits(n) + rest == [MINUS] + d;
    assert ([PLUS] + d)[1..] == d && ([MINUS] + d)[1..] == d;
  }

  lemma {:induction false} SkipBlanks(k: nat, s: bytes)
    requires s != [] && !IsSpace(s[0])
    ensures SkipSpace(Blanks(k) + s) == s
  {
    if k == 0 {
      assert Blanks(0) + s == s;
    } else {
      assert (Blanks(k) + s)[1..] == Blanks(k - 1) + s;
      SkipBlanks(k - 1, s);
    }
  }

  // Reading a padded numeral gives the number back.
  lemma AtolOfPad(n: nat, w: nat)
    ensures Atol(Pad(n, w)) == n
  {
    var d := Digits(n);
    AtolOfDigits(n);
    if |d| < w {
      SkipBlanks(w - |d|, d);
    }
  }

  // One more decimal place is one more character.
  lemma DigitsStep(n: nat, d: nat)
    requires d < 10
    ensures Digits(d) == [48 + d]
    ensures n > 0 ==> Digits(10 * n + d) == Digits(n) + [48 + d]
  {
    assert (10 * n + d) / 10 == n && (10 * n + d) % 10 == d;
  }

  // What is too short is filled up on the left with blanks.
  lemma PadShape(n: nat, w: nat)
    ensures var d := |Digits(n)|;
      if d >= w then Pad(n, w) == Digits(n)
      else
        && |Pad(n, w)| == w && Pad(n, w)[w - d..] == Digits(n)
        && forall k :: 0 <= k < w - d ==> Pad(n, w)[k] == 32
  {}

  lemma {:induction false} DigitsWidth(n: nat)
    ensures n <= 9 ==> |Digits(n)| == 1
    ensures n <= 99 ==> |Digits(n)| <= 2
    ensures n <= 999 ==> |Digits(n)| <= 3
    ensures n <= 9999 ==> |Digits(n)| <= 4
    ensures n <= 99999 ==> |Digits(n)| <= 5
    ensures n <= 999999 ==> |Digits(n)| <= 6
  {
    if n >= 10 {
      DigitsWidth(n / 10);
    }
  }

  lemma PadWidth(n: nat, w: nat)
    requires (w == 6 && n <= 999999) || (w == 4 && n <= 9999)
    ensures |Pad(n, w)| == w
  {
    DigitsWidth(n);
  }

  // ---------- C strings ----------

  predicate NoByte(s: bytes, b: byte) {
    forall i :: 0 <= i < |s| ==> s[i] != b
  }

  // strchr on the C string held in s: index of the first b before any NUL,
  // |s| when there is none.
  function Find(s: bytes, b: byte): (k: nat)
    ensures k <= |s|
    ensures k < |s| ==> s[k] == b && NoByte(s[..k], b)
  {
    if s == [] then 0
    else if s[0] == b then 0
    else if s[0] == 0 then |s|
    else
      var k := Find(s[1..], b);
      assert k < |s[1..]| ==> s[..k + 1] == [s[0]] + s[1..][..k];
      1 + k
  }

  // strchr finds exactly what lies before the NUL.
  lemma {:induction false} FindIff(s: bytes, b: byte)
    ensures Find(s, b) < |s| <==> exists i :: 0 <= i < |s| && s[i] == b && NoByte(s[..i], 0)
    ensures Find(s, b) < |s| ==> NoByte(s[..Find(s, b)], 0)
  {
    if s != [] && s[0] != b {
      var t := s[1..];
      FindIff(t, b);
      if Find(s, b) < |s| {
        assert s[..Find(s, b)] == [s[0]] + t[..Find(t, b)];
      }
      if i :| 0 <= i < |s| && s[i] == b && NoByte(s[..i], 0) {
        assert s[..i][0] == s[0];
        assert s[..i] == [s[0]] + t[..i - 1];
        assert forall j :: 0 <= j < i - 1 ==> t[j] == s[..i][j + 1];
        assert t[i - 1] == b && NoByte(t[..i - 1], 0);
      }
    } else if s != [] {
      assert s[0] == b && NoByte(s[..0], 0);
    }
  }

  lemma {:induction false} FindFirst(pre: bytes, b: byte, post: bytes)
    requires NoByte(pre, b) && NoByte(pre, 0)
    ensures Find(pre + [b] + post, b) == |pre|
  {
    var s := pre + [b] + post;
    if pre != [] {
      assert s[0] == pre[0];
      assert s[1..] == pre[1..] + [b] + post;
      FindFirst(pre[1..], b, post);
    }
  }

  lemma {:induction false} FindNone(s: bytes, b: byte)
    requires NoByte(s, b)
    ensures Find(s, b) == |s|
  {
    if s != [] && s[0] != 0 {
      FindNone(s[1..], b);
    }
  }

  // ---------- files ----------

  // read(2) at an offset: what is there, shortened at end of file.
  function ReadAt(f: bytes, off: nat, n: nat): bytes {
    if off >= |f| then []
    else if off + n <= |f| then f[off..off + n]
    else f[off..]
  }

  // write(2) at an offset: overwrites, extends at the end, leaves a hole of NULs
  // when the offset lies past the end.
  function WriteAt(f: bytes, off: nat, s: bytes): bytes {
    if off > |f| then f + seq(off - |f|, _ => 0) + s
    else if off + |s| <= |f| then f[..off] + s + f[off + |s|..]
    else f[..off] + s
  }

  // A write inside the file changes the bytes it covers and no others.
  lemma WriteInside(f: bytes, off: nat, s: bytes)
    requires off + |s| <= |f|
    ensures |WriteAt(f, off, s)| == |f|
    ensures WriteAt(f, off, s)[off..off + |s|] == s
    ensures forall a, b {:trigger WriteAt(f, off, s)[a..b]} ::
      0 <= a <= b <= |f| && (b <= off || off + |s| <= a) ==> WriteAt(f, off, s)[a..b] == f[a..b]
  {
    var g := WriteAt(f, off, s);
    forall a, b | 0 <= a <= b <= |f| && (b <= off || off + |s| <= a)
      ensures g[a..b] == f[a..b]
    {
      assert forall i :: a <= i < b ==> g[i] == f[i];
    }
  }

  // A write at the end keeps everything that was there.
  lemma WriteEnd(f: bytes, s: bytes)
    ensures WriteAt(f, |f|, s) == f + s
    ensures (f + s)[|f|..|f| + |s|] == s
    ensures forall a, b {:trigger (f + s)[a..b]} ::
      0 <= a <= b <= |f| ==> (f + s)[a..b] == f[a..b]
  {
    assert f[..|f|] == f;
  }
}
