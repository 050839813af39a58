// The on-disk text format of apue.2e/db/db.c: pointer fields, index records,
// data records, the header, and the hash function.
module DbFormat {
  import opened Bytes

  const PTR_SZ: nat := 6
  const IDXLEN_SZ: nat := 4
  const PTR_MAX: nat := 999999
  const NHASH: nat := 137
  const HDR: nat := 829            // (NHASH + 1) * PTR_SZ + 1
  const IDXLEN_MIN: nat := 6
  const IDXLEN_MAX: nat := 1024
  const DATLEN_MIN: nat := 2
  const DATLEN_MAX: nat := 1024
  const FREE_OFF: nat := 0

  // What an index record holds after its chain pointer and its length.
  datatype Rec = Rec(key: bytes, datoff: nat, datlen: nat)

  predicate KeyOk(key: bytes) { NoByte(key, 0) && NoByte(key, SEP) }

  function Body(r: Rec): bytes {
    r.key + [SEP] + Digits(r.datoff) + [SEP] + Digits(r.datlen) + [NEWLINE]
  }

  function BodyLen(r: Rec): nat {
    |r.key| + |Digits(r.datoff)| + |Digits(r.datlen)| + 3
  }

  predicate RecOk(r: Rec) {
    && KeyOk(r.key)
    && IDXLEN_MIN <= BodyLen(r) <= IDXLEN_MAX
    && DATLEN_MIN <= r.datlen <= DATLEN_MAX
  }

  function Enc(ptr: nat, r: Rec): bytes {
    Pad(ptr, PTR_SZ) + Pad(BodyLen(r), IDXLEN_SZ) + Body(r)
  }

  function EncLen(r: Rec): nat { PTR_SZ + IDXLEN_SZ + BodyLen(r) }

  // One character of the hash: char is signed, the sum is an unsigned long.
  function SignedChar(b: byte): int { if b < 128 then b else b - 256 }

  function HashSum(key: bytes, n: nat): int
    requires n <= |key|
  {
    if n == 0 then 0 else HashSum(key, n - 1) + SignedChar(key[n - 1]) * n
  }

  function Hash(key: bytes): (h: nat)
    ensures h < NHASH
  {
    HashSum(key, |key|) % 0x1_0000_0000_0000_0000 % 137
  }

  // The sum with its weights: every character, as a signed number, times its
  // position, counted from 1.
  lemma HashAppend(key: bytes, c: byte)
    ensures HashSum([], 0) == 0
    ensures HashSum(key + [c], |key| + 1) == HashSum(key, |key|) + (if c < 128 then c else c - 256) * (|key| + 1)
    ensures Hash(key) == HashSum(key, |key|) % 0x1_0000_0000_0000_0000 % 137
  {
    HashPrefix(key, [c], |key|);
  }

  lemma {:induction false} HashPrefix(key: bytes, more: bytes, n: nat)
    requires n <= |key|
    ensures HashSum(key + more, n) == HashSum(key, n)
  {
    if n > 0 {
      HashPrefix(key, more, n - 1);
    }
  }

  // The key "ab".
  lemma HashExample()
    ensures Hash([97, 98]) == 19
  {
    HashAppend([], 97);
    HashAppend([97], 98);
    assert [97] + [98] == [97, 98] && [] + [97] == [97 as byte];
  }

  // For ASCII keys the sum does not wrap around.
  lemma {:induction false} AsciiSum(key: bytes, n: nat)
    requires n <= |key| <= 1024 && forall i :: 0 <= i < |key| ==> key[i] < 128
    ensures 0 <= HashSum(key, n) <= 130048 * n
  {
    if n > 0 {
      AsciiSum(key, n - 1);
      AsciiTerm(key[n - 1], n);
    }
  }

  lemma AsciiTerm(c: byte, n: nat)
    requires c < 128 && n <= 1024
    ensures 0 <= SignedChar(c) * n <= 130048
  {
    assert c * n <= 127 * n;
  }

  lemma AsciiHash(key: bytes)
    requires |key| <= 1024 && forall i :: 0 <= i < |key| ==> key[i] < 128
    ensures Hash(key) == HashSum(key, |key|) % 137
  {
    AsciiSum(key, |key|);
    var x := HashSum(key, |key|);
    assert x < 0x1_0000_0000_0000_0000;
    NoWrap(x);
  }

  lemma NoWrap(x: nat)
    requires x < 0x1_0000_0000_0000_0000
    ensures x % 0x1_0000_0000_0000_0000 == x
  {}

  // Offset of the chain pointer that starts hash chain h.
  function ChainOff(h: nat): nat { h * 6 + 6 }

  // _db_readidx, second half: from the idxlen bytes read to the three fields,
  // None where the code would err_dump.
  function ParseBody(buf: bytes): Option<Rec> {
    if buf == [] || buf[|buf| - 1] != NEWLINE then None
    else ParseFields(buf[..|buf| - 1])
  }

  function ParseFields(t: bytes): Option<Rec> {
    var k := Find(t, SEP);
    if k == |t| then None else ParseExtent(t[..k], t[k + 1..])
  }

  function ParseExtent(key: bytes, u: bytes): Option<Rec> {
    var k := Find(u, SEP);
    if k == |u| then None
    else
      var v := u[k + 1..];
      var off := Atol(u[..k]);
      var len := Atol(v);
      if Find(v, SEP) < |v| || off < 0 || len <= 0 || len > DATLEN_MAX then None
      else Some(Rec(key, off, len))
  }

  lemma BodyLength(r: Rec)
    ensures |Body(r)| == BodyLen(r)
  {}

  // ---------- round trips ----------

  lemma PtrRoundTrip(ptr: nat)
    requires ptr <= PTR_MAX
    ensures |Pad(ptr, PTR_SZ)| == PTR_SZ && Atol(Pad(ptr, PTR_SZ)) == ptr
  {
    PadWidth(ptr, 6);
    AtolOfPad(ptr, 6);
  }

  // The record of the key "Alpha", whose value of six bytes is the first of the
  // data file, at the end of its chain.
  lemma RecordExample()
    ensures Enc(0, Rec([65, 108, 112, 104, 97], 0, 6)) ==
      [32, 32, 32, 32, 32, 48] + [32, 32, 49, 48] + [65, 108, 112, 104, 97] + [58, 48, 58, 54, 10]
  {
    DigitsStep(0, 0);
    DigitsStep(0, 6);
    DigitsStep(1, 0);
    DigitsStep(0, 1);
    PadShape(0, 6);
    PadShape(10, 4);
  }

  // strchr splits a string at its first separator.
  lemma SplitFirst(pre: bytes, post: bytes)
    requires NoByte(pre, SEP) && NoByte(pre, 0)
    ensures var t := pre + [SEP] + post;
      Find(t, SEP) == |pre| < |t| && t[..|pre|] == pre && t[|pre| + 1..] == post
  {
    FindFirst(pre, SEP, post);
  }

  lemma ExtentRoundTrip(key: bytes, off: nat, len: nat)
    requires 0 < len <= DATLEN_MAX
    ensures ParseExtent(key, Digits(off) + [SEP] + Digits(len)) == Some(Rec(key, off, len))
  {
    SplitFirst(Digits(off), Digits(len));
    FindNone(Digits(len), SEP);
    AtolOfDigits(off);
    AtolOfDigits(len);
  }

  lemma BodyRoundTrip(r: Rec)
    requires RecOk(r)
    ensures ParseBody(Body(r)) == Some(r)
  {
    var u := Digits(r.datoff) + [SEP] + Digits(r.datlen);
    var t := r.key + [SEP] + u;
    assert Body(r)[..|Body(r)| - 1] == t;
    SplitFirst(r.key, u);
    ExtentRoundTrip(r.key, r.datoff, r.datlen);
  }

  // The three reads of an index record, taken from its encoding.
  lemma EncParts(ptr: nat, r: Rec)
    requires ptr <= PTR_MAX && RecOk(r)
    ensures |Enc(ptr, r)| == EncLen(r)
    ensures Enc(ptr, r)[..PTR_SZ] == Pad(ptr, PTR_SZ)
    ensures Atol(Enc(ptr, r)[..PTR_SZ]) == ptr
    ensures Atol(Enc(ptr, r)[PTR_SZ..PTR_SZ + IDXLEN_SZ]) == BodyLen(r)
    ensures Enc(ptr, r)[PTR_SZ + IDXLEN_SZ..] == Body(r)
    ensures ParseBody(Enc(ptr, r)[PTR_SZ + IDXLEN_SZ..]) == Some(r)
  {
    EncFields(ptr, r);
    BodyRoundTrip(r);
  }

  lemma EncFields(ptr: nat, r: Rec)
    requires ptr <= PTR_MAX && IDXLEN_MIN <= BodyLen(r) <= IDXLEN_MAX
    ensures |Enc(ptr, r)| == EncLen(r)
    ensures Enc(ptr, r)[..PTR_SZ] == Pad(ptr, PTR_SZ)
    ensures Atol(Enc(ptr, r)[..PTR_SZ]) == ptr
    ensures Atol(Enc(ptr, r)[PTR_SZ..PTR_SZ + IDXLEN_SZ]) == BodyLen(r)
    ensures Enc(ptr, r)[PTR_SZ + IDXLEN_SZ..] == Body(r)
  {
    var p, l := Pad(ptr, PTR_SZ), Pad(BodyLen(r), IDXLEN_SZ);
    PtrRoundTrip(ptr);
    PadWidth(BodyLen(r), 4);
    AtolOfPad(BodyLen(r), 4);
    BodyLength(r);
    assert Enc(ptr, r)[..PTR_SZ] == p;
    assert Enc(ptr, r)[PTR_SZ..PTR_SZ + IDXLEN_SZ] == l;
    assert Enc(ptr, r)[PTR_SZ + IDXLEN_SZ..] == Body(r);
  }
}
