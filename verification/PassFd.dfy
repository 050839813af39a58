// apue.2e/lib/sendfd.c, senderr.c and recvfd.c: passing a descriptor, or an
// error message and status, over a stream in pieces of any sizes.
module PassFd {

  import opened Bytes

  const MAXLINE: nat := 4096

  // What one recvmsg delivers; fd is the descriptor in the control buffer.
  datatype Piece = Piece(bytes: bytes, fd: Option<nat>)

  // How recv_fd ends: it returns, or err_dump ends the process.
  datatype Outcome = Returned(value: int) | Dump

  // The status byte for what is sent: the low byte of -n for an error n < 0,
  // with 0 turned into 1.
  function Status(n: int): byte {
    if n >= 0 then 0 else if (-n) % 256 == 0 then 1 else (-n) % 256
  }

  // The bytes that send_fd(fd, n) writes after msg, and the descriptor that goes
  // along with the first of its own two.
  function Stream(msg: bytes, n: int): bytes { msg + [0, Status(n)] }

  function Control(n: int): Option<nat> { if n >= 0 then Some(n) else None }

  // What send_err makes of an error code.
  function ErrCode(errcode: int): int { if errcode >= 0 then -1 else errcode }

  // The user function of recv_fd: what it returns when it has been given the
  // parts so far, the last one now.
  type User = seq<bytes> -> int

  function Flat(parts: seq<bytes>): bytes {
    if parts == [] then [] else Flat(parts[..|parts| - 1]) + parts[|parts| - 1]
  }

  // The position of the first null byte, or the length.
  function FirstNull(b: bytes): (k: nat)
    ensures k <= |b| && (k < |b| ==> b[k] == 0) && forall i :: 0 <= i < k ==> b[i] != 0
  {
    if b == [] then 0 else if b[0] == 0 then 0 else 1 + FirstNull(b[1..])
  }

  // recv_fd on the pieces that are still to come: how it ends, and all parts
  // that the user function has then been given.
  function Receive(pieces: seq<Piece>, user: User, parts: seq<bytes>): (Outcome, seq<bytes>)
    decreases |pieces|
  {
    if pieces == [] then (Returned(-1), parts)
    else
      var p := pieces[0];
      var z := FirstNull(p.bytes);
      if z == |p.bytes| then
        var all := parts + [p.bytes];
        if user(all) != |p.bytes| then (Returned(-1), all) else Receive(pieces[1..], user, all)
      else if z != |p.bytes| - 2 then (Dump, parts)
      else if p.bytes[z + 1] == 0 && p.fd.None? then (Dump, parts)
      else
        var newfd := if p.bytes[z + 1] == 0 then p.fd.value else -(p.bytes[z + 1] as int);
        if z == 0 then (Returned(newfd), parts)
        else
          var all := parts + [p.bytes[..z]];
          if user(all) != z then (Returned(-1), all) else (Returned(newfd), all)
  }

  function Joined(pieces: seq<Piece>): bytes {
    if pieces == [] then [] else pieces[0].bytes + Joined(pieces[1..])
  }

  // The descriptor comes with the piece that has the byte at off.
  predicate Attached(pieces: seq<Piece>, off: int, fd: Option<nat>) {
    pieces == [] ||
    (&& pieces[0].fd == (if 0 <= off < |pieces[0].bytes| then fd else None)
     && Attached(pieces[1..], off - |pieces[0].bytes|, fd))
  }

  // The pieces are the stream of msg and n, cut anywhere, the descriptor coming
  // with the null byte.
  ghost predicate Delivered(pieces: seq<Piece>, msg: bytes, n: int) {
    && Joined(pieces) == Stream(msg, n)
    && Attached(pieces, |msg|, Control(n))
    && forall k :: 0 <= k < |pieces| ==> 0 < |pieces[k].bytes| <= MAXLINE
  }

  // The same, piece by piece.
  ghost predicate CutUp(pieces: seq<Piece>, msg: bytes, n: int)
    decreases |pieces|
  {
    && pieces != [] && pieces[0].bytes != []
    && var b := pieces[0].bytes;
       if |b| <= |msg| then b == msg[..|b|] && pieces[0].fd.None? && CutUp(pieces[1..], msg[|b|..], n)
       else if |b| == |msg| + 1 then
         && b == msg + [0] && pieces[0].fd == Control(n)
         && |pieces| == 2 && pieces[1] == Piece([Status(n)], None)
       else |pieces| == 1 && b == Stream(msg, n) && pieces[0].fd == Control(n)
  }

  lemma {:induction false} DeliveredCutUp(pieces: seq<Piece>, msg: bytes, n: int)
    requires Delivered(pieces, msg, n)
    ensures CutUp(pieces, msg, n)
    decreases |pieces|
  {
    var b, rest := pieces[0].bytes, pieces[1..];
    var all := b + Joined(rest);
    assert all == Stream(msg, n);
    assert all[..|b|] == b && all[|b|..] == Joined(rest);
    if |b| <= |msg| {
      assert all[..|b|] == msg[..|b|];
      assert Joined(rest) == Stream(msg[|b|..], n);
      DeliveredCutUp(rest, msg[|b|..], n);
    } else if |b| == |msg| + 1 {
      assert b == msg + [0];
      OneLeft(rest, Status(n), |msg| - |b|, Control(n));
    } else {
      assert Joined(rest) == [];
      NoneLeft(rest);
    }
  }

  lemma NoneLeft(pieces: seq<Piece>)
    requires Joined(pieces) == [] && forall k :: 0 <= k < |pieces| ==> pieces[k].bytes != []
    ensures pieces == []
  {}

  lemma OneLeft(pieces: seq<Piece>, c: byte, off: int, fd: Option<nat>)
    requires Joined(pieces) == [c] && forall k :: 0 <= k < |pieces| ==> pieces[k].bytes != []
    requires off < 0 && Attached(pieces, off, fd)
    ensures pieces == [Piece([c], None)]
  {
    NoneLeft(pieces[1..]);
    assert pieces[0].bytes + [] == pieces[0].bytes;
  }

  ghost predicate TakesAll(user: User) {
    forall parts: seq<bytes> :: parts != [] ==> user(parts) == |parts[|parts| - 1]|
  }

  // Main result. A message without null bytes, and what was passed or refused,
  // arrive however the stream is cut if and only if the last two bytes come
  // together: the user function is given exactly the message, in order, and the
  // descriptor or minus the status is returned. Otherwise the process dumps.
  lemma Arrives(pieces: seq<Piece>, msg: bytes, n: int, user: User)
    requires Delivered(pieces, msg, n) && 0 !in msg && TakesAll(user)
    ensures pieces != []
    ensures var (o, all) := Receive(pieces, user, []);
      if |pieces[|pieces| - 1].bytes| >= 2
      then o == Returned(if n >= 0 then n else -(Status(n) as int)) && Flat(all) == msg
      else o == Dump
  {
    DeliveredCutUp(pieces, msg, n);
    CutUpArrives(pieces, msg, n, user, []);
    assert Flat([]) + msg == msg;
  }

  lemma {:induction false} CutUpArrives(pieces: seq<Piece>, msg: bytes, n: int, user: User, parts: seq<bytes>)
    requires CutUp(pieces, msg, n) && 0 !in msg && TakesAll(user)
    ensures var (o, all) := Receive(pieces, user, parts);
      if |pieces[|pieces| - 1].bytes| >= 2
      then o == Returned(if n >= 0 then n else -(Status(n) as int)) && Flat(all) == Flat(parts) + msg
      else o == Dump
    decreases |pieces|
  {
    hide FirstNull;
    var b := pieces[0].bytes;
    if |b| <= |msg| {
      NoNull(b);
      var all := parts + [b];
      assert all[..|all| - 1] == parts;
      CutUpArrives(pieces[1..], msg[|b|..], n, user, all);
      assert msg == b + msg[|b|..];
      assert Flat(parts) + msg == Flat(parts) + b + msg[|b|..];
    } else if |b| == |msg| + 1 {
      NullAfter(msg, []);
      assert msg + [0] + [] == b;
    } else {
      ArrivesWhole(pieces[0], msg, n, user, parts);
      assert pieces == [pieces[0]];
    }
  }

  // The piece that has both of the last bytes.
  lemma ArrivesWhole(p: Piece, msg: bytes, n: int, user: User, parts: seq<bytes>)
    requires p == Piece(Stream(msg, n), Control(n)) && 0 !in msg && TakesAll(user)
    ensures var (o, all) := Receive([p], user, parts);
      o == Returned(if n >= 0 then n else -(Status(n) as int)) && Flat(all) == Flat(parts) + msg
  {
    hide FirstNull, Flat;
    NullAfter(msg, [Status(n)]);
    assert msg + [0] + [Status(n)] == p.bytes && p.bytes[..|msg|] == msg;
    assert p.bytes[|msg| + 1] == Status(n);
    FlatPush(parts, msg);
    if msg == [] {
      assert Flat(parts) + msg == Flat(parts);
    } else {
      assert user(parts + [msg]) == |msg|;
    }
  }

  lemma FlatPush(parts: seq<bytes>, b: bytes)
    ensures Flat(parts + [b]) == Flat(parts) + b
  {
    assert (parts + [b])[..|parts|] == parts;
  }

  lemma {:induction false} NullAfter(msg: bytes, post: bytes)
    requires 0 !in msg
    ensures FirstNull(msg + [0] + post) == |msg|
  {
    var b := msg + [0] + post;
    assert b[|msg|] == 0;
    assert forall i :: 0 <= i < |msg| ==> b[i] == msg[i];
  }

  lemma NoNull(b: bytes)
    requires 0 !in b
    ensures FirstNull(b) == |b|
  {}

  // ---------- any pieces whatever ----------

  function Contents(pieces: seq<Piece>): seq<bytes> { seq(|pieces|, k requires 0 <= k < |pieces| => pieces[k].bytes) }

  // Pieces with no null byte are handed to the user function, one by one.
  lemma {:induction false} PlainPieces(pieces: seq<Piece>, more: seq<Piece>, user: User, parts: seq<bytes>)
    requires TakesAll(user) && forall k :: 0 <= k < |pieces| ==> 0 !in pieces[k].bytes
    ensures Receive(pieces + more, user, parts) == Receive(more, user, parts + Contents(pieces))
    decreases |pieces|
  {
    if pieces == [] {
      assert pieces + more == more && parts + Contents(pieces) == parts;
    } else {
      NoNull(pieces[0].bytes);
      assert (pieces + more)[0] == pieces[0] && (pieces + more)[1..] == pieces[1..] + more;
      PlainPieces(pieces[1..], more, user, parts + [pieces[0].bytes]);
      assert parts + Contents(pieces) == parts + [pieces[0].bytes] + Contents(pieces[1..]);
    }
  }

  // Main result about all other streams, after such pieces: a connection that is
  // closed then gives -1. A null byte that is not the last but one of its piece
  // is a message format error. So is a status of 0 without a descriptor. With a
  // descriptor a status of 0 gives that, and any other status s gives -s.
  lemma ReceivedEnd(pieces: seq<Piece>, last: Piece, more: seq<Piece>, z: nat, user: User)
    requires TakesAll(user) && forall k :: 0 <= k < |pieces| ==> 0 !in pieces[k].bytes
    requires z < |last.bytes| && last.bytes[z] == 0 && 0 !in last.bytes[..z]
    ensures Receive(pieces, user, []) == (Returned(-1), Contents(pieces))
    ensures var n := |last.bytes|;
      var r := Receive(pieces + [last] + more, user, []);
      if z + 2 != n || (last.bytes[n - 1] == 0 && last.fd.None?) then r == (Dump, Contents(pieces))
      else
        && r.0 == Returned(if last.bytes[n - 1] == 0 then last.fd.value else -(last.bytes[n - 1] as int))
        && r.1 == Contents(pieces) + if z == 0 then [] else [last.bytes[..z]]
  {
    var b := last.bytes;
    PlainPieces(pieces, [], user, []);
    assert pieces + [] == pieces && [] + Contents(pieces) == Contents(pieces);
    PlainPieces(pieces, [last] + more, user, []);
    assert pieces + ([last] + more) == pieces + [last] + more;
    assert ([last] + more)[0] == last;
    assert b == b[..z] + [0] + b[z + 1..];
    NullAfter(b[..z], b[z + 1..]);
    var all := Contents(pieces) + [b[..z]];
    assert user(all) == |all[|all| - 1]| == z;
  }

  // The value that comes back is the one sent exactly for descriptors and for
  // the errors that fit in a byte.
  lemma ValueKept(n: int)
    ensures (if n >= 0 then n else -(Status(n) as int)) == n <==> n >= -255
    ensures n < 0 ==> Status(n) != 0 && (Status(n) == (-n) % 256 || (Status(n) == 1 && n % 256 == 0))
  {}

  // A user function that does not take all it is given ends it with -1, even
  // when the descriptor has come already.
  lemma RefusedAtTheEnd(msg: bytes, n: int, user: User)
    requires 0 < |msg| <= MAXLINE - 2 && 0 !in msg && user([msg]) != |msg|
    ensures Delivered([Piece(Stream(msg, n), Control(n))], msg, n)
    ensures Receive([Piece(Stream(msg, n), Control(n))], user, []) == (Returned(-1), [msg])
  {
    var b := Stream(msg, n);
    NullAfter(msg, [Status(n)]);
    assert msg + [0] + [Status(n)] == b && b[..|msg|] == msg;
    assert [] + [msg] == [msg];
    var pieces := [Piece(b, Control(n))];
    assert pieces[1..] == [] && b + [] == b;
  }

  // ---------- the program ----------

  // The sending end of a stream pipe: what has been written, and the descriptor
  // attached, with the position of the byte that it goes along with.
  class Sender {
    var bytes: bytes
    var fd: Option<(nat, nat)>

    constructor ()
      ensures bytes == [] && fd == None
    {
      bytes, fd := [], None;
    }

    method SendFd(fdToSend: int) returns (ret: int)
      modifies this
      ensures ret == 0 && bytes == Stream(old(bytes), fdToSend)
      ensures |bytes| == |old(bytes)| + 2 && bytes[..|old(bytes)|] == old(bytes) && bytes[|old(bytes)|] == 0
      ensures bytes[|old(bytes)| + 1] ==
        if fdToSend >= 0 then 0 else if fdToSend % 256 == 0 then 1 else (-fdToSend) % 256
      ensures fd == if fdToSend >= 0 then Some((fdToSend, |old(bytes)|)) else old(fd)
    {
      var buf := new byte[2](_ => 0);
      if fdToSend < 0 {
        buf[1] := (-fdToSend) % 256;
        if buf[1] == 0 {
          buf[1] := 1;
        }
      } else {
        fd := Some((fdToSend, |bytes|));
        buf[1] := 0;
      }
      buf[0] := 0;
      assert buf[..] == [0, Status(fdToSend)];
      bytes := bytes + buf[..];
      ret := 0;
    }

    method SendErr(errcode: int, msg: bytes) returns (ret: int)
      modifies this
      ensures ret == 0 && bytes == Stream(old(bytes) + msg, ErrCode(errcode)) && fd == old(fd)
      ensures |bytes| == |old(bytes)| + |msg| + 2 && bytes[..|bytes| - 2] == old(bytes) + msg
      ensures bytes[|bytes| - 2] == 0 && bytes[|bytes| - 1] ==
        if errcode >= 0 || errcode % 256 == 0 then 1 else (-errcode) % 256
    {
      var e := errcode;
      if |msg| > 0 {
        bytes := bytes + msg;
      } else {
        assert bytes + msg == bytes;
      }
      if e >= 0 {
        e := -1;
      }
      ret := SendFd(e);
    }
  }

  // The receiving end; left is what is still to be delivered before the close.
  class Receiver {
    var left: seq<Piece>

    ghost predicate Valid()
      reads this
    {
      forall k :: 0 <= k < |left| ==> 0 < |left[k].bytes| <= MAXLINE
    }

    constructor (pieces: seq<Piece>)
      requires forall k :: 0 <= k < |pieces| ==> 0 < |pieces[k].bytes| <= MAXLINE
      ensures Valid() && left == pieces
    {
      left := pieces;
    }

    method RecvMsg(buf: array<byte>) returns (nr: nat, fd: Option<nat>)
      requires Valid() && buf.Length == MAXLINE
      modifies this, buf
      ensures Valid()
      ensures old(left) == [] ==> nr == 0 && left == []
      ensures old(left) != [] ==> nr == |old(left)[0].bytes| > 0 && buf[..nr] == old(left)[0].bytes
      ensures old(left) != [] ==> fd == old(left)[0].fd && left == old(left)[1..]
    {
      if left == [] {
        nr, fd := 0, None;
      } else {
        nr, fd := |left[0].bytes|, left[0].fd;
        var i := 0;
        while i < nr
          invariant i <= nr && left == old(left) && buf[..i] == left[0].bytes[..i]
          modifies buf
        {
          buf[i] := left[0].bytes[i];
          i := i + 1;
        }
        left := left[1..];
      }
    }

    // Main result for the code: recv_fd comes to what Receive says.
    method RecvFd(user: User) returns (o: Outcome, parts: seq<bytes>)
      requires Valid()
      modifies this
      ensures (o, parts) == Receive(old(left), user, [])
    {
      var status: int, newfd: int := -1, -1;
      var buf := new byte[MAXLINE](_ => 0);
      parts := [];
      while true
        invariant Valid() && status == -1
        invariant Receive(old(left), user, []) == Receive(left, user, parts)
        modifies this, buf
        decreases |left|
      {
        var nr, fd := RecvMsg(buf);
        if nr == 0 {
          return Returned(-1), parts;
        }
        ghost var b := buf[..nr];
        var ptr := 0;
        while ptr < nr
          invariant status == -1 ==> nr == |b| && ptr <= nr && forall i :: 0 <= i < ptr ==> b[i] != 0
          invariant status != -1 ==> nr == |b| - 2 == FirstNull(b) && ptr == nr + 1 && status == b[nr + 1]
          invariant status != -1 ==> (status == 0 ==> fd.Some?) && newfd == (if status == 0 then fd.value else -status)
          invariant status >= -1 && buf[..|b|] == b
          decreases |b| - ptr
        {
          ptr := ptr + 1;
          if buf[ptr - 1] == 0 {
            assert b[ptr - 1] == 0 && FirstNull(b) == ptr - 1;
            if ptr != nr - 1 {
              return Dump, parts;
            }
            status := buf[ptr];
            if status == 0 {
              if fd.None? {
                return Dump, parts;
              }
              newfd := fd.value;
            } else {
              newfd := -status;
            }
            nr := nr - 2;
          }
        }
        assert status == -1 ==> FirstNull(b) == |b|;
        if nr > 0 {
          parts := parts + [buf[..nr]];
          assert buf[..nr] == b[..nr];
          if user(parts) != nr {
            return Returned(-1), parts;
          }
        }
        if status >= 0 {
          return Returned(newfd), parts;
        }
      }
    }
  }
}
