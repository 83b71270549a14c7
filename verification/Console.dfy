/** Small numbers as bytes. */
module Octets {
  lemma ByteBack(n: nat)
    requires n < 256
    ensures (n as bv8) as nat == n
  {
  }
}

/** WebSocket frames of the console proxy (sections 5.2 and 5.3 of RFC 6455). */
module Console {
  import opened Octets
  import opened Options

  type Bytes = seq<bv8>

  const MAX_FRAME: nat := 1024 * 1024

  // ---- numbers as bytes, most significant first ----

  function Room(k: nat): (r: nat)
    ensures r >= 1
  {
    if k == 0 then 1 else 256 * Room(k - 1)
  }

  function Packed(n: nat, k: nat): (r: Bytes)
    ensures |r| == k
  {
    if k == 0 then [] else Packed(n / 256, k - 1) + [(n % 256) as bv8]
  }

  function Unpacked(b: Bytes): nat {
    if b == [] then 0 else Unpacked(b[..|b| - 1]) * 256 + b[|b| - 1] as nat
  }

  lemma {:induction false} PackedBack(n: nat, k: nat)
    requires n < Room(k)
    ensures Unpacked(Packed(n, k)) == n
  {
    if k > 0 {
      PackedBack(n / 256, k - 1);
      ByteBack(n % 256);
      var b := Packed(n, k);
      assert b[..|b| - 1] == Packed(n / 256, k - 1);
    }
  }

  lemma Rooms()
    ensures Room(2) == 0x1_0000 && Room(8) == 0x1_0000_0000_0000_0000
  {
    assert Room(3) == 256 * Room(2) && Room(4) == 256 * Room(3) && Room(5) == 256 * Room(4);
    assert Room(6) == 256 * Room(5) && Room(7) == 256 * Room(6);
  }

  // ---- masks ----

  type Key = k: Bytes | |k| == 4 witness [0, 0, 0, 0]

  function Masked(payload: Bytes, key: Key): (r: Bytes)
    ensures |r| == |payload|
    ensures forall i :: 0 <= i < |r| ==> r[i] == payload[i] ^ key[i % 4]
  {
    seq(|payload|, i requires 0 <= i < |payload| => payload[i] ^ key[i % 4])
  }

  lemma XorBack(a: bv8, k: bv8)
    ensures (a ^ k) ^ k == a
  {
  }

  lemma MaskedBack(payload: Bytes, key: Key)
    ensures Masked(Masked(payload, key), key) == payload
  {
    forall i | 0 <= i < |payload| ensures Masked(Masked(payload, key), key)[i] == payload[i] {
      XorBack(payload[i], key[i % 4]);
    }
  }

  // ---- the bits of a head ----

  predicate High(b: bv8) { b & 0x80 != 0 }

  function Low(b: bv8): nat { (b & 0x7F) as nat }

  function Op(b: bv8): bv8 { b & 0x0F }

  // ---- writing ----

  datatype Frame = Frame(opcode: bv8, payload: Bytes, key: Option<Key>) {
    predicate Sendable() { opcode < 16 && |payload| < 0x1_0000_0000_0000_0000 }

    function Extended(): nat { if |payload| < 126 then 0 else if |payload| <= 0xFFFF then 2 else 8 }

    function Second(): bv8 {
      (if key.Some? then 0x80 else 0) |
      (if |payload| < 126 then |payload| as bv8 else if |payload| <= 0xFFFF then 126 else 127)
    }

    function Head(): Bytes { [0x80 | opcode, Second()] }

    function KeyBytes(): Bytes { if key.Some? then key.value else [] }

    function Body(): Bytes { if key.Some? then Masked(payload, key.value) else payload }

    function Encoded(): Bytes { Head() + Packed(|payload|, Extended()) + KeyBytes() + Body() }
  }

  /** `encode_frame`; the key comes from the random generator when one is wanted. */
  method EncodeFrame(payload: Bytes, opcode: bv8, key: Option<Key>) returns (out: Bytes)
    requires |payload| < 0x1_0000_0000_0000_0000
    ensures out == Frame(opcode, payload, key).Encoded()
  {
    hide Masked;
    ghost var frame := Frame(opcode, payload, key);
    var head := [0x80 | opcode];
    var length := |payload|;
    var maskbit: bv8 := if key.Some? then 0x80 else 0;
    if length < 126 {
      head := head + [maskbit | length as bv8];
      assert head == frame.Head() + [];
    } else if length <= 0xFFFF {
      head := head + [maskbit | 126];
      head := head + Packed(length, 2);
    } else {
      head := head + [maskbit | 127];
      head := head + Packed(length, 8);
    }
    assert head == frame.Head() + Packed(length, frame.Extended());
    var body := payload;
    if key.Some? {
      head := head + key.value;
      body := Masked(payload, key.value);
    }
    out := head + body;
    assert out == frame.Encoded();
  }

  lemma DivideTwice(n: nat, b: nat)
    requires b > 0
    ensures n / 256 / b == n / (256 * b)
  {
    var q := n / 256;
    var p, r := q / b, n % 256 + 256 * (q % b);
    assert q == b * p + q % b;
    assert 256 * b * p == 256 * (b * p);
    Quotient(n, 256 * b, p, r);
  }

  lemma Scaled(m: nat, d: int)
    ensures d >= 1 ==> m * d >= m
    ensures d <= -1 ==> m * d <= -1 * m
  {
  }

  lemma Quotient(n: nat, m: nat, p: nat, r: nat)
    requires n == m * p + r && r < m
    ensures n / m == p
  {
    var e, t := n / m, n % m;
    assert n == m * e + t;
    assert m * (e - p) == m * e - m * p;
    Scaled(m, e - p);
  }

  /** Byte j from the end is digit j to the base of 256. */
  lemma {:induction false} PackedDigit(n: nat, k: nat, j: nat)
    requires j < k
    ensures Packed(n, k)[k - 1 - j] as nat == n / Room(j) % 256
  {
    if j == 0 {
      ByteBack(n % 256);
    } else {
      PackedDigit(n / 256, k - 1, j - 1);
      DivideTwice(n, Room(j - 1));
    }
  }

  /** Byte by byte: the final bit with the opcode; the mask bit with the length, or with 126 and
      two bytes of it, or with 127 and eight, the most significant first; the key; and the
      payload, under the key if there is one. */
  lemma FrameLayout(f: Frame)
    requires f.Sendable()
    ensures var b, n := f.Encoded(), |f.payload|;
      var at := if n < 126 then 2 else if n < 65536 then 4 else 10;
      var from := at + if f.key.Some? then 4 else 0;
      && |b| == from + n
      && b[0] as nat == 128 + f.opcode as nat
      && b[1] as nat == (if f.key.Some? then 128 else 0) + (if n < 126 then n else if n < 65536 then 126 else 127)
      && (forall j :: 0 <= j < at - 2 ==> b[at - 1 - j] as nat == n / Room(j) % 256)
      && (f.key.Some? ==> b[at..from] == f.key.value)
      && forall i :: 0 <= i < n ==>
        b[from + i] == if f.key.Some? then f.payload[i] ^ f.key.value[i % 4] else f.payload[i]
  {
    hide Packed, Room, f.Second;
    var b, n, w := f.Encoded(), |f.payload|, f.Extended();
    SecondByte(f);
    FirstByte(f.opcode);
    var at := 2 + w;
    assert b[1] == f.Second();
    forall j | 0 <= j < w ensures b[at - 1 - j] as nat == n / Room(j) % 256 {
      PackedDigit(n, w, j);
      assert b[at - 1 - j] == Packed(n, w)[w - 1 - j];
    }
  }

  lemma FirstByte(opcode: bv8)
    requires opcode < 16
    ensures (0x80 | opcode) as nat == 128 + opcode as nat
  {
  }

  lemma SecondByte(f: Frame)
    requires f.Sendable()
    ensures var n := |f.payload|;
      f.Second() as nat == (if f.key.Some? then 128 else 0) + (if n < 126 then n else if n < 65536 then 126 else 127)
  {
    var n := |f.payload|;
    var short := if n < 126 then n else if n <= 0xFFFF then 126 else 127;
    ByteBack(short);
    MaskBit(short as bv8);
  }

  lemma MaskBit(short: bv8)
    requires short < 128
    ensures (0x80 | short) as nat == 128 + short as nat && 0 | short == short
  {
  }

  // ---- reading ----

  datatype Got = Got(final: bool, opcode: bv8, payload: Bytes) | Closed | BadMasking | TooLarge

  function Limit(maxSize: Option<nat>): nat {
    if maxSize.Some? && maxSize.value != 0 then maxSize.value else MAX_FRAME
  }

  function Wide(second: bv8): nat {
    if Low(second) == 126 then 2 else if Low(second) == 127 then 8 else 0
  }

  function Length(data: Bytes): nat
    requires |data| >= 2 && |data| >= 2 + Wide(data[1])
  {
    if Wide(data[1]) == 0 then Low(data[1]) else Unpacked(data[2..2 + Wide(data[1])])
  }

  /** What a reader makes of the bytes ahead, and what it leaves. */
  function Parsed(data: Bytes, requireMask: Option<bool>, maxSize: Option<nat>): (Got, Bytes) {
    if |data| < 2 then (Closed, [])
    else
      var masked, at := High(data[1]), 2 + Wide(data[1]);
      if requireMask.Some? && masked != requireMask.value then (BadMasking, data[2..])
      else if |data| < at then (Closed, [])
      else if Length(data) > Limit(maxSize) then (TooLarge, data[at..])
      else Opened(data, at, masked, Length(data))
  }

  function Opened(data: Bytes, at: nat, masked: bool, length: nat): (Got, Bytes)
    requires 2 <= at <= |data|
  {
    var from := at + if masked then 4 else 0;
    if |data| < from + length then (Closed, [])
    else
      var body := data[from..from + length];
      (Got(High(data[0]), Op(data[0]), if masked then Masked(body, data[at..from]) else body), data[from + length..])
  }

  lemma Sliced(data: Bytes, at: nat, n: nat)
    requires at + n <= |data|
    ensures data[at..][..n] == data[at..at + n] && data[at..][n..] == data[at + n..]
  {
  }

  /** A connection: what the other side sent and this side has not read. */
  class Stream {
    var ahead: Bytes

    constructor (sent: Bytes)
      ensures ahead == sent
    {
      ahead := sent;
    }

    /** Any part of what is ahead, up to n bytes; nothing only at the end. */
    method Receive(n: nat) returns (part: Bytes)
      requires n > 0
      modifies this
      ensures part + ahead == old(ahead) && |part| <= n
      ensures part == [] <==> old(ahead) == []
    {
      if ahead == [] {
        return [];
      }
      var k: nat :| 1 <= k <= n && k <= |ahead|;
      part, ahead := ahead[..k], ahead[k..];
    }

    /** `_read_exact`. */
    method ReadExact(length: nat) returns (bytes: Option<Bytes>)
      modifies this
      ensures bytes.Some? <==> |old(ahead)| >= length
      ensures bytes.Some? ==> bytes.value == old(ahead)[..length] && ahead == old(ahead)[length..]
      ensures bytes.None? ==> ahead == []
    {
      var chunks: Bytes := [];
      while |chunks| < length
        invariant |chunks| <= length && chunks + ahead == old(ahead)
        decreases length - |chunks|
      {
        var part := Receive(length - |chunks|);
        if part == [] {
          return None;
        }
        chunks := chunks + part;
      }
      assert old(ahead)[..length] == chunks;
      return Some(chunks);
    }

    /** The payload length that follows the second byte. */
    method ReadLength(second: bv8) returns (length: Option<nat>)
      modifies this
      ensures length.Some? <==> |old(ahead)| >= Wide(second)
      ensures length.Some? ==> ahead == old(ahead)[Wide(second)..]
      ensures length.Some? ==>
        length.value == if Wide(second) == 0 then Low(second) else Unpacked(old(ahead)[..Wide(second)])
      ensures length.None? ==> ahead == []
    {
      hide Low;
      if Low(second) == 126 || Low(second) == 127 {
        var wide := ReadExact(if Low(second) == 126 then 2 else 8);
        if wide.None? {
          return None;
        }
        return Some(Unpacked(wide.value));
      }
      return Some(Low(second));
    }

    /** The masking key, when there is one, and the payload. */
    method ReadBody(ghost data: Bytes, ghost at: nat, first: bv8, masked: bool, length: nat) returns (got: Got)
      requires 2 <= at <= |data| && first == data[0] && ahead == data[at..]
      modifies this
      ensures (got, ahead) == Opened(data, at, masked, length)
    {
      hide High, Op, Masked;
      var mask: Bytes := [];
      ghost var from := at + if masked then 4 else 0;
      if masked {
        var key := ReadExact(4);
        if key.None? {
          return Closed;
        }
        mask := key.value;
        Sliced(data, at, 4);
      }
      assert ahead == data[from..];
      var body := ReadExact(length);
      if body.None? {
        return Closed;
      }
      Sliced(data, from, length);
      got := Got(High(first), Op(first), if masked then Masked(body.value, mask) else body.value);
    }

    /** `read_frame`. */
    method ReadFrame(requireMask: Option<bool>, maxSize: Option<nat>) returns (got: Got)
      modifies this
      ensures (got, ahead) == Parsed(old(ahead), requireMask, maxSize)
    {
      hide High, Low, Op, Opened, Unpacked, Wide, Limit;
      ghost var data := ahead;
      var two := ReadExact(2);
      if two.None? {
        return Closed;
      }
      var first, second := two.value[0], two.value[1];
      if requireMask.Some? && High(second) != requireMask.value {
        return BadMasking;
      }
      var length := ReadLength(second);
      if length.None? {
        return Closed;
      }
      ghost var at := 2 + Wide(second);
      assert data[2..][..Wide(second)] == data[2..at] && ahead == data[at..];
      if length.value > Limit(maxSize) {
        return TooLarge;
      }
      got := ReadBody(data, at, first, High(second), length.value);
    }
  }

  // ---- one side's frames at the other ----

  lemma HeadBits(opcode: bv8, short: bv8, masked: bool)
    requires opcode < 16 && short < 128
    ensures var second := (if masked then 0x80 else 0) | short;
      && High(0x80 | opcode) && Op(0x80 | opcode) == opcode
      && Low(second) == short as nat && (High(second) <==> masked)
  {
  }

  lemma SecondIs(f: Frame)
    requires f.Sendable()
    ensures High(f.Second()) <==> f.key.Some?
    ensures Wide(f.Second()) == f.Extended()
    ensures f.Extended() == 0 ==> Low(f.Second()) == |f.payload|
    ensures High(0x80 | f.opcode) && Op(0x80 | f.opcode) == f.opcode
  {
    hide High, Low, Op;
    if |f.payload| < 126 {
      ByteBack(|f.payload|);
      HeadBits(f.opcode, |f.payload| as bv8, f.key.Some?);
    } else {
      HeadBits(f.opcode, if |f.payload| <= 0xFFFF then 126 else 127, f.key.Some?);
    }
  }

  /** The length a frame declares is its payload's, in each of the three forms. */
  lemma LengthIs(f: Frame, rest: Bytes)
    requires f.Sendable()
    ensures |f.Encoded() + rest| >= 2 + f.Extended() && (f.Encoded() + rest)[1] == f.Second()
    ensures Wide(f.Second()) == f.Extended()
    ensures Length(f.Encoded() + rest) == |f.payload|
  {
    hide High, Low, Op, Wide, Masked, Packed, Unpacked, f.Second;
    var data := f.Encoded() + rest;
    SecondIs(f);
    assert data[1] == f.Second();
    if f.Extended() > 0 {
      assert data[2..2 + f.Extended()] == Packed(|f.payload|, f.Extended());
      Rooms();
      PackedBack(|f.payload|, f.Extended());
    }
  }

  /** Where the parts of a frame lie. */
  lemma PartsAre(f: Frame, rest: Bytes)
    ensures var data, at := f.Encoded() + rest, 2 + f.Extended();
      var from := at + |f.KeyBytes()|;
      && |data| >= from + |f.payload| && data[0] == 0x80 | f.opcode && data[1] == f.Second()
      && data[at..from] == f.KeyBytes() && data[from..from + |f.payload|] == f.Body()
      && data[from + |f.payload|..] == rest
  {
    hide Packed, Masked, f.Second;
  }

  /** A frame within the limit, masked as wanted, is read back as sent, to its last byte. */
  lemma FrameBack(f: Frame, rest: Bytes, requireMask: Option<bool>, maxSize: Option<nat>)
    requires f.Sendable() && |f.payload| <= Limit(maxSize)
    requires requireMask.Some? ==> requireMask.value == f.key.Some?
    ensures Parsed(f.Encoded() + rest, requireMask, maxSize) == (Got(true, f.opcode, f.payload), rest)
  {
    hide High, Low, Op, Wide, Length, Limit, f.Second, f.Encoded, f.Extended, Masked;
    LengthIs(f, rest);
    SecondIs(f);
    PartsAre(f, rest);
    if f.key.Some? {
      MaskedBack(f.payload, f.key.value);
    }
  }

  /** The first byte says whether the frame is the last of its message, and what it is; the
      three bits between are passed over. */
  lemma FirstByteRead(f: Frame, first: bv8, rest: Bytes, requireMask: Option<bool>, maxSize: Option<nat>)
    requires f.Sendable() && |f.payload| <= Limit(maxSize)
    requires requireMask.Some? ==> requireMask.value == f.key.Some?
    ensures var data := [first] + (f.Encoded() + rest)[1..];
      Parsed(data, requireMask, maxSize) == (Got(first >= 128, first % 16, f.payload), rest)
  {
    hide High, Low, Op, Wide, Length, Packed, Unpacked, Limit, f.Second, Masked, f.Encoded, Opened;
    var sent := f.Encoded() + rest;
    LengthIs(f, rest);
    var data := [first] + sent[1..];
    assert data[1..] == sent[1..] && |data| == |sent|;
    FrameBack(f, rest, requireMask, maxSize);
    FirstBits(first);
    SameTail(data, sent);
    OpenedAlike(data, sent, 2 + Wide(sent[1]), High(sent[1]), Length(sent));
  }

  lemma OpenedAlike(data: Bytes, sent: Bytes, at: nat, masked: bool, length: nat)
    requires |data| == |sent| && 2 <= at <= |data| && forall i, j :: 1 <= i <= j <= |data| ==> data[i..j] == sent[i..j]
    requires Opened(sent, at, masked, length).0.Got?
    ensures Opened(data, at, masked, length) ==
      (Got(High(data[0]), Op(data[0]), Opened(sent, at, masked, length).0.payload), Opened(sent, at, masked, length).1)
  {
    hide High, Op, Masked;
    var to := at + (if masked then 4 else 0) + length;
    assert data[to..] == data[to..|data|] && sent[to..] == sent[to..|sent|];
  }

  lemma FirstBits(b: bv8)
    ensures High(b) <==> b >= 128
    ensures Op(b) == b % 16
  {
  }

  lemma SliceOfTail(b: Bytes, i: nat, j: nat)
    requires 1 <= i <= j <= |b|
    ensures b[i..j] == b[1..][i - 1..j - 1]
  {
    var tail := b[1..];
    forall k | 0 <= k < j - i ensures b[i..j][k] == tail[i - 1..j - 1][k] {
      assert tail[i - 1 + k] == b[i + k];
    }
  }

  /** Two heads with the same tail declare one length and have one body. */
  lemma SameTail(data: Bytes, sent: Bytes)
    requires |data| == |sent| && |data| >= 2 && data[1..] == sent[1..]
    ensures data[1] == sent[1]
    ensures |data| >= 2 + Wide(data[1]) ==> Length(data) == Length(sent)
    ensures forall i, j :: 1 <= i <= j <= |data| ==> data[i..j] == sent[i..j]
  {
    hide Wide, Low, Unpacked;
    assert data[1] == data[1..][0] && sent[1] == sent[1..][0];
    forall i, j | 1 <= i <= j <= |data| ensures data[i..j] == sent[i..j] {
      SliceOfTail(data, i, j);
      SliceOfTail(sent, i, j);
    }
  }

  /** A frame whose payload is over the limit, or not masked as wanted, is refused. */
  lemma FrameRefused(f: Frame, rest: Bytes, requireMask: Option<bool>, maxSize: Option<nat>)
    requires f.Sendable()
    ensures Parsed(f.Encoded() + rest, requireMask, maxSize).0.BadMasking? <==>
      requireMask.Some? && requireMask.value != f.key.Some?
    ensures Parsed(f.Encoded() + rest, requireMask, maxSize).0.TooLarge? <==>
      !(requireMask.Some? && requireMask.value != f.key.Some?) && |f.payload| > Limit(maxSize)
  {
    hide High, Low, Op, Wide, Length, Packed, Limit, f.Second, Masked;
    LengthIs(f, rest);
    SecondIs(f);
  }

  /** The limit is what is asked for; with none, or 0, it is one mebibyte. */
  lemma LimitIs(size: nat)
    ensures Limit(None) == 1_048_576 && Limit(Some(0)) == 1_048_576 && (size > 0 ==> Limit(Some(size)) == size)
  {
  }

  lemma LengthOfCut(data: Bytes, k: nat)
    requires 2 <= k <= |data| && 2 + Wide(data[1]) <= k
    ensures Length(data[..k]) == Length(data)
  {
    hide Wide, Low;
    var at := 2 + Wide(data[1]);
    assert data[..k][1] == data[1];
    assert data[..k][2..at] == data[2..at];
  }

  /** A connection that ends inside a frame is a closed one, wherever it ends. */
  lemma CutIsClosed(f: Frame, k: nat, requireMask: Option<bool>, maxSize: Option<nat>)
    requires f.Sendable() && |f.payload| <= Limit(maxSize) && k < |f.Encoded()|
    requires requireMask.Some? ==> requireMask.value == f.key.Some?
    ensures Parsed(f.Encoded()[..k], requireMask, maxSize) == (Closed, [])
  {
    hide High, Low, Op, Wide, Length, Packed, Limit, f.Second, Masked;
    var data := f.Encoded();
    LengthIs(f, []);
    assert data + [] == data;
    SecondIs(f);
    if k >= 2 + f.Extended() { LengthOfCut(data, k); }
  }

  function Sent(frames: seq<Frame>): Bytes {
    if frames == [] then [] else frames[0].Encoded() + Sent(frames[1..])
  }

  function Meant(f: Frame): Got { Got(true, f.opcode, f.payload) }

  function AllMeant(frames: seq<Frame>): seq<Got> {
    if frames == [] then [] else [Meant(frames[0])] + AllMeant(frames[1..])
  }

  /** Reading n frames one after another. */
  function Reads(data: Bytes, n: nat, requireMask: Option<bool>, maxSize: Option<nat>): (seq<Got>, Bytes)
    decreases n
  {
    if n == 0 then ([], data)
    else
      var (before, left) := Reads(data, n - 1, requireMask, maxSize);
      var (got, rest) := Parsed(left, requireMask, maxSize);
      (before + [got], rest)
  }

  lemma {:induction false} ReadsFirst(data: Bytes, n: nat, requireMask: Option<bool>, maxSize: Option<nat>)
    requires n > 0
    ensures var (got, rest) := Parsed(data, requireMask, maxSize);
      Reads(data, n, requireMask, maxSize) ==
        ([got] + Reads(rest, n - 1, requireMask, maxSize).0, Reads(rest, n - 1, requireMask, maxSize).1)
  {
    hide Parsed;
    var (got, rest) := Parsed(data, requireMask, maxSize);
    if n > 1 {
      ReadsFirst(data, n - 1, requireMask, maxSize);
      var (before, left) := Reads(rest, n - 2, requireMask, maxSize);
      var next := Parsed(left, requireMask, maxSize).0;
      assert ([got] + before) + [next] == [got] + (before + [next]);
    } else {
      assert Reads(data, 0, requireMask, maxSize).0 + [got] == [got] + Reads(rest, 0, requireMask, maxSize).0;
    }
  }

  /** Frames sent one after another are read in order, and nothing but them is consumed. */
  lemma {:induction false} FramesBack(frames: seq<Frame>, rest: Bytes, requireMask: Option<bool>, maxSize: Option<nat>)
    requires forall f :: f in frames ==> f.Sendable() && |f.payload| <= Limit(maxSize)
    requires forall f :: f in frames && requireMask.Some? ==> requireMask.value == f.key.Some?
    ensures Reads(Sent(frames) + rest, |frames|, requireMask, maxSize) == (AllMeant(frames), rest)
  {
    hide Parsed, Limit;
    if frames == [] {
      assert Sent(frames) + rest == rest;
    } else {
      var f, others := frames[0], frames[1..];
      assert f in frames;
      assert Sent(frames) + rest == f.Encoded() + (Sent(others) + rest);
      FrameBack(f, Sent(others) + rest, requireMask, maxSize);
      FramesBack(others, rest, requireMask, maxSize);
      ReadsFirst(Sent(frames) + rest, |frames|, requireMask, maxSize);
    }
  }

  /** A reader's loop: however the connection splits its bytes, the first n reads return what
      the bytes say, and a sender's n frames come back as they were sent. */
  method ReadFrames(stream: Stream, n: nat, requireMask: Option<bool>, maxSize: Option<nat>) returns (all: seq<Got>)
    modifies stream
    ensures (all, stream.ahead) == Reads(old(stream.ahead), n, requireMask, maxSize)
  {
    hide Parsed;
    all := [];
    for i := 0 to n
      invariant (all, stream.ahead) == Reads(old(stream.ahead), i, requireMask, maxSize)
    {
      var got := stream.ReadFrame(requireMask, maxSize);
      all := all + [got];
    }
  }
}
