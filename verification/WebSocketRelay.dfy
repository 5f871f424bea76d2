/** Frames and their forwarding in the debugging relay (scripts/shadow_cdp_relay.py; section 5.2 of RFC 6455). */
module WebSocketRelay {
  import opened Prelude

  type Byte = x: int | 0 <= x < 256
  type Bytes = seq<Byte>

  const MAX_FRAME: nat := 1024 * 1024
  const MAX_MESSAGE: nat := 1024 * 1024
  const MAX_DEFERRED: nat := 4096

  function Power(k: nat): (p: nat)
    ensures p >= 1
  {
    if k == 0 then 1 else 256 * Power(k - 1)
  }

  function BigEndian(n: nat, k: nat): (r: Bytes)
    ensures |r| == k
  {
    if k == 0 then [] else BigEndian(n / 256, k - 1) + [n % 256]
  }

  function FromBytes(s: Bytes): nat {
    if s == [] then 0 else FromBytes(s[..|s| - 1]) * 256 + s[|s| - 1]
  }

  lemma {:induction false} BytesRoundTrip(n: nat, k: nat)
    requires n < Power(k)
    ensures FromBytes(BigEndian(n, k)) == n
  {
    if k > 0 {
      BytesRoundTrip(n / 256, k - 1);
      assert BigEndian(n, k)[..k - 1] == BigEndian(n / 256, k - 1);
    }
  }

  lemma Powers()
    ensures Power(2) == 65536 && Power(8) == 0x1_0000_0000_0000_0000
  {
    assert Power(0) == 1 && Power(1) == 256 && Power(2) == 65536 && Power(3) == 0x100_0000 && Power(4) == 0x1_0000_0000;
    assert Power(5) == 0x100_0000_0000 && Power(6) == 0x1_0000_0000_0000 && Power(7) == 0x100_0000_0000_0000;
  }

  /** Exclusive or of the low `bits` bits. */
  function Xor(a: int, b: int, bits: nat): int
    decreases bits
  {
    if bits == 0 then 0 else 2 * Xor(a / 2, b / 2, bits - 1) + (a % 2 + b % 2) % 2
  }

  lemma {:induction false} XorInRange(a: int, b: int, bits: nat)
    ensures 0 <= Xor(a, b, bits) && (bits == 8 ==> Xor(a, b, bits) < 256)
    ensures Xor(a, b, bits) < Two(bits)
    decreases bits
  {
    if bits > 0 { XorInRange(a / 2, b / 2, bits - 1); }
    assert Two(8) == 2 * Two(7) == 4 * Two(6) == 8 * Two(5) == 16 * Two(4);
    assert 16 * Two(4) == 32 * Two(3) == 64 * Two(2) == 128 * Two(1) == 256;
  }

  function Two(k: nat): nat {
    if k == 0 then 1 else 2 * Two(k - 1)
  }

  function Masked(a: Byte, b: Byte): Byte {
    XorInRange(a, b, 8);
    Xor(a, b, 8)
  }

  function Unmask(payload: Bytes, mask: Bytes): Bytes
    requires |mask| == 4
  {
    seq(|payload|, i requires 0 <= i < |payload| => Masked(payload[i], mask[i % 4]))
  }

  datatype Frame = Frame(raw: Bytes, opcode: int, fin: bool, payload: Bytes)

  datatype Reading = Got(frame: Frame) | Incomplete | Bad

  /** The payload of a frame whose header and length have been read. */
  function ReadPayload(s: Bytes, masked: bool, header: nat, size: nat): Reading
    requires 2 <= header <= |s|
  {
    var fin, opcode := s[0] >= 128, s[0] % 16;
    var start := if masked then header + 4 else header;
    if size > MAX_FRAME || (opcode >= 8 && (!fin || size > 125)) then Bad
    else if |s| < start + size then Incomplete
    else
      var body := s[start..start + size];
      Got(Frame(s[..start + size], opcode, fin, if masked then Unmask(body, s[header..start]) else body))
  }

  /** _read_frame, on the bytes that are still to come. */
  function ReadFrame(s: Bytes, masked: bool): Reading {
    if |s| < 2 then Incomplete
    else
      var opcode := s[0] % 16;
      if s[0] / 16 % 8 != 0 || 3 <= opcode <= 7 || opcode >= 11 || (s[1] >= 128) != masked then Bad
      else
        var size := s[1] % 128;
        if size == 126 then
          if |s| < 4 then Incomplete
          else if FromBytes(s[2..4]) < 126 then Bad
          else ReadPayload(s, masked, 4, FromBytes(s[2..4]))
        else if size == 127 then
          if |s| < 10 then Incomplete
          else if FromBytes(s[2..10]) < 65536 || FromBytes(s[2..10]) >= 0x8000_0000_0000_0000 then Bad
          else ReadPayload(s, masked, 10, FromBytes(s[2..10]))
        else ReadPayload(s, masked, 2, size)
  }

  /** The frame is the beginning of the stream, byte for byte. */
  lemma RawIsPrefix(s: Bytes, masked: bool)
    requires ReadFrame(s, masked).Got?
    ensures var f := ReadFrame(s, masked).frame; 2 <= |f.raw| <= |s| && f.raw == s[..|f.raw|] && 0 <= f.opcode <= 10
  {}

  function EncodeServerText(v: Bytes): Bytes
    requires |v| < 0x1_0000_0000_0000_0000
  {
    if |v| <= 125 then [0x81, |v|] + v
    else if |v| <= 65535 then [0x81, 0x7E] + BigEndian(|v|, 2) + v
    else [0x81, 0x7F] + BigEndian(|v|, 8) + v
  }

  lemma ReadsBack(header: Bytes, v: Bytes, rest: Bytes)
    requires |header| >= 2 && header[0] == 0x81
    ensures ReadPayload(header + v + rest, false, |header|, |v|)
         == if |v| <= MAX_FRAME then Got(Frame(header + v, 1, true, v)) else Bad
  {
    var s := header + v + rest;
    assert s[..|header| + |v|] == header + v && s[|header|..|header| + |v|] == v;
  }

  /**
   Reading back an encoded text returns it, and leaves what follows, at all three length
   encodings; a text over the frame limit is refused.
   */
  lemma EncodedTextReadsBack(v: Bytes, rest: Bytes)
    requires |v| < 0x8000_0000_0000_0000
    ensures ReadFrame(EncodeServerText(v) + rest, false)
         == if |v| <= MAX_FRAME then Got(Frame(EncodeServerText(v), 1, true, v)) else Bad
  {
    if |v| <= 125 {
      ReadsBack([0x81, |v|], v, rest);
    } else if |v| <= 65535 {
      ShortLength(v, rest);
    } else {
      LongLength(v, rest);
    }
  }

  lemma ShortLength(v: Bytes, rest: Bytes)
    requires 125 < |v| <= 65535
    ensures ReadFrame(EncodeServerText(v) + rest, false) == Got(Frame(EncodeServerText(v), 1, true, v))
  {
    var header, s := [0x81, 0x7E] + BigEndian(|v|, 2), EncodeServerText(v) + rest;
    Powers();
    BytesRoundTrip(|v|, 2);
    assert s[2..4] == BigEndian(|v|, 2);
    ReadsBack(header, v, rest);
  }

  lemma LongLength(v: Bytes, rest: Bytes)
    requires 65535 < |v| < 0x8000_0000_0000_0000
    ensures ReadFrame(EncodeServerText(v) + rest, false)
         == if |v| <= MAX_FRAME then Got(Frame(EncodeServerText(v), 1, true, v)) else Bad
  {
    var size := BigEndian(|v|, 8);
    Powers();
    BytesRoundTrip(|v|, 8);
    LongHeader(size, v + rest);
    Regroup([0x81, 0x7F] + size, v, rest);
    ReadsBack([0x81, 0x7F] + size, v, rest);
  }

  /** A header with an eight-byte length leads to the payload of that length. */
  lemma LongHeader(size: Bytes, tail: Bytes)
    requires |size| == 8 && 65536 <= FromBytes(size) < 0x8000_0000_0000_0000
    ensures var s := [0x81, 0x7F] + size + tail; ReadFrame(s, false) == ReadPayload(s, false, 10, FromBytes(size))
  {
    var s := [0x81, 0x7F] + size + tail;
    assert s[0] == 0x81 && s[1] == 0x7F && s[2..10] == size;
  }

  lemma Regroup(a: Bytes, b: Bytes, c: Bytes)
    ensures a + (b + c) == a + b + c
  {}

  // ---------- forwarding ----------

  /** What is written to the other side: frames that were read, and injected bursts of notifications. */
  datatype Chunk = Forward(raw: Bytes) | Burst

  function Forwarded(out: seq<Chunk>): Bytes {
    if out == [] then []
    else Forwarded(out[..|out| - 1]) + match out[|out| - 1] { case Forward(raw) => raw case Burst => [] }
  }

  function Concat(frames: seq<Bytes>): Bytes {
    if frames == [] then [] else Concat(frames[..|frames| - 1]) + frames[|frames| - 1]
  }

  /** The deferred frames written one after the other. */
  function Flushed(out: seq<Chunk>, frames: seq<Bytes>): seq<Chunk> {
    if frames == [] then out else Flushed(out, frames[..|frames| - 1]) + [Forward(frames[|frames| - 1])]
  }

  /** The message under assembly. */
  datatype Partial = Partial(opcode: Option<int>, fragments: Bytes)

  /** The message after a data frame, and a complete text; `None` where the frame is refused. */
  function Assemble(m: Partial, f: Frame): Option<(Partial, Option<Bytes>)> {
    if (f.opcode == 0) == m.opcode.None? then None
    else
      var opcode := if f.opcode == 0 then m.opcode.value else f.opcode;
      var fragments := if f.opcode == 0 then m.fragments + f.payload else f.payload;
      if |fragments| > MAX_MESSAGE then None
      else if !f.fin then Some((Partial(Some(opcode), fragments), None))
      else if opcode == 2 then None
      else Some((Partial(None, []), Some(fragments)))
  }

  predicate TooMuch(frames: seq<Bytes>, bytes: nat) {
    |frames| > MAX_DEFERRED || bytes > MAX_MESSAGE + 65536
  }

  /** The variables of the loop. */
  datatype Copy = Copy(out: seq<Chunk>, partial: Partial, deferred: seq<Bytes>, deferredBytes: nat, messages: nat)

  const START := Copy([], Partial(None, []), [], 0, 0)

  /** Takes a frame off a stream. */
  type Reader = Bytes -> Reading

  /**
   A stream: how it is read, whether a client sent it, which messages are acceptable JSON, and before which
   ones a burst goes out.
   */
  datatype Side = Side(client: bool, read: Reader, valid: Bytes -> bool, barrier: nat -> bool)

  /** Frames are the beginning of the stream, byte for byte. */
  ghost predicate Takes(read: Reader) {
    forall s :: read(s).Got? ==> TakenFrom(read(s).frame, s)
  }

  predicate TakenFrom(f: Frame, s: Bytes) {
    2 <= |f.raw| <= |s| && f.raw == s[..|f.raw|]
  }

  /** A client masks its frames and a server does not. */
  function FrameReader(client: bool): Reader {
    (s: Bytes) => ReadFrame(s, client)
  }

  lemma FrameReaderTakes(client: bool)
    ensures Takes(FrameReader(client))
  {
    forall s | FrameReader(client)(s).Got? ensures TakenFrom(FrameReader(client)(s).frame, s) {
      RawIsPrefix(s, client);
    }
  }

  /** A frame that is held back. */
  function Deferred(c: Copy, partial: Partial, f: Frame): Option<Copy> {
    var d := c.(partial := partial, deferred := c.deferred + [f.raw], deferredBytes := c.deferredBytes + |f.raw|);
    if TooMuch(d.deferred, d.deferredBytes) then None else Some(d)
  }

  /** Everything held back is written. */
  function Released(c: Copy, burst: bool): Copy {
    Copy(Flushed(if burst then c.out + [Burst] else c.out, c.deferred), c.partial, [], 0, c.messages)
  }

  /** After a data frame; `None` where the connection is given up. */
  function AfterData(c: Copy, f: Frame, side: Side): Option<Copy> {
    match Assemble(c.partial, f)
    case None => None
    case Some((partial, message)) =>
      var held := Deferred(c, partial, f);
      if held.None? || message.None? then held
      else if !side.valid(message.value) then None
      else Some(Released(held.value.(messages := c.messages + 1), !side.client && side.barrier(c.messages)))
  }

  /** After a control frame other than a close: inside a message it releases all that is held. */
  function AfterControl(c: Copy, f: Frame): Option<Copy> {
    if c.partial.opcode.None? then Some(c.(out := c.out + [Forward(f.raw)]))
    else
      var held := Deferred(c, c.partial, f);
      if held.None? then None else Some(Released(held.value, false))
  }

  /** What has been written when a close frame ends the copy: a server's close inside a message is dropped with it. */
  function AfterClose(c: Copy, f: Frame, side: Side): Option<seq<Chunk>> {
    if c.partial.opcode.None? then Some(c.out + [Forward(f.raw)])
    else
      var held := Deferred(c, c.partial, f);
      if held.None? then None else Some(if side.client then Released(held.value, false).out else c.out)
  }

  datatype End = Closed | Rejected | EndOfStream

  datatype Copied = Copied(out: seq<Chunk>, consumed: nat, end: End)

  /** After a frame that is no close. */
  function AfterFrame(c: Copy, f: Frame, side: Side): Option<Copy> {
    if f.opcode < 8 then AfterData(c, f, side) else AfterControl(c, f)
  }

  /** websocket_copy on a finite stream, from byte `at` on. */
  function CopyFrom(c: Copy, input: Bytes, at: nat, side: Side): Copied
    requires at <= |input| && Takes(side.read)
    decreases |input| - at
  {
    match side.read(input[at..])
    case Incomplete => Copied(c.out, at, EndOfStream)
    case Bad => Copied(c.out, at, Rejected)
    case Got(f) =>
      assert TakenFrom(f, input[at..]);
      if f.opcode == 8 then
        var out := AfterClose(c, f, side);
        if out.None? then Copied(c.out, at, Rejected) else Copied(out.value, at + |f.raw|, Closed)
      else
        var d := AfterFrame(c, f, side);
        if d.None? then Copied(c.out, at, Rejected) else CopyFrom(d.value, input, at + |f.raw|, side)
  }

  /** Whether a message is open at the first close frame of a stream. */
  ghost predicate OpenAtClose(m: Partial, input: Bytes, at: nat, read: Reader)
    requires at <= |input| && Takes(read)
    decreases |input| - at
  {
    match read(input[at..])
    case Got(f) =>
      assert TakenFrom(f, input[at..]);
      if f.opcode == 8 then m.opcode.Some?
      else if f.opcode > 8 then OpenAtClose(m, input, at + |f.raw|, read)
      else
        var next := Assemble(m, f);
        next.Some? && OpenAtClose(next.value.0, input, at + |f.raw|, read)
    case _ => false
  }

  // ---------- the loop ----------

  method Flush(out: seq<Chunk>, frames: seq<Bytes>) returns (r: seq<Chunk>)
    ensures r == Flushed(out, frames)
  {
    r := out;
    for k := 0 to |frames|
      invariant r == Flushed(out, frames[..k])
    {
      assert frames[..k + 1][..k] == frames[..k];
      r := r + [Forward(frames[k])];
    }
    assert frames[..|frames|] == frames;
  }

  method OnData(c: Copy, f: Frame, side: Side) returns (r: Option<Copy>)
    ensures r == AfterData(c, f, side)
  {
    var opcode, fragments := c.partial.opcode, c.partial.fragments;
    if f.opcode == 0 {
      if opcode.None? { return None; }
      fragments := fragments + f.payload;
    } else {
      if opcode.Some? { return None; }
      opcode, fragments := Some(f.opcode), f.payload;
    }
    if |fragments| > MAX_MESSAGE { return None; }
    var deferred, deferredBytes := c.deferred + [f.raw], c.deferredBytes + |f.raw|;
    if |deferred| > MAX_DEFERRED || deferredBytes > MAX_MESSAGE + 65536 { return None; }
    if !f.fin { return Some(Copy(c.out, Partial(opcode, fragments), deferred, deferredBytes, c.messages)); }
    if opcode == Some(2) || !side.valid(fragments) { return None; }
    var out := c.out;
    if !side.client && side.barrier(c.messages) { out := out + [Burst]; }
    out := Flush(out, deferred);
    return Some(Copy(out, Partial(None, []), [], 0, c.messages + 1));
  }

  method OnControl(c: Copy, f: Frame) returns (r: Option<Copy>)
    ensures r == AfterControl(c, f)
  {
    if c.partial.opcode.None? { return Some(c.(out := c.out + [Forward(f.raw)])); }
    var deferred, deferredBytes := c.deferred + [f.raw], c.deferredBytes + |f.raw|;
    if |deferred| > MAX_DEFERRED || deferredBytes > MAX_MESSAGE + 65536 { return None; }
    var out := Flush(c.out, deferred);
    return Some(Copy(out, c.partial, [], 0, c.messages));
  }

  method OnClose(c: Copy, f: Frame, side: Side) returns (r: Option<seq<Chunk>>)
    ensures r == AfterClose(c, f, side)
  {
    if c.partial.opcode.None? { return Some(c.out + [Forward(f.raw)]); }
    var deferred, deferredBytes := c.deferred + [f.raw], c.deferredBytes + |f.raw|;
    if |deferred| > MAX_DEFERRED || deferredBytes > MAX_MESSAGE + 65536 { return None; }
    if !side.client { return Some(c.out); }
    var out := Flush(c.out, deferred);
    return Some(out);
  }

  method WebsocketCopy(input: Bytes, side: Side) returns (r: Copied)
    requires Takes(side.read)
    ensures r == CopyFrom(START, input, 0, side)
  {
    var c, at := START, 0;
    while true
      invariant at <= |input| && CopyFrom(c, input, at, side) == CopyFrom(START, input, 0, side)
      decreases |input| - at
    {
      var reading := side.read(input[at..]);
      if reading.Incomplete? { return Copied(c.out, at, EndOfStream); }
      if reading.Bad? { return Copied(c.out, at, Rejected); }
      var f := reading.frame;
      assert TakenFrom(f, input[at..]);
      if f.opcode == 8 {
        var last := OnClose(c, f, side);
        return if last.None? then Copied(c.out, at, Rejected) else Copied(last.value, at + |f.raw|, Closed);
      }
      var next;
      if f.opcode < 8 {
        next := OnData(c, f, side);
      } else {
        next := OnControl(c, f);
      }
      if next.None? { return Copied(c.out, at, Rejected); }
      c, at := next.value, at + |f.raw|;
    }
  }

  // ---------- what is forwarded ----------

  /**
   What has been forwarded, with the frames held back, is what has been read, and no more than a bounded
   amount is held.
   */
  ghost predicate Held(c: Copy, read: Bytes) {
    && Forwarded(c.out) + Concat(c.deferred) == read
    && c.deferredBytes == |Concat(c.deferred)| && !TooMuch(c.deferred, c.deferredBytes)
    && (c.partial.opcode.None? ==> c.deferred == []) && |c.partial.fragments| <= MAX_MESSAGE
  }

  lemma ForwardOne(out: seq<Chunk>, c: Chunk)
    ensures Forwarded(out + [c]) == Forwarded(out) + match c { case Forward(raw) => raw case Burst => [] }
  {
    assert (out + [c])[..|out|] == out;
  }

  lemma {:induction false} FlushForwards(out: seq<Chunk>, frames: seq<Bytes>)
    ensures Forwarded(Flushed(out, frames)) == Forwarded(out) + Concat(frames)
    ensures Burst !in out ==> Burst !in Flushed(out, frames)
  {
    if frames != [] {
      var n := |frames| - 1;
      FlushForwards(out, frames[..n]);
      ForwardOne(Flushed(out, frames[..n]), Forward(frames[n]));
    }
  }

  lemma DeferredHolds(c: Copy, partial: Partial, f: Frame, read: Bytes)
    requires Held(c, read) && Deferred(c, partial, f).Some?
    ensures var d := Deferred(c, partial, f).value;
            && Forwarded(d.out) + Concat(d.deferred) == read + f.raw
            && d.deferredBytes == |Concat(d.deferred)| && !TooMuch(d.deferred, d.deferredBytes)
  {
    assert (c.deferred + [f.raw])[..|c.deferred|] == c.deferred;
    assert Forwarded(c.out) + (Concat(c.deferred) + f.raw) == read + f.raw;
  }

  lemma ReleasedForwards(c: Copy, burst: bool, read: Bytes)
    requires Forwarded(c.out) + Concat(c.deferred) == read
    ensures Forwarded(Released(c, burst).out) == read
    ensures Burst !in c.out && !burst ==> Burst !in Released(c, burst).out
  {
    ForwardOne(c.out, Burst);
    FlushForwards(if burst then c.out + [Burst] else c.out, c.deferred);
  }

  lemma DataHolds(c: Copy, f: Frame, side: Side, read: Bytes)
    requires Held(c, read) && AfterData(c, f, side).Some?
    ensures var d := AfterData(c, f, side).value;
            Held(d, read + f.raw) && (side.client && Burst !in c.out ==> Burst !in d.out)
  {
    var (partial, message) := Assemble(c.partial, f).value;
    DeferredHolds(c, partial, f, read);
    if message.Some? {
      var held := Deferred(c, partial, f).value.(messages := c.messages + 1);
      ReleasedForwards(held, !side.client && side.barrier(c.messages), read + f.raw);
    }
  }

  lemma ControlHolds(c: Copy, f: Frame, read: Bytes)
    requires Held(c, read) && AfterControl(c, f).Some?
    ensures var d := AfterControl(c, f).value;
            Held(d, read + f.raw) && d.partial == c.partial && (Burst !in c.out ==> Burst !in d.out)
  {
    if c.partial.opcode.None? {
      ForwardOne(c.out, Forward(f.raw));
    } else {
      DeferredHolds(c, c.partial, f, read);
      ReleasedForwards(Deferred(c, c.partial, f).value, false, read + f.raw);
    }
  }

  lemma CloseForwards(c: Copy, f: Frame, side: Side, read: Bytes)
    requires Held(c, read) && |f.raw| > 0 && AfterClose(c, f, side).Some?
    ensures var out := AfterClose(c, f, side).value;
            && Forwarded(out) <= read + f.raw && (Burst !in c.out ==> Burst !in out)
            && (Forwarded(out) == read + f.raw <==> side.client || c.partial.opcode.None?)
  {
    if c.partial.opcode.None? {
      ForwardOne(c.out, Forward(f.raw));
    } else {
      DeferredHolds(c, c.partial, f, read);
      ReleasedForwards(Deferred(c, c.partial, f).value, false, read + f.raw);
    }
  }

  /** What a copy has forwarded of the bytes it read. */
  ghost predicate Faithful(r: Copied, input: Bytes, side: Side, open: bool) {
    && r.consumed <= |input| && Forwarded(r.out) <= input[..r.consumed]
    && (r.end == Closed ==> (Forwarded(r.out) == input[..r.consumed] <==> side.client || !open))
    && (side.client ==> Burst !in r.out)
  }

  lemma FrameHolds(c: Copy, f: Frame, side: Side, read: Bytes)
    requires Held(c, read) && AfterFrame(c, f, side).Some?
    ensures var d := AfterFrame(c, f, side).value;
            Held(d, read + f.raw) && (side.client && Burst !in c.out ==> Burst !in d.out)
  {
    if f.opcode < 8 { DataHolds(c, f, side, read); } else { ControlHolds(c, f, read); }
  }

  /** The open message follows the frames alone. */
  lemma FrameAssembles(c: Copy, f: Frame, side: Side)
    requires AfterFrame(c, f, side).Some?
    ensures var d := AfterFrame(c, f, side).value;
            if f.opcode < 8 then Assemble(c.partial, f).Some? && d.partial == Assemble(c.partial, f).value.0
            else d.partial == c.partial
  {}

  /** A frame that neither closes nor breaks the copy only moves it on. */
  lemma CopyGoesOn(c: Copy, input: Bytes, at: nat, side: Side, f: Frame)
    requires at <= |input| && Takes(side.read) && side.read(input[at..]) == Got(f) && f.opcode != 8
    requires TakenFrom(f, input[at..]) && AfterFrame(c, f, side).Some?
    ensures var d := AfterFrame(c, f, side).value;
            && CopyFrom(c, input, at, side) == CopyFrom(d, input, at + |f.raw|, side)
            && OpenAtClose(c.partial, input, at, side.read) == OpenAtClose(d.partial, input, at + |f.raw|, side.read)
  {
    FrameAssembles(c, f, side);
  }

  lemma ReadSoFar(input: Bytes, at: nat, f: Frame)
    requires at <= |input| && TakenFrom(f, input[at..])
    ensures input[..at + |f.raw|] == input[..at] + f.raw
  {}

  lemma CopyStops(c: Copy, input: Bytes, at: nat, side: Side)
    requires at <= |input| && Takes(side.read) && Held(c, input[..at]) && (side.client ==> Burst !in c.out)
    requires !GoesOn(c, input, at, side)
    ensures Faithful(CopyFrom(c, input, at, side), input, side, OpenAtClose(c.partial, input, at, side.read))
  {
    var reading := side.read(input[at..]);
    if reading.Got? && reading.frame.opcode == 8 && AfterClose(c, reading.frame, side).Some? {
      assert TakenFrom(reading.frame, input[at..]);
      ReadSoFar(input, at, reading.frame);
      CloseForwards(c, reading.frame, side, input[..at]);
    }
  }

  /** The next frame is read, is no close and is accepted. */
  predicate GoesOn(c: Copy, input: Bytes, at: nat, side: Side)
    requires at <= |input|
  {
    var reading := side.read(input[at..]);
    reading.Got? && reading.frame.opcode != 8 && AfterFrame(c, reading.frame, side).Some?
  }

  lemma CopyTurn(c: Copy, input: Bytes, at: nat, side: Side) returns (d: Copy, next: nat)
    requires at <= |input| && Takes(side.read) && Held(c, input[..at]) && (side.client ==> Burst !in c.out)
    requires GoesOn(c, input, at, side)
    ensures at < next <= |input| && Held(d, input[..next]) && (side.client ==> Burst !in d.out)
    ensures CopyFrom(c, input, at, side) == CopyFrom(d, input, next, side)
    ensures OpenAtClose(c.partial, input, at, side.read) == OpenAtClose(d.partial, input, next, side.read)
  {
    var f := side.read(input[at..]).frame;
    assert TakenFrom(f, input[at..]);
    d, next := AfterFrame(c, f, side).value, at + |f.raw|;
    ReadSoFar(input, at, f);
    FrameHolds(c, f, side, input[..at]);
    CopyGoesOn(c, input, at, side, f);
  }

  lemma {:induction false} CopyIsFaithful(c: Copy, input: Bytes, at: nat, side: Side)
    requires at <= |input| && Takes(side.read) && Held(c, input[..at]) && (side.client ==> Burst !in c.out)
    ensures Faithful(CopyFrom(c, input, at, side), input, side, OpenAtClose(c.partial, input, at, side.read))
    decreases |input| - at
  {
    if GoesOn(c, input, at, side) {
      var d, next := CopyTurn(c, input, at, side);
      CopyIsFaithful(d, input, next, side);
    } else {
      CopyStops(c, input, at, side);
    }
  }

  /**
   What is forwarded is always a prefix of what was read, apart from bursts, which only a
   server's stream gets.  After a close it is all of it exactly unless a server closes while
   one of its messages is open.
   */
  lemma ForwardsWhatItReads(input: Bytes, side: Side)
    requires Takes(side.read)
    ensures Faithful(CopyFrom(START, input, 0, side), input, side, OpenAtClose(START.partial, input, 0, side.read))
  {
    assert input[..0] == [];
    CopyIsFaithful(START, input, 0, side);
  }

  /** A frame with a one-byte length and no mask reads back, whatever follows it. */
  lemma SmallFrameReadsBack(first: Byte, body: Bytes, rest: Bytes)
    requires |body| <= 125 && first / 16 % 8 == 0 && (first % 16 <= 2 || (first >= 128 && 8 <= first % 16 <= 10))
    ensures ReadFrame([first, |body|] + body + rest, false)
         == Got(Frame([first, |body|] + body, first % 16, first >= 128, body))
  {
    var s := [first, |body|] + body + rest;
    assert s[0] == first && s[1] == |body|;
    assert s[..2 + |body|] == [first, |body|] + body;
    assert s[2..2 + |body|] == body;
  }

  /** The first fragment of a text, and a close. */
  function Fragment(): Bytes {
    [0x01, 0x01] + [0x41]
  }

  function CloseFrame(): Bytes {
    [0x88, 0x00] + []
  }

  lemma FragmentThenClose()
    ensures ReadFrame(Fragment() + CloseFrame(), false) == Got(Frame(Fragment(), 1, false, [0x41]))
    ensures ReadFrame(CloseFrame(), false) == Got(Frame(CloseFrame(), 8, true, []))
  {
    SmallFrameReadsBack(0x01, [0x41], CloseFrame());
    SmallFrameReadsBack(0x88, [], []);
    assert CloseFrame() + [] == CloseFrame();
  }

  /** A server that closes so: the first fragment of a text, then the close; neither reaches the client. */
  lemma ServerCloseInsideMessage(valid: Bytes -> bool, barrier: nat -> bool)
    ensures Takes(FrameReader(false))
    ensures var side := Side(false, FrameReader(false), valid, barrier);
            var stream := Fragment() + CloseFrame();
            CopyFrom(START, stream, 0, side) == Copied([], 5, Closed)
            && OpenAtClose(START.partial, stream, 0, side.read)
  {
    var side := Side(false, FrameReader(false), valid, barrier);
    var stream := Fragment() + CloseFrame();
    var text, close := Frame(Fragment(), 1, false, [0x41]), Frame(CloseFrame(), 8, true, []);
    FrameReaderTakes(false);
    FragmentThenClose();
    assert |Fragment()| == 3 && |CloseFrame()| == 2 && stream[3..] == CloseFrame();
    assert stream[0..] == stream && side.read(stream[0..]) == Got(text) && side.read(stream[3..]) == Got(close);
    var open := AfterData(START, text, side).value;
    CopyGoesOn(START, stream, 0, side, text);
    assert open.partial == Partial(Some(1), [0x41]) && open.out == [] && AfterClose(open, close, side) == Some([]);
  }
}
