/**
 Which frames the relay accepts and what it does with them, byte by byte
 (scripts/shadow_cdp_relay.py:121-150, 396-481).
 */
module RelayDecisions {
  import opened Prelude
  import opened WebSocketRelay

  /** The length that a header states. */
  function Stated(s: Bytes): nat
    requires |s| >= 10
  {
    if s[1] % 128 <= 125 then s[1] % 128
    else if s[1] % 128 == 126 then 256 * (s[2] as int) + s[3] as int
    else FromBytes(s[2..10])
  }

  /** No reserved bit or opcode, the mask as expected, the shortest length form, and no more than a mebibyte. */
  predicate Legal(s: Bytes, masked: bool)
    requires |s| >= 10
  {
    var opcode, size := s[0] % 16, Stated(s);
    && s[0] / 16 % 8 == 0 && opcode in {0, 1, 2, 8, 9, 10} && (masked <==> s[1] >= 128)
    && (s[1] % 128 == 126 ==> size >= 126) && (s[1] % 128 == 127 ==> size >= 65536) && size <= 1048576
    && (opcode >= 8 ==> s[0] >= 128 && size <= 125)
  }

  /** Where the payload of a frame starts. */
  function PayloadStart(s: Bytes, masked: bool): nat
    requires |s| >= 10
  {
    (if s[1] % 128 <= 125 then 2 else if s[1] % 128 == 126 then 4 else 10) + if masked then 4 else 0
  }

  lemma TwoBytes(s: Bytes)
    requires |s| >= 4
    ensures FromBytes(s[2..4]) == 256 * (s[2] as int) + s[3] as int
  {
    var t := s[2..4];
    assert t[..1][..0] == [] && FromBytes(t[..1][..0]) == 0 && FromBytes(t[..1]) == s[2] as int;
  }

  /** The header before a mask. */
  function HeaderSize(s: Bytes): nat
    requires |s| >= 10
  {
    if s[1] % 128 <= 125 then 2 else if s[1] % 128 == 126 then 4 else 10
  }

  predicate LegalHeader(s: Bytes, masked: bool)
    requires |s| >= 10
  {
    && s[0] / 16 % 8 == 0 && s[0] % 16 in {0, 1, 2, 8, 9, 10} && (masked <==> s[1] >= 128)
    && (s[1] % 128 == 126 ==> Stated(s) >= 126)
    && (s[1] % 128 == 127 ==> 65536 <= Stated(s) < 0x8000_0000_0000_0000)
  }

  lemma HeaderDecides(s: Bytes, masked: bool)
    requires |s| >= 10
    ensures ReadFrame(s, masked)
         == if LegalHeader(s, masked) then ReadPayload(s, masked, HeaderSize(s), Stated(s)) else Bad
  {
    if s[1] % 128 == 126 { TwoBytes(s); }
  }

  lemma PayloadDecides(s: Bytes, masked: bool, header: nat, size: nat)
    requires 2 <= header <= |s|
    ensures var r, start := ReadPayload(s, masked, header, size), if masked then header + 4 else header;
            if size > 1048576 || (s[0] % 16 >= 8 && (s[0] < 128 || size > 125)) then r == Bad
            else if |s| < start + size then r == Incomplete
            else
              && r.Got?
              && var f := r.frame;
              && f.raw == s[..start + size] && f.opcode == s[0] % 16 && f.fin == (s[0] >= 128) && |f.payload| == size
              && forall i | 0 <= i < size ::
                   f.payload[i] == if masked then Masked(s[start + i], s[header + i % 4]) else s[start + i]
  {
    var start := if masked then header + 4 else header;
    if |s| >= start + size {
      var body := s[start..start + size];
      assert forall i | 0 <= i < size :: body[i] == s[start + i];
      if masked { assert forall k | 0 <= k < 4 :: s[header..start][k] == s[header + k]; }
    }
  }

  /** With its longest header there, a frame is read exactly when it is legal and complete, and is what it says. */
  lemma FrameDecides(s: Bytes, masked: bool)
    requires |s| >= 10
    ensures var start, size := PayloadStart(s, masked), Stated(s);
            if !Legal(s, masked) then ReadFrame(s, masked) == Bad
            else if |s| < start + size then ReadFrame(s, masked) == Incomplete
            else
              && ReadFrame(s, masked).Got?
              && var f := ReadFrame(s, masked).frame;
              && f.raw == s[..start + size] && f.opcode == s[0] % 16 && f.fin == (s[0] >= 128) && |f.payload| == size
              && forall i | 0 <= i < size ::
                   f.payload[i] == if masked then Masked(s[start + i], s[start - 4 + i % 4]) else s[start + i]
  {
    HeaderDecides(s, masked);
    PayloadDecides(s, masked, HeaderSize(s), Stated(s));
  }

  lemma HalfXor(a: nat, b: nat, bits: nat)
    requires bits > 0
    ensures var x := Xor(a, b, bits); 0 <= x && x / 2 == Xor(a / 2, b / 2, bits - 1) && x % 2 == (a % 2 + b % 2) % 2
  {
    XorInRange(a / 2, b / 2, bits - 1);
  }

  lemma LastBit(a: nat, b: nat)
    requires a < 2 && b < 2
    ensures ((a + b) % 2 + b) % 2 == a
  {}

  /** Unmasking undoes masking. */
  lemma {:induction false} XorTwice(a: nat, b: nat, bits: nat)
    requires a < Two(bits)
    ensures Xor(Xor(a, b, bits), b, bits) == a
    decreases bits
  {
    if bits > 0 {
      HalfXor(a, b, bits);
      HalfXor(Xor(a, b, bits), b, bits);
      XorTwice(a / 2, b / 2, bits - 1);
      LastBit(a % 2, b % 2);
    }
  }

  lemma MaskTwice(a: Byte, b: Byte)
    ensures Masked(Masked(a, b), b) == a
  {
    assert Two(8) == 2 * Two(7) == 4 * Two(6) == 8 * Two(5) == 16 * Two(4);
    assert 16 * Two(4) == 32 * Two(3) == 64 * Two(2) == 128 * Two(1) == 256;
    XorTwice(a, b, 8);
  }

  // ---------- data, control and close frames ----------

  /** So much is held back that the connection is given up. */
  predicate Overloaded(c: Copy, f: Frame) {
    |c.deferred| + 1 > 4096 || c.deferredBytes + |f.raw| > 1048576 + 65536
  }

  /** The bytes of the message up to and with this frame. */
  function Message(c: Copy, f: Frame): Bytes {
    if f.opcode == 0 then c.partial.fragments + f.payload else f.payload
  }

  function Forwards(frames: seq<Bytes>): seq<Chunk> {
    seq(|frames|, i requires 0 <= i < |frames| => Forward(frames[i]))
  }

  lemma {:induction false} FlushedAre(out: seq<Chunk>, frames: seq<Bytes>)
    ensures Flushed(out, frames) == out + Forwards(frames)
  {
    if frames != [] {
      FlushedAre(out, frames[..|frames| - 1]);
      assert Forwards(frames) == Forwards(frames[..|frames| - 1]) + [Forward(frames[|frames| - 1])];
    }
  }

  /**
   A data frame.  It continues the open message or opens one, within a mebibyte; until the message is
   complete it is held back, and a complete text of valid JSON releases everything held, in order.
   */
  lemma DataDecides(c: Copy, f: Frame, side: Side)
    requires f.opcode in {0, 1, 2} && (c.partial.opcode.Some? ==> c.partial.opcode.value in {1, 2})
    ensures var r, text := AfterData(c, f, side), Message(c, f);
            var opcode := if f.opcode == 0 && c.partial.opcode.Some? then c.partial.opcode.value else f.opcode;
            var held := c.deferred + [f.raw];
            && (r.None? <==>
                  || (f.opcode == 0 <==> c.partial.opcode.None?) || |text| > 1048576 || Overloaded(c, f)
                  || (f.fin && (opcode == 2 || !side.valid(text))))
            && (r.Some? && !f.fin ==>
                  r.value == Copy(c.out, Partial(Some(opcode), text), held, c.deferredBytes + |f.raw|, c.messages))
            && (r.Some? && f.fin ==>
                  r.value == Copy(c.out + (if !side.client && side.barrier(c.messages) then [Burst] else [])
                                  + Forwards(held), Partial(None, []), [], 0, c.messages + 1))
  {
    var held := c.deferred + [f.raw];
    FlushedAre(if !side.client && side.barrier(c.messages) then c.out + [Burst] else c.out, held);
    assert c.out + [] == c.out;
  }

  /** A ping or pong: forwarded at once outside a message, inside one behind everything held. */
  lemma ControlDecides(c: Copy, f: Frame)
    ensures var r := AfterControl(c, f);
            if c.partial.opcode.None? then r == Some(c.(out := c.out + [Forward(f.raw)]))
            else if Overloaded(c, f) then r.None?
            else r == Some(Copy(c.out + Forwards(c.deferred + [f.raw]), c.partial, [], 0, c.messages))
  {
    FlushedAre(c.out, c.deferred + [f.raw]);
  }

  /** A close: a server's inside a message goes nowhere, and what was held goes with it. */
  lemma CloseDecides(c: Copy, f: Frame, side: Side)
    ensures var r := AfterClose(c, f, side);
            if c.partial.opcode.None? then r == Some(c.out + [Forward(f.raw)])
            else if Overloaded(c, f) then r.None?
            else r == Some(if side.client then c.out + Forwards(c.deferred + [f.raw]) else c.out)
  {
    FlushedAre(c.out, c.deferred + [f.raw]);
  }
}
