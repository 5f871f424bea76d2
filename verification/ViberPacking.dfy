/**
 Packing rendered stories into Viber messages whose footer carries the number of
 messages (go-editorial/editorial/viber.go).
 */
module ViberPacking {
  import opened Prelude
  import opened TextSize

  const SOFT_UNITS: nat := 6500
  const SOFT_BYTES: nat := 28000
  const HARD_UNITS: nat := 7000
  const HARD_BYTES: nat := 30720
  /** The payload's keys, quotes and punctuation, with every value empty. */
  const FRAME_BYTES: nat := 51
  const MAX_PASSES: nat := 8

  /** A rendered block; none is empty. */
  type Block = s: string | s != "" witness "x"

  /** Everything that stays the same while one edition is packed. */
  datatype Options = Options(token: string, sender: string, url: string)

  const SEPARATOR := "\n\n"

  function Join(blocks: seq<Block>): string {
    if blocks == [] then ""
    else if |blocks| == 1 then blocks[0]
    else Join(blocks[..|blocks| - 1]) + SEPARATOR + blocks[|blocks| - 1]
  }

  /** viberFinalizePart. */
  function Final(body: string, index: nat, total: nat, o: Options): string {
    body + ("\n\nPart " + Decimal(index) + "/" + Decimal(total) + "\n*Ceo pregled:* " + o.url)
  }

  function TextUnits(text: string): nat {
    Cost(Units, text)
  }

  /** ViberPayloadSize: the whole send_message payload. */
  function PayloadBytes(text: string, o: Options): nat {
    FRAME_BYTES + Cost(Escaped, o.token) + Cost(Escaped, o.sender) + Cost(Escaped, text)
  }

  predicate Within(text: string, o: Options, units: nat, bytes: nat) {
    TextUnits(text) <= units && PayloadBytes(text, o) <= bytes
  }

  predicate Fits(body: string, index: nat, total: nat, o: Options) {
    Within(Final(body, index, total, o), o, SOFT_UNITS, SOFT_BYTES)
  }

  // ---------- one pass for an assumed total ----------

  /** Whether a body fits as the message with this index. */
  type Sizer = (string, nat) -> bool

  datatype State = State(packed: seq<seq<Block>>, current: seq<Block>)

  /** One turn of the loop: extend the current message, close it, skip the block, or give up. */
  function Place(st: State, b: Block, fits: Sizer): Option<State> {
    var index := |st.packed| + 1;
    if fits(Join(st.current + [b]), index) then Some(st.(current := st.current + [b]))
    else if st.current == [] then if fits("", index) then Some(st) else None
    else if fits(b, index + 1) then Some(State(st.packed + [st.current], [b]))
    else None
  }

  function PlaceAll(blocks: seq<Block>, fits: Sizer): Option<State>
    decreases |blocks|
  {
    if blocks == [] then Some(State([], []))
    else
      var st := PlaceAll(blocks[..|blocks| - 1], fits);
      if st.None? then None else Place(st.value, blocks[|blocks| - 1], fits)
  }

  function Groups(st: State): seq<seq<Block>> {
    st.packed + if st.current == [] then [] else [st.current]
  }

  /** packViberBlocksForTotal, as the groups of blocks that share a message. */
  function PackFor(blocks: seq<Block>, fits: Sizer): Option<seq<seq<Block>>> {
    var st := PlaceAll(blocks, fits);
    if st.None? then None else Some(Groups(st.value))
  }

  function Bodies(groups: seq<seq<Block>>): seq<string> {
    seq(|groups|, i requires 0 <= i < |groups| => Join(groups[i]))
  }

  lemma JoinEmpty(blocks: seq<Block>)
    ensures Join(blocks) == "" <==> blocks == []
  {}

  lemma JoinAppend(blocks: seq<Block>, b: Block)
    ensures Join(blocks + [b]) == if blocks == [] then b else Join(blocks) + SEPARATOR + b
  {
    assert (blocks + [b])[..|blocks|] == blocks;
  }

  /** What placing one block means for the texts that the loop keeps. */
  lemma PlaceText(st: State, b: Block, fits: Sizer)
    ensures var text, index := Join(st.current), |st.packed| + 1;
            var candidate := if text != "" then text + SEPARATOR + b else b;
            match Place(st, b, fits)
            case None => !fits(candidate, index) && (if text == "" then !fits("", index) else !fits(b, index + 1))
            case Some(next) =>
              && (fits(candidate, index) ==> next.packed == st.packed && Join(next.current) == candidate)
              && (!fits(candidate, index) && text == "" ==> fits("", index) && next == st)
              && (!fits(candidate, index) && text != "" ==>
                    fits(b, index + 1) && Bodies(next.packed) == Bodies(st.packed) + [text] && Join(next.current) == b)
  {
    JoinEmpty(st.current);
    JoinAppend(st.current, b);
    JoinAppend([], b);
    assert [] + [b] == [b];
  }

  lemma PlaceNext(blocks: seq<Block>, i: nat, fits: Sizer)
    requires i < |blocks| && PlaceAll(blocks[..i], fits).Some?
    ensures PlaceAll(blocks[..i + 1], fits) == Place(PlaceAll(blocks[..i], fits).value, blocks[i], fits)
  {
    assert blocks[..i + 1][..i] == blocks[..i];
  }

  /** The texts that the loop keeps are those of the state. */
  ghost predicate Shows(st: State, packed: seq<string>, current: string) {
    packed == Bodies(st.packed) && current == Join(st.current)
  }

  /** One turn of the loop. */
  method PlaceOne(packed: seq<string>, current: string, b: Block, fits: Sizer, ghost st: State)
    returns (ok: bool, parts: seq<string>, last: string)
    requires Shows(st, packed, current)
    ensures ok == Place(st, b, fits).Some? && (ok ==> Shows(Place(st, b, fits).value, parts, last))
  {
    PlaceText(st, b, fits);
    var candidate := if current != "" then current + SEPARATOR + b else b;
    if fits(candidate, |packed| + 1) { return true, packed, candidate; }
    parts, last := packed, current;
    if current != "" {
      parts, last := packed + [current], b;
    }
    ok := fits(last, |parts| + 1);
  }

  lemma GroupTexts(st: State, packed: seq<string>, current: string)
    requires Shows(st, packed, current)
    ensures Bodies(Groups(st)) == if current == "" then packed else packed + [current]
  {
    JoinEmpty(st.current);
  }

  method PackBlocksForTotal(blocks: seq<Block>, fits: Sizer) returns (r: Option<seq<string>>)
    ensures r == match PackFor(blocks, fits) case None => None case Some(g) => Some(Bodies(g))
  {
    var packed: seq<string> := [];
    var current := "";
    ghost var st := State([], []);
    var i := 0;
    while i < |blocks|
      invariant 0 <= i <= |blocks|
      invariant PlaceAll(blocks[..i], fits) == Some(st) && Shows(st, packed, current)
    {
      var ok;
      PlaceNext(blocks, i, fits);
      ok, packed, current := PlaceOne(packed, current, blocks[i], fits, st);
      if !ok {
        FailureStays(blocks, i + 1, fits);
        return None;
      }
      st := Place(st, blocks[i], fits).value;
      i := i + 1;
    }
    assert blocks[..|blocks|] == blocks;
    GroupTexts(st, packed, current);
    if current != "" {
      packed := packed + [current];
    }
    r := Some(packed);
  }

  lemma {:induction false} FailureStays(blocks: seq<Block>, n: nat, fits: Sizer)
    requires n <= |blocks| && PlaceAll(blocks[..n], fits).None?
    ensures PlaceAll(blocks, fits).None?
    decreases |blocks| - n
  {
    if n < |blocks| {
      assert blocks[..n + 1][..n] == blocks[..n];
      FailureStays(blocks, n + 1, fits);
    } else {
      assert blocks[..n] == blocks;
    }
  }

  // ---------- what one pass produces ----------

  function Flatten(groups: seq<seq<Block>>): seq<Block> {
    if groups == [] then [] else Flatten(groups[..|groups| - 1]) + groups[|groups| - 1]
  }

  /** How many leading blocks are dropped because they are too large even alone. */
  function Skipped(blocks: seq<Block>, fits: Sizer): (k: nat)
    ensures k <= |blocks|
  {
    if blocks == [] || fits(blocks[0], 1) then 0 else 1 + Skipped(blocks[1..], fits)
  }

  /** Order: the groups so far, end to end, are the blocks so far without the skipped ones. */
  ghost predicate InOrder(st: State, blocks: seq<Block>, fits: Sizer) {
    && Flatten(st.packed) + st.current == blocks[Skipped(blocks, fits)..]
    && (st.current == [] ==> st.packed == [] && Skipped(blocks, fits) == |blocks|)
    && (st.current != [] ==> Skipped(blocks, fits) < |blocks|)
  }

  /** Size: every group fits where it stands. */
  ghost predicate InSize(st: State, fits: Sizer) {
    && (forall i | 0 <= i < |st.packed| :: st.packed[i] != [] && fits(Join(st.packed[i]), i + 1))
    && (st.current != [] ==> fits(Join(st.current), |st.packed| + 1))
  }

  lemma {:induction false} SkippedAppend(blocks: seq<Block>, b: Block, fits: Sizer)
    ensures var k := Skipped(blocks, fits);
            Skipped(blocks + [b], fits) == if k < |blocks| || fits(b, 1) then k else k + 1
  {
    if blocks != [] && !fits(blocks[0], 1) {
      assert (blocks + [b])[1..] == blocks[1..] + [b];
      SkippedAppend(blocks[1..], b, fits);
    }
  }

  lemma FlattenAppend(groups: seq<seq<Block>>, g: seq<Block>)
    ensures Flatten(groups + [g]) == Flatten(groups) + g
  {
    assert (groups + [g])[..|groups|] == groups;
  }

  lemma PlaceInOrder(st: State, blocks: seq<Block>, b: Block, fits: Sizer)
    requires InOrder(st, blocks, fits) && Place(st, b, fits).Some?
    ensures InOrder(Place(st, b, fits).value, blocks + [b], fits)
  {
    var k := Skipped(blocks, fits);
    var next := Place(st, b, fits).value;
    SkippedAppend(blocks, b, fits);
    assert (blocks + [b])[k..] == blocks[k..] + [b];
    if st.current == [] {
      assert st.current + [b] == [b] && Join([b]) == b;
    } else {
      FlattenAppend(st.packed, st.current);
      assert Flatten(next.packed) + next.current == Flatten(st.packed) + st.current + [b];
    }
  }

  lemma PlaceInSize(st: State, b: Block, fits: Sizer)
    requires InSize(st, fits) && Place(st, b, fits).Some?
    ensures InSize(Place(st, b, fits).value, fits)
  {
    assert Join([b]) == b;
  }

  lemma StepInOrder(st: State, blocks: seq<Block>, fits: Sizer)
    requires blocks != [] && InOrder(st, blocks[..|blocks| - 1], fits) && Place(st, blocks[|blocks| - 1], fits).Some?
    ensures InOrder(Place(st, blocks[|blocks| - 1], fits).value, blocks, fits)
  {
    PlaceInOrder(st, blocks[..|blocks| - 1], blocks[|blocks| - 1], fits);
    assert blocks[..|blocks| - 1] + [blocks[|blocks| - 1]] == blocks;
  }

  lemma {:induction false} PlaceAllInOrder(blocks: seq<Block>, fits: Sizer)
    requires PlaceAll(blocks, fits).Some?
    ensures InOrder(PlaceAll(blocks, fits).value, blocks, fits)
    decreases |blocks|
  {
    if blocks != [] {
      PlaceAllInOrder(blocks[..|blocks| - 1], fits);
      StepInOrder(PlaceAll(blocks[..|blocks| - 1], fits).value, blocks, fits);
    }
  }

  lemma {:induction false} PlaceAllInSize(blocks: seq<Block>, fits: Sizer)
    requires PlaceAll(blocks, fits).Some?
    ensures var st := PlaceAll(blocks, fits).value; InSize(st, fits) && |Groups(st)| <= |blocks|
    decreases |blocks|
  {
    if blocks != [] {
      PlaceAllInSize(blocks[..|blocks| - 1], fits);
      PlaceInSize(PlaceAll(blocks[..|blocks| - 1], fits).value, blocks[|blocks| - 1], fits);
    }
  }

  lemma GroupsInOrder(st: State)
    ensures Flatten(Groups(st)) == Flatten(st.packed) + st.current
  {
    if st.current == [] {
      assert Groups(st) == st.packed;
    } else {
      FlattenAppend(st.packed, st.current);
    }
  }

  /** Every message of a pass holds whole blocks, in order, without repetition. */
  lemma PassIsOrdered(blocks: seq<Block>, fits: Sizer)
    requires PackFor(blocks, fits).Some?
    ensures Flatten(PackFor(blocks, fits).value) == blocks[Skipped(blocks, fits)..]
  {
    PlaceAllInOrder(blocks, fits);
    GroupsInOrder(PlaceAll(blocks, fits).value);
  }

  /** Every message of a pass is within its size, and there are no more messages than blocks. */
  lemma PassIsSized(blocks: seq<Block>, fits: Sizer)
    requires PackFor(blocks, fits).Some?
    ensures var g := PackFor(blocks, fits).value;
            |g| <= |blocks| && forall i | 0 <= i < |g| :: g[i] != [] && fits(Join(g[i]), i + 1)
  {
    PlaceAllInSize(blocks, fits);
  }

  /** Every message but the last is full: the first block of the next one does not fit behind its own. */
  ghost predicate Full(group: seq<Block>, next: seq<Block>, index: nat, fits: Sizer) {
    next != [] && !fits(Join(group + [next[0]]), index)
  }

  ghost predicate Tight(groups: seq<seq<Block>>, fits: Sizer) {
    forall i, j | 0 <= i < |groups| && j == i + 1 < |groups| :: Full(groups[i], groups[j], j, fits)
  }

  lemma PlaceKeepsTight(st: State, b: Block, fits: Sizer)
    requires Place(st, b, fits).Some?
    requires if st.current == [] then st.packed == [] else Tight(st.packed + [st.current], fits)
    ensures var next := Place(st, b, fits).value;
            if next.current == [] then next.packed == [] else Tight(next.packed + [next.current], fits)
  {
    var next := Place(st, b, fits).value;
    var before, after := st.packed + [st.current], next.packed + [next.current];
    forall i, j | 0 <= i < |after| && j == i + 1 < |after| && next.current != []
      ensures Full(after[i], after[j], j, fits)
    {
      assert after[i] == before[i];
      if j < |before| { assert Full(before[i], before[j], j, fits) && after[j][0] == before[j][0]; }
    }
  }

  lemma {:induction false} PlaceAllTight(blocks: seq<Block>, fits: Sizer)
    requires PlaceAll(blocks, fits).Some?
    ensures var st := PlaceAll(blocks, fits).value;
            if st.current == [] then st.packed == [] else Tight(st.packed + [st.current], fits)
    decreases |blocks|
  {
    if blocks != [] {
      var front := blocks[..|blocks| - 1];
      PlaceAllTight(front, fits);
      PlaceKeepsTight(PlaceAll(front, fits).value, blocks[|blocks| - 1], fits);
    }
  }

  /** A pass begins a new message only where the next block would take the present one over its limits. */
  lemma SplitsAreNeeded(blocks: seq<Block>, total: nat, o: Options, i: nat)
    requires var p := PackFor(blocks, FitsFor(total, o)); p.Some? && i + 1 < |p.value|
    ensures var g := PackFor(blocks, FitsFor(total, o)).value;
            && g[i + 1] != []
            && var text := Final(Join(g[i] + [g[i + 1][0]]), i + 1, total, o);
            TextUnits(text) > 6500 || PayloadBytes(text, o) > 28000
  {
    PlaceAllTight(blocks, FitsFor(total, o));
    var g := PackFor(blocks, FitsFor(total, o)).value;
    assert Full(g[i], g[i + 1], i + 1, FitsFor(total, o));
  }

  /** A pass loses nothing if and only if its first block fits a message of its own. */
  lemma LosslessIffFirstFits(blocks: seq<Block>, fits: Sizer)
    requires PackFor(blocks, fits).Some?
    ensures Flatten(PackFor(blocks, fits).value) == blocks <==> blocks == [] || fits(blocks[0], 1)
  {
    PassIsOrdered(blocks, fits);
    var k := Skipped(blocks, fits);
    assert |blocks[k..]| == |blocks| - k;
  }

  // ---------- the footer ----------

  function FitsFor(total: nat, o: Options): Sizer {
    (body: string, index: nat) => Fits(body, index, total, o)
  }

  lemma FooterCost(f: char -> nat, body: string, index: nat, total: nat, o: Options)
    ensures Cost(f, Final(body, index, total, o))
         == Cost(f, body) + Cost(f, "\n\nPart ") + Cost(f, Decimal(index)) + Cost(f, "/") + Cost(f, Decimal(total))
            + Cost(f, "\n*Ceo pregled:* ") + Cost(f, o.url)
  {
    var a, i, t := "\n\nPart ", Decimal(index), Decimal(total);
    var z := "\n*Ceo pregled:* ";
    CostConcat(f, body, a + i + "/" + t + z + o.url);
    CostConcat(f, a + i + "/" + t + z, o.url);
    CostConcat(f, a + i + "/" + t, z);
    CostConcat(f, a + i + "/", t);
    CostConcat(f, a + i, "/");
    CostConcat(f, a, i);
  }

  /** Index and total matter to a message's size only through their numbers of digits. */
  lemma DecimalCost(f: char -> nat, n: nat)
    requires f == Units || f == Escaped
    ensures Cost(f, Decimal(n)) == Digits(n)
  {
    NumeralCost(Decimal(n));
  }

  /** Fewer digits, smaller text. */
  lemma FooterShrinks(f: char -> nat, body: string, i: nat, j: nat, t: nat, u: nat, o: Options)
    requires (f == Units || f == Escaped) && Digits(j) <= Digits(i) && Digits(u) <= Digits(t)
    ensures Cost(f, Final(body, j, u, o)) <= Cost(f, Final(body, i, t, o))
  {
    FooterCost(f, body, i, t, o);
    FooterCost(f, body, j, u, o);
    DecimalCost(f, i);
    DecimalCost(f, j);
    DecimalCost(f, t);
    DecimalCost(f, u);
  }

  /** The size of a message depends on its number and the total only through their digits. */
  lemma DigitsDecide(body: string, i: nat, j: nat, t: nat, u: nat, o: Options)
    requires Digits(j) <= Digits(i) && Digits(u) <= Digits(t) && Fits(body, i, t, o)
    ensures Fits(body, j, u, o)
  {
    FooterShrinks(Units, body, i, j, t, u, o);
    FooterShrinks(Escaped, body, i, j, t, u, o);
  }

  lemma {:induction false} SameTest(blocks: seq<Block>, f: Sizer, g: Sizer)
    requires forall body, index :: f(body, index) == g(body, index)
    ensures PlaceAll(blocks, f) == PlaceAll(blocks, g)
    decreases |blocks|
  {
    if blocks != [] { SameTest(blocks[..|blocks| - 1], f, g); }
  }

  lemma SameDigitsSamePass(blocks: seq<Block>, t: nat, u: nat, o: Options)
    requires Digits(t) == Digits(u)
    ensures PackFor(blocks, FitsFor(t, o)) == PackFor(blocks, FitsFor(u, o))
  {
    forall body, index ensures FitsFor(t, o)(body, index) == FitsFor(u, o)(body, index) {
      if Fits(body, index, t, o) { DigitsDecide(body, index, index, t, u, o); }
      if Fits(body, index, u, o) { DigitsDecide(body, index, index, u, t, o); }
    }
    SameTest(blocks, FitsFor(t, o), FitsFor(u, o));
  }

  // ---------- repacking until the total agrees ----------

  function Finals(bodies: seq<string>, o: Options): seq<string> {
    seq(|bodies|, i requires 0 <= i < |bodies| => Final(bodies[i], i + 1, |bodies|, o))
  }

  ghost predicate AllWithin(parts: seq<string>, o: Options, units: nat, bytes: nat) {
    forall i | 0 <= i < |parts| :: Within(parts[i], o, units, bytes)
  }

  /** A pass that needs no more messages than assumed yields final texts within the soft limits. */
  lemma SoftLimitsHold(blocks: seq<Block>, total: nat, o: Options)
    requires var p := PackFor(blocks, FitsFor(total, o)); p.Some? && |p.value| <= total
    ensures AllWithin(Finals(Bodies(PackFor(blocks, FitsFor(total, o)).value), o), o, SOFT_UNITS, SOFT_BYTES)
  {
    var g := PackFor(blocks, FitsFor(total, o)).value;
    PassIsSized(blocks, FitsFor(total, o));
    DigitsMonotone(|g|, total);
    forall i | 0 <= i < |g| ensures Within(Finals(Bodies(g), o)[i], o, SOFT_UNITS, SOFT_BYTES) {
      assert FitsFor(total, o)(Join(g[i]), i + 1);
      DigitsDecide(Join(g[i]), i + 1, i + 1, total, |g|, o);
    }
  }

  /** How many messages a pass makes for an assumed total, or -1 when it gives up. */
  function Count(blocks: seq<Block>, o: Options): nat -> int {
    (total: nat) => match PackFor(blocks, FitsFor(total, o)) case None => -1 case Some(g) => |g|
  }

  /** The assumed total with which the loop ends, and the passes it takes to get there. */
  function Settle(count: nat -> int, total: nat, passes: nat): (nat, nat)
    decreases passes
  {
    if passes <= 1 || count(total) <= total then (total, 1)
    else var (t, n) := Settle(count, count(total), passes - 1); (t, n + 1)
  }

  /** Each pass but the last two adds a digit to the total, so digits bound the passes. */
  lemma {:induction false} SettleAgrees(count: nat -> int, most: nat, total: nat, passes: nat)
    requires forall t :: count(t) <= most
    requires forall t, u | Digits(t) == Digits(u) :: count(t) == count(u)
    requires passes >= 1 && passes >= Digits(most) - Digits(total) + 2
    ensures var t := Settle(count, total, passes).0; count(t) <= t
    ensures Settle(count, total, passes).1 <= Max(1, Digits(most) - Digits(total) + 2)
    decreases passes
  {
    var next := count(total);
    if next > total {
      DigitsMonotone(total, next);
      DigitsMonotone(next, most);
      if Digits(next) == Digits(total) {
        assert count(next) == next;
      } else {
        SettleAgrees(count, most, next, passes - 1);
      }
    }
  }

  /** The loop takes at most as many passes as it may. */
  lemma {:induction false} SettleIsBounded(count: nat -> int, total: nat, passes: nat)
    ensures 1 <= Settle(count, total, passes).1 <= Max(1, passes)
    decreases passes
  {
    if passes > 1 && count(total) > total { SettleIsBounded(count, count(total), passes - 1); }
  }

  lemma CountFacts(blocks: seq<Block>, o: Options)
    ensures forall t :: Count(blocks, o)(t) <= |blocks|
    ensures forall t, u | Digits(t) == Digits(u) :: Count(blocks, o)(t) == Count(blocks, o)(u)
  {
    forall t ensures Count(blocks, o)(t) <= |blocks| {
      if PackFor(blocks, FitsFor(t, o)).Some? { PassIsSized(blocks, FitsFor(t, o)); }
    }
    forall t, u | Digits(t) == Digits(u) ensures Count(blocks, o)(t) == Count(blocks, o)(u) {
      SameDigitsSamePass(blocks, t, u, o);
    }
  }

  /** What packViberBlocks returns: the parts, or None for either of its errors. */
  function Packed(blocks: seq<Block>, o: Options): Option<seq<string>> {
    var total := Settle(Count(blocks, o), 1, MAX_PASSES).0;
    var p := PackFor(blocks, FitsFor(total, o));
    if p.None? || |p.value| > total then None else Some(Finals(Bodies(p.value), o))
  }

  /** The loop that finalizes the parts; the soft limits hold, so that the hard-limit error cannot arise in it. */
  method FinalizeParts(packed: seq<string>, o: Options) returns (parts: seq<string>)
    requires AllWithin(Finals(packed, o), o, SOFT_UNITS, SOFT_BYTES)
    ensures parts == Finals(packed, o)
  {
    parts := [];
    for i := 0 to |packed|
      invariant parts == Finals(packed, o)[..i]
    {
      var part := Final(packed[i], i + 1, |packed|, o);
      assert part == Finals(packed, o)[i];
      assert TextUnits(part) <= HARD_UNITS && PayloadBytes(part, o) <= HARD_BYTES;
      parts := parts + [part];
    }
  }

  lemma SettlesHere(count: nat -> int, total: nat, passes: nat)
    requires passes > 0 && count(total) <= total
    ensures Settle(count, total, passes).0 == total
  {}

  lemma SettlesLater(count: nat -> int, total: nat, passes: nat)
    requires passes > 1 && count(total) > total
    ensures Settle(count, total, passes).0 == Settle(count, count(total), passes - 1).0
  {}

  lemma PackedAt(blocks: seq<Block>, o: Options, total: nat)
    requires Settle(Count(blocks, o), 1, MAX_PASSES).0 == total
    ensures Packed(blocks, o) == match PackFor(blocks, FitsFor(total, o))
                                 case None => None
                                 case Some(g) => if |g| > total then None else Some(Finals(Bodies(g), o))
  {}

  method PackBlocks(blocks: seq<Block>, o: Options) returns (r: Option<seq<string>>)
    ensures r == Packed(blocks, o)
  {
    var total: nat := 1;
    var attempt: nat := 0;
    ghost var count := Count(blocks, o);
    while attempt < MAX_PASSES
      invariant attempt <= MAX_PASSES
      invariant attempt < MAX_PASSES ==> Settle(count, 1, MAX_PASSES).0 == Settle(count, total, MAX_PASSES - attempt).0
      invariant attempt == MAX_PASSES ==> Packed(blocks, o).None?
    {
      var packed := PackBlocksForTotal(blocks, FitsFor(total, o));
      assert count(total) == if packed.None? then -1 else |packed.value|;
      if packed.None? {
        SettlesHere(count, total, MAX_PASSES - attempt);
        PackedAt(blocks, o, total);
        return None;
      }
      if |packed.value| > total {
        if attempt + 1 < MAX_PASSES {
          SettlesLater(count, total, MAX_PASSES - attempt);
        } else {
          PackedAt(blocks, o, total);
        }
        total := |packed.value|;
        attempt := attempt + 1;
        continue;
      }
      SettlesHere(count, total, MAX_PASSES - attempt);
      PackedAt(blocks, o, total);
      SoftLimitsHold(blocks, total, o);
      var parts := FinalizeParts(packed.value, o);
      return Some(parts);
    }
    return None;
  }

  // ---------- guarantees ----------

  /** A message begins with its first block; the others follow behind blank lines. */
  lemma {:induction false} JoinReads(b: Block, rest: seq<Block>)
    ensures Join([b] + rest) == if rest == [] then b else b + "\n\n" + Join(rest)
  {
    if |rest| > 1 {
      var n := |rest| - 1;
      JoinReads(b, rest[..n]);
      assert ([b] + rest)[..|rest|] == [b] + rest[..n];
      assert Join([b] + rest) == Join([b] + rest[..n]) + SEPARATOR + rest[n];
      assert Join(rest) == Join(rest[..n]) + SEPARATOR + rest[n];
    } else if |rest| == 1 {
      assert ([b] + rest)[..1] == [b];
    } else {
      assert [b] + rest == [b];
    }
  }

  /** Message `i` of `n` shows its blocks, then its number and theirs, then the link. */
  lemma MessagesAreNumbered(blocks: seq<Block>, o: Options)
    requires Packed(blocks, o).Some?
    ensures var parts, groups := Packed(blocks, o).value, Chosen(blocks, o);
            && |parts| == |groups|
            && forall i | 0 <= i < |parts| ::
                 parts[i] == Join(groups[i]) + "\n\nPart " + Decimal(i + 1) + "/" + Decimal(|parts|)
                             + "\n*Ceo pregled:* " + o.url
  {
    var parts, groups := Packed(blocks, o).value, Chosen(blocks, o);
    forall i | 0 <= i < |parts|
      ensures parts[i] == Join(groups[i]) + "\n\nPart " + Decimal(i + 1) + "/" + Decimal(|parts|)
                          + "\n*Ceo pregled:* " + o.url
    {
      FooterReads(Join(groups[i]), i + 1, |parts|, o);
    }
  }

  lemma FooterReads(body: string, index: nat, total: nat, o: Options)
    ensures Final(body, index, total, o)
         == body + "\n\nPart " + Decimal(index) + "/" + Decimal(total) + "\n*Ceo pregled:* " + o.url
  {}

  /** With at most 999 blocks four of the eight passes suffice; below ten million, the eight do. */
  lemma RepackingConverges(blocks: seq<Block>, o: Options)
    requires Digits(|blocks|) <= 7
    ensures var (t, n) := Settle(Count(blocks, o), 1, MAX_PASSES);
            Count(blocks, o)(t) <= t && n <= Max(1, Digits(|blocks|) + 1)
    ensures |blocks| <= 999 ==> Settle(Count(blocks, o), 1, MAX_PASSES).1 <= 4
    ensures Settle(Count(blocks, o), 1, MAX_PASSES).1 <= 8
  {
    SettleIsBounded(Count(blocks, o), 1, MAX_PASSES);
    CountFacts(blocks, o);
    ThreeDigits();
    SettleAgrees(Count(blocks, o), |blocks|, 1, MAX_PASSES);
    if |blocks| <= 999 {
      DigitsMonotone(|blocks|, 999);
    }
  }

  lemma ThreeDigits()
    ensures Digits(999) == 3 && Digits(1) == 1
  {
    assert Decimal(99) == Decimal(9) + ['9'];
    assert Decimal(999) == Decimal(99) + ['9'];
  }

  /** The exhaustion error is unreachable: packing fails only when a block is too large for a message. */
  lemma OnlyOversizeFails(blocks: seq<Block>, o: Options)
    requires Digits(|blocks|) <= 7
    ensures Packed(blocks, o).None? <==> PackFor(blocks, FitsFor(Settle(Count(blocks, o), 1, MAX_PASSES).0, o)).None?
  {
    RepackingConverges(blocks, o);
  }

  /**
   Every message returned is within the soft limits for its own token and sender, so the
   hard-limit error is unreachable and the preflight before delivery passes.
   */
  lemma PreflightPasses(blocks: seq<Block>, o: Options)
    requires Packed(blocks, o).Some?
    ensures AllWithin(Packed(blocks, o).value, o, SOFT_UNITS, SOFT_BYTES)
    ensures forall i | 0 <= i < |Packed(blocks, o).value| :: PayloadBytes(Packed(blocks, o).value[i], o) > 0
  {
    SoftLimitsHold(blocks, Settle(Count(blocks, o), 1, MAX_PASSES).0, o);
  }

  /** The groups of blocks behind the returned messages. */
  function Chosen(blocks: seq<Block>, o: Options): seq<seq<Block>>
    requires Packed(blocks, o).Some?
  {
    PackFor(blocks, FitsFor(Settle(Count(blocks, o), 1, MAX_PASSES).0, o)).value
  }

  /** Blocks are delivered whole, once and in order, exactly when the first one fits a message of its own. */
  lemma NothingLostIffFirstFits(blocks: seq<Block>, o: Options)
    requires Packed(blocks, o).Some?
    ensures Packed(blocks, o).value == Finals(Bodies(Chosen(blocks, o)), o)
    ensures Flatten(Chosen(blocks, o)) == blocks
            <==> blocks == [] || Fits(blocks[0], 1, Settle(Count(blocks, o), 1, MAX_PASSES).0, o)
  {
    LosslessIffFirstFits(blocks, FitsFor(Settle(Count(blocks, o), 1, MAX_PASSES).0, o));
  }

  lemma {:induction false} PlaceAllSucceeds(blocks: seq<Block>, n: nat, fits: Sizer)
    requires |blocks| <= n && forall i, k | 0 <= i < |blocks| && 1 <= k <= n :: fits(blocks[i], k)
    ensures PlaceAll(blocks, fits).Some?
    decreases |blocks|
  {
    if blocks != [] {
      var front := blocks[..|blocks| - 1];
      assert forall i | 0 <= i < |front| :: front[i] == blocks[i];
      PlaceAllSucceeds(front, n, fits);
      PlaceAllInSize(front, fits);
      var st := PlaceAll(front, fits).value;
      var b := blocks[|blocks| - 1];
      assert st.current == [] ==> st.current + [b] == [b] && Join([b]) == b;
      assert fits(blocks[|blocks| - 1], |st.packed| + 1);
      if st.current != [] { assert fits(blocks[|blocks| - 1], |st.packed| + 2); }
    }
  }

  lemma {:induction false} SettleBelow(count: nat -> int, most: nat, total: nat, passes: nat)
    requires total <= most && forall t :: count(t) <= most
    ensures Settle(count, total, passes).0 <= most
    decreases passes
  {
    if passes > 1 && count(total) > total { SettleBelow(count, most, count(total), passes - 1); }
  }

  lemma {:induction false} SettleAbove(count: nat -> int, total: nat, passes: nat)
    ensures Settle(count, total, passes).0 >= total
    decreases passes
  {
    if passes > 1 && count(total) > total { SettleAbove(count, count(total), passes - 1); }
  }

  /** The settled total has a footer between the narrowest and the widest. */
  lemma SettledDigits(blocks: seq<Block>, o: Options)
    requires blocks != []
    ensures 1 <= Digits(Settle(Count(blocks, o), 1, MAX_PASSES).0) <= Digits(|blocks|)
  {
    var t := Settle(Count(blocks, o), 1, MAX_PASSES).0;
    CountFacts(blocks, o);
    SettleBelow(Count(blocks, o), |blocks|, 1, MAX_PASSES);
    DigitsMonotone(t, |blocks|);
  }

  /** What a caller can check: a first block that fits under the widest footer means that nothing is lost. */
  lemma NothingLostIfFirstFitsWide(blocks: seq<Block>, o: Options)
    requires blocks != [] && Packed(blocks, o).Some? && Fits(blocks[0], 1, |blocks|, o)
    ensures Flatten(Chosen(blocks, o)) == blocks
  {
    SettledDigits(blocks, o);
    DigitsDecide(blocks[0], 1, 1, |blocks|, Settle(Count(blocks, o), 1, MAX_PASSES).0, o);
    NothingLostIffFirstFits(blocks, o);
  }

  /** And one that does not even fit under the narrowest is lost, whatever follows it. */
  lemma FirstLostIfTooLong(blocks: seq<Block>, o: Options)
    requires blocks != [] && Packed(blocks, o).Some? && !Fits(blocks[0], 1, 1, o)
    ensures Flatten(Chosen(blocks, o)) != blocks
  {
    var t := Settle(Count(blocks, o), 1, MAX_PASSES).0;
    SettledDigits(blocks, o);
    ThreeDigits();
    if Fits(blocks[0], 1, t, o) { DigitsDecide(blocks[0], 1, 1, t, 1, o); }
    NothingLostIffFirstFits(blocks, o);
  }

  /** Up to nine blocks every footer is as wide, and the two conditions meet. */
  lemma ShortListsLoseIff(blocks: seq<Block>, o: Options)
    requires 1 <= |blocks| <= 9 && Packed(blocks, o).Some?
    ensures Flatten(Chosen(blocks, o)) == blocks <==> Fits(blocks[0], 1, 1, o)
  {
    DigitsMonotone(|blocks|, 9);
    if Fits(blocks[0], 1, 1, o) {
      DigitsDecide(blocks[0], 1, 1, 1, |blocks|, o);
      NothingLostIfFirstFitsWide(blocks, o);
    } else {
      FirstLostIfTooLong(blocks, o);
    }
  }

  /** Blocks that each fit alone under the widest footer are always packed, and nothing is lost. */
  lemma FittingBlocksArePacked(blocks: seq<Block>, o: Options)
    requires Digits(|blocks|) <= 7 && blocks != []
    requires forall b <- blocks :: Fits(b, |blocks|, |blocks|, o)
    ensures Packed(blocks, o).Some? && Flatten(Chosen(blocks, o)) == blocks
  {
    var n := |blocks|;
    var t := Settle(Count(blocks, o), 1, MAX_PASSES).0;
    CountFacts(blocks, o);
    SettleBelow(Count(blocks, o), n, 1, MAX_PASSES);
    DigitsMonotone(t, n);
    forall i, k | 0 <= i < n && 1 <= k <= n ensures FitsFor(t, o)(blocks[i], k) {
      DigitsMonotone(k, n);
      assert blocks[i] in blocks;
      DigitsDecide(blocks[i], n, k, n, t, o);
    }
    PlaceAllSucceeds(blocks, n, FitsFor(t, o));
    OnlyOversizeFails(blocks, o);
    assert FitsFor(t, o)(blocks[0], 1);
    NothingLostIffFirstFits(blocks, o);
  }

  lemma {:induction false} CostBounds(s: string)
    ensures |s| <= Cost(Units, s) <= 2 * |s| && Cost(Escaped, s) <= 12 * |s|
  {
    if s != [] { CostBounds(s[1..]); }
  }

  lemma LabelCost(f: char -> nat, words: string)
    requires f == Units || f == Escaped
    ensures Cost(f, words) <= 12 * |words|
  {
    CostBounds(words);
  }

  lemma FooterBounds(f: char -> nat, body: string, total: nat, o: Options)
    requires f == Units || f == Escaped
    ensures Cost(f, Final(body, 1, total, o)) <= Cost(f, body) + Cost(f, o.url) + 360 + 1 + Digits(total)
  {
    FooterCost(f, body, 1, total, o);
    LabelCost(f, "\n\nPart ");
    LabelCost(f, "/");
    LabelCost(f, "\n*Ceo pregled:* ");
    DecimalCost(f, 1);
    DecimalCost(f, total);
  }

  /** A body that is short beside the limits fits the first message, however many there are below a thousand. */
  lemma ShortBodyFits(body: string, total: nat, o: Options)
    requires |body| + |o.url| + |o.token| + |o.sender| <= 2290 && total <= 999
    ensures Fits(body, 1, total, o)
  {
    FooterBounds(Units, body, total, o);
    FooterBounds(Escaped, body, total, o);
    CostBounds(body);
    CostBounds(o.url);
    CostBounds(o.token);
    CostBounds(o.sender);
    DigitsMonotone(total, 999);
    ThreeDigits();
  }

  /** No text takes more units than bytes, nor more than six escaped bytes for each of its bytes. */
  lemma {:induction false} BytesBound(s: string)
    ensures |s| <= Cost(Utf8, s) && Cost(Units, s) <= Cost(Utf8, s) && Cost(Escaped, s) <= 6 * Cost(Utf8, s)
  {
    if s != [] { BytesBound(s[1..]); }
  }

  /** What RenderViber accepts of token and sender, and the validation of the snapshot of an address. */
  predicate RendererAccepts(o: Options) {
    Cost(Utf8, o.token) <= 4096 && Cost(Utf8, o.sender) <= 255 && Cost(Utf8, o.url) <= 2048
  }

  /**
   The renderer's own case.  Its first block is the short heading of the edition, and 500 articles
   make fewer than 999 blocks.  Within its bounds on token, sender and address nothing is lost,
   provided that the token takes at most 13000 bytes in JSON.
   */
  lemma RenderedBlocksSurvive(blocks: seq<Block>, o: Options)
    requires 1 <= |blocks| <= 999 && Packed(blocks, o).Some? && RendererAccepts(o)
    requires Cost(Utf8, blocks[0]) <= 100 && Cost(Escaped, o.token) <= 13000
    ensures Flatten(Chosen(blocks, o)) == blocks
  {
    FooterBounds(Units, blocks[0], |blocks|, o);
    FooterBounds(Escaped, blocks[0], |blocks|, o);
    BytesBound(blocks[0]);
    BytesBound(o.url);
    BytesBound(o.sender);
    DigitsMonotone(|blocks|, 999);
    ThreeDigits();
    NothingLostIfFirstFitsWide(blocks, o);
  }

  /** A text without quotes, control characters, markup signs and non-ASCII letters. */
  predicate Unescaped(s: string) {
    forall c <- s :: Escaped(c) == 1
  }

  lemma {:induction false} UnescapedCost(s: string)
    requires Unescaped(s)
    ensures Cost(Escaped, s) == |s| == Cost(Units, s) == Cost(Utf8, s)
  {
    if s != [] {
      assert s[0] in s;
      UnescapedCost(s[1..]);
    }
  }

  /** That is so for every token that JSON leaves as it is. */
  lemma PlainTokensLoseNothing(blocks: seq<Block>, o: Options)
    requires 1 <= |blocks| <= 999 && Packed(blocks, o).Some? && RendererAccepts(o)
    requires Cost(Utf8, blocks[0]) <= 100 && Unescaped(o.token)
    ensures Flatten(Chosen(blocks, o)) == blocks
  {
    UnescapedCost(o.token);
    RenderedBlocksSurvive(blocks, o);
  }

  lemma SkipOnly(block: Block, fits: Sizer)
    requires !fits(block, 1) && fits("", 1)
    ensures PackFor([block], fits) == Some([])
  {
    var blocks: seq<Block> := [block];
    var none: seq<Block> := [];
    assert blocks[..|blocks| - 1] == none;
    assert PlaceAll(none, fits) == Some(State([], []));
    assert none + blocks == blocks && Join(blocks) == block;
    assert Place(State([], []), block, fits) == Some(State([], []));
    assert PlaceAll(blocks, fits) == Some(State([], []));
    assert Groups(State([], [])) == [];
  }

  lemma LongBlockDoesNotFit(block: Block, o: Options)
    requires |block| > SOFT_UNITS
    ensures !Fits(block, 1, 1, o)
  {
    FooterCost(Units, block, 1, 1, o);
    CostBounds(block);
  }

  /** The loss is real: a single oversized block yields success with no message at all. */
  lemma OversizedFirstBlockVanishes(block: Block, o: Options)
    requires |block| > SOFT_UNITS && |o.url| + |o.token| + |o.sender| <= 2000
    ensures Packed([block], o) == Some([])
  {
    var blocks: seq<Block> := [block];
    LongBlockDoesNotFit(block, o);
    ShortBodyFits("", 1, o);
    SkipOnly(block, FitsFor(1, o));
    SettlesHere(Count(blocks, o), 1, MAX_PASSES);
    PackedAt(blocks, o, 1);
    assert Finals(Bodies([]), o) == [];
  }

  // ---------- a heading that is lost ----------

  lemma {:induction false} CostRepeated(f: char -> nat, c: char, n: nat)
    ensures Cost(f, seq(n, _ => c)) == n * f(c)
  {
    if n > 0 {
      assert seq(n, _ => c)[1..] == seq(n - 1, _ => c);
      CostRepeated(f, c, n - 1);
      assert n * f(c) == f(c) + (n - 1) * f(c);
    }
  }

  /** Accepted, and so large in JSON that 48 bytes are left for the text of a message. */
  function Crowded(): Options {
    Options(seq(4096, _ => '<'), seq(208, _ => '<'), seq(2048, _ => 'a'))
  }

  lemma TokenCosts()
    ensures Cost(Utf8, Crowded().token) == 4096 && Cost(Escaped, Crowded().token) == 24576
  {
    CostRepeated(Utf8, '<', 4096);
    CostRepeated(Escaped, '<', 4096);
  }

  lemma SenderCosts()
    ensures Cost(Utf8, Crowded().sender) == 208 && Cost(Escaped, Crowded().sender) == 1248
  {
    CostRepeated(Utf8, '<', 208);
    CostRepeated(Escaped, '<', 208);
  }

  lemma AddressCosts()
    ensures Cost(Utf8, Crowded().url) == Cost(Escaped, Crowded().url) == Cost(Units, Crowded().url) == 2048
  {
    CostRepeated(Utf8, 'a', 2048);
    CostRepeated(Escaped, 'a', 2048);
    CostRepeated(Units, 'a', 2048);
  }

  /** A label of the footer: line breaks take two bytes, the rest of it one each. */
  lemma LabelSize(breaks: string, words: string)
    requires (breaks == "\n" || breaks == "\n\n" || breaks == "") && Unescaped(words)
    ensures Cost(Escaped, breaks + words) == 2 * |breaks| + |words|
    ensures Cost(Units, breaks + words) == |breaks| + |words|
  {
    CostConcat(Escaped, breaks, words);
    CostConcat(Units, breaks, words);
    UnescapedCost(words);
    assert breaks == "\n\n" ==> breaks[1..] == "\n" && breaks[1..][1..] == "";
    assert breaks == "\n" ==> breaks[1..] == "";
  }

  lemma PartLabel()
    ensures Cost(Escaped, "\n\nPart ") == 9 && Cost(Units, "\n\nPart ") == 7
    ensures Cost(Escaped, "/") == 1 && Cost(Units, "/") == 1
  {
    LabelSize("\n\n", "Part ");
    assert "\n\n" + "Part " == "\n\nPart ";
    UnescapedCost("/");
  }

  lemma LinkWords()
    ensures Unescaped("*Ceo ") && Unescaped("pregl") && Unescaped("ed:* ")
  {}

  lemma LinkLabel()
    ensures Cost(Escaped, "\n*Ceo pregled:* ") == 17 && Cost(Units, "\n*Ceo pregled:* ") == 16
  {
    LinkWords();
    UnescapedJoin("*Ceo ", "pregl");
    UnescapedJoin("*Ceo " + "pregl", "ed:* ");
    LabelSize("\n", "*Ceo " + "pregl" + "ed:* ");
    LinkSpelled();
  }

  lemma UnescapedJoin(a: string, b: string)
    requires Unescaped(a) && Unescaped(b)
    ensures Unescaped(a + b)
  {}

  lemma LinkSpelled()
    ensures "\n" + ("*Ceo " + "pregl" + "ed:* ") == "\n*Ceo pregled:* "
  {}

  lemma FooterSize(f: char -> nat, body: string, o: Options)
    requires f == Units || f == Escaped
    ensures f == Escaped ==> Cost(f, Final(body, 1, 1, o)) == Cost(f, body) + Cost(f, o.url) + 29
    ensures f == Units ==> Cost(f, Final(body, 1, 1, o)) == Cost(f, body) + Cost(f, o.url) + 26
  {
    FooterCost(f, body, 1, 1, o);
    PartLabel();
    LinkLabel();
    DecimalCost(f, 1);
  }

  lemma {:induction false} UnitsBelowEscaped(s: string)
    ensures Cost(Units, s) <= Cost(Escaped, s)
  {
    if s != [] { UnitsBelowEscaped(s[1..]); }
  }

  /** With these options a text fits exactly if it takes no more than what is left. */
  lemma RoomDecides(body: string, o: Options, left: nat)
    requires FRAME_BYTES + Cost(Escaped, o.token) + Cost(Escaped, o.sender) + Cost(Escaped, o.url) + 29 + left
             == SOFT_BYTES
    requires Cost(Units, o.url) + 26 + left <= SOFT_UNITS
    ensures Fits(body, 1, 1, o) <==> Cost(Escaped, body) <= left
  {
    FooterSize(Escaped, body, o);
    FooterSize(Units, body, o);
    UnitsBelowEscaped(body);
  }

  lemma CrowdedFits(body: string)
    ensures Fits(body, 1, 1, Crowded()) <==> Cost(Escaped, body) <= 48
  {
    TokenCosts();
    SenderCosts();
    AddressCosts();
    RoomDecides(body, Crowded(), 48);
  }

  /** A first block that fits nowhere is skipped, and the next one starts the first message. */
  lemma SkipFirst(first: Block, b: Block, fits: Sizer)
    requires !fits(first, 1) && fits("", 1) && fits(b, 1)
    ensures PackFor([first, b], fits) == Some([[b]])
  {
    var blocks: seq<Block> := [first, b];
    var none: seq<Block> := [];
    assert blocks[..1] == [first] && [first][..0] == none && none + [first] == [first] && none + [b] == [b];
    assert Join([first]) == first && Join([b]) == b;
    assert PlaceAll(none, fits) == Some(State([], []));
    assert Place(State([], []), first, fits) == Some(State([], []));
    assert PlaceAll([first], fits) == Some(State([], []));
    assert Place(State([], []), b, fits) == Some(State([], [b]));
    assert blocks[..|blocks| - 1] == [first] && PlaceAll(blocks, fits) == Some(State([], [b]));
    assert Groups(State([], [b])) == [[b]];
  }

  lemma HeadingSkipped(heading: Block, b: Block, o: Options)
    requires !Fits(heading, 1, 1, o) && Fits("", 1, 1, o) && Fits(b, 1, 1, o)
    ensures Packed([heading, b], o) == Some([Final(b, 1, 1, o)])
  {
    var blocks: seq<Block> := [heading, b];
    SkipFirst(heading, b, FitsFor(1, o));
    SettlesHere(Count(blocks, o), 1, MAX_PASSES);
    PackedAt(blocks, o, 1);
    assert Bodies([[b]]) == [b] && Finals([b], o) == [Final(b, 1, 1, o)];
  }

  /**
   The condition on the token is no idle one: within the renderer's bounds a heading can be lost
   without any error, when the next block is shorter than the heading.
   */
  lemma HeadingVanishes(heading: Block, b: Block)
    requires 49 <= Cost(Escaped, heading) && Cost(Escaped, b) <= 48
    ensures RendererAccepts(Crowded()) && Packed([heading, b], Crowded()) == Some([Final(b, 1, 1, Crowded())])
  {
    TokenCosts();
    SenderCosts();
    AddressCosts();
    CrowdedFits(heading);
    CrowdedFits(b);
    CrowdedFits("");
    HeadingSkipped(heading, b, Crowded());
  }
}
