/**
 Packing rendered stories into plain Telegram messages, each under its category
 heading (go-editorial/editorial/render.go).  What counts as visible length is a
 parameter; nothing is assumed of it.
 */
module PlainPacking {
  import opened Prelude

  const MAX_PLAIN_PART: nat := 4096

  type Html = s: string | s != "" witness "x"

  /** `category` is `None` for headings and main stories. */
  datatype Block = Block(html: Html, category: Option<Uuid>, name: string, divider: bool)

  /** A block as it stands in a message: with or without its category heading and divider. */
  datatype Piece = Piece(block: Block, headed: bool, divided: bool)

  /** The markup around a story: a category heading, the divider between stories, the footer. */
  datatype Options = Options(heading: string -> string, divider: string, footer: string, visible: string -> nat)

  const SEPARATOR := "\n\n"

  /** plainPiece and categoryPrefix. */
  function PieceFor(b: Block, category: Option<Uuid>): Piece {
    Piece(b, b.category.Some? && b.category != category, b.divider && b.category.Some? && b.category == category)
  }

  function PieceText(p: Piece, o: Options): (text: string)
    ensures text != ""
  {
    (if p.headed then o.heading(p.block.name) else "") + (if p.divided then o.divider else "") + p.block.html
  }

  function Join(pieces: seq<Piece>, o: Options): string {
    if pieces == [] then ""
    else if |pieces| == 1 then PieceText(pieces[0], o)
    else Join(pieces[..|pieces| - 1], o) + SEPARATOR + PieceText(pieces[|pieces| - 1], o)
  }

  predicate Fits(body: string, o: Options) {
    o.visible(body + SEPARATOR + o.footer) <= MAX_PLAIN_PART
  }

  /** Whether these pieces fit one message. */
  type Sizer = seq<Piece> -> bool

  function FitsIn(o: Options): Sizer {
    (pieces: seq<Piece>) => Fits(Join(pieces, o), o)
  }

  datatype State = State(parts: seq<seq<Piece>>, current: seq<Piece>)

  /** The category that the current message is in. */
  function Category(pieces: seq<Piece>): Option<Uuid> {
    if pieces == [] then None else pieces[|pieces| - 1].block.category
  }

  function Place(st: State, b: Block, fits: Sizer): Option<State> {
    var wider := st.current + [PieceFor(b, Category(st.current))];
    if fits(wider) then Some(st.(current := wider))
    else if st.current == [] || !fits([PieceFor(b, None)]) then None
    else Some(State(st.parts + [st.current], [PieceFor(b, None)]))
  }

  function PlaceAll(blocks: seq<Block>, fits: Sizer): Option<State>
    decreases |blocks|
  {
    if blocks == [] then Some(State([], []))
    else
      var st := PlaceAll(blocks[..|blocks| - 1], fits);
      if st.None? then None else Place(st.value, blocks[|blocks| - 1], fits)
  }

  /** packPlainParts, as the pieces of each message. */
  function Pack(blocks: seq<Block>, fits: Sizer): Option<seq<seq<Piece>>> {
    var st := PlaceAll(blocks, fits);
    if st.None? then None else Some(st.value.parts + if st.value.current == [] then [] else [st.value.current])
  }

  function Message(pieces: seq<Piece>, o: Options): string {
    Join(pieces, o) + SEPARATOR + o.footer
  }

  function Messages(parts: seq<seq<Piece>>, o: Options): seq<string> {
    seq(|parts|, i requires 0 <= i < |parts| => Message(parts[i], o))
  }

  // ---------- the loop over strings ----------

  lemma JoinEmpty(pieces: seq<Piece>, o: Options)
    ensures Join(pieces, o) == "" <==> pieces == []
  {}

  lemma JoinAppend(pieces: seq<Piece>, p: Piece, o: Options)
    ensures Join(pieces + [p], o)
         == if pieces == [] then PieceText(p, o) else Join(pieces, o) + SEPARATOR + PieceText(p, o)
  {
    assert (pieces + [p])[..|pieces|] == pieces;
  }

  lemma MessagesAppend(parts: seq<seq<Piece>>, pieces: seq<Piece>, o: Options)
    ensures Messages(parts + [pieces], o) == Messages(parts, o) + [Join(pieces, o) + SEPARATOR + o.footer]
  {}

  /** A block that fits behind the current message goes there. */
  lemma WiderText(st: State, b: Block, o: Options)
    ensures var wider := st.current + [PieceFor(b, Category(st.current))];
            var text := PieceText(PieceFor(b, Category(st.current)), o);
            Join(wider, o) == if Join(st.current, o) != "" then Join(st.current, o) + SEPARATOR + text else text
  {
    JoinEmpty(st.current, o);
    JoinAppend(st.current, PieceFor(b, Category(st.current)), o);
  }

  /** A block that begins a message stands there alone. */
  lemma AloneText(b: Block, o: Options)
    ensures Join([PieceFor(b, None)], o) == PieceText(PieceFor(b, None), o)
  {
    JoinAppend([], PieceFor(b, None), o);
    assert [] + [PieceFor(b, None)] == [PieceFor(b, None)];
  }

  /** What placing one block means for the texts that the loop keeps. */
  lemma PlaceText(st: State, b: Block, o: Options)
    ensures var text := PieceText(PieceFor(b, Category(st.current)), o);
            var candidate := if Join(st.current, o) != "" then Join(st.current, o) + SEPARATOR + text else text;
            var alone := PieceText(PieceFor(b, None), o);
            match Place(st, b, FitsIn(o))
            case None => !Fits(candidate, o) && (Join(st.current, o) == "" || !Fits(alone, o))
            case Some(next) =>
              && Category(next.current) == b.category
              && (Fits(candidate, o) ==> Join(next.current, o) == candidate && next.parts == st.parts)
              && (!Fits(candidate, o) ==>
                    && Fits(alone, o) && Join(st.current, o) != "" && Join(next.current, o) == alone
                    && Messages(next.parts, o) == Messages(st.parts, o) + [Join(st.current, o) + SEPARATOR + o.footer])
  {
    WiderText(st, b, o);
    AloneText(b, o);
    JoinEmpty(st.current, o);
    PlaceBy(st, b, FitsIn(o));
    MessagesAppend(st.parts, st.current, o);
  }

  lemma PlaceBy(st: State, b: Block, fits: Sizer)
    ensures var wider := st.current + [PieceFor(b, Category(st.current))];
            && Place(st, b, fits) == (if fits(wider) then Some(State(st.parts, wider))
                                      else if st.current == [] || !fits([PieceFor(b, None)]) then None
                                      else Some(State(st.parts + [st.current], [PieceFor(b, None)])))
            && Category(wider) == b.category && Category([PieceFor(b, None)]) == b.category
  {}

  lemma {:induction false} FailureStays(blocks: seq<Block>, n: nat, fits: Sizer)
    requires n <= |blocks| && PlaceAll(blocks[..n], fits).None?
    ensures PlaceAll(blocks, fits).None?
    decreases |blocks| - n
  {
    if n < |blocks| {
      assert blocks[..n + 1][..n] == blocks[..n];
      FailureStays(blocks, n + 1, fits);
    } else {
      assert blocks[..n] == blocks;
    }
  }

  lemma PlaceNext(blocks: seq<Block>, i: nat, fits: Sizer)
    requires i < |blocks| && PlaceAll(blocks[..i], fits).Some?
    ensures PlaceAll(blocks[..i + 1], fits) == Place(PlaceAll(blocks[..i], fits).value, blocks[i], fits)
  {
    assert blocks[..i + 1][..i] == blocks[..i];
  }

  method PackPlainParts(blocks: seq<Block>, o: Options) returns (r: Option<seq<string>>)
    ensures r == match Pack(blocks, FitsIn(o)) case None => None case Some(g) => Some(Messages(g, o))
  {
    var parts: seq<string> := [];
    var current, category := "", None;
    ghost var st := State([], []);
    ghost var fits := FitsIn(o);
    var i := 0;
    while i < |blocks|
      invariant 0 <= i <= |blocks|
      invariant PlaceAll(blocks[..i], fits) == Some(st)
      invariant parts == Messages(st.parts, o)
      invariant current == Join(st.current, o) && category == Category(st.current)
    {
      var b := blocks[i];
      PlaceNext(blocks, i, fits);
      PlaceText(st, b, o);
      var piece := PieceText(PieceFor(b, category), o);
      var candidate := if current != "" then current + SEPARATOR + piece else piece;
      if Fits(candidate, o) {
        current, category := candidate, b.category;
      } else {
        if current == "" {
          FailureStays(blocks, i + 1, fits);
          return None;
        }
        parts := parts + [current + SEPARATOR + o.footer];
        piece := PieceText(PieceFor(b, None), o);
        if !Fits(piece, o) {
          FailureStays(blocks, i + 1, fits);
          return None;
        }
        current, category := piece, b.category;
      }
      st := Place(st, b, fits).value;
      i := i + 1;
    }
    assert blocks[..|blocks|] == blocks;
    JoinEmpty(st.current, o);
    if current != "" {
      MessagesAppend(st.parts, st.current, o);
      parts := parts + [current + SEPARATOR + o.footer];
    }
    r := Some(parts);
  }

  // ---------- guarantees ----------

  function Blocks(pieces: seq<Piece>): seq<Block> {
    seq(|pieces|, i requires 0 <= i < |pieces| => pieces[i].block)
  }

  function Flatten(parts: seq<seq<Piece>>): seq<Block> {
    if parts == [] then [] else Flatten(parts[..|parts| - 1]) + Blocks(parts[|parts| - 1])
  }

  /** Piece `j` stands under the heading of its own category: piece `i` carries it and nothing else intervenes. */
  predicate HeadedBy(pieces: seq<Piece>, i: nat, j: nat) {
    && i <= j < |pieces| && pieces[i].headed
    && forall k | i <= k <= j :: pieces[k].block.category == pieces[j].block.category
  }

  ghost predicate Placed(pieces: seq<Piece>, j: nat)
    requires j < |pieces|
  {
    pieces[j].block.category.Some? ==> exists i :: HeadedBy(pieces, i, j)
  }

  ghost predicate UnderHeading(pieces: seq<Piece>) {
    forall j | 0 <= j < |pieces| :: Placed(pieces, j)
  }

  ghost predicate PartOk(pieces: seq<Piece>, fits: Sizer) {
    pieces != [] && fits(pieces) && UnderHeading(pieces)
  }

  ghost predicate PartsOk(st: State, fits: Sizer) {
    && (forall i | 0 <= i < |st.parts| :: PartOk(st.parts[i], fits))
    && (if st.current == [] then st.parts == [] else PartOk(st.current, fits))
  }

  lemma OldPiecePlaced(pieces: seq<Piece>, p: Piece, j: nat)
    requires j < |pieces| && Placed(pieces, j)
    ensures Placed(pieces + [p], j)
  {
    if pieces[j].block.category.Some? {
      var i :| HeadedBy(pieces, i, j);
      assert HeadedBy(pieces + [p], i, j);
    }
  }

  lemma NewPiecePlaced(pieces: seq<Piece>, b: Block)
    requires pieces != [] ==> Placed(pieces, |pieces| - 1)
    ensures Placed(pieces + [PieceFor(b, Category(pieces))], |pieces|)
  {
    var n := |pieces|;
    var wider := pieces + [PieceFor(b, Category(pieces))];
    if b.category.Some? {
      if wider[n].headed {
        assert HeadedBy(wider, n, n);
      } else {
        var i :| HeadedBy(pieces, i, n - 1);
        assert HeadedBy(wider, i, n);
      }
    }
  }

  lemma HeadingsExtend(pieces: seq<Piece>, b: Block)
    requires UnderHeading(pieces)
    ensures UnderHeading(pieces + [PieceFor(b, Category(pieces))])
  {
    var p := PieceFor(b, Category(pieces));
    forall j | 0 <= j < |pieces| + 1 ensures Placed(pieces + [p], j) {
      if j < |pieces| { OldPiecePlaced(pieces, p, j); } else { NewPiecePlaced(pieces, b); }
    }
  }

  lemma PlaceKeepsParts(st: State, b: Block, fits: Sizer)
    requires PartsOk(st, fits) && Place(st, b, fits).Some?
    ensures PartsOk(Place(st, b, fits).value, fits)
  {
    HeadingsExtend(st.current, b);
    HeadingsExtend([], b);
    assert [] + [PieceFor(b, None)] == [PieceFor(b, None)];
  }

  lemma PlaceKeepsOrder(st: State, b: Block, fits: Sizer)
    requires Place(st, b, fits).Some?
    ensures var next := Place(st, b, fits).value;
            Flatten(next.parts) + Blocks(next.current) == Flatten(st.parts) + Blocks(st.current) + [b]
  {
    var next := Place(st, b, fits).value;
    if next.parts == st.parts {
      assert Blocks(next.current) == Blocks(st.current) + [b];
    } else {
      assert next.parts[..|st.parts|] == st.parts;
      assert Blocks(next.current) == [b];
    }
  }

  lemma {:induction false} PlaceAllOk(blocks: seq<Block>, fits: Sizer)
    requires PlaceAll(blocks, fits).Some?
    ensures var st := PlaceAll(blocks, fits).value;
            PartsOk(st, fits) && Flatten(st.parts) + Blocks(st.current) == blocks
    decreases |blocks|
  {
    if blocks != [] {
      var front, b := blocks[..|blocks| - 1], blocks[|blocks| - 1];
      PlaceAllOk(front, fits);
      var st := PlaceAll(front, fits).value;
      PlaceKeepsParts(st, b, fits);
      PlaceKeepsOrder(st, b, fits);
      LastRejoins(blocks);
    }
  }

  lemma LastRejoins(blocks: seq<Block>)
    requires blocks != []
    ensures blocks[..|blocks| - 1] + [blocks[|blocks| - 1]] == blocks
  {}

  lemma PackedOk(blocks: seq<Block>, fits: Sizer)
    requires Pack(blocks, fits).Some?
    ensures var parts := Pack(blocks, fits).value;
            Flatten(parts) == blocks && forall i | 0 <= i < |parts| :: PartOk(parts[i], fits)
  {
    PlaceAllOk(blocks, fits);
    var st := PlaceAll(blocks, fits).value;
    PartsFlatten(st);
  }

  lemma PartsFlatten(st: State)
    ensures Flatten(st.parts + if st.current == [] then [] else [st.current]) == Flatten(st.parts) + Blocks(st.current)
  {
    if st.current == [] {
      assert st.parts + [] == st.parts;
    } else {
      assert (st.parts + [st.current])[..|st.parts|] == st.parts;
    }
  }

  lemma PartFits(pieces: seq<Piece>, o: Options)
    requires PartOk(pieces, FitsIn(o))
    ensures UnderHeading(pieces) && o.visible(Message(pieces, o)) <= MAX_PLAIN_PART
  {}

  /**
   On success every block appears once, whole and in order; every message is within the
   limit with its footer; every categorised block stands under its heading in its own message.
   */
  lemma PackingIsFaithful(blocks: seq<Block>, o: Options)
    requires Pack(blocks, FitsIn(o)).Some?
    ensures var parts := Pack(blocks, FitsIn(o)).value;
            && Flatten(parts) == blocks
            && forall i | 0 <= i < |parts| ::
                 UnderHeading(parts[i]) && o.visible(Message(parts[i], o)) <= MAX_PLAIN_PART
  {
    PackedOk(blocks, FitsIn(o));
    var parts := Pack(blocks, FitsIn(o)).value;
    forall i | 0 <= i < |parts|
      ensures UnderHeading(parts[i]) && o.visible(Message(parts[i], o)) <= MAX_PLAIN_PART
    {
      PartFits(parts[i], o);
    }
  }

  /** A heading stands where a category begins, at the latest on a new message, and a divider only inside one. */
  predicate FlaggedAt(pieces: seq<Piece>, j: nat)
    requires j < |pieces|
  {
    var b := pieces[j].block;
    var same := j > 0 && pieces[j - 1].block.category == b.category;
    && (pieces[j].headed <==> b.category.Some? && !same)
    && (pieces[j].divided <==> b.category.Some? && same && b.divider)
  }

  ghost predicate Flagged(pieces: seq<Piece>) {
    forall j | 0 <= j < |pieces| :: FlaggedAt(pieces, j)
  }

  lemma FlaggedNext(pieces: seq<Piece>, b: Block)
    requires Flagged(pieces)
    ensures Flagged(pieces + [PieceFor(b, Category(pieces))])
  {
    var wider := pieces + [PieceFor(b, Category(pieces))];
    forall j | 0 <= j < |wider| ensures FlaggedAt(wider, j) {
      if j < |pieces| { assert FlaggedAt(pieces, j); }
    }
  }

  lemma {:induction false} PlaceAllFlagged(blocks: seq<Block>, fits: Sizer)
    requires PlaceAll(blocks, fits).Some?
    ensures var st := PlaceAll(blocks, fits).value;
            Flagged(st.current) && forall i | 0 <= i < |st.parts| :: Flagged(st.parts[i])
    decreases |blocks|
  {
    if blocks != [] {
      var front, b := blocks[..|blocks| - 1], blocks[|blocks| - 1];
      PlaceAllFlagged(front, fits);
      FlaggedNext(PlaceAll(front, fits).value.current, b);
      FlaggedNext([], b);
      assert [] + [PieceFor(b, None)] == [PieceFor(b, None)];
    }
  }

  /** A message begins with its first piece; the others follow behind blank lines. */
  lemma {:induction false} JoinReads(p: Piece, rest: seq<Piece>, o: Options)
    ensures PieceText(p, o) == (if p.headed then o.heading(p.block.name) else "")
                               + (if p.divided then o.divider else "") + p.block.html
    ensures Join([p] + rest, o) == if rest == [] then PieceText(p, o) else PieceText(p, o) + "\n\n" + Join(rest, o)
  {
    if |rest| > 1 {
      var n := |rest| - 1;
      JoinReads(p, rest[..n], o);
      assert ([p] + rest)[..|rest|] == [p] + rest[..n];
      assert Join([p] + rest, o) == Join([p] + rest[..n], o) + SEPARATOR + PieceText(rest[n], o);
      assert Join(rest, o) == Join(rest[..n], o) + SEPARATOR + PieceText(rest[n], o);
    } else if |rest| == 1 {
      assert ([p] + rest)[..1] == [p];
    } else {
      assert [p] + rest == [p];
    }
  }

  /** Each message is its pieces, headed and divided as `Flagged` says, and the footer behind a blank line. */
  lemma MessagesAreFlagged(blocks: seq<Block>, o: Options)
    requires Pack(blocks, FitsIn(o)).Some?
    ensures var parts := Pack(blocks, FitsIn(o)).value;
            && |Messages(parts, o)| == |parts|
            && forall i | 0 <= i < |parts| ::
                 Flagged(parts[i]) && Messages(parts, o)[i] == Join(parts[i], o) + "\n\n" + o.footer
  {
    PlaceAllFlagged(blocks, FitsIn(o));
  }

  /** The first block of the next message does not fit behind these pieces. */
  ghost predicate Full(pieces: seq<Piece>, next: seq<Piece>, fits: Sizer) {
    next != [] && !fits(pieces + [PieceFor(next[0].block, Category(pieces))])
  }

  ghost predicate Tight(parts: seq<seq<Piece>>, fits: Sizer) {
    forall i, j | 0 <= i < |parts| && j == i + 1 < |parts| :: Full(parts[i], parts[j], fits)
  }

  lemma PlaceKeepsTight(st: State, b: Block, fits: Sizer)
    requires Place(st, b, fits).Some?
    requires if st.current == [] then st.parts == [] else Tight(st.parts + [st.current], fits)
    ensures var next := Place(st, b, fits).value; next.current != [] && Tight(next.parts + [next.current], fits)
  {
    var next := Place(st, b, fits).value;
    var before, after := st.parts + [st.current], next.parts + [next.current];
    forall i, j | 0 <= i < |after| && j == i + 1 < |after| ensures Full(after[i], after[j], fits) {
      assert after[i] == before[i];
      if j < |before| { assert Full(before[i], before[j], fits) && after[j][0] == before[j][0]; }
    }
  }

  lemma {:induction false} PlaceAllTight(blocks: seq<Block>, fits: Sizer)
    requires PlaceAll(blocks, fits).Some?
    ensures var st := PlaceAll(blocks, fits).value;
            if st.current == [] then st.parts == [] else Tight(st.parts + [st.current], fits)
    decreases |blocks|
  {
    if blocks != [] {
      var front := blocks[..|blocks| - 1];
      PlaceAllTight(front, fits);
      PlaceKeepsTight(PlaceAll(front, fits).value, blocks[|blocks| - 1], fits);
    }
  }

  /** A new message begins only where the next block would take the present one over the limit. */
  lemma SplitsAreNeeded(blocks: seq<Block>, o: Options, i: nat)
    requires Pack(blocks, FitsIn(o)).Some? && i + 1 < |Pack(blocks, FitsIn(o)).value|
    ensures var parts := Pack(blocks, FitsIn(o)).value;
            && parts[i + 1] != []
            && var next: Piece := parts[i + 1][0];
            o.visible(Message(parts[i] + [PieceFor(next.block, Category(parts[i]))], o)) > 4096
  {
    PlaceAllTight(blocks, FitsIn(o));
    var parts := Pack(blocks, FitsIn(o)).value;
    assert Full(parts[i], parts[i + 1], FitsIn(o));
  }

  /** Packing fails only over a block that is too large for a message of its own. */
  lemma {:induction false} OnlyOversizeFails(blocks: seq<Block>, fits: Sizer)
    requires forall i | 0 <= i < |blocks| :: fits([PieceFor(blocks[i], None)])
    ensures Pack(blocks, fits).Some?
    decreases |blocks|
  {
    if blocks != [] {
      var front, b := blocks[..|blocks| - 1], blocks[|blocks| - 1];
      OnlyOversizeFails(front, fits);
      var st := PlaceAll(front, fits).value;
      if st.current == [] { assert st.current + [PieceFor(b, None)] == [PieceFor(b, None)]; }
    }
  }
}
