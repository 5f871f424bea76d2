/** Cutting an article summary into quotable spans (go-editorial/editorial/gemini.go:332-371). */
module EvidenceSpans {
  import opened Prelude

  const MAX_EVIDENCE: nat := 500

  type Id = string

  /** The id "span-<article>-<hash of the text>-<ordinal>"; the hash is taken to determine the text. */
  datatype SpanId = SpanId(article: Id, content: string, ordinal: nat)

  datatype Span = Span(article: Id, id: SpanId, text: string)

  predicate SentenceEnd(c: char) {
    c in ".!?。！？\n\r"
  }

  predicate White(c: char) {
    c == ' ' || c == '\t' || c == '\n' || c == '\r'
  }

  /** One past the last character of `text[from..until]` that `stop` accepts. */
  function LastStop(text: string, from: nat, until: nat, stop: char -> bool): Option<nat>
    requires from <= until <= |text|
    decreases until
  {
    if until == from then None else if stop(text[until - 1]) then Some(until) else LastStop(text, from, until - 1, stop)
  }

  lemma {:induction false} LastStopIsLast(text: string, from: nat, until: nat, stop: char -> bool)
    requires from <= until <= |text|
    ensures match LastStop(text, from, until, stop)
            case None => forall k | from <= k < until :: !stop(text[k])
            case Some(b) => from < b <= until && stop(text[b - 1]) && forall k | b <= k < until :: !stop(text[k])
    decreases until
  {
    if from < until && !stop(text[until - 1]) { LastStopIsLast(text, from, until - 1, stop); }
  }

  /** Where the span that starts at `start` ends. */
  function Cut(text: string, start: nat): (end: nat)
    requires start < |text|
    ensures start < end <= |text| && end <= start + MAX_EVIDENCE
  {
    var window := Min(start + MAX_EVIDENCE, |text|);
    if window == |text| then window
    else
      var preferred := start + MAX_EVIDENCE / 2;
      var sentence := LastStop(text, preferred, window, SentenceEnd);
      var white := LastStop(text, preferred, window, White);
      LastStopIsLast(text, preferred, window, SentenceEnd);
      LastStopIsLast(text, preferred, window, White);
      if sentence.Some? then sentence.value else if white.Some? then white.value else window
  }

  /** The spans of `text` up to `end`, where `Cuts` are reached one after the other. */
  ghost predicate Tiles(spans: seq<Span>, article: Id, text: string, end: nat) {
    && end <= |text|
    && (spans == [] ==> end == 0)
    && (spans != [] ==>
          var last := spans[|spans| - 1];
          && |last.text| <= end && last.text == text[end - |last.text|..end]
          && end - |last.text| < |text| && end == Cut(text, end - |last.text|)
          && last.article == article && last.id == SpanId(article, text, |spans|)
          && Tiles(spans[..|spans| - 1], article, text, end - |last.text|))
  }

  method FindStop(text: string, from: nat, until: nat, stop: char -> bool) returns (boundary: Option<nat>)
    requires from <= until <= |text|
    ensures boundary == LastStop(text, from, until, stop)
  {
    boundary := None;
    for i := from to until
      invariant boundary == LastStop(text, from, i, stop)
    {
      if stop(text[i]) { boundary := Some(i + 1); }
    }
  }

  /** The two searches for a boundary. */
  method FindCut(text: string, start: nat) returns (end: nat)
    requires start < |text|
    ensures end == Cut(text, start)
  {
    end := Min(start + MAX_EVIDENCE, |text|);
    if end < |text| {
      var boundary := FindStop(text, start + MAX_EVIDENCE / 2, end, SentenceEnd);
      if boundary.None? {
        boundary := FindStop(text, start + MAX_EVIDENCE / 2, end, White);
      }
      if boundary.Some? { end := boundary.value; }
    }
  }

  lemma NextSpan(spans: seq<Span>, article: Id, text: string, start: nat)
    requires Tiles(spans, article, text, start) && start < |text|
    ensures var end := Cut(text, start);
            Tiles(spans + [Span(article, SpanId(article, text, |spans| + 1), text[start..end])], article, text, end)
  {
    var end := Cut(text, start);
    var wider := spans + [Span(article, SpanId(article, text, |spans| + 1), text[start..end])];
    assert wider[..|spans|] == spans;
  }

  method SplitSourceSpans(article: Id, text: string) returns (spans: seq<Span>)
    ensures Tiles(spans, article, text, |text|)
  {
    spans := [];
    var start, ordinal := 0, 1;
    while start < |text|
      invariant start <= |text| && ordinal == |spans| + 1
      invariant Tiles(spans, article, text, start)
    {
      var end := FindCut(text, start);
      NextSpan(spans, article, text, start);
      spans := spans + [Span(article, SpanId(article, text, ordinal), text[start..end])];
      start, ordinal := end, ordinal + 1;
    }
  }

  // ---------- what the spans are ----------

  function Joined(spans: seq<Span>): string {
    if spans == [] then "" else Joined(spans[..|spans| - 1]) + spans[|spans| - 1].text
  }

  predicate OccursAt(part: string, whole: string, i: nat) {
    i + |part| <= |whole| && whole[i..i + |part|] == part
  }

  predicate Substring(part: string, whole: string) {
    exists i | 0 <= i <= |whole| :: OccursAt(part, whole, i)
  }

  /** Nothing is lost between spans, every span is 1 to 500 characters of the text, and ids count up from one. */
  lemma {:induction false} SpansTile(spans: seq<Span>, article: Id, text: string, end: nat)
    requires Tiles(spans, article, text, end)
    ensures Joined(spans) == text[..end]
    ensures forall k | 0 <= k < |spans| ::
              && 1 <= |spans[k].text| <= MAX_EVIDENCE && Substring(spans[k].text, text)
              && spans[k].article == article && spans[k].id == SpanId(article, text, k + 1)
  {
    if spans != [] {
      var n := |spans| - 1;
      var last := spans[n];
      var from := end - |last.text|;
      SpansTile(spans[..n], article, text, from);
      assert OccursAt(last.text, text, from);
      assert text[..from] + text[from..end] == text[..end];
      forall k | 0 <= k < |spans|
        ensures 1 <= |spans[k].text| <= MAX_EVIDENCE && Substring(spans[k].text, text)
             && spans[k].article == article && spans[k].id == SpanId(article, text, k + 1)
      {
        assert k < n ==> spans[k] == spans[..n][k];
      }
    }
  }

  /**
   A text that is not at its end is cut behind the last sentence end of the preferred half, else behind white
   space.
   */
  lemma CutPrefersSentences(text: string, start: nat)
    requires start + MAX_EVIDENCE < |text|
    ensures var end, half := Cut(text, start), start + MAX_EVIDENCE / 2;
            var window := start + MAX_EVIDENCE;
            if exists k | half <= k < window :: SentenceEnd(text[k]) then
              SentenceEnd(text[end - 1]) && forall k | end <= k < window :: !SentenceEnd(text[k])
            else if exists k | half <= k < window :: White(text[k]) then
              White(text[end - 1]) && forall k | end <= k < window :: !White(text[k])
            else end == window
  {
    LastStopIsLast(text, start + MAX_EVIDENCE / 2, start + MAX_EVIDENCE, SentenceEnd);
    LastStopIsLast(text, start + MAX_EVIDENCE / 2, start + MAX_EVIDENCE, White);
  }
}
