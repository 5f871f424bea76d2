/** From a model's answer to a finished edition, and from two answers to one plan. */
module EditionGuarantees {
  import opened Prelude
  import opened TextSize
  import opened Ordering
  import opened Permutation
  import opened EvidenceSpans
  import opened Stories
  import opened StoryCover
  import opened Editions

  // ---------- the span map of the prompt ----------

  predicate SpanOf(span: Span, a: Article) {
    span.article == a.id && 1 <= |span.text| <= MAX_EVIDENCE && Substring(span.text, a.summary)
  }

  /** Every span comes from the summary of its own article. */
  ghost predicate SpansOk(articles: seq<Article>, spans: Spans) {
    forall id | id in spans :: exists a :: a in articles && SpanOf(spans[id], a)
  }

  /** The spans of `a` can all be looked up by their ids. */
  ghost predicate Holds(spans: Spans, a: Article, tiling: seq<Span>) {
    && Tiles(tiling, a.id, a.summary, |a.summary|)
    && forall k | 0 <= k < |tiling| :: tiling[k].id in spans && spans[tiling[k].id] == tiling[k]
  }

  ghost predicate HoldsAll(spans: Spans, articles: seq<Article>) {
    forall a | a in articles :: exists tiling :: Holds(spans, a, tiling)
  }

  /** Entries of one article do not disturb those of another. */
  ghost predicate OnlyFrom(spans: Spans, articles: seq<Article>) {
    forall id | id in spans :: id.article in Ids(articles)
  }

  method StoreSpans(tiling: seq<Span>, before: Spans) returns (spans: Spans)
    requires forall i, j | 0 <= i < j < |tiling| :: tiling[i].id != tiling[j].id
    requires forall i | 0 <= i < |tiling| :: tiling[i].id !in before
    ensures forall id | id in before :: id in spans && spans[id] == before[id]
    ensures forall i | 0 <= i < |tiling| :: tiling[i].id in spans && spans[tiling[i].id] == tiling[i]
    ensures forall id | id in spans && id !in before :: spans[id] in tiling && spans[id].id == id
  {
    spans := before;
    for k := 0 to |tiling|
      invariant forall id | id in before :: id in spans && spans[id] == before[id]
      invariant forall i | 0 <= i < k :: tiling[i].id in spans && spans[tiling[i].id] == tiling[i]
      invariant forall id | id in spans && id !in before :: spans[id] in tiling && spans[id].id == id
    {
      spans := spans[tiling[k].id := tiling[k]];
    }
  }

  /** A tiling numbers its spans, so that no two ids meet. */
  lemma TilingIds(tiling: seq<Span>, a: Article)
    requires Tiles(tiling, a.id, a.summary, |a.summary|)
    ensures forall i, j | 0 <= i < j < |tiling| :: tiling[i].id != tiling[j].id
    ensures forall i | 0 <= i < |tiling| :: tiling[i].id.article == a.id && SpanOf(tiling[i], a)
  {
    SpansTile(tiling, a.id, a.summary, |a.summary|);
  }

  method AddSpans(a: Article, before: Spans) returns (spans: Spans, tiling: seq<Span>)
    requires forall id | id in before :: id.article != a.id
    ensures Holds(spans, a, tiling)
    ensures forall id | id in before :: id in spans && spans[id] == before[id]
    ensures forall id | id in spans && id !in before :: id.article == a.id && SpanOf(spans[id], a)
  {
    tiling := SplitSourceSpans(a.id, a.summary);
    TilingIds(tiling, a);
    spans := StoreSpans(tiling, before);
  }

  /** The loop of buildPrompt: no span overwrites another. */
  method BuildSpans(articles: seq<Article>) returns (spans: Spans)
    requires Once(Ids(articles))
    ensures SpansOk(articles, spans) && HoldsAll(spans, articles)
  {
    spans := map[];
    var k := 0;
    while k < |articles|
      invariant 0 <= k <= |articles|
      invariant SpansOk(articles[..k], spans) && HoldsAll(spans, articles[..k]) && OnlyFrom(spans, articles[..k])
    {
      NewArticle(articles, k);
      ghost var before := spans;
      ghost var tiling;
      spans, tiling := AddSpans(articles[k], spans);
      SpansExtend(articles, k, before, spans, tiling);
      k := k + 1;
    }
    assert articles[..k] == articles;
  }

  lemma NewArticle(articles: seq<Article>, k: nat)
    requires k < |articles| && Once(Ids(articles))
    ensures articles[k].id !in Ids(articles[..k])
  {
    var ids := Ids(articles);
    assert ids == ids[..k] + ids[k..] && ids[..k] == Ids(articles[..k]);
    OnceParts(ids[..k], ids[k..]);
    assert ids[k..][0] == articles[k].id;
  }

  lemma SpansExtend(articles: seq<Article>, k: nat, before: Spans, spans: Spans, tiling: seq<Span>)
    requires k < |articles|
    requires SpansOk(articles[..k], before) && HoldsAll(before, articles[..k]) && OnlyFrom(before, articles[..k])
    requires Holds(spans, articles[k], tiling)
    requires forall id | id in before :: id in spans && spans[id] == before[id]
    requires forall id | id in spans && id !in before :: id.article == articles[k].id && SpanOf(spans[id], articles[k])
    ensures SpansOk(articles[..k + 1], spans) && HoldsAll(spans, articles[..k + 1])
    ensures OnlyFrom(spans, articles[..k + 1])
  {
    var wider := articles[..k + 1];
    assert wider == articles[..k] + [articles[k]];
    IdsNext(articles, k);
    forall id | id in spans ensures exists a :: a in wider && SpanOf(spans[id], a) {
      if id in before {
        var a :| a in articles[..k] && SpanOf(before[id], a);
        assert a in wider;
      } else {
        assert articles[k] in wider;
      }
    }
    forall a | a in wider ensures exists t :: Holds(spans, a, t) {
      if a in articles[..k] {
        var t :| Holds(before, a, t);
        assert Holds(spans, a, t);
      }
    }
  }

  // ---------- finishing ----------

  function Localize(locale: Locale): Evidence -> Evidence {
    (ev: Evidence) => if locale == Serbian then ev.(locale := Some(Serbian)) else ev
  }

  /** resolveLocalized writes the locale into the evidence, FinalizeEdition the id. */
  function Finished(s: Story, locale: Locale): Story {
    s.(id := IdFor(s.kind, s.articles), evidence := Each(s.evidence, Localize(locale)))
  }

  function Finisher(locale: Locale): Story -> Story {
    (s: Story) => Finished(s, locale)
  }

  function EditionOf(stories: seq<Story>, locale: Locale): Edition {
    Edition(locale, Each(stories, Finisher(locale)), [])
  }

  /** validateProviderSummaries. */
  predicate Summarized(articles: seq<Article>) {
    forall a <- articles :: !Blank(a.summary)
  }

  /** The inner loop: the locale of a Serbian edition goes into every piece of evidence. */
  method LocalizeEvidence(evidence: seq<Evidence>, locale: Locale) returns (r: seq<Evidence>)
    ensures r == Each(evidence, Localize(locale))
  {
    r := [];
    for j := 0 to |evidence|
      invariant r == Each(evidence[..j], Localize(locale))
    {
      EachNext(evidence, j, Localize(locale));
      r := r + [if locale == Serbian then evidence[j].(locale := Some(Serbian)) else evidence[j]];
    }
    assert evidence[..|evidence|] == evidence;
  }

  /** The stories of an answer with their locales and ids. */
  method FinishStories(resolved: seq<Story>, locale: Locale) returns (stories: seq<Story>)
    ensures stories == Each(resolved, Finisher(locale))
  {
    stories := [];
    for k := 0 to |resolved|
      invariant stories == Each(resolved[..k], Finisher(locale))
    {
      var s := resolved[k];
      EachNext(resolved, k, Finisher(locale));
      var evidence := LocalizeEvidence(s.evidence, locale);
      var id := StoryIdOf(s.kind, s.articles);
      stories := stories + [s.(id := id, evidence := evidence)];
    }
    assert resolved[..|resolved|] == resolved;
  }

  /**
   resolveLocalized with buildPrompt and FinalizeEdition. `fits` tells whether the encoded prompt is
   within its limit. Validation refuses a malformed snapshot in any case, so it is refused first.
   */
  method ResolveLocalized(articles: seq<Article>, locale: Locale, mains: Option<seq<Draft>>,
                          briefs: Option<seq<Draft>>, notes: Notes, fits: bool, prose: Prose)
    returns (r: Option<Edition>, ghost spans: Spans)
    ensures SnapshotOk(articles) ==> SpansOk(articles, spans) && HoldsAll(spans, articles)
    ensures r == var stories := Resolve(articles, mains, briefs, notes, spans);
                 if !SnapshotOk(articles) || !Summarized(articles) || !fits || stories.None? then None
                 else if !Valid(articles, locale, EditionOf(stories.value, locale), prose) then None
                 else Some(EditionOf(stories.value, locale))
  {
    if !SnapshotOk(articles) { return None, map[]; }
    var built := BuildSpans(articles);
    spans := built;
    if !Summarized(articles) || !fits { return None, spans; }
    var resolved := ResolveModelStories(articles, mains, briefs, notes, built);
    if resolved.None? { return None, spans; }
    var stories := FinishStories(resolved.value, locale);
    var edition := Edition(locale, stories, []);
    var ok := ValidateEdition(articles, locale, edition, prose);
    r := if ok then Some(edition) else None;
  }

  // ---------- exactly when a resolved answer is valid ----------

  lemma {:induction false} ByIdKeys(articles: seq<Article>)
    requires Once(Ids(articles))
    ensures forall id :: id in ById(articles) <==> id in Ids(articles)
  {
    if articles != [] {
      LastIsNew(articles);
      ByIdKeys(articles[..|articles| - 1]);
    }
  }

  lemma {:induction false} ByIdAt(articles: seq<Article>, k: nat)
    requires Once(Ids(articles)) && k < |articles|
    ensures articles[k].id in ById(articles) && ById(articles)[articles[k].id] == articles[k]
  {
    var n := |articles| - 1;
    LastIsNew(articles);
    if k < n {
      ByIdAt(articles[..n], k);
      assert Ids(articles[..n])[k] == articles[k].id;
    }
  }

  lemma ByIdFinds(articles: seq<Article>)
    requires Once(Ids(articles))
    ensures forall id :: id in ById(articles) <==> id in Ids(articles)
    ensures forall a | a in articles :: a.id in ById(articles) && ById(articles)[a.id] == a
  {
    ByIdKeys(articles);
    forall a | a in articles ensures a.id in ById(articles) && ById(articles)[a.id] == a {
      var k :| 0 <= k < |articles| && articles[k] == a;
      ByIdAt(articles, k);
    }
  }

  /** The sources of a finished story are its articles, in their order. */
  lemma FinishedSources(s: Story, locale: Locale, notes: Notes, spans: Spans)
    requires Sound(s, notes, spans)
    ensures Each(Finished(s, locale).evidence, Source) == s.articles
  {}

  /** The quote for an article is a short piece of that article's summary. */
  lemma QuoteSource(id: Id, articles: seq<Article>, notes: Notes, spans: Spans)
    requires Once(Ids(articles)) && NotesOk(articles, notes, spans) && SpansOk(articles, spans) && id in notes
    ensures id in ById(articles)
    ensures var text := Quote(id, notes, spans).quote;
            1 <= |text| <= MAX_EVIDENCE && Substring(text, ById(articles)[id].summary)
  {
    assert NoteOk(id, notes[id], spans);
    var a :| a in articles && SpanOf(spans[notes[id].span], a);
    ByIdFinds(articles);
  }

  lemma EvidenceGiven(ev: Evidence, s: Story, known: map<Id, Article>, locale: Locale)
    requires ev.article in known && ev.article in s.articles && ev.basis == FromSummary && locale != OtherLocale
    requires |ev.quote| <= MAX_EVIDENCE && Substring(ev.quote, known[ev.article].summary)
    requires ev.locale == if locale == Serbian then Some(Serbian) else None
    ensures EvidenceOk(ev, s, known, locale) <==> !Blank(ev.quote)
  {}

  /** Everything about the evidence of a resolved story but blank quotes is beyond doubt. */
  lemma EvidenceIsSound(id: Id, s: Story, articles: seq<Article>, locale: Locale, notes: Notes, spans: Spans)
    requires Once(Ids(articles)) && NotesOk(articles, notes, spans) && SpansOk(articles, spans) && locale != OtherLocale
    requires id in s.articles && id in notes
    ensures EvidenceOk(Localize(locale)(Quote(id, notes, spans)), s, ById(articles), locale)
       <==> !Blank(Quote(id, notes, spans).quote)
  {
    QuoteSource(id, articles, notes, spans);
    EvidenceGiven(Localize(locale)(Quote(id, notes, spans)), s, ById(articles), locale);
  }

  ghost predicate NoBlankQuote(s: Story) {
    forall k | 0 <= k < |s.evidence| :: !Blank(s.evidence[k].quote)
  }

  lemma KthEvidence(s: Story, articles: seq<Article>, locale: Locale, notes: Notes, spans: Spans, k: nat)
    requires Once(Ids(articles)) && NotesOk(articles, notes, spans) && SpansOk(articles, spans) && locale != OtherLocale
    requires Sound(s, notes, spans) && k < |s.evidence|
    ensures var f := Finished(s, locale);
            EvidenceOk(f.evidence[k], f, ById(articles), locale) <==> !Blank(s.evidence[k].quote)
  {
    assert s.articles[k] in s.articles;
    EvidenceIsSound(s.articles[k], Finished(s, locale), articles, locale, notes, spans);
  }

  lemma SoundHasNoBlank(s: Story, articles: seq<Article>, locale: Locale, notes: Notes, spans: Spans)
    requires Once(Ids(articles)) && NotesOk(articles, notes, spans) && SpansOk(articles, spans) && locale != OtherLocale
    requires Sound(s, notes, spans) && EachEvidenceOk(Finished(s, locale), ById(articles), locale)
    ensures NoBlankQuote(s)
  {
    var f := Finished(s, locale);
    forall k | 0 <= k < |s.evidence| ensures !Blank(s.evidence[k].quote) {
      assert f.evidence[k] in f.evidence;
      KthEvidence(s, articles, locale, notes, spans, k);
    }
  }

  lemma AllIn<T>(items: seq<T>, good: T -> bool)
    requires forall k | 0 <= k < |items| :: good(items[k])
    ensures forall x | x in items :: good(x)
  {}

  lemma NoBlankIsSound(s: Story, articles: seq<Article>, locale: Locale, notes: Notes, spans: Spans)
    requires Once(Ids(articles)) && NotesOk(articles, notes, spans) && SpansOk(articles, spans) && locale != OtherLocale
    requires Sound(s, notes, spans) && NoBlankQuote(s)
    ensures EachEvidenceOk(Finished(s, locale), ById(articles), locale)
  {
    var f, known := Finished(s, locale), ById(articles);
    var good := (ev: Evidence) => EvidenceOk(ev, f, known, locale);
    forall k | 0 <= k < |f.evidence| ensures good(f.evidence[k]) {
      KthEvidence(s, articles, locale, notes, spans, k);
    }
    AllIn(f.evidence, good);
  }

  lemma EvidencesAreSound(s: Story, articles: seq<Article>, locale: Locale, notes: Notes, spans: Spans)
    requires Once(Ids(articles)) && NotesOk(articles, notes, spans) && SpansOk(articles, spans) && locale != OtherLocale
    requires Sound(s, notes, spans) && Once(s.articles)
    ensures EvidencesOk(Finished(s, locale), ById(articles), locale) <==> NoBlankQuote(s)
  {
    if NoBlankQuote(s) {
      NoBlankIsSound(s, articles, locale, notes, spans);
    } else if EachEvidenceOk(Finished(s, locale), ById(articles), locale) {
      SoundHasNoBlank(s, articles, locale, notes, spans);
    }
    FinishedSources(s, locale, notes, spans);
  }

  lemma StoryIsSound(s: Story, articles: seq<Article>, locale: Locale, notes: Notes, spans: Spans, prose: Prose)
    requires Once(Ids(articles)) && NotesOk(articles, notes, spans) && SpansOk(articles, spans) && locale != OtherLocale
    requires Sound(s, notes, spans) && Once(s.articles)
    ensures StoryOk(Finished(s, locale), ById(articles), locale, prose)
          <==> TextsOk(s, locale, prose) && NoBlankQuote(s)
  {
    EvidencesAreSound(s, articles, locale, notes, spans);
    ByIdFinds(articles);
  }

  lemma {:induction false} NoMoreStoriesThanMembers(stories: seq<Story>)
    requires forall s | s in stories :: s.articles != []
    ensures |stories| <= |Flat(stories, Members)|
  {
    if stories != [] {
      NoMoreStoriesThanMembers(stories[..|stories| - 1]);
      assert stories[|stories| - 1] in stories;
    }
  }

  lemma {:induction false} MainCountSame(stories: seq<Story>, locale: Locale)
    ensures MainCount(Each(stories, Finisher(locale))) == MainCount(stories)
  {
    if stories != [] {
      var n := |stories| - 1;
      MainCountSame(stories[..n], locale);
      assert Each(stories, Finisher(locale))[..n] == Each(stories[..n], Finisher(locale));
    }
  }

  lemma {:induction false} MainCountSplit(m: seq<Story>, rest: seq<Story>)
    requires (forall s | s in m :: s.kind == MainStory) && (forall s | s in rest :: s.kind == BriefStory)
    ensures MainCount(m + rest) == |m|
    decreases |m| + |rest|
  {
    var all := m + rest;
    if rest != [] {
      assert all[..|all| - 1] == m + rest[..|rest| - 1];
      MainCountSplit(m, rest[..|rest| - 1]);
      assert rest[|rest| - 1] in rest;
    } else if m != [] {
      assert all == m && all[..|all| - 1] == m[..|m| - 1] + [];
      MainCountSplit(m[..|m| - 1], []);
      assert m[|m| - 1] in m;
    }
  }

  lemma RestIsBrief(articles: seq<Article>, briefs: seq<Draft>, used: seq<Id>, notes: Notes, spans: Spans, s: Story)
    requires s in Each(briefs, Teller(BriefStory, notes, spans)) + Singles(articles, used, notes, spans)
    ensures s.kind == BriefStory
  {
    var b := Each(briefs, Teller(BriefStory, notes, spans));
    if s !in b {
      var k :| 0 <= k < |Singles(articles, used, notes, spans)| && Singles(articles, used, notes, spans)[k] == s;
      SinglesAreBrief(articles, used, notes, spans, k);
    }
  }

  lemma SortedBrief(rest: seq<Story>, less: Order<Story>)
    requires forall s | s in rest :: s.kind == BriefStory
    ensures forall s | s in Sort(rest, less) :: s.kind == BriefStory
  {
    SortKeeps(rest, less);
    forall s | s in Sort(rest, less) ensures s.kind == BriefStory {
      assert s in multiset(Sort(rest, less)) && s in multiset(rest);
    }
  }

  lemma ResolvedMainCount(articles: seq<Article>, mains: seq<Draft>, briefs: seq<Draft>, notes: Notes, spans: Spans)
    ensures MainCount(Ordered(Unordered(articles, mains, briefs, notes, spans), articles)) == |mains|
  {
    var used := Flat(mains + briefs, DraftMembers);
    var m := Each(mains, Teller(MainStory, notes, spans));
    var rest := Each(briefs, Teller(BriefStory, notes, spans)) + Singles(articles, used, notes, spans);
    UnorderedSplits(articles, mains, briefs, notes, spans);
    forall s | s in rest ensures s.kind == BriefStory {
      RestIsBrief(articles, briefs, used, notes, spans, s);
    }
    OrderedSplits(m, rest, articles);
    SortedBrief(rest, BySnapshot(Members, Index(articles)));
    MainCountSplit(m, Sort(rest, BySnapshot(Members, Index(articles))));
  }

  /** The stories of a resolution, with what is known of each. */
  ghost predicate Resolved(stories: seq<Story>, articles: seq<Article>, notes: Notes, spans: Spans) {
    && multiset(Flat(stories, Members)) == multiset(Ids(articles))
    && forall s | s in stories :: Sound(s, notes, spans) && Once(s.articles)
  }

  lemma MembersOnce(stories: seq<Story>, k: nat)
    requires k < |stories| && Once(Flat(stories, Members))
    ensures Once(stories[k].articles)
  {
    var ids, all := stories[k].articles, Flat(stories, Members);
    SplitAt(stories, k, Members);
    forall id <- ids ensures multiset(ids)[id] == 1 {
      FlatHas(stories, Members, k, id);
      assert id in multiset(ids);
    }
  }

  lemma ResolveIsResolved(articles: seq<Article>, mains: Option<seq<Draft>>, briefs: Option<seq<Draft>>, notes: Notes,
                          spans: Spans)
    requires Once(Ids(articles)) && Resolve(articles, mains, briefs, notes, spans).Some?
    ensures Resolved(Resolve(articles, mains, briefs, notes, spans).value, articles, notes, spans)
  {
    var stories := Resolve(articles, mains, briefs, notes, spans).value;
    ExactCover(articles, mains, briefs, notes, spans);
    OnceIsAboutCounts(Ids(articles), Flat(stories, Members));
    forall s | s in stories ensures Sound(s, notes, spans) && Once(s.articles) {
      StoriesSound(articles, mains, briefs, notes, spans, s);
      var k :| 0 <= k < |stories| && stories[k] == s;
      MembersOnce(stories, k);
    }
  }

  lemma FinishedPlaces(stories: seq<Story>, locale: Locale)
    ensures var e := EditionOf(stories, locale);
            Flat(e.stories, Members) + Each(e.excluded, ExcludedId) == Flat(stories, Members)
  {
    FlatEach(stories, Finisher(locale), Members, Members);
  }

  lemma FewStories(stories: seq<Story>, articles: seq<Article>, notes: Notes, spans: Spans)
    requires Resolved(stories, articles, notes, spans)
    ensures |stories| <= |articles|
  {
    NoMoreStoriesThanMembers(stories);
    var placed := Flat(stories, Members);
    assert |placed| == |multiset(placed)| && |Ids(articles)| == |multiset(Ids(articles))|;
  }

  lemma AllPlaced(stories: seq<Story>, articles: seq<Article>, notes: Notes, spans: Spans)
    requires Once(Ids(articles)) && Resolved(stories, articles, notes, spans)
    ensures Once(Flat(stories, Members)) && forall id <- ById(articles) :: id in Flat(stories, Members)
  {
    var placed := Flat(stories, Members);
    OnceIsAboutCounts(Ids(articles), placed);
    ByIdFinds(articles);
    forall id <- ById(articles) ensures id in placed {
      assert id in multiset(Ids(articles)) && id in multiset(placed);
    }
  }

  /** Coverage, uniqueness and the number of stories hold of every resolution. */
  lemma PlacesAreSound(stories: seq<Story>, articles: seq<Article>, locale: Locale, notes: Notes, spans: Spans)
    requires Once(Ids(articles)) && Resolved(stories, articles, notes, spans)
    ensures |EditionOf(stories, locale).stories| <= |articles| && Placed(EditionOf(stories, locale), ById(articles))
  {
    FinishedPlaces(stories, locale);
    FewStories(stories, articles, notes, spans);
    AllPlaced(stories, articles, notes, spans);
  }

  ghost predicate Worded(stories: seq<Story>, locale: Locale, prose: Prose) {
    forall s | s in stories :: TextsOk(s, locale, prose) && NoBlankQuote(s)
  }

  lemma AllTransfer<T, U>(xs: seq<T>, f: T -> U, p: T -> bool, q: U -> bool)
    requires forall x | x in xs :: q(f(x)) == p(x)
    ensures (forall y | y in Each(xs, f) :: q(y)) <==> (forall x | x in xs :: p(x))
  {
    var ys := Each(xs, f);
    if forall y | y in ys :: q(y) {
      forall x | x in xs ensures p(x) {
        var k :| 0 <= k < |xs| && xs[k] == x;
        assert ys[k] in ys;
      }
    }
    if forall x | x in xs :: p(x) {
      forall y | y in ys ensures q(y) {
        var k :| 0 <= k < |ys| && ys[k] == y;
        assert xs[k] in xs;
      }
    }
  }

  lemma StoriesAreSound(stories: seq<Story>, articles: seq<Article>, locale: Locale, notes: Notes, spans: Spans,
                        prose: Prose)
    requires Once(Ids(articles)) && NotesOk(articles, notes, spans) && SpansOk(articles, spans) && locale != OtherLocale
    requires Resolved(stories, articles, notes, spans)
    ensures AllStoriesOk(EditionOf(stories, locale).stories, ById(articles), locale, prose)
          <==> Worded(stories, locale, prose)
  {
    var p := (s: Story) => TextsOk(s, locale, prose) && NoBlankQuote(s);
    var q := (s: Story) => StoryOk(s, ById(articles), locale, prose);
    forall s | s in stories ensures q(Finisher(locale)(s)) == p(s) {
      StoryIsSound(s, articles, locale, notes, spans, prose);
    }
    AllTransfer(stories, Finisher(locale), p, q);
    NamedAll(stories, EditionOf(stories, locale).stories, ById(articles), locale, prose, p, q);
  }

  lemma NamedAll(stories: seq<Story>, done: seq<Story>, known: map<Id, Article>, locale: Locale, prose: Prose,
                 p: Story -> bool, q: Story -> bool)
    requires forall s :: p(s) == (TextsOk(s, locale, prose) && NoBlankQuote(s))
    requires forall s :: q(s) == StoryOk(s, known, locale, prose)
    ensures Worded(stories, locale, prose) <==> forall s | s in stories :: p(s)
    ensures AllStoriesOk(done, known, locale, prose) <==> forall s | s in done :: q(s)
  {}

  lemma ValidIffWorded(stories: seq<Story>, articles: seq<Article>, locale: Locale, notes: Notes, spans: Spans,
                       prose: Prose)
    requires SnapshotOk(articles) && NotesOk(articles, notes, spans) && SpansOk(articles, spans)
    requires locale != OtherLocale
    requires Resolved(stories, articles, notes, spans)
    ensures Valid(articles, locale, EditionOf(stories, locale), prose)
       <==> MainCount(stories) <= MAX_MAIN_STORIES && Worded(stories, locale, prose)
  {
    PlacesAreSound(stories, articles, locale, notes, spans);
    StoriesAreSound(stories, articles, locale, notes, spans, prose);
    MainCountSame(stories, locale);
    assert EditionOf(stories, locale).excluded == [];
  }

  // ---------- the condition, on the answer itself ----------

  predicate DraftWorded(d: Draft, locale: Locale, prose: Prose) {
    (locale == Serbian ==> prose(d.title + "\n" + d.summary)) && TextOk(d.title) && TextOk(d.summary)
  }

  predicate NoteWorded(a: Article, locale: Locale, notes: Notes, prose: Prose) {
    locale == Serbian ==> a.id in notes && prose(a.title + "\n" + notes[a.id].brief)
  }

  /** What resolving leaves open about an answer: its wording, and spans of nothing but white space. */
  ghost predicate AnswerWorded(
    articles: seq<Article>, locale: Locale, mains: seq<Draft>, briefs: seq<Draft>, notes: Notes, spans: Spans,
    prose: Prose)
  {
    && (forall d | d in mains + briefs :: DraftWorded(d, locale, prose))
    && (forall a | a in articles && a.id !in Flat(mains + briefs, DraftMembers) :: NoteWorded(a, locale, notes, prose))
    && (forall id | id in notes :: !Blank(Quote(id, notes, spans).quote))
  }

  lemma SingleTexts(a: Article, articles: seq<Article>, locale: Locale, notes: Notes, spans: Spans, prose: Prose)
    requires SnapshotOk(articles) && NotesOk(articles, notes, spans) && a in articles
    ensures TextsOk(Single(a, notes, spans), locale, prose) <==> NoteWorded(a, locale, notes, prose)
  {
    var k :| 0 <= k < |articles| && articles[k] == a;
    assert Ids(articles)[k] == a.id && a.id in Ids(articles) && a.id in notes;
    assert NoteOk(a.id, notes[a.id], spans) && ArticleOk(a);
  }

  lemma SoundQuotes(s: Story, notes: Notes, spans: Spans)
    requires Sound(s, notes, spans) && forall id | id in notes :: !Blank(Quote(id, notes, spans).quote)
    ensures NoBlankQuote(s)
  {
    forall k | 0 <= k < |s.evidence| ensures !Blank(s.evidence[k].quote) {
      assert s.articles[k] in s.articles && s.evidence[k] == Quote(s.articles[k], notes, spans);
    }
  }

  lemma AnswerWordsStories(articles: seq<Article>, locale: Locale, mains: seq<Draft>, briefs: seq<Draft>,
                           notes: Notes, spans: Spans,
                           prose: Prose)
    requires SnapshotOk(articles) && Resolve(articles, Some(mains), Some(briefs), notes, spans).Some?
    requires AnswerWorded(articles, locale, mains, briefs, notes, spans, prose)
    ensures Worded(Resolve(articles, Some(mains), Some(briefs), notes, spans).value, locale, prose)
  {
    forall s | s in Resolve(articles, Some(mains), Some(briefs), notes, spans).value
      ensures TextsOk(s, locale, prose) && NoBlankQuote(s)
    {
      StoriesSound(articles, Some(mains), Some(briefs), notes, spans, s);
      SoundQuotes(s, notes, spans);
      if d :| d in mains && s == StoryOf(MainStory, d, notes, spans) {
        assert d in mains + briefs && DraftWorded(d, locale, prose);
      } else if d :| d in briefs && s == StoryOf(BriefStory, d, notes, spans) {
        assert d in mains + briefs && DraftWorded(d, locale, prose);
      } else {
        var a :| a in articles && a.id !in Flat(mains + briefs, DraftMembers) && s == Single(a, notes, spans);
        SingleTexts(a, articles, locale, notes, spans, prose);
      }
    }
  }

  lemma {:induction false} SingleIsThere(articles: seq<Article>, taken: seq<Id>, notes: Notes, spans: Spans, k: nat)
    requires Once(Ids(articles)) && k < |articles| && articles[k].id !in taken
    ensures Single(articles[k], notes, spans) in Singles(articles, taken, notes, spans)
  {
    var n := |articles| - 1;
    NewArticle(articles, n);
    if k < n {
      var ids := Ids(articles);
      assert ids == ids[..n] + ids[n..] && ids[..n] == Ids(articles[..n]);
      OnceParts(ids[..n], ids[n..]);
      SingleIsThere(articles[..n], taken, notes, spans, k);
    }
  }

  /** Every group has its story, and so has every article outside the groups. */
  lemma StoryIsThere(articles: seq<Article>, mains: seq<Draft>, briefs: seq<Draft>, notes: Notes, spans: Spans,
                     s: Story)
    requires Resolve(articles, Some(mains), Some(briefs), notes, spans).Some?
    requires s in Unordered(articles, mains, briefs, notes, spans)
    ensures s in Resolve(articles, Some(mains), Some(briefs), notes, spans).value
  {
    OrderedPermutes(Unordered(articles, mains, briefs, notes, spans), articles);
    assert s in multiset(Unordered(articles, mains, briefs, notes, spans));
  }

  lemma DraftHasStory(articles: seq<Article>, mains: seq<Draft>, briefs: seq<Draft>, notes: Notes, spans: Spans,
                      d: Draft)
    returns (s: Story)
    requires d in mains + briefs
    ensures s in Unordered(articles, mains, briefs, notes, spans) && s.title == d.title && s.summary == d.summary
  {
    var m, b := Each(mains, Teller(MainStory, notes, spans)), Each(briefs, Teller(BriefStory, notes, spans));
    var k :| 0 <= k < |mains + briefs| && (mains + briefs)[k] == d;
    s := (m + b)[k];
  }

  lemma WordedDraft(articles: seq<Article>, locale: Locale, mains: seq<Draft>, briefs: seq<Draft>, notes: Notes,
                    spans: Spans,
                    prose: Prose, d: Draft)
    requires Resolve(articles, Some(mains), Some(briefs), notes, spans).Some? && d in mains + briefs
    requires Worded(Resolve(articles, Some(mains), Some(briefs), notes, spans).value, locale, prose)
    ensures DraftWorded(d, locale, prose)
  {
    var s := DraftHasStory(articles, mains, briefs, notes, spans, d);
    StoryIsThere(articles, mains, briefs, notes, spans, s);
    assert TextsOk(s, locale, prose);
  }

  lemma WordedNote(articles: seq<Article>, locale: Locale, mains: seq<Draft>, briefs: seq<Draft>, notes: Notes,
                   spans: Spans,
                   prose: Prose, a: Article)
    requires SnapshotOk(articles) && Resolve(articles, Some(mains), Some(briefs), notes, spans).Some?
    requires Worded(Resolve(articles, Some(mains), Some(briefs), notes, spans).value, locale, prose)
    requires a in articles && a.id !in Flat(mains + briefs, DraftMembers)
    ensures NoteWorded(a, locale, notes, prose)
  {
    var k :| 0 <= k < |articles| && articles[k] == a;
    SingleIsThere(articles, Flat(mains + briefs, DraftMembers), notes, spans, k);
    StoryIsThere(articles, mains, briefs, notes, spans, Single(a, notes, spans));
    SingleTexts(a, articles, locale, notes, spans, prose);
  }

  lemma WordedQuote(stories: seq<Story>, articles: seq<Article>, locale: Locale, notes: Notes, spans: Spans,
                    prose: Prose, id: Id)
    requires Resolved(stories, articles, notes, spans) && Worded(stories, locale, prose) && id in Ids(articles)
    ensures !Blank(Quote(id, notes, spans).quote)
  {
    var s := StoryWith(stories, articles, id);
    assert Sound(s, notes, spans) && NoBlankQuote(s);
    SoundQuote(s, notes, spans, id);
  }

  /** A cover has a story for every article. */
  lemma StoryWith(stories: seq<Story>, articles: seq<Article>, id: Id) returns (s: Story)
    requires multiset(Flat(stories, Members)) == multiset(Ids(articles)) && id in Ids(articles)
    ensures s in stories && id in s.articles
  {
    assert id in multiset(Ids(articles)) && id in multiset(Flat(stories, Members));
    var k := FlatFrom(stories, Members, id);
    s := stories[k];
  }

  lemma SoundQuote(s: Story, notes: Notes, spans: Spans, id: Id)
    requires Sound(s, notes, spans) && NoBlankQuote(s) && id in s.articles
    ensures !Blank(Quote(id, notes, spans).quote)
  {
    var j :| 0 <= j < |s.articles| && s.articles[j] == id;
    assert s.evidence[j] == Quote(id, notes, spans);
  }

  lemma StoriesWordAnswer(articles: seq<Article>, locale: Locale, mains: seq<Draft>, briefs: seq<Draft>, notes: Notes,
                          spans: Spans,
                          prose: Prose)
    requires SnapshotOk(articles) && Resolve(articles, Some(mains), Some(briefs), notes, spans).Some?
    requires Worded(Resolve(articles, Some(mains), Some(briefs), notes, spans).value, locale, prose)
    ensures AnswerWorded(articles, locale, mains, briefs, notes, spans, prose)
  {
    forall d | d in mains + briefs ensures DraftWorded(d, locale, prose) {
      WordedDraft(articles, locale, mains, briefs, notes, spans, prose, d);
    }
    forall a | a in articles && a.id !in Flat(mains + briefs, DraftMembers)
      ensures NoteWorded(a, locale, notes, prose)
    {
      WordedNote(articles, locale, mains, briefs, notes, spans, prose, a);
    }
    ResolveIsResolved(articles, Some(mains), Some(briefs), notes, spans);
    forall id | id in notes ensures !Blank(Quote(id, notes, spans).quote) {
      WordedQuote(Resolve(articles, Some(mains), Some(briefs), notes, spans).value, articles, locale, notes, spans,
                  prose, id);
    }
  }

  /**
   A resolved answer passes validation exactly when it has at most five main groups and its
   wording is acceptable: every check of coverage, uniqueness, membership, story count and
   evidence other than a blank quote is bound to succeed.
   */
  lemma ResolvedIsValidIff(articles: seq<Article>, locale: Locale, mains: seq<Draft>, briefs: seq<Draft>, notes: Notes,
                           spans: Spans, prose: Prose)
    requires SnapshotOk(articles) && SpansOk(articles, spans) && locale != OtherLocale
    requires Resolve(articles, Some(mains), Some(briefs), notes, spans).Some?
    ensures var stories := Resolve(articles, Some(mains), Some(briefs), notes, spans).value;
            Valid(articles, locale, EditionOf(stories, locale), prose)
            <==> |mains| <= MAX_MAIN_STORIES && AnswerWorded(articles, locale, mains, briefs, notes, spans, prose)
  {
    var stories := Resolve(articles, Some(mains), Some(briefs), notes, spans).value;
    ResolveIsResolved(articles, Some(mains), Some(briefs), notes, spans);
    ValidIffWorded(stories, articles, locale, notes, spans, prose);
    ResolvedMainCount(articles, mains, briefs, notes, spans);
    if AnswerWorded(articles, locale, mains, briefs, notes, spans, prose) {
      AnswerWordsStories(articles, locale, mains, briefs, notes, spans, prose);
    } else if Worded(stories, locale, prose) {
      StoriesWordAnswer(articles, locale, mains, briefs, notes, spans, prose);
    }
  }

  /** The last condition is no idle one: a summary that is not blank can have a blank span. */
  lemma BlankSpansHappen()
    ensures var text := ['x'] + seq(600, _ => ' ');
            !Blank(text) && Cut(text, 0) == 500 && Cut(text, 500) == 601 && Blank(text[500..601])
  {
    var text := ['x'] + seq(600, _ => ' ');
    assert text[0] == 'x' && forall k | 1 <= k < 601 :: text[k] == ' ';
    LastStopIsLast(text, 250, 500, SentenceEnd);
    assert 'x' in text;
  }

  /** An article whose second span is blank. */
  function Sparse(): Article {
    Article("a", "t", ['x'] + seq(600, _ => ' '), "")
  }

  lemma OneArticleIsOk(a: Article)
    requires ArticleOk(a) && !Blank(a.summary)
    ensures SnapshotOk([a]) && Summarized([a])
  {
    assert Ids([a]) == [a.id];
  }

  lemma VisibleText(text: string, c: char)
    requires text != [] && text[0] == c && !IsSpace(c)
    ensures !Blank(text) && Cost(Utf8, text) <= 4 * |text|
  {
    assert c in text;
    Utf8Bound(text);
  }

  lemma SparseIsOk()
    ensures SnapshotOk([Sparse()]) && Summarized([Sparse()])
  {
    VisibleText("t", 't');
    VisibleText(Sparse().summary, 'x');
    OneArticleIsOk(Sparse());
  }

  function SparseSpan(k: nat, from: nat, until: nat): Span
    requires from <= until <= 601
  {
    Span("a", SpanId("a", Sparse().summary, k), Sparse().summary[from..until])
  }

  function SparseSpans(): Spans {
    map[SparseSpan(1, 0, 500).id := SparseSpan(1, 0, 500), SparseSpan(2, 500, 601).id := SparseSpan(2, 500, 601)]
  }

  lemma SparseTiles()
    ensures Tiles([SparseSpan(1, 0, 500), SparseSpan(2, 500, 601)], "a", Sparse().summary, 601)
    ensures Blank(SparseSpan(2, 500, 601).text)
  {
    BlankSpansHappen();
    NextSpan([], "a", Sparse().summary, 0);
    assert [] + [SparseSpan(1, 0, 500)] == [SparseSpan(1, 0, 500)];
    NextSpan([SparseSpan(1, 0, 500)], "a", Sparse().summary, 500);
    assert [SparseSpan(1, 0, 500)] + [SparseSpan(2, 500, 601)] == [SparseSpan(1, 0, 500), SparseSpan(2, 500, 601)];
  }

  /** The spans of a single article that is cut in two. */
  lemma PairHolds(a: Article, first: Span, second: Span)
    requires Tiles([first, second], a.id, a.summary, |a.summary|)
    ensures var spans := map[first.id := first, second.id := second]; SpansOk([a], spans) && HoldsAll(spans, [a])
  {
    var spans, tiling := map[first.id := first, second.id := second], [first, second];
    TilingIds(tiling, a);
    assert tiling[0] == first && tiling[1] == second;
    assert a in [a] && Holds(spans, a, tiling);
  }

  lemma SparseHolds()
    ensures SpansOk([Sparse()], SparseSpans()) && HoldsAll(SparseSpans(), [Sparse()])
  {
    SparseTiles();
    PairHolds(Sparse(), SparseSpan(1, 0, 500), SparseSpan(2, 500, 601));
  }

  lemma SparseResolves(notes: Notes)
    requires notes == map["a" := Note("b", SparseSpan(2, 500, 601).id)]
    ensures Resolve([Sparse()], Some([]), Some([]), notes, SparseSpans()).Some?
    ensures Quote("a", notes, SparseSpans()).quote == SparseSpan(2, 500, 601).text
  {
    VisibleText("b", 'b');
    assert NoteOk("a", notes["a"], SparseSpans());
    OneNote(Sparse(), notes, SparseSpans());
    NoGroups(notes);
  }

  lemma OneNote(a: Article, notes: Notes, spans: Spans)
    requires notes.Keys == {a.id} && NoteOk(a.id, notes[a.id], spans)
    ensures NotesOk([a], notes, spans)
  {
    assert Ids([a]) == [a.id];
  }

  lemma NoGroups(notes: Notes)
    ensures GroupsOk([] + [], notes)
  {
    var none: seq<Draft> := [];
    assert none + none == none && Flat(none, DraftMembers) == [];
  }

  /** Nor does resolving reject it: a note may name that span, and only validation refuses the edition. */
  lemma BlankQuoteIsRefused(locale: Locale, prose: Prose) returns (notes: Notes, spans: Spans)
    requires locale != OtherLocale
    ensures SnapshotOk([Sparse()]) && Summarized([Sparse()])
    ensures SpansOk([Sparse()], spans) && HoldsAll(spans, [Sparse()])
    ensures var stories := Resolve([Sparse()], Some([]), Some([]), notes, spans);
            stories.Some? && !Valid([Sparse()], locale, EditionOf(stories.value, locale), prose)
  {
    spans, notes := SparseSpans(), map["a" := Note("b", SparseSpan(2, 500, 601).id)];
    SparseIsOk();
    SparseHolds();
    SparseResolves(notes);
    ResolvedIsValidIff([Sparse()], locale, [], [], notes, spans, prose);
    SparseTiles();
    assert "a" in notes && Blank(Quote("a", notes, spans).quote);
  }

  // ---------- two locales, one plan ----------

  predicate SameStory(x: Story, y: Story) {
    x.id == y.id && x.kind == y.kind && x.primary == y.primary && x.articles == y.articles
  }

  /** SameEditorialPlan. */
  predicate SamePlan(a: Edition, b: Edition) {
    && |a.stories| == |b.stories| && a.excluded == b.excluded
    && forall i | 0 <= i < |a.stories| :: SameStory(a.stories[i], b.stories[i])
  }

  method SameEditorialPlan(a: Edition, b: Edition) returns (same: bool)
    ensures same <==> SamePlan(a, b)
  {
    if |a.stories| != |b.stories| || |a.excluded| != |b.excluded| { return false; }
    for i := 0 to |a.stories|
      invariant forall k | 0 <= k < i :: SameStory(a.stories[k], b.stories[k])
    {
      var x, y := a.stories[i], b.stories[i];
      if x.id != y.id || x.kind != y.kind || x.primary != y.primary || |x.articles| != |y.articles| { return false; }
      for j := 0 to |x.articles|
        invariant forall k | 0 <= k < j :: x.articles[k] == y.articles[k]
      {
        if x.articles[j] != y.articles[j] { return false; }
      }
      assert SameStory(x, y);
    }
    for i := 0 to |a.excluded|
      invariant forall k | 0 <= k < i :: a.excluded[k] == b.excluded[k]
    {
      if a.excluded[i] != b.excluded[i] { return false; }
    }
    same := true;
  }

  /** A story's id does not depend on the order of its members. */
  lemma IdForgetsOrder(kind: StoryKind, a: seq<Id>, b: seq<Id>)
    requires multiset(a) == multiset(b)
    ensures IdFor(kind, a) == IdFor(kind, b)
  {
    LessDecides(multiset(a));
    SortForgetsOrder(a, b, Less);
  }

  lemma SameOutlinesSamePlan(a: seq<Story>, b: seq<Story>, x: Locale, y: Locale)
    requires Each(a, OutlineOf) == Each(b, OutlineOf)
    ensures SamePlan(EditionOf(a, x), EditionOf(b, y))
  {
    assert |a| == |Each(a, OutlineOf)| && |b| == |Each(b, OutlineOf)|;
    forall i | 0 <= i < |a| ensures SameStory(Finished(a[i], x), Finished(b[i], y)) {
      assert Each(a, OutlineOf)[i] == OutlineOf(a[i]) && Each(b, OutlineOf)[i] == OutlineOf(b[i]);
    }
  }

  /**
   Two answers about the same articles with the same main groups in the same order, and the
   same brief groups in any order, always give editions with the same plan, whatever their
   wording, their quotes and their locales.
   */
  lemma SameGroupsSamePlan(
    a: seq<Article>, mains: seq<Draft>, briefs: seq<Draft>, notes: Notes, spans: Spans, x: Locale,
    b: seq<Article>, leads: seq<Draft>, others: seq<Draft>, remarks: Notes, snippets: Spans, y: Locale)
    requires Once(Ids(a)) && Ids(a) == Ids(b)
    requires Resolve(a, Some(mains), Some(briefs), notes, spans).Some?
    requires Resolve(b, Some(leads), Some(others), remarks, snippets).Some?
    requires Each(mains, DraftOutline(MainStory)) == Each(leads, DraftOutline(MainStory))
    requires multiset(Each(briefs, DraftOutline(BriefStory))) == multiset(Each(others, DraftOutline(BriefStory)))
    ensures SamePlan(EditionOf(Resolve(a, Some(mains), Some(briefs), notes, spans).value, x),
                     EditionOf(Resolve(b, Some(leads), Some(others), remarks, snippets).value, y))
  {
    ResolutionOutline(a, Some(mains), Some(briefs), notes, spans);
    ResolutionOutline(b, Some(leads), Some(others), remarks, snippets);
    OutlinesDisjoint(a, mains, briefs, notes);
    PlanForgetsOrder(a, b, Each(mains, DraftOutline(MainStory)), Each(briefs, DraftOutline(BriefStory)),
                     Each(others, DraftOutline(BriefStory)));
    SameOutlinesSamePlan(Resolve(a, Some(mains), Some(briefs), notes, spans).value,
                         Resolve(b, Some(leads), Some(others), remarks, snippets).value, x, y);
  }
}
