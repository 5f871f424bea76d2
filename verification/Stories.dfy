/**
 Turning a model's answer into stories that cover the snapshot
 (go-editorial/editorial/gemini.go:235-330).
 */
module Stories {
  import opened Prelude
  import opened TextSize
  import opened Ordering
  import opened Permutation
  import opened EvidenceSpans

  const MAX_STORY_TEXT: nat := 2000

  datatype Article = Article(id: Id, title: string, summary: string, content: string)

  /** unicode.IsSpace. */
  predicate IsSpace(c: char) {
    var n := c as int;
    || 9 <= n <= 13 || n == 0x20 || n == 0x85 || n == 0xA0 || n == 0x1680 || 0x2000 <= n <= 0x200A
    || n == 0x2028 || n == 0x2029 || n == 0x202F || n == 0x205F || n == 0x3000
  }

  predicate Blank(s: string) {
    forall c <- s :: IsSpace(c)
  }

  predicate TextOk(s: string) {
    !Blank(s) && Cost(Utf8, s) <= MAX_STORY_TEXT
  }

  datatype StoryKind = MainStory | BriefStory

  datatype Basis = Unrecorded | FromSummary | OtherBasis

  datatype Locale = Russian | Serbian | OtherLocale

  datatype Evidence = Evidence(article: Id, quote: string, basis: Basis, locale: Option<Locale>)

  /** A hash of the kind and the sorted members. */
  datatype StoryId = Unset | StoryId(kind: StoryKind, members: seq<Id>)

  datatype Story = Story(
    id: StoryId, kind: StoryKind, title: string, summary: string, primary: Id, articles: seq<Id>,
    evidence: seq<Evidence>)

  /** A group of articles in the model's answer. */
  datatype Draft = Draft(title: string, summary: string, primary: Id, articles: seq<Id>)

  /** The model's answer about one article. */
  datatype Note = Note(brief: string, span: SpanId)

  type Notes = map<Id, Note>
  type Spans = map<SpanId, Span>

  function IdOf(a: Article): Id {
    a.id
  }

  function Ids(articles: seq<Article>): seq<Id> {
    Each(articles, IdOf)
  }

  function Members(s: Story): seq<Id> {
    s.articles
  }

  function DraftMembers(d: Draft): seq<Id> {
    d.articles
  }

  predicate NoteOk(id: Id, n: Note, spans: Spans) {
    n.span in spans && spans[n.span].article == id && TextOk(n.brief)
  }

  /** Exactly one usable note for each article. */
  predicate NotesOk(articles: seq<Article>, notes: Notes, spans: Spans) {
    && (forall id <- Ids(articles) :: id in notes)
    && (forall id <- notes :: id in Ids(articles) && NoteOk(id, notes[id], spans))
  }

  function Quote(id: Id, notes: Notes, spans: Spans): Evidence {
    Evidence(id, if id in notes && notes[id].span in spans then spans[notes[id].span].text else "", FromSummary, None)
  }

  function Quoter(notes: Notes, spans: Spans): Id -> Evidence {
    (id: Id) => Quote(id, notes, spans)
  }

  function StoryOf(kind: StoryKind, d: Draft, notes: Notes, spans: Spans): Story {
    Story(Unset, kind, d.title, d.summary, d.primary, d.articles, Each(d.articles, Quoter(notes, spans)))
  }

  function Teller(kind: StoryKind, notes: Notes, spans: Spans): Draft -> Story {
    (d: Draft) => StoryOf(kind, d, notes, spans)
  }

  function Single(a: Article, notes: Notes, spans: Spans): Story {
    Story(Unset, BriefStory, a.title, if a.id in notes then notes[a.id].brief else "", a.id, [a.id],
          [Quote(a.id, notes, spans)])
  }

  /** A brief of its own for every article outside `taken`. */
  function Singles(articles: seq<Article>, taken: seq<Id>, notes: Notes, spans: Spans): seq<Story> {
    if articles == [] then []
    else
      var front, a := articles[..|articles| - 1], articles[|articles| - 1];
      Singles(front, taken, notes, spans)
      + if a.id in taken || a.id in Ids(front) then [] else [Single(a, notes, spans)]
  }

  predicate DraftOk(d: Draft, notes: Notes) {
    1 <= |d.articles| <= 100 && (forall id <- d.articles :: id in notes) && d.primary in d.articles
  }

  predicate Once(ids: seq<Id>) {
    forall id <- ids :: multiset(ids)[id] == 1
  }

  /** Every group is well formed and no article is in two places. */
  predicate GroupsOk(drafts: seq<Draft>, notes: Notes) {
    (forall d <- drafts :: DraftOk(d, notes)) && Once(Flat(drafts, DraftMembers))
  }

  // ---------- the order of stories ----------

  function Index(articles: seq<Article>): map<Id, nat> {
    if articles == [] then map[] else Index(articles[..|articles| - 1])[articles[|articles| - 1].id := |articles| - 1]
  }

  /** The least position of a member in the snapshot. */
  function SnapshotIndex(ids: seq<Id>, index: map<Id, nat>): nat {
    if ids == [] then |index|
    else
      var rest := SnapshotIndex(ids[..|ids| - 1], index);
      var id := ids[|ids| - 1];
      if id in index && index[id] < rest then index[id] else rest
  }

  function BySnapshot<T>(members: T -> seq<Id>, index: map<Id, nat>): Order<T> {
    (x: T, y: T) => SnapshotIndex(members(x), index) < SnapshotIndex(members(y), index)
  }

  function LeadingMains(stories: seq<Story>): (n: nat)
    ensures n <= |stories|
  {
    if stories == [] || stories[0].kind != MainStory then 0 else 1 + LeadingMains(stories[1..])
  }

  /** orderStoriesBySnapshot: the main stories keep their rank, the rest follow the snapshot. */
  function Ordered(stories: seq<Story>, articles: seq<Article>): seq<Story> {
    var n := LeadingMains(stories);
    stories[..n] + Sort(stories[n..], BySnapshot(Members, Index(articles)))
  }

  /** resolveModelStories; a missing list of groups is an error. */
  function Resolve(articles: seq<Article>, mains: Option<seq<Draft>>, briefs: Option<seq<Draft>>, notes: Notes,
                   spans: Spans):
    Option<seq<Story>>
  {
    if mains.None? || briefs.None? then None
    else if !NotesOk(articles, notes, spans) || !GroupsOk(mains.value + briefs.value, notes) then None
    else Some(Ordered(Unordered(articles, mains.value, briefs.value, notes, spans), articles))
  }

  function Unordered(articles: seq<Article>, mains: seq<Draft>, briefs: seq<Draft>, notes: Notes,
                     spans: Spans): seq<Story> {
    Each(mains, Teller(MainStory, notes, spans)) + Each(briefs, Teller(BriefStory, notes, spans))
    + Singles(articles, Flat(mains + briefs, DraftMembers), notes, spans)
  }

  // ---------- the loops ----------

  lemma OnceParts(a: seq<Id>, b: seq<Id>)
    ensures Once(a + b) <==> Once(a) && Once(b) && forall id <- b :: id !in a
  {
    var ab := a + b;
    if Once(ab) {
      forall id <- a ensures multiset(a)[id] == 1 { assert id in ab && id in multiset(a); }
      forall id <- b ensures multiset(b)[id] == 1 && id !in a {
        assert id in ab && id in multiset(b);
        assert id in a ==> id in multiset(a);
      }
    }
    if Once(a) && Once(b) && forall id <- b :: id !in a {
      forall id <- ab ensures multiset(ab)[id] == 1 {
        assert id in a ==> id in multiset(a);
        assert id !in a ==> id !in multiset(a);
        assert id in b ==> id in multiset(b);
        assert id !in b ==> id !in multiset(b);
      }
    }
  }

  predicate Takes(ids: seq<Id>, notes: Notes, earlier: set<Id>) {
    (forall id <- ids :: id in notes && id !in earlier) && Once(ids)
  }

  lemma TakesNext(ids: seq<Id>, k: nat, notes: Notes, earlier: set<Id>)
    requires k < |ids|
    ensures Takes(ids[..k + 1], notes, earlier)
       <==> Takes(ids[..k], notes, earlier) && ids[k] in notes && ids[k] !in earlier && ids[k] !in ids[..k]
  {
    assert ids[..k + 1] == ids[..k] + [ids[k]];
    OnceParts(ids[..k], [ids[k]]);
    assert Once([ids[k]]);
  }

  lemma TakesPrefix(ids: seq<Id>, k: nat, notes: Notes, earlier: set<Id>)
    requires k <= |ids| && Takes(ids, notes, earlier)
    ensures Takes(ids[..k], notes, earlier)
  {
    assert ids == ids[..k] + ids[k..];
    OnceParts(ids[..k], ids[k..]);
  }

  lemma EachNext<T, U>(s: seq<T>, k: nat, f: T -> U)
    requires k < |s|
    ensures Each(s[..k + 1], f) == Each(s[..k], f) + [f(s[k])]
  {}

  function Set(ids: seq<Id>): set<Id> {
    set id | id in ids
  }

  lemma SetNext(ids: seq<Id>, k: nat)
    requires k < |ids|
    ensures Set(ids[..k + 1]) == Set(ids[..k]) + {ids[k]}
  {
    assert ids[..k + 1] == ids[..k] + [ids[k]];
  }

  /** One more member, and the ids taken with it. */
  lemma TakenWith(ids: seq<Id>, k: nat, earlier: set<Id>)
    requires k < |ids|
    ensures earlier + Set(ids[..k + 1]) == earlier + Set(ids[..k]) + {ids[k]}
    ensures ids[k] in earlier + Set(ids[..k]) <==> ids[k] in earlier || ids[k] in ids[..k]
  {
    SetNext(ids, k);
  }

  lemma TakesNoMore(ids: seq<Id>, k: nat, notes: Notes, earlier: set<Id>)
    requires k < |ids| && !Takes(ids[..k + 1], notes, earlier)
    ensures !Takes(ids, notes, earlier)
  {
    if Takes(ids, notes, earlier) { TakesPrefix(ids, k + 1, notes, earlier); }
  }

  /** Where the loop over the members stands before member `k`. */
  ghost predicate Taking(ids: seq<Id>, k: nat, notes: Notes, spans: Spans, earlier: set<Id>, taken: set<Id>,
                         evidence: seq<Evidence>)
  {
    && k <= |ids| && Takes(ids[..k], notes, earlier) && taken == earlier + Set(ids[..k])
    && evidence == Each(ids[..k], Quoter(notes, spans))
  }

  lemma TakingNext(ids: seq<Id>, k: nat, notes: Notes, spans: Spans, earlier: set<Id>, taken: set<Id>,
                   evidence: seq<Evidence>)
    requires Taking(ids, k, notes, spans, earlier, taken, evidence) && k < |ids|
    ensures if ids[k] in notes && ids[k] !in taken then
              Taking(ids, k + 1, notes, spans, earlier, taken + {ids[k]}, evidence + [Quote(ids[k], notes, spans)])
            else !Takes(ids, notes, earlier)
  {
    TakesNext(ids, k, notes, earlier);
    TakenWith(ids, k, earlier);
    EachNext(ids, k, Quoter(notes, spans));
    if ids[k] !in notes || ids[k] in taken { TakesNoMore(ids, k, notes, earlier); }
  }

  lemma TakingDone(ids: seq<Id>, notes: Notes, spans: Spans, earlier: set<Id>, taken: set<Id>, evidence: seq<Evidence>)
    requires Taking(ids, |ids|, notes, spans, earlier, taken, evidence)
    ensures Takes(ids, notes, earlier) && taken == earlier + Set(ids) && evidence == Each(ids, Quoter(notes, spans))
  {
    assert ids[..|ids|] == ids;
  }

  /** The members of one group, each known and not yet taken. */
  method TakeMembers(ids: seq<Id>, notes: Notes, spans: Spans, earlier: set<Id>)
    returns (ok: bool, taken: set<Id>, evidence: seq<Evidence>)
    ensures ok <==> Takes(ids, notes, earlier)
    ensures ok ==> taken == earlier + Set(ids) && evidence == Each(ids, Quoter(notes, spans))
  {
    taken, evidence := earlier, [];
    var k := 0;
    while k < |ids|
      invariant Taking(ids, k, notes, spans, earlier, taken, evidence)
    {
      TakingNext(ids, k, notes, spans, earlier, taken, evidence);
      if ids[k] !in notes || ids[k] in taken { return false, {}, []; }
      taken, evidence := taken + {ids[k]}, evidence + [Quote(ids[k], notes, spans)];
      k := k + 1;
    }
    TakingDone(ids, notes, spans, earlier, taken, evidence);
    ok := true;
  }

  predicate Groups(drafts: seq<Draft>, used: seq<Id>, notes: Notes) {
    && (forall d <- drafts :: DraftOk(d, notes)) && Once(used + Flat(drafts, DraftMembers))
  }

  lemma GroupsNext(drafts: seq<Draft>, k: nat, used: seq<Id>, notes: Notes)
    requires k < |drafts|
    ensures var before := used + Flat(drafts[..k], DraftMembers);
            Groups(drafts[..k + 1], used, notes)
            <==> Groups(drafts[..k], used, notes) && DraftOk(drafts[k], notes)
                 && Takes(drafts[k].articles, notes, Set(before))
  {
    var d := drafts[k];
    var before := used + Flat(drafts[..k], DraftMembers);
    assert drafts[..k + 1] == drafts[..k] + [d] && drafts[..k + 1][..k] == drafts[..k];
    assert used + Flat(drafts[..k + 1], DraftMembers) == before + d.articles;
    OnceParts(before, d.articles);
  }

  lemma GroupsPrefix(drafts: seq<Draft>, k: nat, used: seq<Id>, notes: Notes)
    requires k <= |drafts| && Groups(drafts, used, notes)
    ensures Groups(drafts[..k], used, notes)
  {
    assert drafts == drafts[..k] + drafts[k..];
    FlatConcat(drafts[..k], drafts[k..], DraftMembers);
    var all := Flat(drafts[..k], DraftMembers) + Flat(drafts[k..], DraftMembers);
    assert used + all == (used + Flat(drafts[..k], DraftMembers)) + Flat(drafts[k..], DraftMembers);
    OnceParts(used + Flat(drafts[..k], DraftMembers), Flat(drafts[k..], DraftMembers));
  }

  lemma UsedNext(drafts: seq<Draft>, k: nat, used: seq<Id>)
    requires k < |drafts|
    ensures Set(used + Flat(drafts[..k + 1], DraftMembers))
         == Set(used + Flat(drafts[..k], DraftMembers)) + Set(drafts[k].articles)
  {
    assert drafts[..k + 1][..k] == drafts[..k];
    assert used + Flat(drafts[..k + 1], DraftMembers) == (used + Flat(drafts[..k], DraftMembers)) + drafts[k].articles;
  }

  method TakeGroup(kind: StoryKind, d: Draft, notes: Notes, spans: Spans, earlier: set<Id>)
    returns (ok: bool, taken: set<Id>, story: Story)
    ensures ok <==> DraftOk(d, notes) && Takes(d.articles, notes, earlier)
    ensures ok ==> taken == earlier + Set(d.articles) && story == StoryOf(kind, d, notes, spans)
  {
    story := Story(Unset, kind, d.title, d.summary, d.primary, d.articles, []);
    if |d.articles| == 0 || |d.articles| > 100 { return false, {}, story; }
    var evidence;
    ok, taken, evidence := TakeMembers(d.articles, notes, spans, earlier);
    ok := ok && d.primary in d.articles;
    story := story.(evidence := evidence);
  }

  /** One pass of the group loop, for the groups of one kind; `used` are the articles in earlier groups. */
  method TakeGroups(kind: StoryKind, drafts: seq<Draft>, notes: Notes, spans: Spans, earlier: set<Id>,
                    ghost used: seq<Id>)
    returns (ok: bool, taken: set<Id>, stories: seq<Story>)
    requires earlier == Set(used) && Once(used)
    ensures ok <==> Groups(drafts, used, notes)
    ensures ok ==> taken == Set(used + Flat(drafts, DraftMembers))
    ensures ok ==> stories == Each(drafts, Teller(kind, notes, spans))
  {
    taken, stories := earlier, [];
    assert used + [] == used;
    var k := 0;
    while k < |drafts|
      invariant 0 <= k <= |drafts| && Groups(drafts[..k], used, notes)
      invariant taken == Set(used + Flat(drafts[..k], DraftMembers))
      invariant stories == Each(drafts[..k], Teller(kind, notes, spans))
    {
      GroupsNext(drafts, k, used, notes);
      UsedNext(drafts, k, used);
      EachNext(drafts, k, Teller(kind, notes, spans));
      var fits, story;
      fits, taken, story := TakeGroup(kind, drafts[k], notes, spans, taken);
      if !fits {
        if Groups(drafts, used, notes) { GroupsPrefix(drafts, k + 1, used, notes); }
        return false, {}, [];
      }
      stories := stories + [story];
      k := k + 1;
    }
    assert drafts[..k] == drafts;
    ok := true;
  }

  lemma IdsNext(articles: seq<Article>, k: nat)
    requires k < |articles|
    ensures Ids(articles[..k + 1]) == Ids(articles[..k]) + [articles[k].id]
  {}

  method ExpectedIds(articles: seq<Article>) returns (expected: set<Id>)
    ensures expected == Set(Ids(articles))
  {
    expected := {};
    for k := 0 to |articles|
      invariant expected == Set(Ids(articles[..k]))
    {
      IdsNext(articles, k);
      expected := expected + {articles[k].id};
    }
    assert articles[..|articles|] == articles;
  }

  /** The loop over the model's notes, in any order. */
  method EachNoteOk(expected: set<Id>, notes: Notes, spans: Spans) returns (ok: bool)
    ensures ok <==> forall id <- notes :: id in expected && NoteOk(id, notes[id], spans)
  {
    var rest := notes.Keys;
    while rest != {}
      invariant rest <= notes.Keys
      invariant forall id <- notes :: id in rest || (id in expected && NoteOk(id, notes[id], spans))
    {
      var id :| id in rest;
      if id !in expected || !NoteOk(id, notes[id], spans) { return false; }
      rest := rest - {id};
    }
    ok := true;
  }

  method AllNoted(expected: set<Id>, notes: Notes) returns (ok: bool)
    ensures ok <==> expected <= notes.Keys
  {
    var rest := expected;
    while rest != {}
      invariant rest <= expected && forall id <- expected :: id in rest || id in notes
    {
      var id :| id in rest;
      if id !in notes { return false; }
      rest := rest - {id};
    }
    ok := true;
  }

  method CheckNotes(articles: seq<Article>, notes: Notes, spans: Spans) returns (ok: bool)
    ensures ok <==> NotesOk(articles, notes, spans)
  {
    var expected := ExpectedIds(articles);
    if |notes| != |expected| {
      assert NotesOk(articles, notes, spans) ==> notes.Keys == expected;
      return false;
    }
    ok := EachNoteOk(expected, notes, spans);
    if ok { ok := AllNoted(expected, notes); }
  }

  lemma SinglesNext(articles: seq<Article>, k: nat, taken: seq<Id>, notes: Notes, spans: Spans)
    requires k < |articles|
    ensures Singles(articles[..k + 1], taken, notes, spans)
         == Singles(articles[..k], taken, notes, spans)
            + if articles[k].id in taken || articles[k].id in Ids(articles[..k]) then []
              else [Single(articles[k], notes, spans)]
  {
    assert articles[..k + 1][..k] == articles[..k];
  }

  lemma SeenNext(articles: seq<Article>, k: nat)
    requires k < |articles|
    ensures Set(Ids(articles[..k + 1])) == Set(Ids(articles[..k])) + {articles[k].id}
  {
    IdsNext(articles, k);
  }

  method AddSingles(articles: seq<Article>, earlier: set<Id>, notes: Notes, spans: Spans, ghost used: seq<Id>)
    returns (stories: seq<Story>)
    requires earlier == Set(used)
    ensures stories == Singles(articles, used, notes, spans)
  {
    stories := [];
    var taken := earlier;
    for k := 0 to |articles|
      invariant taken == Set(used) + Set(Ids(articles[..k])) && stories == Singles(articles[..k], used, notes, spans)
    {
      var a := articles[k];
      SeenNext(articles, k);
      SinglesNext(articles, k, used, notes, spans);
      if a.id !in taken {
        taken, stories := taken + {a.id}, stories + [Single(a, notes, spans)];
      }
    }
    assert articles[..|articles|] == articles;
  }

  method StorySnapshotIndex(ids: seq<Id>, index: map<Id, nat>) returns (least: nat)
    ensures least == SnapshotIndex(ids, index)
  {
    least := |index|;
    for k := 0 to |ids|
      invariant least == SnapshotIndex(ids[..k], index)
    {
      assert ids[..k + 1][..k] == ids[..k];
      if ids[k] in index && index[ids[k]] < least { least := index[ids[k]]; }
    }
    assert ids[..|ids|] == ids;
  }

  lemma {:induction false} LeadingMainsAre(stories: seq<Story>, n: nat)
    requires n <= |stories| && (forall k | 0 <= k < n :: stories[k].kind == MainStory)
    requires n < |stories| ==> stories[n].kind != MainStory
    ensures LeadingMains(stories) == n
    decreases n
  {
    if n > 0 { LeadingMainsAre(stories[1..], n - 1); }
  }

  /** The sort itself is the library's stable sort. */
  method OrderStories(stories: seq<Story>, articles: seq<Article>) returns (r: seq<Story>)
    ensures r == Ordered(stories, articles)
  {
    var index: map<Id, nat> := map[];
    for k := 0 to |articles|
      invariant index == Index(articles[..k])
    {
      assert articles[..k + 1][..k] == articles[..k];
      index := index[articles[k].id := k];
    }
    assert articles[..|articles|] == articles;
    var n := 0;
    while n < |stories| && stories[n].kind == MainStory
      invariant 0 <= n <= |stories| && forall k | 0 <= k < n :: stories[k].kind == MainStory
    {
      n := n + 1;
    }
    LeadingMainsAre(stories, n);
    r := stories[..n] + Sort(stories[n..], BySnapshot(Members, index));
  }

  lemma GroupsBoth(mains: seq<Draft>, briefs: seq<Draft>, notes: Notes)
    ensures GroupsOk(mains + briefs, notes)
       <==> Groups(mains, [], notes) && Groups(briefs, Flat(mains, DraftMembers), notes)
  {
    FlatConcat(mains, briefs, DraftMembers);
    assert [] + Flat(mains, DraftMembers) == Flat(mains, DraftMembers);
    OnceParts(Flat(mains, DraftMembers), Flat(briefs, DraftMembers));
    assert forall d <- mains :: d in mains + briefs;
    assert forall d <- briefs :: d in mains + briefs;
  }

  method ResolveModelStories(articles: seq<Article>, mains: Option<seq<Draft>>, briefs: Option<seq<Draft>>,
                             notes: Notes,
                             spans: Spans)
    returns (r: Option<seq<Story>>)
    ensures r == Resolve(articles, mains, briefs, notes, spans)
  {
    if mains.None? || briefs.None? { return None; }
    var known := CheckNotes(articles, notes, spans);
    if !known { return None; }
    GroupsBoth(mains.value, briefs.value, notes);
    FlatConcat(mains.value, briefs.value, DraftMembers);
    ghost var used := Flat(mains.value, DraftMembers);
    assert [] + used == used;
    var fits, taken, leading := TakeGroups(MainStory, mains.value, notes, spans, {}, []);
    if !fits { return None; }
    var grouped;
    fits, taken, grouped := TakeGroups(BriefStory, briefs.value, notes, spans, taken, used);
    if !fits { return None; }
    var single := AddSingles(articles, taken, notes, spans, Flat(mains.value + briefs.value, DraftMembers));
    var stories := OrderStories(leading + grouped + single, articles);
    r := Some(stories);
  }
}
