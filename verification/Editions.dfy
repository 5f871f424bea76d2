/**
 Validating and finishing an edition, and comparing two of them
 (go-editorial/editorial/validate.go, go-editorial/editorial/localization.go).
 */
module Editions {
  import opened Prelude
  import opened TextSize
  import opened Ordering
  import opened Permutation
  import opened EvidenceSpans
  import opened Stories

  const MAX_MAIN_STORIES: nat := 5

  datatype Reason = Advertisement | NotNews | InsufficientContent | OtherReason

  datatype Exclusion = Exclusion(article: Id, reason: Reason)

  datatype Edition = Edition(locale: Locale, stories: seq<Story>, excluded: seq<Exclusion>)

  /** Whether a text is acceptable Serbian prose in Latin script. */
  type Prose = string -> bool

  predicate ArticleOk(a: Article) {
    !Blank(a.title) && Cost(Utf8, a.title) <= 1000 && Cost(Utf8, a.summary) <= 10000
  }

  /** The parts of ValidateSnapshot that the edition depends on. */
  predicate SnapshotOk(articles: seq<Article>) {
    1 <= |articles| <= 500 && Once(Ids(articles)) && forall a <- articles :: ArticleOk(a)
  }

  /** What StoryID hashes: the kind and the sorted members. */
  function IdFor(kind: StoryKind, articles: seq<Id>): StoryId {
    StoryId(kind, Sort(articles, Less))
  }

  /** StoryID sorts a copy, so that the caller's list keeps its order. */
  method StoryIdOf(kind: StoryKind, articles: seq<Id>) returns (id: StoryId)
    ensures id == IdFor(kind, articles)
  {
    var ids := new Id[|articles|](i requires 0 <= i < |articles| => articles[i]);
    assert ids[..] == articles;
    SortStrings(ids);
    id := StoryId(kind, ids[..]);
  }

  function PreferredText(a: Article): string {
    if !Blank(a.content) then a.content else if !Blank(a.summary) then a.summary else a.title
  }

  function ById(articles: seq<Article>): map<Id, Article> {
    if articles == [] then map[]
    else ById(articles[..|articles| - 1])[articles[|articles| - 1].id := articles[|articles| - 1]]
  }

  predicate QuoteOk(ev: Evidence, a: Article) {
    && !Blank(ev.quote) && |ev.quote| <= MAX_EVIDENCE
    && match ev.basis
       case Unrecorded => Substring(ev.quote, PreferredText(a))
       case FromSummary => Substring(ev.quote, a.summary)
       case OtherBasis => false
  }

  predicate EvidenceOk(ev: Evidence, s: Story, known: map<Id, Article>, locale: Locale) {
    && (locale == Serbian ==> ev.locale == Some(Serbian)) && (ev.locale.Some? ==> ev.locale.value == locale)
    && ev.article in known && ev.article in s.articles && QuoteOk(ev, known[ev.article])
  }

  function Source(ev: Evidence): Id {
    ev.article
  }

  predicate EachEvidenceOk(s: Story, known: map<Id, Article>, locale: Locale) {
    forall ev <- s.evidence :: EvidenceOk(ev, s, known, locale)
  }

  predicate EvidencesOk(s: Story, known: map<Id, Article>, locale: Locale) {
    && 1 <= |s.evidence| <= 100 && EachEvidenceOk(s, known, locale)
    && Once(Each(s.evidence, Source)) && (forall id <- s.articles :: id in Each(s.evidence, Source))
  }

  predicate TextsOk(s: Story, locale: Locale, prose: Prose) {
    (locale == Serbian ==> prose(s.title + "\n" + s.summary)) && TextOk(s.title) && TextOk(s.summary)
  }

  /** What one story is checked for, besides which articles other stories hold. */
  predicate StoryOk(s: Story, known: map<Id, Article>, locale: Locale, prose: Prose) {
    && TextsOk(s, locale, prose) && 1 <= |s.articles| <= 100
    && s.id == IdFor(s.kind, s.articles) && (forall id <- s.articles :: id in known) && s.primary in s.articles
    && EvidencesOk(s, known, locale)
  }

  function MainCount(stories: seq<Story>): nat {
    if stories == [] then 0
    else MainCount(stories[..|stories| - 1]) + if stories[|stories| - 1].kind == MainStory then 1 else 0
  }

  function ExcludedId(x: Exclusion): Id {
    x.article
  }

  predicate ExclusionOk(x: Exclusion, known: map<Id, Article>) {
    x.reason != OtherReason && x.article in known
  }

  predicate AllStoriesOk(stories: seq<Story>, known: map<Id, Article>, locale: Locale, prose: Prose) {
    forall s <- stories :: StoryOk(s, known, locale, prose)
  }

  /** Every known article is in exactly one story or exclusion. */
  predicate Placed(e: Edition, known: map<Id, Article>) {
    var placed := Flat(e.stories, Members) + Each(e.excluded, ExcludedId);
    Once(placed) && forall id <- known :: id in placed
  }

  /** ValidateEdition. */
  predicate Valid(articles: seq<Article>, locale: Locale, e: Edition, prose: Prose) {
    var known := ById(articles);
    && SnapshotOk(articles) && e.locale == locale && locale != OtherLocale
    && |e.stories| <= |articles| && MainCount(e.stories) <= MAX_MAIN_STORIES
    && AllStoriesOk(e.stories, known, locale, prose) && (forall x <- e.excluded :: ExclusionOk(x, known))
    && Placed(e, known)
  }

  // ---------- the loops of ValidateEdition ----------

  /** Good items whose keys are new and differ from one another. */
  ghost predicate Admits<T>(items: seq<T>, key: T -> Id, good: T -> bool, earlier: set<Id>) {
    items == [] ||
    var n := |items| - 1;
    Admits(items[..n], key, good, earlier) && good(items[n]) && key(items[n]) !in earlier + Set(Each(items[..n], key))
  }

  lemma OnceNext(ids: seq<Id>, k: nat)
    requires k < |ids|
    ensures Once(ids[..k + 1]) <==> Once(ids[..k]) && ids[k] !in Set(ids[..k])
  {
    assert ids[..k + 1] == ids[..k] + [ids[k]];
    OnceParts(ids[..k], [ids[k]]);
    assert Once([ids[k]]);
  }

  ghost predicate AllNew<T>(items: seq<T>, key: T -> Id, good: T -> bool, earlier: set<Id>) {
    forall x | x in items :: good(x) && key(x) !in earlier
  }

  lemma AllNewNext<T>(items: seq<T>, key: T -> Id, good: T -> bool, earlier: set<Id>)
    requires items != []
    ensures var n := |items| - 1;
            AllNew(items, key, good, earlier)
            <==> AllNew(items[..n], key, good, earlier) && good(items[n]) && key(items[n]) !in earlier
  {
    assert items == items[..|items| - 1] + [items[|items| - 1]];
  }

  lemma OnceEachNext<T>(items: seq<T>, key: T -> Id)
    requires items != []
    ensures var n := |items| - 1;
            Once(Each(items, key)) <==> Once(Each(items[..n], key)) && key(items[n]) !in Set(Each(items[..n], key))
  {
    var n, ids := |items| - 1, Each(items, key);
    assert ids[..n + 1] == ids && ids[..n] == Each(items[..n], key);
    OnceNext(ids, n);
  }

  lemma {:induction false} AdmitsMeans<T>(items: seq<T>, key: T -> Id, good: T -> bool, earlier: set<Id>)
    ensures Admits(items, key, good, earlier) <==> AllNew(items, key, good, earlier) && Once(Each(items, key))
  {
    if items != [] {
      AdmitsMeans(items[..|items| - 1], key, good, earlier);
      AllNewNext(items, key, good, earlier);
      OnceEachNext(items, key);
    }
  }

  lemma KeysNext<T>(items: seq<T>, k: nat, key: T -> Id)
    requires k < |items|
    ensures Set(Each(items[..k + 1], key)) == Set(Each(items[..k], key)) + {key(items[k])}
  {
    EachNext(items, k, key);
  }

  /** One more item is admitted if it is good and its key is new. */
  lemma AdmitsNext<T>(items: seq<T>, k: nat, key: T -> Id, good: T -> bool, earlier: set<Id>)
    requires k < |items|
    ensures Admits(items[..k + 1], key, good, earlier)
       <==> Admits(items[..k], key, good, earlier) && good(items[k])
            && key(items[k]) !in earlier + Set(Each(items[..k], key))
  {
    assert items[..k + 1][..k] == items[..k];
  }

  /** The keys taken so far, with those of an earlier list. */
  lemma TakenNext<T>(items: seq<T>, k: nat, key: T -> Id, earlier: set<Id>)
    requires k < |items|
    ensures earlier + Set(Each(items[..k + 1], key)) == earlier + Set(Each(items[..k], key)) + {key(items[k])}
  {
    KeysNext(items, k, key);
  }

  lemma {:induction false} AdmitsPrefix<T>(items: seq<T>, k: nat, key: T -> Id, good: T -> bool, earlier: set<Id>)
    requires k <= |items| && Admits(items, key, good, earlier)
    ensures Admits(items[..k], key, good, earlier)
    decreases |items|
  {
    if k < |items| {
      AdmitsPrefix(items[..|items| - 1], k, key, good, earlier);
      assert items[..|items| - 1][..k] == items[..k];
    } else {
      assert items[..k] == items;
    }
  }

  lemma RefusedForGood<T>(items: seq<T>, k: nat, key: T -> Id, good: T -> bool, earlier: set<Id>)
    requires k < |items| && !Admits(items[..k + 1], key, good, earlier)
    ensures !Admits(items, key, good, earlier)
  {
    if Admits(items, key, good, earlier) { AdmitsPrefix(items, k + 1, key, good, earlier); }
  }

  /** The loops over members, quotes and exclusions: stop at the first item that is bad or repeated. */
  method AdmitAll<T>(items: seq<T>, key: T -> Id, good: T -> bool, earlier: set<Id>) returns (ok: bool, taken: set<Id>)
    ensures ok <==> Admits(items, key, good, earlier)
    ensures ok ==> taken == earlier + Set(Each(items, key))
  {
    taken := earlier;
    var k := 0;
    while k < |items|
      invariant 0 <= k <= |items| && Admits(items[..k], key, good, earlier)
      invariant taken == earlier + Set(Each(items[..k], key))
    {
      AdmitsNext(items, k, key, good, earlier);
      TakenNext(items, k, key, earlier);
      if !good(items[k]) || key(items[k]) in taken {
        RefusedForGood(items, k, key, good, earlier);
        return false, {};
      }
      taken := taken + {key(items[k])};
      k := k + 1;
    }
    assert items[..k] == items;
    ok := true;
  }

  function Self(id: Id): Id {
    id
  }

  lemma EachSelf(ids: seq<Id>)
    ensures Each(ids, Self) == ids
  {}

  /** The members of one story, none of them in an earlier one. */
  method CheckMembers(ids: seq<Id>, known: map<Id, Article>, earlier: set<Id>) returns (ok: bool, taken: set<Id>)
    ensures ok <==> (forall id <- ids :: id in known && id !in earlier) && Once(ids)
    ensures ok ==> taken == earlier + Set(ids)
  {
    EachSelf(ids);
    AdmitsMeans(ids, Self, id => id in known, earlier);
    ok, taken := AdmitAll(ids, Self, id => id in known, earlier);
  }

  lemma Covers(ids: seq<Id>, sources: seq<Id>)
    ensures Set(ids) <= Set(sources) <==> forall id <- ids :: id in sources
  {
    if Set(ids) <= Set(sources) {
      forall id <- ids ensures id in sources { assert id in Set(ids); }
    }
  }

  lemma AdmitsEvidence(s: Story, known: map<Id, Article>, locale: Locale)
    ensures Admits(s.evidence, Source, ev => EvidenceOk(ev, s, known, locale), {})
       <==> EachEvidenceOk(s, known, locale) && Once(Each(s.evidence, Source))
  {
    AdmitsMeans(s.evidence, Source, ev => EvidenceOk(ev, s, known, locale), {});
  }

  method AllSeen(ids: seq<Id>, seen: set<Id>) returns (ok: bool)
    ensures ok <==> Set(ids) <= seen
  {
    ok := true;
    for j := 0 to |ids|
      invariant ok <==> Set(ids[..j]) <= seen
    {
      SetNext(ids, j);
      if ids[j] !in seen { ok := false; }
    }
    assert ids[..|ids|] == ids;
  }

  /** The quotes of a story: each sound, no two for one article, none missing. */
  method CheckEvidence(s: Story, known: map<Id, Article>, locale: Locale) returns (ok: bool)
    ensures ok <==> EvidencesOk(s, known, locale)
  {
    if |s.evidence| == 0 || |s.evidence| > 100 { return false; }
    var seen;
    AdmitsEvidence(s, known, locale);
    ok, seen := AdmitAll(s.evidence, Source, ev => EvidenceOk(ev, s, known, locale), {});
    if !ok { return; }
    ok := AllSeen(s.articles, seen);
    Covers(s.articles, Each(s.evidence, Source));
  }

  /** One turn of the loop over stories. */
  method CheckStory(s: Story, known: map<Id, Article>, locale: Locale, prose: Prose, earlier: set<Id>)
    returns (ok: bool, taken: set<Id>)
    ensures ok <==> StoryOk(s, known, locale, prose) && Once(s.articles) && forall id <- s.articles :: id !in earlier
    ensures ok ==> taken == earlier + Set(s.articles)
  {
    if !TextsOk(s, locale, prose) || |s.articles| == 0 || |s.articles| > 100 || s.id != IdFor(s.kind, s.articles) {
      return false, {};
    }
    ok, taken := CheckMembers(s.articles, known, earlier);
    if ok && s.primary in s.articles {
      ok := CheckEvidence(s, known, locale);
    } else {
      ok := false;
    }
  }

  predicate StoriesOk(stories: seq<Story>, known: map<Id, Article>, locale: Locale, prose: Prose) {
    && AllStoriesOk(stories, known, locale, prose) && MainCount(stories) <= MAX_MAIN_STORIES
    && Once(Flat(stories, Members))
  }

  lemma StoriesNext(stories: seq<Story>, k: nat, known: map<Id, Article>, locale: Locale, prose: Prose)
    requires k < |stories|
    ensures MainCount(stories[..k]) <= MainCount(stories[..k + 1])
    ensures StoriesOk(stories[..k + 1], known, locale, prose)
       <==> && StoriesOk(stories[..k], known, locale, prose) && MainCount(stories[..k + 1]) <= MAX_MAIN_STORIES
            && StoryOk(stories[k], known, locale, prose) && Once(stories[k].articles)
            && forall id <- stories[k].articles :: id !in Set(Flat(stories[..k], Members))
    ensures Set(Flat(stories[..k + 1], Members)) == Set(Flat(stories[..k], Members)) + Set(stories[k].articles)
  {
    var front, s := stories[..k], stories[k];
    assert stories[..k + 1] == front + [s] && stories[..k + 1][..k] == front;
    assert Flat(stories[..k + 1], Members) == Flat(front, Members) + s.articles;
    OnceParts(Flat(front, Members), s.articles);
  }

  lemma {:induction false} StoriesPrefix(stories: seq<Story>, k: nat, known: map<Id, Article>, locale: Locale,
                                         prose: Prose)
    requires k <= |stories| && StoriesOk(stories, known, locale, prose)
    ensures StoriesOk(stories[..k], known, locale, prose)
    decreases |stories| - k
  {
    if k < |stories| {
      StoriesPrefix(stories, k + 1, known, locale, prose);
      StoriesNext(stories, k, known, locale, prose);
    } else {
      assert stories[..k] == stories;
    }
  }

  /** The next story: its place among the main stories, and then its own checks. */
  method CheckNext(stories: seq<Story>, k: nat, known: map<Id, Article>, locale: Locale, prose: Prose, mains: nat,
                   earlier: set<Id>)
    returns (fits: bool, count: nat, taken: set<Id>)
    requires k < |stories| && StoriesOk(stories[..k], known, locale, prose)
    requires mains == MainCount(stories[..k]) && earlier == Set(Flat(stories[..k], Members))
    ensures fits <==> StoriesOk(stories[..k + 1], known, locale, prose)
    ensures count == MainCount(stories[..k + 1])
    ensures fits ==> taken == Set(Flat(stories[..k + 1], Members))
  {
    StoriesNext(stories, k, known, locale, prose);
    assert stories[..k + 1][..k] == stories[..k];
    count := if stories[k].kind == MainStory then mains + 1 else mains;
    if count > MAX_MAIN_STORIES { return false, count, {}; }
    fits, taken := CheckStory(stories[k], known, locale, prose, earlier);
  }

  method CheckStories(stories: seq<Story>, known: map<Id, Article>, locale: Locale, prose: Prose)
    returns (ok: bool, taken: set<Id>)
    ensures ok <==> StoriesOk(stories, known, locale, prose)
    ensures ok ==> taken == Set(Flat(stories, Members))
  {
    taken := {};
    var mains, k := 0, 0;
    while k < |stories|
      invariant 0 <= k <= |stories| && mains == MainCount(stories[..k])
      invariant StoriesOk(stories[..k], known, locale, prose) && taken == Set(Flat(stories[..k], Members))
    {
      var fits;
      fits, mains, taken := CheckNext(stories, k, known, locale, prose, mains, taken);
      if !fits {
        if StoriesOk(stories, known, locale, prose) { StoriesPrefix(stories, k + 1, known, locale, prose); }
        return false, {};
      }
      k := k + 1;
    }
    assert stories[..k] == stories;
    ok := true;
  }

  ghost predicate Excludes(excluded: seq<Exclusion>, known: map<Id, Article>, earlier: set<Id>) {
    Admits(excluded, ExcludedId, x => ExclusionOk(x, known), earlier)
  }

  method IndexArticles(articles: seq<Article>) returns (known: map<Id, Article>)
    ensures known == ById(articles)
  {
    known := map[];
    for k := 0 to |articles|
      invariant known == ById(articles[..k])
    {
      assert articles[..k + 1][..k] == articles[..k];
      known := known[articles[k].id := articles[k]];
    }
    assert articles[..|articles|] == articles;
  }

  lemma ExcludesParts(excluded: seq<Exclusion>, used: seq<Id>, known: map<Id, Article>)
    ensures Once(used + Each(excluded, ExcludedId)) && (forall x <- excluded :: ExclusionOk(x, known))
       <==> Once(used) && Excludes(excluded, known, Set(used))
  {
    var ids := Each(excluded, ExcludedId);
    AdmitsMeans(excluded, ExcludedId, x => ExclusionOk(x, known), Set(used));
    OnceParts(used, ids);
    forall x <- excluded ensures x.article in ids {
      var k :| 0 <= k < |excluded| && excluded[k] == x;
      assert ids[k] == x.article;
    }
    forall id <- ids ensures exists x <- excluded :: x.article == id {
      var k :| 0 <= k < |ids| && ids[k] == id;
      assert excluded[k] in excluded;
    }
  }

  lemma CoverageParts(used: seq<Id>, ids: seq<Id>, known: map<Id, Article>)
    ensures (forall id <- known :: id in used + ids) <==> known.Keys <= Set(used) + Set(ids)
  {
    if known.Keys <= Set(used) + Set(ids) {
      forall id <- known ensures id in used + ids {
        assert id in known.Keys;
      }
    }
  }

  lemma PlacedParts(e: Edition, known: map<Id, Article>)
    ensures var used, ids := Flat(e.stories, Members), Each(e.excluded, ExcludedId);
            Placed(e, known) && (forall x <- e.excluded :: ExclusionOk(x, known))
            <==> Once(used) && Excludes(e.excluded, known, Set(used)) && known.Keys <= Set(used) + Set(ids)
  {
    ExcludesParts(e.excluded, Flat(e.stories, Members), known);
    CoverageParts(Flat(e.stories, Members), Each(e.excluded, ExcludedId), known);
  }

  lemma ValidParts(articles: seq<Article>, locale: Locale, e: Edition, prose: Prose)
    requires SnapshotOk(articles) && e.locale == locale && locale != OtherLocale && |e.stories| <= |articles|
    ensures var known, used := ById(articles), Flat(e.stories, Members);
            Valid(articles, locale, e, prose)
            <==> && StoriesOk(e.stories, known, locale, prose) && Excludes(e.excluded, known, Set(used))
                 && known.Keys <= Set(used) + Set(Each(e.excluded, ExcludedId))
  {
    PlacedParts(e, ById(articles));
  }

  method ValidateEdition(articles: seq<Article>, locale: Locale, e: Edition, prose: Prose) returns (ok: bool)
    ensures ok <==> Valid(articles, locale, e, prose)
  {
    if !SnapshotOk(articles) || locale == OtherLocale || e.locale != locale { return false; }
    if |e.stories| > |articles| { return false; }
    var known := IndexArticles(articles);
    ValidParts(articles, locale, e, prose);
    var taken;
    ok, taken := CheckStories(e.stories, known, locale, prose);
    if !ok { return; }
    ok, taken := AdmitAll(e.excluded, ExcludedId, x => ExclusionOk(x, known), taken);
    if !ok { return; }
    TakenAreKnown(e, known, locale, prose);
    CountTells(taken, known.Keys);
    ok := |taken| == |known| && known.Keys <= taken;
  }

  lemma CountTells(taken: set<Id>, known: set<Id>)
    requires taken <= known
    ensures known <= taken ==> |taken| == |known|
  {
    if known <= taken { assert known == taken; }
  }

  lemma MembersAreKnown(stories: seq<Story>, known: map<Id, Article>, locale: Locale, prose: Prose, id: Id)
    requires AllStoriesOk(stories, known, locale, prose) && id in Flat(stories, Members)
    ensures id in known
  {
    var k := FlatFrom(stories, Members, id);
    assert StoryOk(stories[k], known, locale, prose);
  }

  lemma ExcludedAreKnown(excluded: seq<Exclusion>, known: map<Id, Article>, earlier: set<Id>, id: Id)
    requires Excludes(excluded, known, earlier) && id in Each(excluded, ExcludedId)
    ensures id in known
  {
    AdmitsMeans(excluded, ExcludedId, x => ExclusionOk(x, known), earlier);
    var k :| 0 <= k < |excluded| && Each(excluded, ExcludedId)[k] == id;
    assert ExclusionOk(excluded[k], known);
  }

  /** Only known articles are ever placed, so that the count alone tells incomplete coverage. */
  lemma TakenAreKnown(e: Edition, known: map<Id, Article>, locale: Locale, prose: Prose)
    requires StoriesOk(e.stories, known, locale, prose) && Excludes(e.excluded, known, Set(Flat(e.stories, Members)))
    ensures Set(Flat(e.stories, Members)) + Set(Each(e.excluded, ExcludedId)) <= known.Keys
  {
    forall id | id in Flat(e.stories, Members) ensures id in known {
      MembersAreKnown(e.stories, known, locale, prose, id);
    }
    forall id | id in Each(e.excluded, ExcludedId) ensures id in known {
      ExcludedAreKnown(e.excluded, known, Set(Flat(e.stories, Members)), id);
    }
  }
}
