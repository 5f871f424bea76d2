/**
 What is asked of a model's answer and of an edition, in numbers and positions
 (go-editorial/editorial/gemini.go:235-304, go-editorial/editorial/validate.go:40-183).
 */
module EditionRules {
  import opened Prelude
  import opened TextSize
  import opened Permutation
  import opened EvidenceSpans
  import opened Stories
  import opened Editions

  /** Something to read, of at most this many bytes. */
  predicate Readable(s: string, bytes: nat) {
    (exists i :: 0 <= i < |s| && !IsSpace(s[i])) && Cost(Utf8, s) <= bytes
  }

  lemma BlankReads(s: string)
    ensures !Blank(s) <==> exists i :: 0 <= i < |s| && !IsSpace(s[i])
  {
    if !Blank(s) {
      var c :| c in s && !IsSpace(c);
      var i :| 0 <= i < |s| && s[i] == c;
    }
  }

  // ---------- answers ----------

  /** A usable note on the article: a readable brief, and a span of the same article. */
  predicate Usable(id: Id, n: Note, spans: Spans) {
    n.span in spans && spans[n.span].article == id && Readable(n.brief, 2000)
  }

  /** One usable note for each article of the snapshot, and for nothing else. */
  ghost predicate EachNoted(articles: seq<Article>, notes: Notes, spans: Spans) {
    && (forall k | 0 <= k < |articles| :: articles[k].id in notes)
    && (forall id <- notes ::
          (exists k :: 0 <= k < |articles| && articles[k].id == id) && Usable(id, notes[id], spans))
  }

  /** Groups of 1 to 100 noted articles with a primary among them, no article twice. */
  ghost predicate WellGrouped(drafts: seq<Draft>, notes: Notes) {
    && (forall d <- drafts ::
          1 <= |d.articles| <= 100 && d.primary in d.articles && forall id <- d.articles :: id in notes)
    && forall id :: multiset(Flat(drafts, DraftMembers))[id] <= 1
  }

  lemma GroupsRead(drafts: seq<Draft>, notes: Notes)
    ensures GroupsOk(drafts, notes) <==> WellGrouped(drafts, notes)
  {
    OnceReads(Flat(drafts, DraftMembers));
  }

  /** An answer resolves exactly when its notes and its groups are what they have to be. */
  lemma ResolvesIff(articles: seq<Article>, mains: seq<Draft>, briefs: seq<Draft>, notes: Notes, spans: Spans)
    ensures Resolve(articles, Some(mains), Some(briefs), notes, spans).Some?
       <==> EachNoted(articles, notes, spans) && WellGrouped(mains + briefs, notes)
  {
    NotesRead(articles, notes, spans);
    GroupsRead(mains + briefs, notes);
  }

  lemma OnceReads(ids: seq<Id>)
    ensures Once(ids) <==> forall id :: multiset(ids)[id] <= 1
  {
    if Once(ids) {
      forall id ensures multiset(ids)[id] <= 1 {
        assert multiset(ids)[id] > 0 ==> id in ids;
      }
    } else {
      var id :| id in ids && multiset(ids)[id] != 1;
      assert id in multiset(ids);
    }
  }

  lemma NotesRead(articles: seq<Article>, notes: Notes, spans: Spans)
    ensures NotesOk(articles, notes, spans) <==> EachNoted(articles, notes, spans)
  {
    forall id <- notes ensures NoteOk(id, notes[id], spans) <==> Usable(id, notes[id], spans) {
      BlankReads(notes[id].brief);
    }
    forall id ensures id in Ids(articles) <==> exists k :: 0 <= k < |articles| && articles[k].id == id {
      IdReads(articles, id);
    }
    forall k | 0 <= k < |articles| ensures articles[k].id in Ids(articles) {
      assert Ids(articles)[k] == articles[k].id;
    }
  }

  lemma IdReads(articles: seq<Article>, id: Id)
    ensures id in Ids(articles) <==> exists k :: 0 <= k < |articles| && articles[k].id == id
  {
    if id in Ids(articles) {
      var k :| 0 <= k < |Ids(articles)| && Ids(articles)[k] == id;
      assert articles[k].id == id;
    }
    if k :| 0 <= k < |articles| && articles[k].id == id {
      assert Ids(articles)[k] == id;
    }
  }

  // ---------- snapshots ----------

  /** A snapshot: 1 to 500 articles with different ids, each with a readable title and a bounded summary. */
  lemma SnapshotDecides(articles: seq<Article>)
    ensures SnapshotOk(articles)
       <==> && 1 <= |articles| <= 500
            && (forall i, j | 0 <= i < j < |articles| :: articles[i].id != articles[j].id)
            && forall k | 0 <= k < |articles| ::
                 Readable(articles[k].title, 1000) && Cost(Utf8, articles[k].summary) <= 10000
  {
    forall k | 0 <= k < |articles|
      ensures ArticleOk(articles[k]) <==> Readable(articles[k].title, 1000) && Cost(Utf8, articles[k].summary) <= 10000
    {
      BlankReads(articles[k].title);
    }
    DifferentIds(articles);
    assert (forall a <- articles :: ArticleOk(a)) <==> forall k | 0 <= k < |articles| :: ArticleOk(articles[k]) by {
      forall k | 0 <= k < |articles| ensures articles[k] in articles {}
    }
  }

  lemma {:induction false} DifferentIds(articles: seq<Article>)
    ensures Once(Ids(articles)) <==> forall i, j | 0 <= i < j < |articles| :: articles[i].id != articles[j].id
  {
    if articles != [] {
      var n := |articles| - 1;
      DifferentIds(articles[..n]);
      IdsNext(articles, n);
      assert articles[..n + 1] == articles;
      OnceParts(Ids(articles[..n]), [articles[n].id]);
      assert Once([articles[n].id]);
      IdReads(articles[..n], articles[n].id);
      assert forall i | 0 <= i < n :: articles[..n][i] == articles[i];
    }
  }

  // ---------- editions ----------

  predicate Written(s: string) {
    exists i :: 0 <= i < |s| && !IsSpace(s[i])
  }

  ghost predicate Contains(whole: string, part: string) {
    exists i, j :: 0 <= i <= j <= |whole| && whole[i..j] == part
  }

  /** A quote from the summary of the article, or when its basis is not told from the text shown for it. */
  ghost predicate Quoted(ev: Evidence, a: Article) {
    && ev.article == a.id && Written(ev.quote) && |ev.quote| <= 500
    && match ev.basis
       case OtherBasis => false
       case FromSummary => Contains(a.summary, ev.quote)
       case Unrecorded =>
         Contains(if Written(a.content) then a.content else if Written(a.summary) then a.summary else a.title, ev.quote)
  }

  lemma QuoteReads(ev: Evidence, a: Article)
    requires QuoteOk(ev, a) && ev.article == a.id
    ensures Quoted(ev, a)
  {
    BlankReads(ev.quote);
    BlankReads(a.content);
    BlankReads(a.summary);
    var whole := if ev.basis == FromSummary then a.summary else PreferredText(a);
    var i :| 0 <= i <= |whole| && OccursAt(ev.quote, whole, i);
    assert whole[i..i + |ev.quote|] == ev.quote;
  }

  /** The article of the snapshot behind an id. */
  lemma {:induction false} ByIdReads(articles: seq<Article>, id: Id)
    ensures id in ById(articles) <==> exists k :: 0 <= k < |articles| && articles[k].id == id
    ensures id in ById(articles) ==> ById(articles)[id] in articles && ById(articles)[id].id == id
  {
    if articles != [] {
      var n := |articles| - 1;
      ByIdReads(articles[..n], id);
      assert articles == articles[..n] + [articles[n]];
      if k :| 0 <= k < n && articles[k].id == id { assert articles[..n][k].id == id; }
    }
  }

  function Mains(stories: seq<Story>): set<nat> {
    set i: nat | i < |stories| && stories[i].kind == MainStory
  }

  lemma {:induction false} MainsCounted(stories: seq<Story>)
    ensures MainCount(stories) == |Mains(stories)|
  {
    if stories != [] {
      var n := |stories| - 1;
      MainsCounted(stories[..n]);
      assert Mains(stories) == Mains(stories[..n]) + if stories[n].kind == MainStory then {n} else {};
    }
  }

  /** A story with its texts, members and quotes in order. */
  ghost predicate Presentable(s: Story, articles: seq<Article>, locale: Locale, prose: Prose) {
    && Readable(s.title, 2000) && Readable(s.summary, 2000) && (locale == Serbian ==> prose(s.title + "\n" + s.summary))
    && 1 <= |s.articles| <= 100 && s.primary in s.articles
    && (forall id <- s.articles :: exists k :: 0 <= k < |articles| && articles[k].id == id)
    && EachQuoted(s, articles, locale)
  }

  /** One quote for each member and for nothing else, each of its own article and in the right language. */
  ghost predicate EachQuoted(s: Story, articles: seq<Article>, locale: Locale) {
    && |s.evidence| <= 100
    && (forall id <- s.articles :: multiset(Each(s.evidence, Source))[id] == 1)
    && forall ev <- s.evidence ::
         ev.article in s.articles && (locale == Serbian ==> ev.locale == Some(Serbian))
         && (ev.locale == None || ev.locale == Some(locale)) && exists a <- articles :: Quoted(ev, a)
  }

  lemma EvidenceReads(ev: Evidence, s: Story, articles: seq<Article>, locale: Locale)
    requires EvidenceOk(ev, s, ById(articles), locale)
    ensures exists a <- articles :: Quoted(ev, a)
  {
    ByIdReads(articles, ev.article);
    QuoteReads(ev, ById(articles)[ev.article]);
  }

  lemma QuotesRead(s: Story, articles: seq<Article>, locale: Locale)
    requires EvidencesOk(s, ById(articles), locale)
    ensures EachQuoted(s, articles, locale)
  {
    forall ev <- s.evidence ensures exists a <- articles :: Quoted(ev, a) { EvidenceReads(ev, s, articles, locale); }
  }

  lemma StoryReads(s: Story, articles: seq<Article>, locale: Locale, prose: Prose)
    requires StoryOk(s, ById(articles), locale, prose)
    ensures Presentable(s, articles, locale, prose)
  {
    BlankReads(s.title);
    BlankReads(s.summary);
    forall id <- s.articles ensures exists k :: 0 <= k < |articles| && articles[k].id == id { ByIdReads(articles, id); }
    QuotesRead(s, articles, locale);
  }

  /** What validation guarantees of an edition. */
  lemma ValidMeans(articles: seq<Article>, locale: Locale, e: Edition, prose: Prose)
    requires Valid(articles, locale, e, prose)
    ensures 1 <= |articles| <= 500 && locale == e.locale && (locale == Russian || locale == Serbian)
    ensures |e.stories| <= |articles| && |Mains(e.stories)| <= 5
    ensures forall a <- articles :: Readable(a.title, 1000) && Cost(Utf8, a.summary) <= 10000
    ensures forall s <- e.stories :: Presentable(s, articles, locale, prose)
    ensures forall x <- e.excluded ::
              x.reason != OtherReason && exists k :: 0 <= k < |articles| && articles[k].id == x.article
    ensures forall k | 0 <= k < |articles| ::
              multiset(Flat(e.stories, Members) + Each(e.excluded, ExcludedId))[articles[k].id] == 1
  {
    MainsCounted(e.stories);
    forall x <- e.excluded ensures exists k :: 0 <= k < |articles| && articles[k].id == x.article {
      ByIdReads(articles, x.article);
    }
    forall a <- articles ensures Readable(a.title, 1000) { BlankReads(a.title); }
    forall s <- e.stories ensures Presentable(s, articles, locale, prose) { StoryReads(s, articles, locale, prose); }
    forall k | 0 <= k < |articles|
      ensures multiset(Flat(e.stories, Members) + Each(e.excluded, ExcludedId))[articles[k].id] == 1
    {
      ByIdReads(articles, articles[k].id);
    }
  }
}
