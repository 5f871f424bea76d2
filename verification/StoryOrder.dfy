/**
 The order of a resolved answer, told by positions in the snapshot: the main stories come in the
 order of the answer, the briefs in the order of the articles
 (go-editorial/editorial/gemini.go:300-349).
 */
module StoryOrder {
  import opened Prelude
  import opened Ordering
  import opened Permutation
  import opened EvidenceSpans
  import opened Stories
  import opened StoryCover

  /** A member of `first` is at a position before every member of `second`. */
  ghost predicate ComesBefore(articles: seq<Article>, first: seq<Id>, second: seq<Id>) {
    exists p :: 0 <= p < |articles| && articles[p].id in first
                && forall q | 0 <= q < |articles| && articles[q].id in second :: p < q
  }

  lemma {:induction false} NoEarlierMember(ids: seq<Id>, index: map<Id, nat>, id: Id)
    requires id in ids && id in index
    ensures SnapshotIndex(ids, index) <= index[id]
  {
    var n := |ids| - 1;
    if id != ids[n] { NoEarlierMember(ids[..n], index, id); }
  }

  lemma {:induction false} IndexAt(articles: seq<Article>, q: nat)
    requires Once(Ids(articles)) && q < |articles|
    ensures articles[q].id in Index(articles) && Index(articles)[articles[q].id] == q
  {
    var n := |articles| - 1;
    LastIsNew(articles);
    if q < n {
      IndexAt(articles[..n], q);
      assert articles[q].id == Ids(articles[..n])[q];
    }
  }

  /** Two groups that share no article stand as their snapshot indices say. */
  lemma IndexOrders(articles: seq<Article>, first: seq<Id>, second: seq<Id>)
    requires Once(Ids(articles)) && first != [] && forall id <- first :: id in Ids(articles) && id !in second
    requires SnapshotIndex(first, Index(articles)) <= SnapshotIndex(second, Index(articles))
    ensures ComesBefore(articles, first, second)
  {
    FirstPlace(first, articles);
    var p := SnapshotIndex(first, Index(articles));
    forall q | 0 <= q < |articles| && articles[q].id in second ensures p < q {
      IndexAt(articles, q);
      NoEarlierMember(second, Index(articles), articles[q].id);
    }
  }

  lemma NothingShared(s: seq<Story>, i: nat, j: nat, id: Id)
    requires Once(Flat(s, Members)) && i < |s| && j < |s| && i != j && id in s[i].articles
    ensures id !in s[j].articles
  {
    if id in s[j].articles {
      SharedAt(s, Members, i, j, id);
    }
  }

  lemma IndexSorted<T>(s: seq<T>, members: T -> seq<Id>, index: map<Id, nat>, i: nat, j: nat)
    requires Sorted(s, BySnapshot(members, index)) && i < j < |s|
    ensures SnapshotIndex(members(s[i]), index) <= SnapshotIndex(members(s[j]), index)
  {
    var less := BySnapshot(members, index);
    assert !less(s[j], s[i]);
  }

  /** A story whose articles are all in the snapshot. */
  predicate Placed(z: Story, articles: seq<Article>) {
    z.articles != [] && forall id <- z.articles :: id in Ids(articles)
  }

  /** A sorted list of stories without a common member follows the snapshot. */
  lemma SortedFollows(s: seq<Story>, articles: seq<Article>, i: nat, j: nat)
    requires Once(Ids(articles)) && Sorted(s, BySnapshot(Members, Index(articles))) && i < j < |s|
    requires Once(Flat(s, Members)) && Placed(s[i], articles)
    ensures ComesBefore(articles, s[i].articles, s[j].articles)
  {
    forall id <- s[i].articles ensures id !in s[j].articles { NothingShared(s, i, j, id); }
    IndexSorted(s, Members, Index(articles), i, j);
    assert Members(s[i]) == s[i].articles && Members(s[j]) == s[j].articles;
    IndexOrders(articles, s[i].articles, s[j].articles);
  }

  /** The stories behind the main ones, before they are put in order. */
  function Rest(articles: seq<Article>, mains: seq<Draft>, briefs: seq<Draft>, notes: Notes, spans: Spans): seq<Story> {
    Each(briefs, Teller(BriefStory, notes, spans)) + Singles(articles, Flat(mains + briefs, DraftMembers), notes, spans)
  }

  /** The answer in two halves: the main groups as they come, then the rest, sorted. */
  lemma ResolvedHalves(articles: seq<Article>, mains: seq<Draft>, briefs: seq<Draft>, notes: Notes, spans: Spans)
    requires Resolve(articles, Some(mains), Some(briefs), notes, spans).Some?
    ensures Resolve(articles, Some(mains), Some(briefs), notes, spans).value
         == Each(mains, Teller(MainStory, notes, spans))
            + Sort(Rest(articles, mains, briefs, notes, spans), BySnapshot(Members, Index(articles)))
  {
    UnorderedSplits(articles, mains, briefs, notes, spans);
    RestOutline(articles, mains, briefs, notes, spans);
    OrderedSplits(Each(mains, Teller(MainStory, notes, spans)), Rest(articles, mains, briefs, notes, spans), articles);
  }

  /** The sorted rest: briefs with articles of the snapshot, none of them twice. */
  lemma SortedRest(articles: seq<Article>, mains: seq<Draft>, briefs: seq<Draft>, notes: Notes, spans: Spans)
    requires Once(Ids(articles)) && Resolve(articles, Some(mains), Some(briefs), notes, spans).Some?
    ensures var less := BySnapshot(Members, Index(articles));
            var s := Sort(Rest(articles, mains, briefs, notes, spans), less);
            && Sorted(s, less) && Once(Flat(s, Members))
            && forall k | 0 <= k < |s| :: s[k].kind == BriefStory && Placed(s[k], articles)
  {
    var less, rest := BySnapshot(Members, Index(articles)), Rest(articles, mains, briefs, notes, spans);
    var m := Each(mains, Teller(MainStory, notes, spans));
    var all := Resolve(articles, Some(mains), Some(briefs), notes, spans).value;
    RestDecided(articles, mains, briefs, notes, spans);
    SortSorts(rest, less);
    SortKeeps(rest, less);
    ResolvedHalves(articles, mains, briefs, notes, spans);
    ExactCover(articles, Some(mains), Some(briefs), notes, spans);
    OnceIsAboutCounts(Ids(articles), Flat(all, Members));
    FlatConcat(m, Sort(rest, less), Members);
    OnceParts(Flat(m, Members), Flat(Sort(rest, less), Members));
    forall k | 0 <= k < |Sort(rest, less)|
      ensures Sort(rest, less)[k].kind == BriefStory && Placed(Sort(rest, less)[k], articles)
    {
      var z := Sort(rest, less)[k];
      assert z in multiset(Sort(rest, less)) && z in rest;
      RestIsBrief(articles, mains, briefs, notes, spans, z);
      UnorderedSplits(articles, mains, briefs, notes, spans);
      UnorderedSound(articles, mains, briefs, notes, spans, z);
    }
  }

  lemma RestIsBrief(articles: seq<Article>, mains: seq<Draft>, briefs: seq<Draft>, notes: Notes, spans: Spans, z: Story)
    requires z in Rest(articles, mains, briefs, notes, spans)
    ensures z.kind == BriefStory
  {
    var b := Each(briefs, Teller(BriefStory, notes, spans));
    var rest := Rest(articles, mains, briefs, notes, spans);
    var k :| 0 <= k < |rest| && rest[k] == z;
    if k >= |b| { SinglesAreBrief(articles, Flat(mains + briefs, DraftMembers), notes, spans, k - |b|); }
  }

  lemma MainsFirst(mains: seq<Draft>, notes: Notes, spans: Spans, s: seq<Story>)
    ensures var m := Each(mains, Teller(MainStory, notes, spans));
            forall k | 0 <= k < |mains| :: (m + s)[k] == StoryOf(MainStory, mains[k], notes, spans)
  {}

  lemma TailFollows(m: seq<Story>, s: seq<Story>, articles: seq<Article>, i: nat, j: nat)
    requires Once(Ids(articles)) && Sorted(s, BySnapshot(Members, Index(articles))) && Once(Flat(s, Members))
    requires |m| <= i < j < |m + s| && Placed(s[i - |m|], articles)
    ensures ComesBefore(articles, (m + s)[i].articles, (m + s)[j].articles)
  {
    var x, y := i - |m|, j - |m|;
    assert (m + s)[i] == s[x] && (m + s)[j] == s[y];
    SortedFollows(s, articles, x, y);
  }

  /**
   The order of a resolved answer: first the main groups as the answer lists them, with their
   texts; then the briefs, each with a member that stands before every member of the later ones.
   */
  lemma StoriesFollowSnapshot(articles: seq<Article>, mains: seq<Draft>, briefs: seq<Draft>, notes: Notes, spans: Spans)
    requires Once(Ids(articles)) && Resolve(articles, Some(mains), Some(briefs), notes, spans).Some?
    ensures var r, n := Resolve(articles, Some(mains), Some(briefs), notes, spans).value, |mains|;
            && n <= |r|
            && (forall k | 0 <= k < n ::
                  r[k].kind == MainStory && r[k].title == mains[k].title && r[k].summary == mains[k].summary
                  && r[k].primary == mains[k].primary && r[k].articles == mains[k].articles)
            && (forall k | n <= k < |r| :: r[k].kind == BriefStory)
            && forall i, j | n <= i < j < |r| :: ComesBefore(articles, r[i].articles, r[j].articles)
  {
    var r := Resolve(articles, Some(mains), Some(briefs), notes, spans).value;
    var m := Each(mains, Teller(MainStory, notes, spans));
    var s := Sort(Rest(articles, mains, briefs, notes, spans), BySnapshot(Members, Index(articles)));
    ResolvedHalves(articles, mains, briefs, notes, spans);
    SortedRest(articles, mains, briefs, notes, spans);
    MainsFirst(mains, notes, spans, s);
    forall i, j | |m| <= i < j < |r| ensures ComesBefore(articles, r[i].articles, r[j].articles) {
      TailFollows(m, s, articles, i, j);
    }
  }
}
