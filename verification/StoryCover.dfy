/** What every resolved list of stories is: an exact cover in an order that the model cannot influence. */
module StoryCover {
  import opened Prelude
  import opened Ordering
  import opened Permutation
  import opened EvidenceSpans
  import opened Stories

  // ---------- exact cover ----------

  lemma {:induction false} FlatEach<T, U, V>(s: seq<T>, f: T -> U, g: U -> seq<V>, h: T -> seq<V>)
    requires forall x | x in s :: g(f(x)) == h(x)
    ensures Flat(Each(s, f), g) == Flat(s, h)
  {
    if s != [] {
      var n := |s| - 1;
      FlatEach(s[..n], f, g, h);
      assert Each(s, f)[..n] == Each(s[..n], f);
      assert s[n] in s;
    }
  }

  lemma OrderedPermutes(stories: seq<Story>, articles: seq<Article>)
    ensures multiset(Ordered(stories, articles)) == multiset(stories)
  {
    var n := LeadingMains(stories);
    assert stories == stories[..n] + stories[n..];
    SortKeeps(stories[n..], BySnapshot(Members, Index(articles)));
  }

  function SingleIds(articles: seq<Article>, taken: seq<Id>): seq<Id> {
    if articles == [] then []
    else
      var front, a := articles[..|articles| - 1], articles[|articles| - 1];
      SingleIds(front, taken) + if a.id in taken || a.id in Ids(front) then [] else [a.id]
  }

  lemma {:induction false} SinglesMembers(articles: seq<Article>, taken: seq<Id>, notes: Notes, spans: Spans)
    ensures Flat(Singles(articles, taken, notes, spans), Members) == SingleIds(articles, taken)
  {
    if articles != [] {
      var front, a := articles[..|articles| - 1], articles[|articles| - 1];
      SinglesMembers(front, taken, notes, spans);
      assert Singles(front, taken, notes, spans) + [] == Singles(front, taken, notes, spans);
      assert SingleIds(front, taken) + [] == SingleIds(front, taken);
      FlatConcat(Singles(front, taken, notes, spans), [Single(a, notes, spans)], Members);
      FlatOne(Single(a, notes, spans), Members);
    }
  }

  /** Each article outside `taken` has one single story. */
  lemma {:induction false} SinglesCover(articles: seq<Article>, taken: seq<Id>, id: Id)
    ensures multiset(SingleIds(articles, taken))[id] == if id in Ids(articles) && id !in taken then 1 else 0
  {
    if articles != [] {
      var n := |articles| - 1;
      SinglesCover(articles[..n], taken, id);
      IdsNext(articles, n);
      assert articles[..n + 1] == articles;
    }
  }

  lemma UnorderedMembers(articles: seq<Article>, mains: seq<Draft>, briefs: seq<Draft>, notes: Notes, spans: Spans)
    ensures var used := Flat(mains + briefs, DraftMembers);
            Flat(Unordered(articles, mains, briefs, notes, spans), Members)
            == used + Flat(Singles(articles, used, notes, spans), Members)
  {
    var used := Flat(mains + briefs, DraftMembers);
    var m, b := Each(mains, Teller(MainStory, notes, spans)), Each(briefs, Teller(BriefStory, notes, spans));
    FlatEach(mains, Teller(MainStory, notes, spans), Members, DraftMembers);
    FlatEach(briefs, Teller(BriefStory, notes, spans), Members, DraftMembers);
    FlatConcat(mains, briefs, DraftMembers);
    FlatConcat(m, b, Members);
    FlatConcat(m + b, Singles(articles, used, notes, spans), Members);
  }

  lemma UsedAreNoted(drafts: seq<Draft>, notes: Notes, id: Id)
    requires GroupsOk(drafts, notes) && id in Flat(drafts, DraftMembers)
    ensures id in notes
  {
    var k := FlatFrom(drafts, DraftMembers, id);
    assert DraftOk(drafts[k], notes);
  }

  lemma CoveredOnce(articles: seq<Article>, drafts: seq<Draft>, notes: Notes, id: Id)
    requires Once(Ids(articles)) && GroupsOk(drafts, notes) && forall i | i in notes :: i in Ids(articles)
    ensures var used := Flat(drafts, DraftMembers);
            multiset(used)[id] + multiset(SingleIds(articles, used))[id] == multiset(Ids(articles))[id]
  {
    var used := Flat(drafts, DraftMembers);
    SinglesCover(articles, used, id);
    assert id in used <==> id in multiset(used);
    assert id in Ids(articles) <==> id in multiset(Ids(articles));
    if id in used { UsedAreNoted(drafts, notes, id); }
  }

  /** Every article of a snapshot with distinct ids is in exactly one story, exactly once, and nothing else is. */
  lemma ExactCover(articles: seq<Article>, mains: Option<seq<Draft>>, briefs: Option<seq<Draft>>, notes: Notes,
                   spans: Spans)
    requires Once(Ids(articles)) && Resolve(articles, mains, briefs, notes, spans).Some?
    ensures multiset(Flat(Resolve(articles, mains, briefs, notes, spans).value, Members)) == multiset(Ids(articles))
  {
    var unordered := Unordered(articles, mains.value, briefs.value, notes, spans);
    UnorderedCover(articles, mains.value, briefs.value, notes, spans);
    OrderedPermutes(unordered, articles);
    FlatPermutes(Ordered(unordered, articles), unordered, Members);
  }

  lemma UnorderedCover(articles: seq<Article>, mains: seq<Draft>, briefs: seq<Draft>, notes: Notes, spans: Spans)
    requires Once(Ids(articles)) && GroupsOk(mains + briefs, notes) && forall i | i in notes :: i in Ids(articles)
    ensures multiset(Flat(Unordered(articles, mains, briefs, notes, spans), Members)) == multiset(Ids(articles))
  {
    var used := Flat(mains + briefs, DraftMembers);
    var singles := SingleIds(articles, used);
    UnorderedMembers(articles, mains, briefs, notes, spans);
    SinglesMembers(articles, used, notes, spans);
    forall id ensures multiset(used)[id] + multiset(singles)[id] == multiset(Ids(articles))[id] {
      CoveredOnce(articles, mains + briefs, notes, id);
    }
    CountsDecide(used, singles, Ids(articles));
  }

  /** Lists with the same counts are permutations of one another. */
  lemma CountsDecide(a: seq<Id>, b: seq<Id>, whole: seq<Id>)
    requires forall id :: multiset(a)[id] + multiset(b)[id] == multiset(whole)[id]
    ensures multiset(a + b) == multiset(whole)
  {
    assert multiset(a) + multiset(b) == multiset(whole);
  }

  // ---------- each story ----------

  /** The evidence of a story is one quote for each of its articles, in their order. */
  ghost predicate Sound(s: Story, notes: Notes, spans: Spans) {
    && 1 <= |s.articles| <= 100 && s.primary in s.articles && s.id == Unset
    && (forall id <- s.articles :: id in notes)
    && s.evidence == Each(s.articles, Quoter(notes, spans))
  }

  lemma {:induction false} SinglesSound(articles: seq<Article>, taken: seq<Id>, notes: Notes, spans: Spans, s: Story)
    requires forall id <- Ids(articles) :: id in notes
    requires s in Singles(articles, taken, notes, spans)
    ensures s.kind == BriefStory && Sound(s, notes, spans)
    ensures exists a <- articles :: a.id !in taken && s == Single(a, notes, spans)
  {
    var n := |articles| - 1;
    var front, a := articles[..n], articles[n];
    IdsNext(articles, n);
    assert articles[..n + 1] == articles;
    assert forall id <- Ids(front) :: id in Ids(articles);
    if s in Singles(front, taken, notes, spans) {
      SinglesSound(front, taken, notes, spans, s);
      var b :| b in front && b.id !in taken && s == Single(b, notes, spans);
      assert b in articles;
    } else {
      assert s == Single(a, notes, spans) && a in articles && a.id in Ids(articles);
      assert Each([a.id], Quoter(notes, spans)) == [Quote(a.id, notes, spans)];
    }
  }

  /** A resolved story is one of the groups, or the single of an article. */
  ghost predicate FromAnswer(
    s: Story, articles: seq<Article>, mains: seq<Draft>, briefs: seq<Draft>, notes: Notes, spans: Spans) {
    || (exists d <- mains :: s == StoryOf(MainStory, d, notes, spans))
    || (exists d <- briefs :: s == StoryOf(BriefStory, d, notes, spans))
    || (exists a <- articles :: a.id !in Flat(mains + briefs, DraftMembers) && s == Single(a, notes, spans))
  }

  lemma GroupSound(kind: StoryKind, drafts: seq<Draft>, notes: Notes, spans: Spans, s: Story)
    requires s in Each(drafts, Teller(kind, notes, spans)) && forall d <- drafts :: DraftOk(d, notes)
    ensures Sound(s, notes, spans) && exists d <- drafts :: s == StoryOf(kind, d, notes, spans)
  {
    var stories := Each(drafts, Teller(kind, notes, spans));
    var k :| 0 <= k < |stories| && stories[k] == s;
    assert drafts[k] in drafts && s == StoryOf(kind, drafts[k], notes, spans);
  }

  lemma UnorderedSound(articles: seq<Article>, mains: seq<Draft>, briefs: seq<Draft>, notes: Notes, spans: Spans,
                       s: Story)
    requires (forall id <- Ids(articles) :: id in notes) && forall d <- mains + briefs :: DraftOk(d, notes)
    requires s in Unordered(articles, mains, briefs, notes, spans)
    ensures Sound(s, notes, spans) && FromAnswer(s, articles, mains, briefs, notes, spans)
  {
    assert forall d <- mains :: d in mains + briefs;
    assert forall d <- briefs :: d in mains + briefs;
    if s in Each(mains, Teller(MainStory, notes, spans)) {
      GroupSound(MainStory, mains, notes, spans, s);
    } else if s in Each(briefs, Teller(BriefStory, notes, spans)) {
      GroupSound(BriefStory, briefs, notes, spans, s);
    } else {
      SinglesSound(articles, Flat(mains + briefs, DraftMembers), notes, spans, s);
    }
  }

  lemma StoriesSound(articles: seq<Article>, mains: Option<seq<Draft>>, briefs: Option<seq<Draft>>, notes: Notes,
                     spans: Spans,
                     s: Story)
    requires Resolve(articles, mains, briefs, notes, spans).Some?
    requires s in Resolve(articles, mains, briefs, notes, spans).value
    ensures Sound(s, notes, spans) && FromAnswer(s, articles, mains.value, briefs.value, notes, spans)
  {
    var unordered := Unordered(articles, mains.value, briefs.value, notes, spans);
    OrderedPermutes(unordered, articles);
    assert s in multiset(Ordered(unordered, articles)) && s in multiset(unordered);
    UnorderedSound(articles, mains.value, briefs.value, notes, spans, s);
  }

  // ---------- the order ----------

  lemma LastIsNew(articles: seq<Article>)
    requires articles != [] && Once(Ids(articles))
    ensures var n := |articles| - 1;
            && Ids(articles) == Ids(articles[..n]) + [articles[n].id]
            && Once(Ids(articles[..n])) && articles[n].id !in Ids(articles[..n])
  {
    var n := |articles| - 1;
    IdsNext(articles, n);
    assert articles[..n + 1] == articles;
    OnceParts(Ids(articles[..n]), [articles[n].id]);
  }

  lemma {:induction false} IndexKeys(articles: seq<Article>)
    requires Once(Ids(articles))
    ensures |Index(articles)| == |articles|
    ensures forall id :: id in Index(articles) <==> id in Ids(articles)
  {
    if articles != [] {
      var n := |articles| - 1;
      LastIsNew(articles);
      IndexKeys(articles[..n]);
      assert Index(articles).Keys == Index(articles[..n]).Keys + {articles[n].id};
    }
  }

  lemma {:induction false} IndexPlaces(articles: seq<Article>, id: Id)
    requires Once(Ids(articles)) && id in Index(articles)
    ensures Index(articles)[id] < |articles| && articles[Index(articles)[id]].id == id
  {
    var n := |articles| - 1;
    LastIsNew(articles);
    if id != articles[n].id { IndexPlaces(articles[..n], id); }
  }

  lemma {:induction false} LeastMember(ids: seq<Id>, index: map<Id, nat>)
    requires forall id <- ids :: id in index && index[id] < |index|
    ensures if ids == [] then SnapshotIndex(ids, index) == |index|
            else exists id <- ids :: index[id] == SnapshotIndex(ids, index)
  {
    if |ids| > 1 {
      var n := |ids| - 1;
      LeastMember(ids[..n], index);
      if index[ids[n]] >= SnapshotIndex(ids[..n], index) {
        var id :| id in ids[..n] && index[id] == SnapshotIndex(ids[..n], index);
        assert id in ids;
      } else {
        assert ids[n] in ids;
      }
    } else if |ids| == 1 {
      assert ids[..0] == [] && ids[0] in ids;
      assert SnapshotIndex(ids[..0], index) == |index|;
    }
  }

  /** The first place of a group in the snapshot holds one of its members. */
  lemma FirstPlace(ids: seq<Id>, articles: seq<Article>)
    requires Once(Ids(articles)) && ids != [] && forall id <- ids :: id in Ids(articles)
    ensures var p := SnapshotIndex(ids, Index(articles)); p < |articles| && articles[p].id in ids
  {
    IndexKeys(articles);
    forall id <- ids ensures id in Index(articles) && Index(articles)[id] < |Index(articles)| {
      IndexPlaces(articles, id);
    }
    LeastMember(ids, Index(articles));
    var id :| id in ids && Index(articles)[id] == SnapshotIndex(ids, Index(articles));
    IndexPlaces(articles, id);
  }

  /** Groups that share no article have different places in the snapshot. */
  lemma PlacesDiffer<T>(s: seq<T>, members: T -> seq<Id>, articles: seq<Article>, x: T, y: T)
    requires Once(Ids(articles)) && Once(Flat(s, members)) && x in s && y in s && x != y
    requires forall z | z in s :: members(z) != [] && forall id <- members(z) :: id in Ids(articles)
    ensures SnapshotIndex(members(x), Index(articles)) != SnapshotIndex(members(y), Index(articles))
  {
    FirstPlace(members(x), articles);
    FirstPlace(members(y), articles);
    var p := SnapshotIndex(members(x), Index(articles));
    if articles[p].id in members(y) {
      SharedTwice(s, members, x, y, articles[p].id);
    }
  }

  lemma PlacesDecide<T(!new)>(s: seq<T>, members: T -> seq<Id>, articles: seq<Article>)
    requires Once(Ids(articles)) && Once(Flat(s, members))
    requires forall z | z in s :: members(z) != [] && forall id <- members(z) :: id in Ids(articles)
    ensures Decides(multiset(s), BySnapshot(members, Index(articles)))
  {
    var less := BySnapshot(members, Index(articles));
    forall x, y | x in multiset(s) && y in multiset(s) ensures Compares(less, x, y) {
      if x != y { PlacesDiffer(s, members, articles, x, y); }
    }
  }

  /** What SameEditorialPlan compares, besides the id. */
  datatype Outline = Outline(kind: StoryKind, primary: Id, articles: seq<Id>)

  function OutlineOf(s: Story): Outline {
    Outline(s.kind, s.primary, s.articles)
  }

  function DraftOutline(kind: StoryKind): Draft -> Outline {
    (d: Draft) => Outline(kind, d.primary, d.articles)
  }

  function OutlineMembers(o: Outline): seq<Id> {
    o.articles
  }

  lemma EachConcat<T, U>(s: seq<T>, t: seq<T>, f: T -> U)
    ensures Each(s + t, f) == Each(s, f) + Each(t, f)
  {}

  function SingleOutline(id: Id): Outline {
    Outline(BriefStory, id, [id])
  }

  lemma {:induction false} SinglesOutline(articles: seq<Article>, taken: seq<Id>, notes: Notes, spans: Spans)
    ensures Each(Singles(articles, taken, notes, spans), OutlineOf) == Each(SingleIds(articles, taken), SingleOutline)
  {
    if articles != [] {
      var front, a := articles[..|articles| - 1], articles[|articles| - 1];
      SinglesOutline(front, taken, notes, spans);
      assert Singles(front, taken, notes, spans) + [] == Singles(front, taken, notes, spans);
      assert SingleIds(front, taken) + [] == SingleIds(front, taken);
      EachConcat(Singles(front, taken, notes, spans), [Single(a, notes, spans)], OutlineOf);
      EachConcat(SingleIds(front, taken), [a.id], SingleOutline);
      assert Each([Single(a, notes, spans)], OutlineOf) == Each([a.id], SingleOutline);
    }
  }

  /** The outlines of a resolution, computed from the outlines of its groups alone. */
  function PlanOf(articles: seq<Article>, mains: seq<Outline>, briefs: seq<Outline>): seq<Outline> {
    var loose := Each(SingleIds(articles, Flat(mains + briefs, OutlineMembers)), SingleOutline);
    mains + Sort(briefs + loose, BySnapshot(OutlineMembers, Index(articles)))
  }

  lemma {:induction false} SinglesAreBrief(articles: seq<Article>, taken: seq<Id>, notes: Notes, spans: Spans, k: nat)
    requires k < |Singles(articles, taken, notes, spans)|
    ensures Singles(articles, taken, notes, spans)[k].kind == BriefStory
  {
    var front := articles[..|articles| - 1];
    if k < |Singles(front, taken, notes, spans)| { SinglesAreBrief(front, taken, notes, spans, k); }
  }

  lemma OutlineMembersUsed(mains: seq<Draft>, briefs: seq<Draft>)
    ensures Flat(Each(mains, DraftOutline(MainStory)) + Each(briefs, DraftOutline(BriefStory)), OutlineMembers)
         == Flat(mains + briefs, DraftMembers)
  {
    FlatEach(mains, DraftOutline(MainStory), OutlineMembers, DraftMembers);
    FlatEach(briefs, DraftOutline(BriefStory), OutlineMembers, DraftMembers);
    FlatConcat(mains, briefs, DraftMembers);
    FlatConcat(Each(mains, DraftOutline(MainStory)), Each(briefs, DraftOutline(BriefStory)), OutlineMembers);
  }

  lemma EachOutline(kind: StoryKind, drafts: seq<Draft>, notes: Notes, spans: Spans)
    ensures Each(Each(drafts, Teller(kind, notes, spans)), OutlineOf) == Each(drafts, DraftOutline(kind))
  {}

  lemma OrderedSplits(m: seq<Story>, rest: seq<Story>, articles: seq<Article>)
    requires (forall k | 0 <= k < |m| :: m[k].kind == MainStory) && (rest != [] ==> rest[0].kind == BriefStory)
    ensures Ordered(m + rest, articles) == m + Sort(rest, BySnapshot(Members, Index(articles)))
  {
    LeadingMainsAre(m + rest, |m|);
    assert (m + rest)[..|m|] == m && (m + rest)[|m|..] == rest;
  }

  lemma SortOutline(rest: seq<Story>, index: map<Id, nat>)
    ensures Each(Sort(rest, BySnapshot(Members, index)), OutlineOf)
         == Sort(Each(rest, OutlineOf), BySnapshot(OutlineMembers, index))
  {
    var less, more := BySnapshot(Members, index), BySnapshot(OutlineMembers, index);
    forall a, b ensures less(a, b) == more(OutlineOf(a), OutlineOf(b)) {
      assert Members(a) == OutlineMembers(OutlineOf(a)) && Members(b) == OutlineMembers(OutlineOf(b));
    }
    SortMaps(rest, OutlineOf, less, more);
  }

  lemma OutlineOfOrdered(m: seq<Story>, rest: seq<Story>, articles: seq<Article>)
    requires (forall k | 0 <= k < |m| :: m[k].kind == MainStory) && (rest != [] ==> rest[0].kind == BriefStory)
    ensures Each(Ordered(m + rest, articles), OutlineOf)
         == Each(m, OutlineOf) + Sort(Each(rest, OutlineOf), BySnapshot(OutlineMembers, Index(articles)))
  {
    OrderedSplits(m, rest, articles);
    EachConcat(m, Sort(rest, BySnapshot(Members, Index(articles))), OutlineOf);
    SortOutline(rest, Index(articles));
  }

  lemma RestOutline(articles: seq<Article>, mains: seq<Draft>, briefs: seq<Draft>, notes: Notes, spans: Spans)
    ensures var used := Flat(mains + briefs, DraftMembers);
            var rest := Each(briefs, Teller(BriefStory, notes, spans)) + Singles(articles, used, notes, spans);
            && Each(rest, OutlineOf)
               == Each(briefs, DraftOutline(BriefStory)) + Each(SingleIds(articles, used), SingleOutline)
            && (rest != [] ==> rest[0].kind == BriefStory)
  {
    var used := Flat(mains + briefs, DraftMembers);
    var b, single := Each(briefs, Teller(BriefStory, notes, spans)), Singles(articles, used, notes, spans);
    EachConcat(b, single, OutlineOf);
    EachOutline(BriefStory, briefs, notes, spans);
    SinglesOutline(articles, used, notes, spans);
    if briefs == [] && single != [] { SinglesAreBrief(articles, used, notes, spans, 0); }
  }

  lemma UnorderedSplits(articles: seq<Article>, mains: seq<Draft>, briefs: seq<Draft>, notes: Notes, spans: Spans)
    ensures var m, b := Each(mains, Teller(MainStory, notes, spans)), Each(briefs, Teller(BriefStory, notes, spans));
            && Unordered(articles, mains, briefs, notes, spans)
               == m + (b + Singles(articles, Flat(mains + briefs, DraftMembers), notes, spans))
            && forall k | 0 <= k < |m| :: m[k].kind == MainStory
  {
    Associates(Each(mains, Teller(MainStory, notes, spans)), Each(briefs, Teller(BriefStory, notes, spans)),
               Singles(articles, Flat(mains + briefs, DraftMembers), notes, spans));
  }

  lemma Associates(a: seq<Story>, b: seq<Story>, c: seq<Story>)
    ensures a + b + c == a + (b + c)
  {}

  lemma UnorderedOutline(articles: seq<Article>, mains: seq<Draft>, briefs: seq<Draft>, notes: Notes, spans: Spans)
    ensures Each(Ordered(Unordered(articles, mains, briefs, notes, spans), articles), OutlineOf)
         == PlanOf(articles, Each(mains, DraftOutline(MainStory)), Each(briefs, DraftOutline(BriefStory)))
  {
    var used := Flat(mains + briefs, DraftMembers);
    var m := Each(mains, Teller(MainStory, notes, spans));
    var rest := Each(briefs, Teller(BriefStory, notes, spans)) + Singles(articles, used, notes, spans);
    calc {
      Each(Ordered(Unordered(articles, mains, briefs, notes, spans), articles), OutlineOf);
      { UnorderedSplits(articles, mains, briefs, notes, spans); }
      Each(Ordered(m + rest, articles), OutlineOf);
      { UnorderedSplits(articles, mains, briefs, notes, spans);
        RestOutline(articles, mains, briefs, notes, spans);
        OutlineOfOrdered(m, rest, articles); }
      Each(m, OutlineOf) + Sort(Each(rest, OutlineOf), BySnapshot(OutlineMembers, Index(articles)));
      { EachOutline(MainStory, mains, notes, spans);
        RestOutline(articles, mains, briefs, notes, spans);
        OutlineMembersUsed(mains, briefs); }
      PlanOf(articles, Each(mains, DraftOutline(MainStory)), Each(briefs, DraftOutline(BriefStory)));
    }
  }

  /** The outlines of the stories depend on nothing but the outlines of the groups. */
  lemma ResolutionOutline(articles: seq<Article>, mains: Option<seq<Draft>>, briefs: Option<seq<Draft>>, notes: Notes,
                          spans: Spans)
    requires Resolve(articles, mains, briefs, notes, spans).Some?
    ensures Each(Resolve(articles, mains, briefs, notes, spans).value, OutlineOf)
         == PlanOf(articles, Each(mains.value, DraftOutline(MainStory)), Each(briefs.value, DraftOutline(BriefStory)))
  {
    UnorderedOutline(articles, mains.value, briefs.value, notes, spans);
  }

  lemma {:induction false} SameIndex(a: seq<Article>, b: seq<Article>)
    requires Ids(a) == Ids(b)
    ensures Index(a) == Index(b)
  {
    assert |a| == |Ids(a)| && |b| == |Ids(b)|;
    if a != [] {
      var n := |a| - 1;
      assert Ids(a[..n]) == Ids(a)[..n] && Ids(b[..n]) == Ids(b)[..n];
      SameIndex(a[..n], b[..n]);
      assert Ids(a)[n] == Ids(b)[n];
    }
  }

  lemma {:induction false} SameSingles(a: seq<Article>, b: seq<Article>, s: seq<Id>, t: seq<Id>)
    requires Ids(a) == Ids(b) && forall id :: id in s <==> id in t
    ensures SingleIds(a, s) == SingleIds(b, t)
  {
    assert |a| == |Ids(a)| && |b| == |Ids(b)|;
    if a != [] {
      var n := |a| - 1;
      assert Ids(a[..n]) == Ids(a)[..n] && Ids(b[..n]) == Ids(b)[..n];
      SameSingles(a[..n], b[..n], s, t);
      assert Ids(a)[n] == Ids(b)[n];
    }
  }

  /** Groups with members from the snapshot and no article in common. */
  ghost predicate Disjoint(groups: seq<Outline>, articles: seq<Article>) {
    && Once(Flat(groups, OutlineMembers))
    && forall o | o in groups :: o.articles != [] && forall id <- o.articles :: id in Ids(articles)
  }

  lemma BriefsDisjoint(articles: seq<Article>, mains: seq<Outline>, briefs: seq<Outline>)
    requires Once(Ids(articles)) && Disjoint(mains + briefs, articles)
    ensures Disjoint(briefs + Each(SingleIds(articles, Flat(mains + briefs, OutlineMembers)), SingleOutline), articles)
  {
    var used := Flat(mains + briefs, OutlineMembers);
    var ids := SingleIds(articles, used);
    var loose := Each(ids, SingleOutline);
    FlatConcat(mains, briefs, OutlineMembers);
    OnceParts(Flat(mains, OutlineMembers), Flat(briefs, OutlineMembers));
    FlatConcat(briefs, loose, OutlineMembers);
    FlatOfSingles(ids);
    forall id <- ids ensures multiset(ids)[id] == 1 && id !in Flat(briefs, OutlineMembers) && id in Ids(articles) {
      SinglesCover(articles, used, id);
      assert id in multiset(ids);
    }
    OnceParts(Flat(briefs, OutlineMembers), ids);
    forall o | o in briefs + loose ensures o.articles != [] && forall id <- o.articles :: id in Ids(articles) {
      if o in briefs {
        assert o in mains + briefs;
      } else {
        var k :| 0 <= k < |loose| && loose[k] == o;
        assert ids[k] in ids;
      }
    }
  }

  lemma {:induction false} FlatOfSingles(ids: seq<Id>)
    ensures Flat(Each(ids, SingleOutline), OutlineMembers) == ids
  {
    if ids != [] {
      var n := |ids| - 1;
      FlatOfSingles(ids[..n]);
      assert Each(ids, SingleOutline)[..n] == Each(ids[..n], SingleOutline);
    }
  }

  /** The plan does not depend on the order in which the brief groups are listed. */
  lemma PlanForgetsOrder(a: seq<Article>, b: seq<Article>, mains: seq<Outline>, briefs: seq<Outline>,
                         others: seq<Outline>)
    requires Once(Ids(a)) && Ids(a) == Ids(b) && Disjoint(mains + briefs, a) && multiset(briefs) == multiset(others)
    ensures PlanOf(a, mains, briefs) == PlanOf(b, mains, others)
  {
    var s, t := Flat(mains + briefs, OutlineMembers), Flat(mains + others, OutlineMembers);
    FlatPermutes(mains + briefs, mains + others, OutlineMembers);
    forall id ensures id in s <==> id in t {
      assert id in s <==> id in multiset(s);
      assert id in t <==> id in multiset(t);
    }
    SameSingles(a, b, s, t);
    SameIndex(a, b);
    BriefsDisjoint(a, mains, briefs);
    var loose := Each(SingleIds(a, s), SingleOutline);
    PlacesDecide(briefs + loose, OutlineMembers, a);
    SortForgetsOrder(briefs + loose, others + loose, BySnapshot(OutlineMembers, Index(a)));
  }

  lemma OutlineKnown(kind: StoryKind, drafts: seq<Draft>, articles: seq<Article>, notes: Notes, o: Outline)
    requires (forall id | id in notes :: id in Ids(articles)) && forall d <- drafts :: DraftOk(d, notes)
    requires o in Each(drafts, DraftOutline(kind))
    ensures o.articles != [] && forall id <- o.articles :: id in Ids(articles)
  {
    var outlines := Each(drafts, DraftOutline(kind));
    var k :| 0 <= k < |outlines| && outlines[k] == o;
    assert drafts[k] in drafts && o.articles == drafts[k].articles;
  }

  lemma OutlinesDisjoint(articles: seq<Article>, mains: seq<Draft>, briefs: seq<Draft>, notes: Notes)
    requires (forall id | id in notes :: id in Ids(articles)) && GroupsOk(mains + briefs, notes)
    ensures Disjoint(Each(mains, DraftOutline(MainStory)) + Each(briefs, DraftOutline(BriefStory)), articles)
  {
    OutlineMembersUsed(mains, briefs);
    assert forall d <- mains :: d in mains + briefs;
    assert forall d <- briefs :: d in mains + briefs;
    var m, b := Each(mains, DraftOutline(MainStory)), Each(briefs, DraftOutline(BriefStory));
    forall o: Outline | o in m + b ensures o.articles != [] && forall id <- o.articles :: id in Ids(articles) {
      if o in m {
        OutlineKnown(MainStory, mains, articles, notes, o);
      } else {
        OutlineKnown(BriefStory, briefs, articles, notes, o);
      }
    }
  }

  // ---------- the same for the stories themselves ----------

  lemma OnceIsAboutCounts(a: seq<Id>, b: seq<Id>)
    requires multiset(a) == multiset(b) && Once(a)
    ensures Once(b)
  {
    forall id <- b ensures multiset(b)[id] == 1 {
      assert id in multiset(b) && id in multiset(a);
    }
  }

  lemma GroupsPermute(a: seq<Draft>, b: seq<Draft>, notes: Notes)
    requires multiset(a) == multiset(b) && GroupsOk(a, notes)
    ensures GroupsOk(b, notes)
  {
    FlatPermutes(a, b, DraftMembers);
    OnceIsAboutCounts(Flat(a, DraftMembers), Flat(b, DraftMembers));
    forall d <- b ensures DraftOk(d, notes) {
      assert d in multiset(b) && d in multiset(a);
    }
  }

  lemma GroupsAgree(mains: seq<Draft>, briefs: seq<Draft>, others: seq<Draft>, notes: Notes)
    requires multiset(briefs) == multiset(others)
    ensures GroupsOk(mains + briefs, notes) <==> GroupsOk(mains + others, notes)
  {
    assert multiset(mains + briefs) == multiset(mains + others);
    if GroupsOk(mains + briefs, notes) { GroupsPermute(mains + briefs, mains + others, notes); }
    if GroupsOk(mains + others, notes) { GroupsPermute(mains + others, mains + briefs, notes); }
  }

  lemma {:induction false} SinglesForget(articles: seq<Article>, s: seq<Id>, t: seq<Id>, notes: Notes, spans: Spans)
    requires forall id :: id in s <==> id in t
    ensures Singles(articles, s, notes, spans) == Singles(articles, t, notes, spans)
  {
    if articles != [] { SinglesForget(articles[..|articles| - 1], s, t, notes, spans); }
  }

  lemma RestPermutes(articles: seq<Article>, mains: seq<Draft>, briefs: seq<Draft>, others: seq<Draft>, notes: Notes,
                     spans: Spans)
    requires multiset(briefs) == multiset(others)
    ensures var f := Teller(BriefStory, notes, spans);
            multiset(Each(briefs, f) + Singles(articles, Flat(mains + briefs, DraftMembers), notes, spans))
            == multiset(Each(others, f) + Singles(articles, Flat(mains + others, DraftMembers), notes, spans))
  {
    var s, t := Flat(mains + briefs, DraftMembers), Flat(mains + others, DraftMembers);
    FlatPermutes(mains + briefs, mains + others, DraftMembers);
    forall id ensures id in s <==> id in t {
      assert id in s <==> id in multiset(s);
      assert id in t <==> id in multiset(t);
    }
    SinglesForget(articles, s, t, notes, spans);
    EachPermutes(briefs, others, Teller(BriefStory, notes, spans));
  }

  lemma RestDecided(articles: seq<Article>, mains: seq<Draft>, briefs: seq<Draft>, notes: Notes, spans: Spans)
    requires Once(Ids(articles)) && Resolve(articles, Some(mains), Some(briefs), notes, spans).Some?
    ensures var rest := Each(briefs, Teller(BriefStory, notes, spans))
                        + Singles(articles, Flat(mains + briefs, DraftMembers), notes, spans);
            Decides(multiset(rest), BySnapshot(Members, Index(articles)))
  {
    var m := Each(mains, Teller(MainStory, notes, spans));
    var rest := Each(briefs, Teller(BriefStory, notes, spans))
                + Singles(articles, Flat(mains + briefs, DraftMembers), notes, spans);
    var all := Resolve(articles, Some(mains), Some(briefs), notes, spans).value;
    UnorderedSplits(articles, mains, briefs, notes, spans);
    OrderedPermutes(m + rest, articles);
    ExactCover(articles, Some(mains), Some(briefs), notes, spans);
    FlatPermutes(all, m + rest, Members);
    OnceIsAboutCounts(Ids(articles), Flat(m + rest, Members));
    FlatConcat(m, rest, Members);
    OnceParts(Flat(m, Members), Flat(rest, Members));
    forall z | z in rest ensures Members(z) != [] && forall id <- Members(z) :: id in Ids(articles) {
      UnorderedSound(articles, mains, briefs, notes, spans, z);
    }
    PlacesDecide(rest, Members, articles);
  }

  /** Listing the brief groups in another order changes nothing, neither the stories nor the verdict. */
  lemma ListingOrderIsForgotten(articles: seq<Article>, mains: Option<seq<Draft>>, briefs: seq<Draft>,
                                others: seq<Draft>,
                                notes: Notes, spans: Spans)
    requires Once(Ids(articles)) && multiset(briefs) == multiset(others)
    ensures Resolve(articles, mains, Some(briefs), notes, spans) == Resolve(articles, mains, Some(others), notes, spans)
  {
    if mains.Some? {
      GroupsAgree(mains.value, briefs, others, notes);
      if Resolve(articles, mains, Some(briefs), notes, spans).Some? {
        SameStories(articles, mains.value, briefs, others, notes, spans);
      }
    }
  }

  lemma SameStories(articles: seq<Article>, mains: seq<Draft>, briefs: seq<Draft>, others: seq<Draft>, notes: Notes,
                    spans: Spans)
    requires Once(Ids(articles)) && multiset(briefs) == multiset(others)
    requires Resolve(articles, Some(mains), Some(briefs), notes, spans).Some?
    ensures Ordered(Unordered(articles, mains, briefs, notes, spans), articles)
         == Ordered(Unordered(articles, mains, others, notes, spans), articles)
  {
    var f := Teller(BriefStory, notes, spans);
    var m := Each(mains, Teller(MainStory, notes, spans));
    var s := Each(briefs, f) + Singles(articles, Flat(mains + briefs, DraftMembers), notes, spans);
    var t := Each(others, f) + Singles(articles, Flat(mains + others, DraftMembers), notes, spans);
    UnorderedSplits(articles, mains, briefs, notes, spans);
    UnorderedSplits(articles, mains, others, notes, spans);
    RestOutline(articles, mains, briefs, notes, spans);
    RestOutline(articles, mains, others, notes, spans);
    OrderedSplits(m, s, articles);
    OrderedSplits(m, t, articles);
    RestDecided(articles, mains, briefs, notes, spans);
    RestPermutes(articles, mains, briefs, others, notes, spans);
    SortForgetsOrder(s, t, BySnapshot(Members, Index(articles)));
  }
}
