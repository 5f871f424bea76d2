/**
 Hysteresis over every run of the ledger: replayed jobs, gaps in the queue, jobs
 without an observation, crashes, undelivered notices and configuration changes
 (go-domain/terminalevents/terminal.go:213-383 drives these steps).

 One source is watched; its history gets a mark for each processed position.  The
 source is arbitrary, so what is proved of it holds for all.
 */
module SourceAlerts {
  import opened Prelude
  import opened SourceLedger

  datatype Kind = Warn | Heal | Gap | Config

  datatype Note = Quiet | Alarm | AllClear

  datatype Mark = Mark(kind: Kind, note: Note)

  /** `confirmed` holds the positions in `marks` of alarms that were delivered. */
  datatype World = World(ledger: Ledger, marks: seq<Mark>, confirmed: set<nat>)

  datatype Step =
    | Prepare(position: int, job: Uuid, items: seq<Observation>, previous: Option<int>, active: set<Uuid>, small: bool)
    | Break(position: int, active: set<Uuid>)
    | Finish(events: seq<Event>, job: Uuid, delivered: bool)
    | Abandon(job: Uuid)

  const GAP := Mark(Gap, Quiet)

  predicate Distinct(items: seq<Observation>) {
    forall i, j | 0 <= i < j < |items| :: items[i].id != items[j].id
  }

  function NoteOf(events: seq<Event>, id: SourceId): Note {
    if Event(id, false) in events then Alarm else if Event(id, true) in events then AllClear else Quiet
  }

  /** The sources as the observation loop finds them. */
  function Base(v: Ledger, s: Step): map<SourceId, Source>
    requires s.Prepare?
  {
    var m := ReconcileAll(v.sources, s.active);
    DropAbsent(if QueueGap(v, s.previous) then BreakAll(m) else m, Current(s.items))
  }

  function ItemFor(items: seq<Observation>, id: SourceId): (item: Observation)
    requires id in Current(items)
    ensures item in items && item.id == id
  {
    if items[0].id == id then items[0] else ItemFor(items[1..], id)
  }

  function ReadingMarks(before: Option<Source>, item: Observation, note: Note): seq<Mark> {
    (if before.Some? && before.value.config != item.config then [Mark(Config, Quiet)] else [])
    + [Mark(if item.warning then Warn else Heal, note)]
  }

  function MarksFor(v: Ledger, s: Step, id: SourceId): seq<Mark>
    requires s.Prepare?
  {
    (if QueueGap(v, s.previous) then [GAP] else [])
    + (if id !in Current(s.items) then [GAP]
       else ReadingMarks(Get(Base(v, s), id), ItemFor(s.items, id),
                         NoteOf(Prepared(v, s.position, s.job, s.items, s.previous, s.active).1, id)))
  }

  function LastAlarm(marks: seq<Mark>): int {
    if marks == [] then -1
    else if marks[|marks| - 1].note == Alarm then |marks| - 1
    else LastAlarm(marks[..|marks| - 1])
  }

  predicate Turned(m: map<SourceId, Source>, m': map<SourceId, Source>, id: SourceId) {
    id in m && m[id].incident == Attempting && id in m' && m'[id].incident == Active
  }

  /** One committed transaction on the ledger, with the marks it adds for source `id`. */
  function Next(w: World, s: Step, id: SourceId): World {
    match s
    case Prepare(position, job, items, previous, active, small) =>
      var (v, events) := Prepared(w.ledger, position, job, items, previous, active);
      if !Distinct(items) then w
      else if position <= w.ledger.lastPosition then w.(ledger := v)
      else if |v.sources| > MAX_SOURCES || !small then w
      else w.(ledger := v, marks := w.marks + MarksFor(w.ledger, s, id))
    case Break(position, active) =>
      var v := Breaks(w.ledger, position, active);
      if position <= w.ledger.lastPosition then w.(ledger := v) else w.(ledger := v, marks := w.marks + [GAP])
    case Finish(events, job, delivered) =>
      var m := FinishAll(w.ledger.sources, events, job, delivered);
      w.(ledger := w.ledger.(sources := m),
         confirmed := if Turned(w.ledger.sources, m, id) && LastAlarm(w.marks) >= 0
                      then w.confirmed + {LastAlarm(w.marks)} else w.confirmed)
    case Abandon(job) => w.(ledger := w.ledger.(sources := AbandonAll(w.ledger.sources, job)))
  }

  function Run(w: World, steps: seq<Step>, id: SourceId): World
    decreases |steps|
  {
    if steps == [] then w else Next(Run(w, steps[..|steps| - 1], id), steps[|steps| - 1], id)
  }

  const INIT := World(Ledger(0, map[]), [], {})

  // ---------- what histories look like ----------

  predicate Trail(h: seq<Mark>, kind: Kind, n: int) {
    n <= |h| && forall i | |h| - n <= i < |h| && 0 <= i :: h[i].kind == kind
  }

  predicate HealPair(h: seq<Mark>, lo: int, hi: int)
    requires 0 <= lo && hi <= |h|
  {
    exists k :: lo < k && k + 1 < hi && h[k].kind == Heal && h[k + 1].kind == Heal
  }

  predicate SameConfig(h: seq<Mark>, lo: int, hi: int)
    requires 0 <= lo && hi <= |h|
  {
    forall i | lo < i < hi :: h[i].kind != Config
  }

  predicate Unanswered(h: seq<Mark>, a: int, hi: int)
    requires 0 <= a && hi <= |h|
  {
    a < hi && h[a].note == Alarm && SameConfig(h, a, hi) && forall i | a < i < hi :: h[i].note != AllClear
  }

  /** Every alarm under the present configuration has been followed by two good readings in a row. */
  ghost predicate Settled(h: seq<Mark>) {
    forall a | 0 <= a < |h| && h[a].note == Alarm && SameConfig(h, a, |h|) :: HealPair(h, a, |h|)
  }

  /** The announcement at `j` is justified by the marks before it. */
  ghost predicate Justified(h: seq<Mark>, confirmed: set<nat>, j: int)
    requires 0 <= j < |h|
  {
    && (h[j].note == Alarm ==>
          && j >= 1 && h[j].kind == Warn && h[j - 1].kind == Warn
          && forall i | 0 <= i < j && h[i].note == Alarm && SameConfig(h, i, j) :: HealPair(h, i, j))
    && (h[j].note == AllClear ==>
          && j >= 1 && h[j].kind == Heal && h[j - 1].kind == Heal
          && exists a <- confirmed :: a < j && Unanswered(h, a, j))
  }

  ghost predicate HistoryOk(h: seq<Mark>, confirmed: set<nat>) {
    forall j | 0 <= j < |h| :: Justified(h, confirmed, j)
  }

  predicate SourceOk(s: Source) {
    0 <= s.failed <= 2 && 0 <= s.healthy <= 2 && s.incident != Retired && (s.job.Some? <==> Announcing(s))
  }

  predicate AllOk(m: map<SourceId, Source>) {
    forall i <- m :: SourceOk(m[i])
  }

  /** How a source's state is tied to its history. */
  ghost predicate Tracks(o: Option<Source>, h: seq<Mark>, confirmed: set<nat>) {
    match o
    case None => Settled(h)
    case Some(s) =>
      && SourceOk(s) && Trail(h, Warn, s.failed) && Trail(h, Heal, s.healthy)
      && (s.incident == NoIncident || s.incident == Recovering ==> Settled(h))
      && (s.incident == Attempting || s.incident == Active ==> LastAlarm(h) >= 0 && Unanswered(h, LastAlarm(h), |h|))
      && (s.incident == Active ==> LastAlarm(h) in confirmed)
  }

  ghost predicate Inv(w: World, id: SourceId) {
    && w.ledger.lastPosition >= 0 && |w.ledger.sources| <= MAX_SOURCES
    && AllOk(w.ledger.sources)
    && Tracks(Get(w.ledger.sources, id), w.marks, w.confirmed)
    && HistoryOk(w.marks, w.confirmed)
  }

  // ---------- one mark more ----------

  lemma LastAlarmBound(h: seq<Mark>)
    ensures -1 <= LastAlarm(h) < |h|
    ensures LastAlarm(h) >= 0 ==> h[LastAlarm(h)].note == Alarm
  {}

  lemma LastAlarmAppend(h: seq<Mark>, m: Mark)
    ensures LastAlarm(h + [m]) == if m.note == Alarm then |h| else LastAlarm(h)
  {
    assert (h + [m])[..|h|] == h;
  }

  lemma SettledAppend(h: seq<Mark>, m: Mark)
    requires Settled(h) && m.note != Alarm
    ensures Settled(h + [m])
  {
    var g := h + [m];
    forall a | 0 <= a < |g| && g[a].note == Alarm && SameConfig(g, a, |g|) ensures HealPair(g, a, |g|) {
      assert SameConfig(h, a, |h|) by { forall i | a < i < |h| ensures h[i].kind != Config { assert g[i] == h[i]; } }
      var k :| a < k && k + 1 < |h| && h[k].kind == Heal && h[k + 1].kind == Heal;
      assert g[k].kind == Heal && g[k + 1].kind == Heal;
    }
  }

  lemma HistoryAppend(h: seq<Mark>, confirmed: set<nat>, m: Mark)
    requires HistoryOk(h, confirmed) && Justified(h + [m], confirmed, |h|)
    ensures HistoryOk(h + [m], confirmed)
  {
    var g := h + [m];
    forall j | 0 <= j < |h| ensures Justified(g, confirmed, j) {
      assert Justified(h, confirmed, j);
      forall i | 0 <= i < j && g[j].note == Alarm && g[i].note == Alarm && SameConfig(g, i, j)
        ensures HealPair(g, i, j)
      {
        assert SameConfig(h, i, j) by { forall x | i < x < j ensures h[x].kind != Config { assert g[x] == h[x]; } }
        assert HealPair(h, i, j);
        var k :| i < k && k + 1 < j && h[k].kind == Heal && h[k + 1].kind == Heal;
        assert g[k].kind == Heal && g[k + 1].kind == Heal;
      }
      if g[j].note == AllClear {
        var a :| a in confirmed && a < j && Unanswered(h, a, j);
        assert Unanswered(g, a, j);
      }
    }
  }

  lemma UnansweredAppend(h: seq<Mark>, m: Mark, a: int)
    requires 0 <= a && Unanswered(h, a, |h|) && m.kind != Config && m.note != AllClear
    ensures Unanswered(h + [m], a, |h| + 1)
  {}

  /** A gap: the source keeps its incident but loses its streaks, or was not known. */
  lemma GapTracks(o: Option<Source>, h: seq<Mark>, confirmed: set<nat>)
    requires Tracks(o, h, confirmed) && HistoryOk(h, confirmed)
    ensures HistoryOk(h + [GAP], confirmed)
    ensures Tracks(if o.Some? then Some(Broken(o.value)) else None, h + [GAP], confirmed)
  {
    HistoryAppend(h, confirmed, GAP);
    LastAlarmAppend(h, GAP);
    if o.None? || o.value.incident == NoIncident || o.value.incident == Recovering { SettledAppend(h, GAP); }
    else if o.value.incident == Attempting || o.value.incident == Active { UnansweredAppend(h, GAP, LastAlarm(h)); }
  }

  /** Before a reading counts, a new or reconfigured source starts from scratch. */
  lemma BegunTracks(o: Option<Source>, h: seq<Mark>, confirmed: set<nat>, config: Uuid)
    requires Tracks(o, h, confirmed) && HistoryOk(h, confirmed)
    ensures var g := h + (if o.Some? && o.value.config != config then [Mark(Config, Quiet)] else []);
            Tracks(Some(Begun(o, config)), g, confirmed) && HistoryOk(g, confirmed)
  {
    if o.Some? && o.value.config != config {
      HistoryAppend(h, confirmed, Mark(Config, Quiet));
      var g := h + [Mark(Config, Quiet)];
      forall a | 0 <= a < |h| ensures !SameConfig(g, a, |g|) { assert g[|h|].kind == Config; }
    } else {
      assert h + [] == h;
    }
  }

  /** Two good readings at the end settle every alarm, since an alarm is itself a warning. */
  lemma TwoHealsSettle(h: seq<Mark>, confirmed: set<nat>)
    requires HistoryOk(h, confirmed) && Trail(h, Heal, 2)
    ensures Settled(h)
  {
    forall a | 0 <= a < |h| && h[a].note == Alarm && SameConfig(h, a, |h|) ensures HealPair(h, a, |h|) {
      assert Justified(h, confirmed, a);
      assert a < |h| - 2 && h[|h| - 2].kind == Heal && h[|h| - 2 + 1].kind == Heal;
    }
  }

  lemma WarnTracks(s: Source, h: seq<Mark>, confirmed: set<nat>, item: Observation, job: Uuid)
    requires Tracks(Some(s), h, confirmed) && HistoryOk(h, confirmed) && item.warning
    ensures var g := h + [Mark(Warn, NoteOf(Announced(s, item, job), item.id))];
            Tracks(Some(Observed(s, item, job)), g, confirmed) && HistoryOk(g, confirmed)
  {
    var m := Mark(Warn, NoteOf(Announced(s, item, job), item.id));
    var g := h + [m];
    LastAlarmAppend(h, m);
    if m.note == Alarm {
      assert Trail(h, Warn, 1) && h[|h| - 1].kind == Warn && g[|g| - 2] == h[|h| - 1];
      forall i | 0 <= i < |h| && g[i].note == Alarm && SameConfig(g, i, |h|) ensures HealPair(g, i, |h|) {
        assert SameConfig(h, i, |h|) by { forall x | i < x < |h| ensures h[x].kind != Config { assert g[x] == h[x]; } }
        var k :| i < k && k + 1 < |h| && h[k].kind == Heal && h[k + 1].kind == Heal;
        assert g[k].kind == Heal && g[k + 1].kind == Heal;
      }
    } else if s.incident == NoIncident || s.incident == Recovering {
      SettledAppend(h, m);
    } else if s.incident == Attempting || s.incident == Active {
      UnansweredAppend(h, m, LastAlarm(h));
    }
    HistoryAppend(h, confirmed, m);
  }

  lemma HealTracks(s: Source, h: seq<Mark>, confirmed: set<nat>, item: Observation, job: Uuid)
    requires Tracks(Some(s), h, confirmed) && HistoryOk(h, confirmed) && !item.warning
    ensures var g := h + [Mark(Heal, NoteOf(Announced(s, item, job), item.id))];
            Tracks(Some(Observed(s, item, job)), g, confirmed) && HistoryOk(g, confirmed)
  {
    var m := Mark(Heal, NoteOf(Announced(s, item, job), item.id));
    var g := h + [m];
    var t := Observed(s, item, job);
    LastAlarmAppend(h, m);
    if m.note == AllClear {
      assert Trail(h, Heal, 1) && h[|h| - 1].kind == Heal && g[|g| - 2] == h[|h| - 1];
      assert Unanswered(g, LastAlarm(h), |h|);
    } else if s.incident == NoIncident || s.incident == Recovering {
      SettledAppend(h, m);
    } else if s.incident == Attempting || s.incident == Active {
      UnansweredAppend(h, m, LastAlarm(h));
    }
    HistoryAppend(h, confirmed, m);
    assert Trail(g, Heal, t.healthy);
    if t.healthy == 2 { TwoHealsSettle(g, confirmed); }
  }

  // ---------- the ledger, seen from one source ----------

  lemma {:induction false} ObserveOthers(m: map<SourceId, Source>, items: seq<Observation>, job: Uuid, id: SourceId)
    requires id !in Current(items)
    ensures var r := ObserveAll(m, items, job); Get(r.0, id) == Get(m, id) && forall e <- r.1 :: e.id != id
    decreases |items|
  {
    if items != [] {
      var item := items[|items| - 1];
      assert item in items;
      ObserveOthers(m, items[..|items| - 1], job, id);
    }
  }

  /** The loop over distinct readings treats source `id` exactly once, with its own reading. */
  lemma {:induction false} ObserveOne(m: map<SourceId, Source>, items: seq<Observation>, job: Uuid, id: SourceId)
    requires Distinct(items) && id in Current(items)
    ensures var r := ObserveAll(m, items, job);
            var item := ItemFor(items, id);
            var s := Begun(Get(m, id), item.config);
            && Get(r.0, id) == Some(Observed(s, item, job))
            && forall e: Event | e.id == id :: e in r.1 <==> e in Announced(s, item, job)
    decreases |items|
  {
    var last, rest := items[|items| - 1], items[..|items| - 1];
    if last.id == id {
      LastReading(items, id);
      ObserveOthers(m, rest, job, id);
    } else {
      EarlierReading(items, id);
      ObserveOne(m, rest, job, id);
    }
  }

  lemma LastReading(items: seq<Observation>, id: SourceId)
    requires Distinct(items) && id in Current(items) && items[|items| - 1].id == id
    ensures ItemFor(items, id) == items[|items| - 1] && id !in Current(items[..|items| - 1])
  {
    assert items[|items| - 1] in items;
  }

  lemma EarlierReading(items: seq<Observation>, id: SourceId)
    requires Distinct(items) && id in Current(items) && items[|items| - 1].id != id
    ensures var rest := items[..|items| - 1]; id in Current(rest) && ItemFor(rest, id) == ItemFor(items, id)
  {
    var item, rest := ItemFor(items, id), items[..|items| - 1];
    var i :| 0 <= i < |items| && items[i] == item;
    assert rest[i] == item;
    assert item in rest && id in Current(rest);
  }

  lemma ReconciledTracks(o: Option<Source>, h: seq<Mark>, confirmed: set<nat>, active: set<Uuid>)
    requires Tracks(o, h, confirmed)
    ensures Tracks(if o.Some? then Some(Reconciled(o.value, active)) else None, h, confirmed)
  {}

  /** Up to the observation loop: reconciliation, a queue gap, absent sources. */
  lemma BaseTracks(w: World, s: Step, id: SourceId)
    requires Inv(w, id) && s.Prepare?
    ensures var gap := if QueueGap(w.ledger, s.previous) then [GAP] else [];
            var absent := if id !in Current(s.items) then [GAP] else [];
            var h := w.marks + gap + absent;
            Tracks(Get(Base(w.ledger, s), id), h, w.confirmed) && HistoryOk(h, w.confirmed)
  {
    var m := ReconcileAll(w.ledger.sources, s.active);
    ReconciledTracks(Get(w.ledger.sources, id), w.marks, w.confirmed, s.active);
    var gap := if QueueGap(w.ledger, s.previous) then [GAP] else [];
    var m1 := if QueueGap(w.ledger, s.previous) then BreakAll(m) else m;
    if QueueGap(w.ledger, s.previous) { GapTracks(Get(m, id), w.marks, w.confirmed); }
    var h1 := w.marks + gap;
    assert gap == [] ==> h1 == w.marks;
    assert Tracks(Get(m1, id), h1, w.confirmed) && HistoryOk(h1, w.confirmed);
    if id !in Current(s.items) {
      GapTracks(Get(m1, id), h1, w.confirmed);
    } else {
      assert h1 + [] == h1;
    }
  }

  lemma ReadingTracks(o: Option<Source>, h: seq<Mark>, confirmed: set<nat>, item: Observation, job: Uuid)
    requires Tracks(o, h, confirmed) && HistoryOk(h, confirmed)
    ensures var t := Begun(o, item.config);
            var g := h + ReadingMarks(o, item, NoteOf(Announced(t, item, job), item.id));
            Tracks(Some(Observed(t, item, job)), g, confirmed) && HistoryOk(g, confirmed)
  {
    var t := Begun(o, item.config);
    var reset := if o.Some? && o.value.config != item.config then [Mark(Config, Quiet)] else [];
    var note := NoteOf(Announced(t, item, job), item.id);
    BegunTracks(o, h, confirmed, item.config);
    if item.warning {
      WarnTracks(t, h + reset, confirmed, item, job);
    } else {
      HealTracks(t, h + reset, confirmed, item, job);
    }
    assert h + ReadingMarks(o, item, note) == h + reset + [Mark(if item.warning then Warn else Heal, note)];
  }

  /** The history up to the observation loop. */
  function Heard(w: World, s: Step): seq<Mark>
    requires s.Prepare?
  {
    w.marks + if QueueGap(w.ledger, s.previous) then [GAP] else []
  }

  lemma PreparedFromBase(v: Ledger, s: Step)
    requires s.Prepare? && s.position > v.lastPosition
    ensures Prepared(v, s.position, s.job, s.items, s.previous, s.active)
         == (Ledger(s.position, ObserveAll(Base(v, s), s.items, s.job).0), ObserveAll(Base(v, s), s.items, s.job).1)
  {}

  lemma AbsentTracks(w: World, s: Step, id: SourceId)
    requires Inv(w, id) && s.Prepare? && id !in Current(s.items)
    ensures Tracks(Get(ObserveAll(Base(w.ledger, s), s.items, s.job).0, id), Heard(w, s) + [GAP], w.confirmed)
         && HistoryOk(Heard(w, s) + [GAP], w.confirmed)
  {
    BaseTracks(w, s, id);
    ObserveOthers(Base(w.ledger, s), s.items, s.job, id);
  }

  lemma PresentTracks(w: World, s: Step, id: SourceId)
    requires Inv(w, id) && s.Prepare? && Distinct(s.items) && id in Current(s.items)
    ensures var (m, events) := ObserveAll(Base(w.ledger, s), s.items, s.job);
            var h := Heard(w, s) + ReadingMarks(Get(Base(w.ledger, s), id), ItemFor(s.items, id), NoteOf(events, id));
            Tracks(Get(m, id), h, w.confirmed) && HistoryOk(h, w.confirmed)
  {
    BaseTracks(w, s, id);
    assert Heard(w, s) + [] == Heard(w, s);
    ObserveOne(Base(w.ledger, s), s.items, s.job, id);
    ReadingTracks(Get(Base(w.ledger, s), id), Heard(w, s), w.confirmed, ItemFor(s.items, id), s.job);
  }

  lemma PrepareTracks(w: World, s: Step, id: SourceId)
    requires Inv(w, id) && s.Prepare? && Distinct(s.items) && s.position > w.ledger.lastPosition
    ensures var v := Prepared(w.ledger, s.position, s.job, s.items, s.previous, s.active).0;
            var h := w.marks + MarksFor(w.ledger, s, id);
            Tracks(Get(v.sources, id), h, w.confirmed) && HistoryOk(h, w.confirmed)
  {
    PreparedFromBase(w.ledger, s);
    MarksHeard(w, s, id);
    if id !in Current(s.items) { AbsentTracks(w, s, id); } else { PresentTracks(w, s, id); }
  }

  /** The marks of a step, grouped as a possible gap and then the reading or its absence. */
  lemma MarksHeard(w: World, s: Step, id: SourceId)
    requires s.Prepare? && s.position > w.ledger.lastPosition
    ensures w.marks + MarksFor(w.ledger, s, id)
         == Heard(w, s) + if id !in Current(s.items) then [GAP]
                          else ReadingMarks(Get(Base(w.ledger, s), id), ItemFor(s.items, id),
                                            NoteOf(ObserveAll(Base(w.ledger, s), s.items, s.job).1, id))
  {}

  lemma ObservedOk(s: Source, item: Observation, job: Uuid)
    requires SourceOk(s)
    ensures SourceOk(Observed(s, item, job))
  {}

  lemma {:induction false} ObserveKeepsSources(m: map<SourceId, Source>, items: seq<Observation>, job: Uuid)
    requires AllOk(m)
    ensures AllOk(ObserveAll(m, items, job).0)
    decreases |items|
  {
    if items != [] {
      ObserveKeepsSources(m, items[..|items| - 1], job);
      var m1 := ObserveAll(m, items[..|items| - 1], job).0;
      var item := items[|items| - 1];
      assert item.id in m1 ==> SourceOk(m1[item.id]);
      ObservedOk(Begun(Get(m1, item.id), item.config), item, job);
    }
  }

  lemma BaseKeepsSources(v: Ledger, s: Step)
    requires s.Prepare? && AllOk(v.sources)
    ensures AllOk(Base(v, s))
  {}

  /** At most the first matching event of the job changes a source. */
  lemma {:induction false} FinishOneSource(m: map<SourceId, Source>, events: seq<Event>, job: Uuid, delivered: bool,
                                           id: SourceId)
    ensures var r := FinishAll(m, events, job, delivered);
            && r.Keys == m.Keys
            && (id in m ==> r[id] == m[id]
                            || exists e :: Concerns(m[id], e, job) && r[id] == Finished(m[id], e, delivered))
    decreases |events|
  {
    if events != [] { FinishOneSource(m, events[..|events| - 1], job, delivered, id); }
  }

  lemma FinishTracks(w: World, s: Step, id: SourceId)
    requires Inv(w, id) && s.Finish?
    ensures Inv(Next(w, s, id), id)
  {
    var v := Next(w, s, id);
    LastAlarmBound(w.marks);
    forall i | i in v.ledger.sources ensures SourceOk(v.ledger.sources[i]) {
      FinishOneSource(w.ledger.sources, s.events, s.job, s.delivered, i);
    }
    FinishOneSource(w.ledger.sources, s.events, s.job, s.delivered, id);
    assert HistoryOk(v.marks, v.confirmed) by {
      forall j | 0 <= j < |v.marks| ensures Justified(v.marks, v.confirmed, j) {
        assert Justified(w.marks, w.confirmed, j);
      }
    }
  }

  lemma PrepareKeepsInv(w: World, s: Step, id: SourceId)
    requires Inv(w, id) && s.Prepare?
    ensures Inv(Next(w, s, id), id)
  {
    if Distinct(s.items) && s.position > w.ledger.lastPosition {
      PrepareTracks(w, s, id);
      BaseKeepsSources(w.ledger, s);
      ObserveKeepsSources(Base(w.ledger, s), s.items, s.job);
    } else {
      ReconcileKeeps(w, s.active, id);
    }
  }

  lemma ResetKeepsSources(m: map<SourceId, Source>, active: set<Uuid>)
    requires AllOk(m)
    ensures AllOk(ReconcileAll(m, active)) && AllOk(BreakAll(m))
    ensures ReconcileAll(m, active).Keys == m.Keys && BreakAll(m).Keys == m.Keys
  {}

  /** A gap for every source at once. */
  lemma GapKeeps(m: map<SourceId, Source>, h: seq<Mark>, confirmed: set<nat>, id: SourceId)
    requires AllOk(m) && Tracks(Get(m, id), h, confirmed) && HistoryOk(h, confirmed)
    ensures AllOk(BreakAll(m)) && |BreakAll(m)| == |m|
    ensures Tracks(Get(BreakAll(m), id), h + [GAP], confirmed) && HistoryOk(h + [GAP], confirmed)
  {
    GapTracks(Get(m, id), h, confirmed);
    SameSize(m, BreakAll(m));
  }

  lemma BreakStep(w: World, s: Step, id: SourceId)
    requires s.Break?
    ensures var m := ReconcileAll(w.ledger.sources, s.active);
            var v := Next(w, s, id);
            if s.position > w.ledger.lastPosition then
              v == w.(ledger := v.ledger, marks := w.marks + [GAP]) && v.ledger.sources == BreakAll(m)
              && v.ledger.lastPosition >= w.ledger.lastPosition
            else v == w.(ledger := w.ledger.(sources := m))
  {}

  lemma BreakKeepsInv(w: World, s: Step, id: SourceId)
    requires Inv(w, id) && s.Break?
    ensures Inv(Next(w, s, id), id)
  {
    ReconcileKeeps(w, s.active, id);
    BreakStep(w, s, id);
    if s.position > w.ledger.lastPosition {
      GapKeeps(ReconcileAll(w.ledger.sources, s.active), w.marks, w.confirmed, id);
    }
  }

  lemma SameSize(m: map<SourceId, Source>, n: map<SourceId, Source>)
    requires m.Keys == n.Keys
    ensures |m| == |n|
  {
    assert |m.Keys| == |m| && |n.Keys| == |n|;
  }

  /** Settling announcements without a running job keeps every tie to the history. */
  lemma ReconcileKeeps(w: World, active: set<Uuid>, id: SourceId)
    requires Inv(w, id)
    ensures var m := ReconcileAll(w.ledger.sources, active);
            AllOk(m) && |m| == |w.ledger.sources| && Tracks(Get(m, id), w.marks, w.confirmed)
  {
    var m := ReconcileAll(w.ledger.sources, active);
    ResetKeepsSources(w.ledger.sources, active);
    ReconciledTracks(Get(w.ledger.sources, id), w.marks, w.confirmed, active);
    assert Get(m, id) == if id in w.ledger.sources then Some(Reconciled(w.ledger.sources[id], active)) else None;
    SameSize(w.ledger.sources, m);
  }

  lemma AbandonKeepsInv(w: World, s: Step, id: SourceId)
    requires Inv(w, id) && s.Abandon?
    ensures Inv(Next(w, s, id), id)
  {
    assert AbandonAll(w.ledger.sources, s.job).Keys == w.ledger.sources.Keys;
  }

  lemma NextKeepsInv(w: World, s: Step, id: SourceId)
    requires Inv(w, id)
    ensures Inv(Next(w, s, id), id)
  {
    match s
    case Prepare(_, _, _, _, _, _) => PrepareKeepsInv(w, s, id);
    case Break(_, _) => BreakKeepsInv(w, s, id);
    case Finish(_, _, _) => FinishTracks(w, s, id);
    case Abandon(_) => AbandonKeepsInv(w, s, id);
  }

  lemma {:induction false} RunKeepsInv(steps: seq<Step>, id: SourceId)
    ensures Inv(Run(INIT, steps, id), id)
    decreases |steps|
  {
    if steps != [] {
      RunKeepsInv(steps[..|steps| - 1], id);
      NextKeepsInv(Run(INIT, steps[..|steps| - 1], id), steps[|steps| - 1], id);
    }
  }

  // ---------- guarantees ----------

  /** A warning is announced only on two consecutive warning readings with no gap between them. */
  lemma AlarmNeedsTwoStrikes(steps: seq<Step>, id: SourceId, j: nat)
    requires var h := Run(INIT, steps, id).marks; j < |h| && h[j].note == Alarm
    ensures var h := Run(INIT, steps, id).marks; j >= 1 && h[j].kind == Warn && h[j - 1].kind == Warn
  {
    RunKeepsInv(steps, id);
    var w := Run(INIT, steps, id);
    assert Justified(w.marks, w.confirmed, j);
  }

  /** A recovery is announced only on two consecutive good readings, for a delivered and still open alarm. */
  lemma RecoveryNeedsDeliveredAlarm(steps: seq<Step>, id: SourceId, j: nat)
    requires var h := Run(INIT, steps, id).marks; j < |h| && h[j].note == AllClear
    ensures var w := Run(INIT, steps, id);
            && j >= 1 && w.marks[j].kind == Heal && w.marks[j - 1].kind == Heal
            && exists a <- w.confirmed :: a < j && Unanswered(w.marks, a, j)
  {
    RunKeepsInv(steps, id);
    var w := Run(INIT, steps, id);
    assert Justified(w.marks, w.confirmed, j);
  }

  /** Between two warnings of an unchanged source there are always two consecutive good readings. */
  lemma AlarmsAreSeparated(steps: seq<Step>, id: SourceId, i: nat, j: nat)
    requires var h := Run(INIT, steps, id).marks;
             i < j < |h| && h[i].note == Alarm && h[j].note == Alarm && SameConfig(h, i, j)
    ensures HealPair(Run(INIT, steps, id).marks, i, j)
  {
    RunKeepsInv(steps, id);
    var w := Run(INIT, steps, id);
    assert Justified(w.marks, w.confirmed, j);
  }

  /** A job is recorded exactly while an announcement is under way, and every stored ledger loads again. */
  lemma LedgerStaysSound(steps: seq<Step>, id: SourceId)
    ensures var v := Run(INIT, steps, id).ledger;
            && Admissible(v)
            && forall i <- v.sources ::
                 v.sources[i].job.Some?
                 <==> (v.sources[i].incident == Attempting || v.sources[i].incident == Recovering)
  {
    RunKeepsInv(steps, id);
  }

  /** Replaying a position announces nothing and never rewrites a streak. */
  lemma ReplayIsSilent(v: Ledger, position: int, job: Uuid, items: seq<Observation>, previous: Option<int>,
                       active: set<Uuid>)
    requires position <= v.lastPosition
    ensures var (u, events) := Prepared(v, position, job, items, previous, active);
            && events == [] && u.lastPosition == v.lastPosition && u.sources.Keys == v.sources.Keys
            && forall i <- v.sources ::
                 u.sources[i].failed == v.sources[i].failed && u.sources[i].healthy == v.sources[i].healthy
                                        && u.sources[i].last == v.sources[i].last
  {}
}
