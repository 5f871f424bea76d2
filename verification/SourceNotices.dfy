/**
 When a source is announced: what one processed position does to a source, field by field, and
 that an alarm is raised at the second strike exactly when no incident is open
 (go-domain/terminalevents/sources.go:83-260).
 */
module SourceNotices {
  import opened Prelude
  import opened SourceLedger
  import opened SourceAlerts

  // ---------- one processed position ----------

  /** The announcement under way has lost its job. */
  predicate Stale(s: Source, active: set<Uuid>) {
    (s.incident == Attempting || s.incident == Recovering) && (s.job.None? || s.job.value !in active)
  }

  /** Incident and job of `s` once stale announcements are settled. */
  predicate SameIncident(s: Source, t: Source, active: set<Uuid>) {
    if Stale(s, active) then t.incident == UnknownIncident && t.job.None?
    else t.incident == s.incident && t.job == s.job
  }

  /** The position is new, follows the last one, and reads source `item.id` once. */
  predicate Reads(v: Ledger, position: int, items: seq<Observation>, previous: Option<int>, item: Observation) {
    && v.lastPosition < position && (v.lastPosition == 0 || previous == Some(v.lastPosition))
    && item in items && forall i, j | 0 <= i < j < |items| :: items[i].id != items[j].id
  }

  lemma ItemIsRead(items: seq<Observation>, item: Observation)
    requires Distinct(items) && item in items
    ensures item.id in Current(items) && ItemFor(items, item.id) == item
  {}

  lemma ReadingIsObserved(v: Ledger, position: int, job: Uuid, items: seq<Observation>, previous: Option<int>,
                          active: set<Uuid>, item: Observation)
    requires v.lastPosition < position && Distinct(items) && item in items
    ensures var (u, events) := Prepared(v, position, job, items, previous, active);
            var o := Get(Base(v, Prepare(position, job, items, previous, active, true)), item.id);
            var s := Begun(o, item.config);
            && Get(u.sources, item.id) == Some(Observed(s, item, job))
            && forall e: Event | e.id == item.id :: e in events <==> e in Announced(s, item, job)
  {
    var s := Prepare(position, job, items, previous, active, true);
    PreparedFromBase(v, s);
    ItemIsRead(items, item);
    ObserveOne(Base(v, s), items, job, item.id);
  }

  /** A known source without a gap before the reading is observed in the state it is stored in. */
  lemma KnownIsObserved(v: Ledger, position: int, job: Uuid, items: seq<Observation>, previous: Option<int>,
                        active: set<Uuid>, item: Observation)
    requires Reads(v, position, items, previous, item)
    requires item.id in v.sources && v.sources[item.id].config == item.config
    ensures var (u, events) := Prepared(v, position, job, items, previous, active);
            var s := Reconciled(v.sources[item.id], active);
            && item.id in u.sources && u.sources[item.id] == Observed(s, item, job)
            && forall e: Event | e.id == item.id :: e in events <==> e in Announced(s, item, job)
  {
    ReadingIsObserved(v, position, job, items, previous, active, item);
    ItemIsRead(items, item);
  }

  /** A warning of a known source: the second in a row raises the alarm exactly when no incident is open. */
  lemma WarningDecides(v: Ledger, position: int, job: Uuid, items: seq<Observation>, previous: Option<int>,
                       active: set<Uuid>, item: Observation)
    requires Reads(v, position, items, previous, item) && item.warning
    requires item.id in v.sources && v.sources[item.id].config == item.config
    ensures var (u, events) := Prepared(v, position, job, items, previous, active);
            && item.id in u.sources
            && var s, t, alarm := v.sources[item.id], u.sources[item.id], Event(item.id, false) in events;
            && t.config == s.config && t.last == Warning && t.healthy == 0
            && t.failed == (if s.last != Warning then 1 else if s.failed >= 1 then 2 else s.failed + 1)
            && (alarm <==> s.incident == NoIncident && s.last == Warning && s.failed >= 1)
            && Event(item.id, true) !in events
            && if alarm then t.incident == Attempting && t.job == Some(job) else SameIncident(s, t, active)
  {
    KnownIsObserved(v, position, job, items, previous, active, item);
  }

  /** A good reading: the second in a row announces the end of a delivered alarm and clears one of unknown outcome. */
  lemma GoodReadingDecides(v: Ledger, position: int, job: Uuid, items: seq<Observation>, previous: Option<int>,
                           active: set<Uuid>, item: Observation)
    requires Reads(v, position, items, previous, item) && !item.warning
    requires item.id in v.sources && v.sources[item.id].config == item.config
    ensures var (u, events) := Prepared(v, position, job, items, previous, active);
            && item.id in u.sources
            && var s, t, clear := v.sources[item.id], u.sources[item.id], Event(item.id, true) in events;
            && t.config == s.config && t.last == Healthy && t.failed == 0
            && t.healthy == (if s.last != Healthy then 1 else if s.healthy >= 1 then 2 else s.healthy + 1)
            && (clear <==> s.incident == Active && s.last == Healthy && s.healthy >= 1)
            && Event(item.id, false) !in events
            && if clear then t.incident == Recovering && t.job == Some(job)
               else if (s.incident == UnknownIncident || Stale(s, active)) && s.last == Healthy && s.healthy >= 1
               then t.incident == NoIncident && t.job.None?
               else SameIncident(s, t, active)
  {
    KnownIsObserved(v, position, job, items, previous, active, item);
  }

  /** A source that is new, or comes with another configuration, starts from scratch and is not announced. */
  lemma FirstReadingStarts(v: Ledger, position: int, job: Uuid, items: seq<Observation>, previous: Option<int>,
                           active: set<Uuid>, item: Observation)
    requires v.lastPosition < position && Distinct(items) && item in items
    requires item.id in v.sources ==> v.sources[item.id].config != item.config
    ensures var (u, events) := Prepared(v, position, job, items, previous, active);
            && (forall e <- events :: e.id != item.id) && item.id in u.sources
            && u.sources[item.id] == if item.warning then Source(item.config, 1, 0, Warning, NoIncident, None)
                                     else Source(item.config, 0, 1, Healthy, NoIncident, None)
  {
    ReadingIsObserved(v, position, job, items, previous, active, item);
    ItemIsRead(items, item);
  }

  /** After a gap in the queue nobody is at the second strike: the streak starts again, the incident stays. */
  lemma GapStartsAgain(v: Ledger, position: int, job: Uuid, items: seq<Observation>, previous: Option<int>,
                       active: set<Uuid>, item: Observation)
    requires v.lastPosition < position && v.lastPosition != 0 && previous != Some(v.lastPosition)
    requires Distinct(items) && item in items
    requires item.id in v.sources && v.sources[item.id].config == item.config
    ensures var (u, events) := Prepared(v, position, job, items, previous, active);
            && (forall e <- events :: e.id != item.id) && item.id in u.sources
            && var s, t := v.sources[item.id], u.sources[item.id];
            && SameIncident(s, t, active) && t.config == s.config
            && t.failed == (if item.warning then 1 else 0) && t.healthy == (if item.warning then 0 else 1)
            && t.last == if item.warning then Warning else Healthy
  {
    ReadingIsObserved(v, position, job, items, previous, active, item);
    ItemIsRead(items, item);
  }

  /** A source that is not read is forgotten when nothing is open about it, and loses its streaks otherwise. */
  lemma AbsenceDecides(v: Ledger, position: int, job: Uuid, items: seq<Observation>, previous: Option<int>,
                       active: set<Uuid>, id: SourceId)
    requires v.lastPosition < position && forall item <- items :: item.id != id
    ensures var (u, events) := Prepared(v, position, job, items, previous, active);
            && (forall e <- events :: e.id != id)
            && (id in u.sources <==>
                  id in v.sources && (v.sources[id].incident != NoIncident || v.sources[id].job.Some?))
            && (id in u.sources ==>
                  var s, t := v.sources[id], u.sources[id];
                  && SameIncident(s, t, active) && t.config == s.config
                  && t.failed == 0 && t.healthy == 0 && t.last == Missing)
  {
    var s := Prepare(position, job, items, previous, active, true);
    PreparedFromBase(v, s);
    ObserveOthers(Base(v, s), items, job, id);
  }

  /** Two positions in a row that warn of a source without an open incident announce it, exactly once. */
  lemma TwoWarningsRaiseAlarm(
    v: Ledger, first: int, second: int, job: Uuid, job': Uuid, items: seq<Observation>, items': seq<Observation>,
    previous: Option<int>, active: set<Uuid>, active': set<Uuid>, item: Observation)
    requires Admissible(v) && v.lastPosition < first < second && Distinct(items) && Distinct(items')
    requires item in items && item in items' && item.warning
    requires item.id in v.sources && v.sources[item.id].config == item.config ==>
               v.sources[item.id].incident == NoIncident
    ensures var (u, events) := Prepared(v, first, job, items, previous, active);
            var (u', events') := Prepared(u, second, job', items', Some(first), active');
            (Event(item.id, false) in events) != (Event(item.id, false) in events')
  {
    var u := Prepared(v, first, job, items, previous, active).0;
    if item.id !in v.sources || v.sources[item.id].config != item.config {
      FirstReadingStarts(v, first, job, items, previous, active, item);
    } else if v.lastPosition != 0 && previous != Some(v.lastPosition) {
      GapStartsAgain(v, first, job, items, previous, active, item);
    } else {
      WarningDecides(v, first, job, items, previous, active, item);
    }
    WarningDecides(u, second, job', items', Some(first), active', item);
  }

  /** A job without readings breaks every streak and keeps every incident; a replayed one only settles what is lost. */
  lemma BreakDecides(v: Ledger, position: int, active: set<Uuid>, id: SourceId)
    ensures var u := Breaks(v, position, active);
            && u.lastPosition == Max(position, v.lastPosition) && (id in u.sources <==> id in v.sources)
            && (id in v.sources ==>
                  var s, t := v.sources[id], u.sources[id];
                  && SameIncident(s, t, active) && t.config == s.config
                  && if position > v.lastPosition then t.failed == 0 && t.healthy == 0 && t.last == Missing
                     else t.failed == s.failed && t.healthy == s.healthy && t.last == s.last)
  {}

  /** What a job that is given up was announcing is in doubt. */
  lemma AbandonDecides(m: map<SourceId, Source>, job: Uuid, id: SourceId)
    ensures var r := AbandonAll(m, job);
            && (id in r <==> id in m)
            && (id in m ==>
                  r[id] == if m[id].job == Some(job) && (m[id].incident == Attempting || m[id].incident == Recovering)
                           then m[id].(incident := UnknownIncident, job := None) else m[id])
  {}

  // ---------- the notice's outcome ----------

  /** The job's own announcement of a source is settled once: delivered, it counts, otherwise it is in doubt. */
  lemma {:induction false} OutcomeDecides(m: map<SourceId, Source>, events: seq<Event>, job: Uuid, delivered: bool,
                                          e: Event)
    requires e.id in m && m[e.id].job == Some(job)
    requires m[e.id].incident == if e.recovery then Recovering else Attempting
    ensures var r := FinishAll(m, events, job, delivered);
            && e.id in r
            && r[e.id] == if e !in events then m[e.id]
                          else m[e.id].(job := None, healthy := if e.recovery then 0 else m[e.id].healthy,
                                        incident := if !delivered then UnknownIncident
                                                    else if e.recovery then NoIncident else Active)
    decreases |events|
  {
    if events != [] {
      var rest := events[..|events| - 1];
      assert events == rest + [events[|events| - 1]];
      OutcomeDecides(m, rest, job, delivered, e);
    }
  }

  // ---------- histories ----------

  /** The last mark shows in the source: a streak has begun. */
  predicate StreakShows(o: Option<Source>, h: seq<Mark>) {
    h != [] ==>
      && (h[|h| - 1].kind == Warn ==> o.Some? && o.value.last == Warning && o.value.failed >= 1)
      && (h[|h| - 1].kind == Heal ==>
            o.Some? && o.value.last == Healthy
            && (o.value.healthy >= 1 || o.value.incident == NoIncident || o.value.incident == UnknownIncident))
  }

  predicate Shows(w: World, id: SourceId) {
    StreakShows(Get(w.ledger.sources, id), w.marks)
  }

  /** The step reads source `id` at a new position and its transaction commits. */
  predicate Commits(w: World, s: Step, id: SourceId) {
    && s.Prepare? && Distinct(s.items) && w.ledger.lastPosition < s.position && s.small
    && |Prepared(w.ledger, s.position, s.job, s.items, s.previous, s.active).0.sources| <= MAX_SOURCES
    && id in Current(s.items)
  }

  /** The note of a reading. */
  function NoteFor(o: Option<Source>, item: Observation, job: Uuid): Note {
    NoteOf(Announced(Begun(o, item.config), item, job), item.id)
  }

  lemma SameNote(a: seq<Event>, b: seq<Event>, id: SourceId)
    requires forall e: Event | e.id == id :: e in a <==> e in b
    ensures NoteOf(a, id) == NoteOf(b, id)
  {}

  /** What a committed step adds for a source that it reads. */
  lemma CommitReads(w: World, s: Step, id: SourceId)
    requires Commits(w, s, id)
    ensures var item, o := ItemFor(s.items, id), Get(Base(w.ledger, s), id);
            && Next(w, s, id).marks == Heard(w, s) + ReadingMarks(o, item, NoteFor(o, item, s.job))
            && Get(Next(w, s, id).ledger.sources, id) == Some(Observed(Begun(o, item.config), item, s.job))
  {
    var item := ItemFor(s.items, id);
    MarksHeard(w, s, id);
    PreparedFromBase(w.ledger, s);
    ObserveOne(Base(w.ledger, s), s.items, s.job, id);
    SameNote(ObserveAll(Base(w.ledger, s), s.items, s.job).1,
             Announced(Begun(Get(Base(w.ledger, s), id), item.config), item, s.job), id);
  }

  lemma ObservedShows(o: Option<Source>, h: seq<Mark>, item: Observation, job: Uuid)
    requires o.Some? ==> SourceOk(o.value)
    ensures StreakShows(Some(Observed(Begun(o, item.config), item, job)),
                        h + ReadingMarks(o, item, NoteFor(o, item, job)))
  {
    var marks := ReadingMarks(o, item, NoteFor(o, item, job));
    assert (h + marks)[|h + marks| - 1] == marks[|marks| - 1];
  }

  lemma ReadingShows(w: World, s: Step, id: SourceId)
    requires Inv(w, id) && Commits(w, s, id)
    ensures Shows(Next(w, s, id), id)
  {
    CommitReads(w, s, id);
    BaseKeepsSources(w.ledger, s);
    ObservedShows(Get(Base(w.ledger, s), id), Heard(w, s), ItemFor(s.items, id), s.job);
  }

  lemma NextShows(w: World, s: Step, id: SourceId)
    requires Inv(w, id) && Shows(w, id)
    ensures Shows(Next(w, s, id), id)
  {
    if Commits(w, s, id) {
      ReadingShows(w, s, id);
    } else if s.Prepare? {
      if Next(w, s, id).marks != w.marks { MarksHeard(w, s, id); }
    } else if s.Finish? {
      FinishOneSource(w.ledger.sources, s.events, s.job, s.delivered, id);
    }
  }

  lemma {:induction false} RunShows(steps: seq<Step>, id: SourceId)
    ensures Shows(Run(INIT, steps, id), id)
    decreases |steps|
  {
    if steps != [] {
      RunShows(steps[..|steps| - 1], id);
      RunKeepsInv(steps[..|steps| - 1], id);
      NextShows(Run(INIT, steps[..|steps| - 1], id), steps[|steps| - 1], id);
    }
  }

  lemma AppendSame(a: seq<Mark>, b: seq<Mark>, c: seq<Mark>)
    requires a + b == a + c
    ensures b == c
  {
    assert b == (a + b)[|a|..] == (a + c)[|a|..] == c;
  }

  /** The step that leaves one reading is a commit without a gap or a new configuration. */
  lemma PlainReading(w: World, s: Step, id: SourceId, m: Mark)
    requires Next(w, s, id).marks == w.marks + [m] && m.kind in {Warn, Heal}
    ensures Commits(w, s, id) && MarksFor(w.ledger, s, id) == [m] && !QueueGap(w.ledger, s.previous)
    ensures m.kind == if ItemFor(s.items, id).warning then Warn else Heal
  {
    if s.Break? {
      AppendSame(w.marks, [GAP], [m]);
    } else {
      var marks := MarksFor(w.ledger, s, id);
      assert marks[|marks| - 1].kind == if id !in Current(s.items) then Gap
                                        else if ItemFor(s.items, id).warning then Warn else Heal;
      AppendSame(w.marks, marks, [m]);
    }
  }

  /** Such a step finds the source with the streak that the last mark shows. */
  lemma PlainNote(w: World, s: Step, id: SourceId, m: Mark)
    requires Shows(w, id) && Commits(w, s, id) && MarksFor(w.ledger, s, id) == [m] && !QueueGap(w.ledger, s.previous)
    requires w.marks != [] && w.marks[|w.marks| - 1].kind == m.kind
    requires m.kind == if ItemFor(s.items, id).warning then Warn else Heal
    ensures id in w.ledger.sources && w.ledger.sources[id].config == ItemFor(s.items, id).config
    ensures m.note == NoteFor(Some(Reconciled(w.ledger.sources[id], s.active)), ItemFor(s.items, id), s.job)
  {
    var item, o := ItemFor(s.items, id), Get(Base(w.ledger, s), id);
    var marks := ReadingMarks(o, item, NoteFor(o, item, s.job));
    CommitReads(w, s, id);
    assert Heard(w, s) == w.marks;
    AppendSame(w.marks, marks, MarksFor(w.ledger, s, id));
    assert marks[|marks| - 1].note == NoteFor(o, item, s.job);
  }

  lemma NoteDecides(s: Source, item: Observation, job: Uuid, active: set<Uuid>)
    requires s.config == item.config && StreakShows(Some(s), [Mark(if item.warning then Warn else Heal, Quiet)])
    ensures var note := NoteFor(Some(Reconciled(s, active)), item, job);
            && (note == Alarm <==> item.warning && s.incident == NoIncident)
            && (note == AllClear <==> !item.warning && s.incident == Active)
  {}

  /**
   In every run: the second of two warning readings with nothing between them raises the alarm
   exactly when no incident is open, and the second of two good readings announces the recovery
   exactly when the alarm was delivered and is still open.
   */
  lemma SecondReadingDecides(steps: seq<Step>, s: Step, id: SourceId, m: Mark)
    requires var w := Run(INIT, steps, id);
             && Next(w, s, id).marks == w.marks + [m]
             && w.marks != [] && w.marks[|w.marks| - 1].kind == m.kind && m.kind in {Warn, Heal}
    ensures var w := Run(INIT, steps, id);
            && id in w.ledger.sources
            && (m.note == Alarm <==> m.kind == Warn && w.ledger.sources[id].incident == NoIncident)
            && (m.note == AllClear <==> m.kind == Heal && w.ledger.sources[id].incident == Active)
  {
    var w := Run(INIT, steps, id);
    RunShows(steps, id);
    PlainReading(w, s, id, m);
    PlainNote(w, s, id, m);
    NoteDecides(w.ledger.sources[id], ItemFor(s.items, id), s.job, s.active);
  }
}
