/**
 The source alert ledger (go-domain/terminalevents/sources.go and abandonLedger in
 go-domain/terminalevents/store.go): two-strike hysteresis per source, kept in one
 row per schedule.
 */
module SourceLedger {
  import opened Prelude

  type SourceId = nat

  datatype Last = NewSource | Warning | Healthy | Missing

  datatype Incident = NoIncident | Active | Attempting | Recovering | UnknownIncident | Retired

  datatype Source = Source(config: Uuid, failed: int, healthy: int, last: Last, incident: Incident, job: Option<Uuid>)

  datatype Observation = Observation(id: SourceId, config: Uuid, warning: bool)

  datatype Event = Event(id: SourceId, recovery: bool)

  datatype Ledger = Ledger(lastPosition: int, sources: map<SourceId, Source>)

  const MAX_SOURCES: int := 64

  // ---------- one source ----------

  predicate Announcing(s: Source) {
    s.incident == Attempting || s.incident == Recovering
  }

  function Lost(s: Source): Source {
    s.(incident := UnknownIncident, job := None)
  }

  /** An announcement whose job is not running any more has an unknown outcome. */
  function Reconciled(s: Source, active: set<Uuid>): Source {
    if Announcing(s) && (s.job.None? || s.job.value !in active) then Lost(s) else s
  }

  function Broken(s: Source): Source {
    s.(failed := 0, healthy := 0, last := Missing)
  }

  function Begun(before: Option<Source>, config: Uuid): Source {
    if before.None? || before.value.config != config then Source(config, 0, 0, NewSource, NoIncident, None)
    else before.value
  }

  function Warned(s: Source, job: Uuid): Source {
    var failed := if s.last == Warning then Min(2, s.failed + 1) else 1;
    var t := s.(healthy := 0, failed := failed, last := Warning);
    if failed >= 2 && s.incident == NoIncident then t.(incident := Attempting, job := Some(job)) else t
  }

  function Healed(s: Source, job: Uuid): Source {
    var healthy := if s.last == Healthy then Min(2, s.healthy + 1) else 1;
    var t := s.(failed := 0, healthy := healthy, last := Healthy);
    if healthy >= 2 && s.incident == Active then t.(incident := Recovering, job := Some(job))
    else if healthy >= 2 && s.incident == UnknownIncident then t.(incident := NoIncident, job := None)
    else t
  }

  function Observed(s: Source, item: Observation, job: Uuid): Source {
    if item.warning then Warned(s, job) else Healed(s, job)
  }

  /** The announcement that the observation turns out to need. */
  function Announced(s: Source, item: Observation, job: Uuid): seq<Event> {
    var t := Observed(s, item, job);
    if s.incident == NoIncident && t.incident == Attempting then [Event(item.id, false)]
    else if s.incident == Active && t.incident == Recovering then [Event(item.id, true)]
    else []
  }

  predicate Concerns(s: Source, e: Event, job: Uuid) {
    s.job == Some(job) && s.incident == if e.recovery then Recovering else Attempting
  }

  function Finished(s: Source, e: Event, delivered: bool): Source {
    var incident := if !delivered then UnknownIncident else if e.recovery then NoIncident else Active;
    s.(incident := incident, job := None, healthy := if e.recovery then 0 else s.healthy)
  }

  // ---------- the whole ledger ----------

  function Get(m: map<SourceId, Source>, id: SourceId): Option<Source> {
    if id in m then Some(m[id]) else None
  }

  function ReconcileAll(m: map<SourceId, Source>, active: set<Uuid>): map<SourceId, Source> {
    map id | id in m :: Reconciled(m[id], active)
  }

  function BreakAll(m: map<SourceId, Source>): map<SourceId, Source> {
    map id | id in m :: Broken(m[id])
  }

  predicate Forgettable(s: Source) {
    s.incident == NoIncident && s.job.None?
  }

  /** Sources absent from the observation are forgotten, or lose their streaks. */
  function DropAbsent(m: map<SourceId, Source>, current: set<SourceId>): map<SourceId, Source> {
    map id | id in m && (id in current || !Forgettable(m[id])) :: if id in current then m[id] else Broken(m[id])
  }

  function Current(items: seq<Observation>): set<SourceId> {
    set item <- items :: item.id
  }

  function ObserveAll(m: map<SourceId, Source>, items: seq<Observation>, job: Uuid): (map<SourceId, Source>, seq<Event>)
    decreases |items|
  {
    if items == [] then (m, [])
    else
      var (m1, events) := ObserveAll(m, items[..|items| - 1], job);
      var item := items[|items| - 1];
      var s := Begun(Get(m1, item.id), item.config);
      (m1[item.id := Observed(s, item, job)], events + Announced(s, item, job))
  }

  function Breaks(v: Ledger, position: int, active: set<Uuid>): Ledger {
    var m := ReconcileAll(v.sources, active);
    if position <= v.lastPosition then v.(sources := m) else Ledger(position, BreakAll(m))
  }

  predicate QueueGap(v: Ledger, previous: Option<int>) {
    v.lastPosition != 0 && previous != Some(v.lastPosition)
  }

  function Prepared(v: Ledger, position: int, job: Uuid, items: seq<Observation>, previous: Option<int>,
                    active: set<Uuid>): (Ledger, seq<Event>) {
    var m := ReconcileAll(v.sources, active);
    if position <= v.lastPosition then (v.(sources := m), [])
    else
      var m1 := if QueueGap(v, previous) then BreakAll(m) else m;
      var (m2, events) := ObserveAll(DropAbsent(m1, Current(items)), items, job);
      (Ledger(position, m2), events)
  }

  function FinishOne(m: map<SourceId, Source>, e: Event, job: Uuid, delivered: bool): map<SourceId, Source> {
    if e.id in m && Concerns(m[e.id], e, job) then m[e.id := Finished(m[e.id], e, delivered)] else m
  }

  function FinishAll(m: map<SourceId, Source>, events: seq<Event>, job: Uuid, delivered: bool): map<SourceId, Source>
    decreases |events|
  {
    if events == [] then m
    else FinishOne(FinishAll(m, events[..|events| - 1], job, delivered), events[|events| - 1], job, delivered)
  }

  function AbandonAll(m: map<SourceId, Source>, job: Uuid): map<SourceId, Source> {
    map id | id in m :: if m[id].job == Some(job) && Announcing(m[id]) then Lost(m[id]) else m[id]
  }

  /** validSourceLedger, apart from the JSON encoding and its 12 KiB bound. */
  predicate Admissible(v: Ledger) {
    && v.lastPosition >= 0 && |v.sources| <= MAX_SOURCES
    && forall id <- v.sources :: 0 <= v.sources[id].failed <= 2 && 0 <= v.sources[id].healthy <= 2
  }

  // ---------- the same operations, changing the ledger in place ----------

  class LedgerState {
    var lastPosition: int
    var sources: map<SourceId, Source>

    constructor ()
      ensures Value() == Ledger(0, map[])
    {
      lastPosition, sources := 0, map[];
    }

    function Value(): Ledger
      reads this
    {
      Ledger(lastPosition, sources)
    }

    method Reconcile(active: set<Uuid>)
      modifies this`sources
      ensures sources == ReconcileAll(old(sources), active)
    {
      var todo := sources.Keys;
      while todo != {}
        invariant todo <= sources.Keys == old(sources).Keys
        invariant forall id <- sources ::
                  sources[id] == if id in todo then old(sources)[id] else Reconciled(old(sources)[id], active)
      {
        var id :| id in todo;
        var s := sources[id];
        if (s.incident == Attempting || s.incident == Recovering) && (s.job.None? || s.job.value !in active) {
          sources := sources[id := s.(incident := UnknownIncident, job := None)];
        }
        todo := todo - {id};
      }
    }

    method ResetStreaks()
      modifies this`sources
      ensures sources == BreakAll(old(sources))
    {
      var todo := sources.Keys;
      while todo != {}
        invariant todo <= sources.Keys == old(sources).Keys
        invariant forall id <- sources ::
                  sources[id] == if id in todo then old(sources)[id] else Broken(old(sources)[id])
      {
        var id :| id in todo;
        sources := sources[id := sources[id].(failed := 0, healthy := 0, last := Missing)];
        todo := todo - {id};
      }
    }

    method BreakStreaks(position: int, active: set<Uuid>)
      modifies this
      ensures Value() == Breaks(old(Value()), position, active)
    {
      Reconcile(active);
      if position <= lastPosition { return; }
      lastPosition := position;
      ResetStreaks();
    }

    method DropMissing(current: set<SourceId>)
      modifies this`sources
      ensures sources == DropAbsent(old(sources), current)
    {
      var todo := sources.Keys;
      while todo != {}
        invariant todo <= sources.Keys <= old(sources).Keys
        invariant forall id <- todo :: sources[id] == old(sources)[id]
        invariant forall id <- old(sources) | id !in todo ::
                    && (id in sources <==> id in DropAbsent(old(sources), current))
                    && (id in sources ==> sources[id] == DropAbsent(old(sources), current)[id])
      {
        var id :| id in todo;
        var s := sources[id];
        if id !in current {
          if s.incident == NoIncident && s.job.None? {
            sources := sources - {id};
          } else {
            sources := sources[id := s.(failed := 0, healthy := 0, last := Missing)];
          }
        }
        todo := todo - {id};
      }
    }

    /** One turn of the observation loop: the source's new state and the event it appends, if any. */
    method Observe(item: Observation, job: Uuid) returns (events: seq<Event>)
      modifies this`sources
      ensures var s := Begun(Get(old(sources), item.id), item.config);
              sources == old(sources)[item.id := Observed(s, item, job)] && events == Announced(s, item, job)
    {
      events := [];
      if item.id !in sources || sources[item.id].config != item.config {
        sources := sources[item.id := Source(item.config, 0, 0, NewSource, NoIncident, None)];
      }
      var s := sources[item.id];
      if item.warning {
        s := s.(healthy := 0, failed := if s.last == Warning then Min(2, s.failed + 1) else 1, last := Warning);
        if s.failed >= 2 && s.incident == NoIncident {
          s := s.(incident := Attempting, job := Some(job));
          events := [Event(item.id, false)];
        }
      } else {
        s := s.(failed := 0, healthy := if s.last == Healthy then Min(2, s.healthy + 1) else 1, last := Healthy);
        if s.healthy >= 2 && s.incident == Active {
          s := s.(incident := Recovering, job := Some(job));
          events := [Event(item.id, true)];
        } else if s.healthy >= 2 && s.incident == UnknownIncident {
          s := s.(incident := NoIncident, job := None);
        }
      }
      sources := sources[item.id := s];
    }

    method Prepare(position: int, job: Uuid, items: seq<Observation>, previous: Option<int>, active: set<Uuid>)
      returns (events: seq<Event>, ok: bool)
      modifies this
      ensures (Value(), events) == Prepared(old(Value()), position, job, items, previous, active)
      ensures ok <==> position <= old(lastPosition) || |sources| <= MAX_SOURCES
    {
      Reconcile(active);
      if position <= lastPosition { return [], true; }
      if lastPosition != 0 && (previous.None? || previous.value != lastPosition) {
        ResetStreaks();
      }
      DropMissing(Current(items));
      ghost var base := sources;
      events := [];
      var i := 0;
      while i < |items|
        invariant 0 <= i <= |items| && lastPosition == old(lastPosition)
        invariant (sources, events) == ObserveAll(base, items[..i], job)
      {
        assert items[..i + 1][..i] == items[..i];
        var more := Observe(items[i], job);
        events := events + more;
        i := i + 1;
      }
      assert items[..|items|] == items;
      lastPosition := position;
      ok := |sources| <= MAX_SOURCES;
    }

    method FinishNotice(events: seq<Event>, job: Uuid, delivered: bool)
      modifies this`sources
      ensures sources == FinishAll(old(sources), events, job, delivered)
    {
      var i := 0;
      while i < |events|
        invariant 0 <= i <= |events|
        invariant sources == FinishAll(old(sources), events[..i], job, delivered)
      {
        var e := events[i];
        assert events[..i + 1][..i] == events[..i];
        var announced := if e.recovery then Recovering else Attempting;
        if e.id in sources && sources[e.id].job == Some(job) && sources[e.id].incident == announced {
          var s := sources[e.id];
          s := s.(incident := if delivered then (if e.recovery then NoIncident else Active) else UnknownIncident,
                  job := None);
          if e.recovery { s := s.(healthy := 0); }
          sources := sources[e.id := s];
        }
        i := i + 1;
      }
      assert events[..|events|] == events;
    }

    method Abandon(job: Uuid)
      modifies this`sources
      ensures sources == AbandonAll(old(sources), job)
    {
      var todo := sources.Keys;
      while todo != {}
        invariant todo <= sources.Keys == old(sources).Keys
        invariant forall id <- sources ::
                  sources[id] == if id in todo then old(sources)[id] else AbandonAll(old(sources), job)[id]
      {
        var id :| id in todo;
        var s := sources[id];
        if s.job == Some(job) && Announcing(s) {
          sources := sources[id := Lost(s)];
        }
        todo := todo - {id};
      }
    }
  }
}
