/**
 The next occurrence of a schedule (go-execution/orchestration/legacy.go:408-465), in a zone
 with a fixed offset from UTC.  Instants are nanoseconds since 1970-01-01T00:00Z.
 */
module Schedule {
  import opened Prelude

  const MINUTE: int := 60 * 1000000000
  const HOUR: int := 60 * MINUTE
  const DAY: int := 24 * HOUR

  datatype Kind = Interval | Daily | Hourly | Unknown

  /** `zone` is the offset of a known time zone. */
  datatype Plan = Plan(kind: Kind, hour: int, minute: int, weekdays: seq<int>, zone: Option<int>, interval: Option<nat>)

  function Day(local: int): int {
    local / DAY
  }

  /** Monday is 1 and Sunday 7; the epoch was a Thursday. */
  function Weekday(local: int): int {
    (Day(local) + 3) % 7 + 1
  }

  predicate Allowed(weekdays: seq<int>, local: int) {
    weekdays == [] || Weekday(local) in weekdays
  }

  /** The clock shows this schedule's time of day, on the second. */
  predicate Slot(p: Plan, local: int) {
    match p.kind
    case Daily => local % DAY == p.hour * HOUR + p.minute * MINUTE
    case Hourly => local % HOUR == p.minute * MINUTE
    case _ => false
  }

  predicate Usable(p: Plan) {
    p.zone.Some? && (p.kind == Daily || p.kind == Hourly) && 0 <= p.hour <= 23 && 0 <= p.minute <= 59
  }

  /** The schedule fires at some time of some week. */
  predicate Fires(p: Plan) {
    p.weekdays == [] || exists d <- p.weekdays :: 1 <= d <= 7
  }

  /** The first instant after `local` that lies `m` past a multiple of `period`. */
  function After(local: int, period: int, m: int): int
    requires period > 0
  {
    var c := local / period * period + m;
    if c <= local then c + period else c
  }

  /** The loop's first candidate: the slot of this hour or this day, or else of the next. */
  function FirstSlot(p: Plan, local: int): int {
    if p.kind == Hourly then After(local, HOUR, p.minute * MINUTE)
    else After(local, DAY, p.hour * HOUR + p.minute * MINUTE)
  }

  /** One day on; an hourly schedule starts that day at its first slot. */
  function Advance(p: Plan, candidate: int): int {
    if p.kind == Hourly then (Day(candidate) + 1) * DAY + p.minute * MINUTE else candidate + DAY
  }

  /** The candidate is a slot after `now`, and every allowed slot after `now` is at or after it. */
  ghost predicate NoneEarlier(p: Plan, local: int, candidate: int) {
    && Slot(p, candidate) && local < candidate
    && forall t | local < t < candidate && Slot(p, t) :: !Allowed(p.weekdays, t)
  }

  /** The days of the week follow each other from Thursday, 1 January 1970, on. */
  lemma WeekdaysFollow(day: int, time: int)
    requires 0 <= time < DAY
    ensures Weekday(0) == 4 && 1 <= Weekday(day * DAY + time) <= 7
    ensures Weekday((day + 1) * DAY + time) == if Weekday(day * DAY + time) == 7 then 1
                                               else Weekday(day * DAY + time) + 1
  {
    Quotient(day, time, DAY);
    Quotient(day + 1, time, DAY);
  }

  // ---------- multiples of a period ----------

  lemma MulMono(a: int, b: int, period: int)
    requires a <= b && period > 0
    ensures a * period <= b * period
  {}

  lemma Quotient(q: int, m: int, period: int)
    requires 0 <= m < period
    ensures (q * period + m) / period == q && (q * period + m) % period == m
  {
    var t := q * period + m;
    var u, r := t / period, t % period;
    assert t == u * period + r;
    if u < q {
      MulMono(u + 1, q, period);
    } else if u > q {
      MulMono(q + 1, u, period);
    }
  }

  lemma AfterIsNext(local: int, period: int, m: int)
    requires 0 <= m < period
    ensures var next := After(local, period, m); local < next <= local + period && next % period == m
  {
    var q := local / period;
    assert local == q * period + local % period;
    Quotient(q, m, period);
    Quotient(q + 1, m, period);
    assert (q + 1) * period == q * period + period;
  }

  lemma AfterIsFirst(local: int, period: int, m: int, t: int)
    requires 0 <= m < period && local < t && t % period == m
    ensures After(local, period, m) <= t
  {
    var q, u := local / period, t / period;
    assert local == q * period + local % period && t == u * period + m;
    if u < q {
      MulMono(u, q - 1, period);
    } else if u > q {
      MulMono(q + 1, u, period);
    }
  }

  lemma SlotOffset(p: Plan)
    requires Usable(p)
    ensures 0 <= p.minute * MINUTE < HOUR && 0 <= p.hour * HOUR + p.minute * MINUTE < DAY
  {}

  lemma FirstSlotIsNext(p: Plan, local: int)
    requires Usable(p)
    ensures NoneEarlier(p, local, FirstSlot(p, local))
    ensures forall t | local < t && Slot(p, t) :: FirstSlot(p, local) <= t
  {
    SlotOffset(p);
    var period := if p.kind == Hourly then HOUR else DAY;
    var m := if p.kind == Hourly then p.minute * MINUTE else p.hour * HOUR + p.minute * MINUTE;
    AfterIsNext(local, period, m);
    forall t | local < t && Slot(p, t) ensures FirstSlot(p, local) <= t {
      AfterIsFirst(local, period, m, t);
    }
  }

  // ---------- a day on ----------

  lemma DaysAndHours(day: int)
    ensures day * DAY == day * 24 * HOUR && (day + 1) * DAY == day * DAY + DAY
  {}

  lemma AdvanceIsSlot(p: Plan, candidate: int)
    requires Usable(p) && Slot(p, candidate)
    ensures Slot(p, Advance(p, candidate)) && Day(Advance(p, candidate)) == Day(candidate) + 1
    ensures candidate < Advance(p, candidate)
  {
    SlotOffset(p);
    var day := Day(candidate);
    assert candidate == day * DAY + candidate % DAY;
    DaysAndHours(day);
    if p.kind == Hourly {
      var m := p.minute * MINUTE;
      Quotient(day + 1, m, DAY);
      DaysAndHours(day + 1);
      Quotient((day + 1) * 24, m, HOUR);
    } else {
      Quotient(day + 1, candidate % DAY, DAY);
    }
  }

  /** Every slot between a candidate and its advance is on the candidate's own day. */
  lemma BetweenIsSameDay(p: Plan, candidate: int, t: int)
    requires Usable(p) && Slot(p, candidate) && Slot(p, t) && candidate <= t < Advance(p, candidate)
    ensures Day(t) == Day(candidate)
  {
    SlotOffset(p);
    var d, e := Day(candidate), Day(t);
    assert candidate == d * DAY + candidate % DAY && t == e * DAY + t % DAY;
    DaysAndHours(d);
    if e < d {
      MulMono(e + 1, d, DAY);
    } else if e > d {
      MulMono(d + 1, e, DAY);
      if p.kind == Hourly {
        DaysAndHours(d + 1);
        Quotient((d + 1) * 24, t - (d + 1) * DAY, HOUR);
      }
    }
  }

  lemma AdvanceSkipsNothing(p: Plan, local: int, candidate: int)
    requires Usable(p) && NoneEarlier(p, local, candidate) && !Allowed(p.weekdays, candidate)
    ensures NoneEarlier(p, local, Advance(p, candidate))
  {
    AdvanceIsSlot(p, candidate);
    forall t | local < t < Advance(p, candidate) && Slot(p, t) ensures !Allowed(p.weekdays, t) {
      if candidate <= t { BetweenIsSameDay(p, candidate, t); }
    }
  }

  function WeekdayAfter(day: int, days: int): int {
    (day + days + 3) % 7 + 1
  }

  lemma EveryWeekdayComes(day: int, d: int) returns (days: nat)
    requires 1 <= d <= 7
    ensures days < 7 && WeekdayAfter(day, days) == d
  {
    days := (d - 1 - (day + 3)) % 7;
  }

  /** A week without an allowed day means that no weekday is allowed. */
  lemma WeekDecides(p: Plan, day: int, n: nat)
    requires Fires(p) && p.weekdays != [] && forall j | 0 <= j < n :: WeekdayAfter(day, j) !in p.weekdays
    ensures n < 7
  {
    var d :| d in p.weekdays && 1 <= d <= 7;
    var j := EveryWeekdayComes(day, d);
  }

  /** What the predicates about schedules say of an allowed slot, in nanoseconds of the local clock. */
  lemma SlotReads(p: Plan, local: int)
    requires p.zone.Some? && (p.kind == Daily || p.kind == Hourly) && 0 <= p.hour <= 23 && 0 <= p.minute <= 59
    requires p.weekdays == [] || exists d <- p.weekdays :: 1 <= d <= 7
    ensures Usable(p) && Fires(p)
    ensures Slot(p, local) && Allowed(p.weekdays, local)
       <==> && (p.weekdays == [] || Weekday(local) in p.weekdays)
            && (if p.kind == Daily then local % 86400000000000 == p.hour * 3600000000000 + p.minute * 60000000000
                else local % 3600000000000 == p.minute * 60000000000)
  {}

  /** The default for everything that is not a usable schedule. */
  const FALLBACK: int := 30 * MINUTE

  function IntervalOf(p: Plan): int {
    var n := if p.interval.Some? && p.interval.value > 0 then p.interval.value else 30;
    Min(n, 1440) * MINUTE
  }

  /**
   nextOccurrence: for a schedule that fires at all, the earliest allowed slot after now,
   found after at most six advances.
   */
  method NextOccurrence(p: Plan, now: int) returns (next: int, ghost advances: nat)
    ensures !Usable(p) ==> next == now + if p.zone.Some? && p.kind == Interval then IntervalOf(p) else FALLBACK
    ensures p.zone.Some? && p.kind == Interval && p.interval.Some? && 1 <= p.interval.value <= 1440 ==>
              next == now + p.interval.value * 60000000000
    ensures p.zone.Some? && p.kind == Interval && p.interval.Some? && 1440 < p.interval.value ==>
              next == now + 1440 * 60000000000
    ensures p.zone.None? || p.kind == Unknown ==> next == now + 30 * 60000000000
    ensures p.kind == Interval && (p.interval.None? || p.interval.value == 0) ==>
              next == now + 30 * 60000000000
    ensures Usable(p) && Fires(p) ==>
              var z := p.zone.value;
              advances <= 6 && NoneEarlier(p, now + z, next + z) && Allowed(p.weekdays, next + z)
    ensures Usable(p) && !Fires(p) ==>
              advances == 56 && Day(next + p.zone.value) == Day(FirstSlot(p, now + p.zone.value)) + 56
  {
    advances := 0;
    if p.zone.None? { return now + FALLBACK, 0; }
    if p.kind == Interval { return now + IntervalOf(p), 0; }
    if p.kind == Unknown || p.hour < 0 || p.hour > 23 || p.minute < 0 || p.minute > 59 { return now + FALLBACK, 0; }
    var local := now + p.zone.value;
    var candidate := FirstSlot(p, local);
    ghost var day := Day(candidate);
    FirstSlotIsNext(p, local);
    if p.weekdays != [] {
      var i := 0;
      while i < 8 * 7 && Weekday(candidate) !in p.weekdays
        invariant 0 <= i <= 56 && NoneEarlier(p, local, candidate) && Day(candidate) == day + i
        invariant forall j | 0 <= j < i :: WeekdayAfter(day, j) !in p.weekdays
      {
        AdvanceIsSlot(p, candidate);
        AdvanceSkipsNothing(p, local, candidate);
        candidate := Advance(p, candidate);
        i := i + 1;
      }
      advances := i;
      if Fires(p) { WeekDecides(p, day, i); }
      assert i < 56 ==> 1 <= Weekday(candidate) <= 7;
    }
    next := candidate - p.zone.value;
  }
}
