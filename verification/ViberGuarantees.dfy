/** What the Viber delivery protocol guarantees in every reachable state. */
module ViberGuarantees {
  import opened Prelude
  import opened ViberStore
  import opened ViberProtocol

  ghost function Reached(settings: Settings, steps: seq<Step>): World {
    Run(Init(settings), steps)
  }

  lemma ReachedInv(settings: Settings, steps: seq<Step>)
    ensures Inv(Reached(settings, steps))
  {
    RunKeepsInv(Init(settings), steps);
  }

  // ---------- rows ----------

  /** Parts before `n` are sent, part `n` is not, and nothing after it was ever tried. */
  predicate Front(parts: seq<Part>, n: nat) {
    && n <= |parts|
    && (forall i | 0 <= i < n :: parts[i].state == Sent)
    && (n < |parts| ==> parts[n].state != Sent)
    && forall i | n < i < |parts| :: parts[i].state == Pending && parts[i].attempts == 0
  }

  lemma {:induction false} FrontExists(parts: seq<Part>, n: nat)
    requires Shape(parts) && n <= |parts| && forall i | 0 <= i < n :: parts[i].state == Sent
    ensures exists m :: Front(parts, m)
    decreases |parts| - n
  {
    if n < |parts| && parts[n].state == Sent {
      FrontExists(parts, n + 1);
    } else {
      forall i | n < i < |parts| ensures parts[i].state == Pending && parts[i].attempts == 0 {
        assert parts[i] in parts;
      }
      assert Front(parts, n);
    }
  }

  /** Sent parts form a prefix, later parts are untouched, and completed means all sent. */
  lemma PartsInOrder(settings: Settings, steps: seq<Step>, id: Uuid)
    requires id in Reached(settings, steps).db.deliveries
    ensures var d := Reached(settings, steps).db.deliveries[id];
            && (exists n :: Front(d.parts, n))
            && (d.state == Completed <==> d.parts != [] && AllSent(d.parts))
            && forall p <- d.parts :: p.attempts <= MAX_ATTEMPTS
  {
    ReachedInv(settings, steps);
    var d := Reached(settings, steps).db.deliveries[id];
    assert RowOk(d);
    FrontExists(d.parts, 0);
  }

  // ---------- posts ----------

  /** A message is posted again only after the network refused every earlier post of it. */
  lemma NeverRepeated(settings: Settings, steps: seq<Step>, j: nat, k: nat)
    requires var w := Reached(settings, steps); j < k < |w.log| && w.log[j].target == w.log[k].target
    ensures var w := Reached(settings, steps); w.log[j].target.PartOf? && Refused(w, j)
  {
    ReachedInv(settings, steps);
    var w := Reached(settings, steps);
    assert PostOk(w, j) && PostOk(w, k);
  }

  /** A post that may have been accepted leaves its part visibly possibly delivered. */
  lemma PossibleSendStaysVisible(settings: Settings, steps: seq<Step>, k: nat)
    requires var w := Reached(settings, steps); k < |w.log| && w.log[k].target.PartOf? && !Refused(w, k)
    ensures var w := Reached(settings, steps);
            && Exists(w.db, w.log[k].target)
            && var p := PartAt(w.db, w.log[k].target);
            p.state == Sending || p.state == Sent || p.state == Unknown
  {
    ReachedInv(settings, steps);
    var w := Reached(settings, steps);
    var t := w.log[k].target;
    assert PostOk(w, k) && RowOk(w.db.deliveries[t.id]);
    assert PartAt(w.db, t) in w.db.deliveries[t.id].parts;
  }

  lemma {:induction false} Largest(s: set<nat>) returns (m: nat)
    requires s != {}
    ensures m in s && forall k <- s :: k <= m
    decreases s
  {
    var a :| a in s;
    m := a;
    if s != {a} {
      var n := Largest(s - {a});
      m := if a < n then n else a;
      forall k | k in s ensures k <= m { assert k == a || k in s - {a}; }
    }
  }

  /** Values that rise strictly within (lo, hi] are at most hi - lo many. */
  lemma {:induction false} StrictlyRising(s: set<nat>, f: nat -> int, lo: int, hi: int)
    requires lo <= hi && forall k <- s :: lo < f(k) <= hi
    requires forall j, k | j in s && k in s && j < k :: f(j) < f(k)
    ensures |s| <= hi - lo
    decreases s
  {
    if s != {} {
      var m := Largest(s);
      forall k | k in s - {m} ensures f(k) <= f(m) - 1 { assert k < m; }
      StrictlyRising(s - {m}, f, lo, f(m) - 1);
    }
  }

  /** A delivery part is posted at most three times and a test at most once. */
  lemma AtMostThreePosts(settings: Settings, steps: seq<Step>, t: Target)
    ensures var w := Reached(settings, steps);
            |set k: nat | k < |w.log| && w.log[k].target == t| <= if t.PartOf? then MAX_ATTEMPTS else 1
  {
    ReachedInv(settings, steps);
    var w := Reached(settings, steps);
    var s := set k: nat | k < |w.log| && w.log[k].target == t;
    var most := if t.PartOf? then MAX_ATTEMPTS else 1;
    var f := (k: nat) => if k < |w.log| then w.log[k].attempt else 0;
    forall k | k in s ensures 0 < f(k) <= most {
      assert PostOk(w, k);
      if t.PartOf? {
        assert RowOk(w.db.deliveries[t.id]) && PartAt(w.db, t) in w.db.deliveries[t.id].parts;
      }
    }
    StrictlyRising(s, f, 0, most);
  }

  // ---------- confirmation ----------

  ghost predicate Confirmed(w: World, t: Target) {
    exists k :: 0 <= k < |w.log| && w.log[k].target == t && k in w.ended && w.ended[k].result.state == RSent
  }

  ghost predicate SentConfirmed(w: World) {
    forall t: Target | t.PartOf? && Exists(w.db, t) && PartAt(w.db, t).state == Sent :: Confirmed(w, t)
  }

  /** No part turns sent in this change of the database. */
  ghost predicate NoneTurnsSent(db: Db, db': Db) {
    forall t: Target | t.PartOf? && Exists(db', t) && PartAt(db', t).state == Sent ::
      Exists(db, t) && PartAt(db, t).state == Sent
  }

  lemma KeepConfirmed(w: World, v: World)
    requires SentConfirmed(w) && NoneTurnsSent(w.db, v.db) && LogGrows(w, v)
    ensures SentConfirmed(v)
  {
    forall t: Target | t.PartOf? && Exists(v.db, t) && PartAt(v.db, t).state == Sent ensures Confirmed(v, t) {
      assert Confirmed(w, t);
    }
  }

  lemma EnvSendsNothing(w: World, s: Step)
    ensures NoneTurnsSent(w.db, Env(w, s).db)
  {}

  lemma ReserveSendsNothing(db: Db, id: Uuid, o: Owner, index: nat, text: string)
    ensures NoneTurnsSent(db, ReserveTx(db, id, o, index, text))
  {}

  lemma QuietSendsNothing(w: World, s: Step)
    requires Quiet(s)
    ensures NoneTurnsSent(w.db, Next(w, s).db)
  {}

  /** Checks, posts and test sends leave the rows of deliveries alone. */
  lemma RowsUntouched(w: World, s: Step)
    requires s.DoCheck? || s.BeginPost? || s.EndPost? || s.DoBeginTest? || s.AbortTest?
    ensures Next(w, s).db.deliveries == w.db.deliveries
  {}

  /** No step but a recorded answer turns a part sent. */
  lemma NextSendsNothing(w: World, s: Step)
    requires !s.DoFinish?
    ensures NoneTurnsSent(w.db, Next(w, s).db)
  {
    if s.DoReserve? {
      if s.sid in w.sessions {
        ReserveSendsNothing(w.db, w.sessions[s.sid].delivery, w.sessions[s.sid].owner, s.index, s.text);
      }
    } else if Quiet(s) {
      QuietSendsNothing(w, s);
    } else if s.DoCheck? || s.BeginPost? || s.EndPost? || s.DoBeginTest? || s.AbortTest? {
      RowsUntouched(w, s);
    } else {
      EnvSendsNothing(w, s);
    }
  }

  /** Posts and their answers are only ever added. */
  ghost predicate LogGrows(w: World, v: World) {
    w.log <= v.log && forall k <- w.ended :: k in v.ended && v.ended[k] == w.ended[k]
  }

  lemma EndPostKeepsLog(w: World, sid: nat, r: Result)
    requires sid in w.sessions ==> SessionOk(w, w.sessions[sid])
    ensures LogGrows(w, Next(w, EndPost(sid, r)))
  {}

  lemma OthersKeepLog(w: World, s: Step)
    requires !s.EndPost?
    ensures LogGrows(w, Next(w, s))
  {}

  lemma NextKeepsLog(w: World, s: Step)
    requires SessionsOk(w)
    ensures LogGrows(w, Next(w, s))
  {
    if s.EndPost? { EndPostKeepsLog(w, s.sid, s.result); } else { OthersKeepLog(w, s); }
  }

  lemma FinishConfirms(w: World, sid: nat)
    requires Answered(w, sid) && SessionOk(w, w.sessions[sid]) && SentConfirmed(w)
    ensures SentConfirmed(Finished(w, sid))
  {
    var v := Finished(w, sid);
    var x := w.sessions[sid].pc;
    forall t: Target | t.PartOf? && Exists(v.db, t) && PartAt(v.db, t).state == Sent ensures Confirmed(v, t) {
      if Exists(w.db, t) && PartAt(w.db, t).state == Sent {
        assert Confirmed(w, t);
      } else {
        assert t == x.target && w.log[x.post].target == t && v.ended[x.post].result.state == RSent;
      }
    }
  }

  lemma NextConfirms(w: World, s: Step)
    requires Inv(w) && SentConfirmed(w)
    ensures SentConfirmed(Next(w, s))
  {
    if s.DoFinish? && Answered(w, s.sid) {
      FinishConfirms(w, s.sid);
    } else if !s.DoFinish? {
      NextSendsNothing(w, s);
      NextKeepsLog(w, s);
      KeepConfirmed(w, Next(w, s));
    }
  }

  lemma {:induction false} RunConfirms(settings: Settings, steps: seq<Step>)
    ensures SentConfirmed(Reached(settings, steps))
    decreases |steps|
  {
    if steps != [] {
      RunConfirms(settings, steps[..|steps| - 1]);
      ReachedInv(settings, steps[..|steps| - 1]);
      NextConfirms(Reached(settings, steps[..|steps| - 1]), steps[|steps| - 1]);
    }
  }

  /** A completed delivery has, for each part, a post that the network confirmed. */
  lemma CompletedMeansConfirmed(settings: Settings, steps: seq<Step>, id: Uuid, index: nat)
    requires var w := Reached(settings, steps);
             id in w.db.deliveries && w.db.deliveries[id].state == Completed && index < |w.db.deliveries[id].parts|
    ensures Confirmed(Reached(settings, steps), PartOf(id, index))
  {
    PartsInOrder(settings, steps, id);
    RunConfirms(settings, steps);
    var w := Reached(settings, steps);
    assert w.db.deliveries[id].parts[index] in w.db.deliveries[id].parts;
    assert PartAt(w.db, PartOf(id, index)).state == Sent;
  }

  // ---------- the shared channel ----------

  /** A delivery and a test never hold a channel together. */
  lemma LeaseExclusive(settings: Settings, steps: seq<Step>, c: Uuid)
    requires c in Reached(settings, steps).db.leases
    ensures var l := Reached(settings, steps).db.leases[c]; l.delivery.None? || l.test.None?
  {
    ReachedInv(settings, steps);
    assert LeaseOk(Reached(settings, steps).db.leases[c]);
  }

  /** Any two reservations of a channel, by deliveries or tests, are at least a second apart. */
  lemma ReservationsSpaced(settings: Settings, steps: seq<Step>, i: nat, j: nat)
    requires var b := Reached(settings, steps).bookings; i < j < |b| && b[i].channel == b[j].channel
    ensures var b := Reached(settings, steps).bookings; b[i].time + 1 <= b[j].time
  {
    ReachedInv(settings, steps);
  }

  /** The times at which posts really end, when each ends within 60 s of its authority check. */
  ghost predicate EndsInTime(w: World, ends: seq<int>) {
    && |ends| == |w.log|
    && forall k | 0 <= k < |ends| ::
         w.log[k].start < w.log[k].deadline && ends[k] <= w.log[k].deadline
         && (k in w.ended ==> ends[k] <= w.ended[k].time)
  }

  /** Under that assumption posts on one channel never overlap. */
  lemma PostsNeverOverlap(settings: Settings, steps: seq<Step>, ends: seq<int>, j: nat, k: nat)
    requires var w := Reached(settings, steps);
             EndsInTime(w, ends) && j < k < |w.log| && w.log[j].channel == w.log[k].channel
    ensures ends[j] <= Reached(settings, steps).log[k].start
  {
    ReachedInv(settings, steps);
    assert Before(Reached(settings, steps), j, k);
  }

  // ---------- rate limits ----------

  /** The channel is cooling down at least until `time`. */
  predicate Cooling(db: Db, c: Uuid, time: int) {
    c in db.leases && time <= db.leases[c].cooldownUntil
  }

  /** The channel goes on cooling, and a new reservation of it waits for that. */
  ghost predicate Cools(w: World, v: World, c: Uuid, time: int) {
    && Cooling(v.db, c, time) && |w.bookings| <= |v.bookings| <= |w.bookings| + 1
    && v.bookings[..|w.bookings|] == w.bookings
    && forall i | |w.bookings| <= i < |v.bookings| && v.bookings[i].channel == c :: time <= v.bookings[i].time
  }

  lemma ReserveCools(w: World, sid: nat, index: nat, text: string, c: Uuid, time: int)
    requires Cooling(w.db, c, time)
    ensures Cools(w, Next(w, DoReserve(sid, index, text)), c, time)
  {}

  lemma BeginTestCools(w: World, sid: nat, id: Uuid, expected: int, credential: int, c: Uuid, time: int)
    requires Cooling(w.db, c, time)
    ensures Cools(w, Next(w, DoBeginTest(sid, id, expected, credential)), c, time)
  {}

  lemma FinishCools(w: World, sid: nat, t: Target, r: Result, c: Uuid, time: int)
    requires Cooling(w.db, c, time) && At(w, sid)
    ensures Cools(w, Finish(w, sid, t, r), c, time)
  {}

  lemma StepCools(w: World, s: Step, c: Uuid, time: int)
    requires Cooling(w.db, c, time)
    ensures Cools(w, Next(w, s), c, time)
  {
    match s
    case DoReserve(sid, index, text) => ReserveCools(w, sid, index, text, c, time);
    case DoBeginTest(sid, id, expected, credential) => BeginTestCools(w, sid, id, expected, credential, c, time);
    case DoFinish(sid) =>
      if Answered(w, sid) {
        FinishCools(w, sid, w.sessions[sid].pc.target, w.ended[w.sessions[sid].pc.post].result, c, time);
      }
    case AbortTest(sid) =>
      if At(w, sid) && TestHandled(w.sessions[sid].pc) {
        FinishCools(w, sid, w.sessions[sid].pc.target, NO_REPLY, c, time);
      }
    case _ => OthersCool(w, s, c, time);
  }

  /** A check renews a lease and leaves its cooldown alone. */
  lemma CheckCools(w: World, sid: nat, c: Uuid, time: int)
    requires Cooling(w.db, c, time)
    ensures Cools(w, Next(w, DoCheck(sid)), c, time)
  {}

  /** All other steps leave leases and reservations alone. */
  lemma LeasesUntouched(w: World, s: Step)
    requires Quiet(s) || s.BeginPost? || s.EndPost? || OfEnv(s)
    ensures Next(w, s).db.leases == w.db.leases && Next(w, s).bookings == w.bookings
  {}

  lemma OthersCool(w: World, s: Step, c: Uuid, time: int)
    requires Cooling(w.db, c, time) && !s.DoReserve? && !s.DoBeginTest? && !s.DoFinish? && !s.AbortTest?
    ensures Cools(w, Next(w, s), c, time)
  {
    if s.DoCheck? { CheckCools(w, s.sid, c, time); } else { LeasesUntouched(w, s); }
  }

  /** Every reservation of the channel made since `w` waits until `time`. */
  ghost predicate CooledSince(w: World, v: World, c: Uuid, time: int) {
    && Cooling(v.db, c, time) && w.bookings <= v.bookings
    && forall i | |w.bookings| <= i < |v.bookings| && v.bookings[i].channel == c :: time <= v.bookings[i].time
  }

  lemma CooledNext(w: World, u: World, v: World, c: Uuid, time: int)
    requires CooledSince(w, u, c, time) && Cools(u, v, c, time)
    ensures CooledSince(w, v, c, time)
  {
    forall i | |w.bookings| <= i < |v.bookings| && v.bookings[i].channel == c ensures time <= v.bookings[i].time {
      assert i < |u.bookings| ==> v.bookings[i] == u.bookings[i];
    }
  }

  lemma {:induction false} RunCools(w: World, steps: seq<Step>, c: Uuid, time: int)
    requires Cooling(w.db, c, time)
    ensures CooledSince(w, Run(w, steps), c, time)
    decreases |steps|
  {
    if steps != [] {
      var u := Run(w, steps[..|steps| - 1]);
      RunCools(w, steps[..|steps| - 1], c, time);
      StepCools(u, steps[|steps| - 1], c, time);
      CooledNext(w, u, Next(u, steps[|steps| - 1]), c, time);
    }
  }

  /** The session may record its answer, and holds the channel. */
  predicate HoldsChannel(w: World, sid: nat) {
    && Answered(w, sid) && w.sessions[sid].pc.target.PartOf?
    && CanFinish(w.db, w.sessions[sid].pc.target.id, w.sessions[sid].owner, w.sessions[sid].pc.target.index,
                 w.ended[w.sessions[sid].pc.post].result)
    && var c := ChannelOf(w.db, w.sessions[sid].pc.target);
    c in w.db.leases && w.db.leases[c].delivery == Some(w.sessions[sid].pc.target.id)
  }

  function Rest(w: World, sid: nat): int
    requires Answered(w, sid)
  {
    if AttemptOf(w.db, w.sessions[sid].pc.target) == 1 then 30 else 120
  }

  /** The answer is a rate limit that leads to retry_wait. */
  predicate LeadsToRetry(w: World, sid: nat) {
    && HoldsChannel(w, sid)
    && var t, r := w.sessions[sid].pc.target, w.ended[w.sessions[sid].pc.post].result;
    var d := w.db.deliveries[t.id];
    var parts := d.parts[t.index := d.parts[t.index].(state := AfterPost(r.state))];
    Disposition(parts, d.parts[t.index].attempts, r) == RetryWait
  }

  /** That disposition is what the finish writes. */
  lemma RetryIsWritten(w: World, sid: nat)
    requires LeadsToRetry(w, sid)
    ensures var t, v := w.sessions[sid].pc.target, Finished(w, sid);
            t.id in v.db.deliveries && v.db.deliveries[t.id].state == RetryWait && v.bookings == w.bookings
  {}

  lemma LimitCools(w: World, sid: nat)
    requires LeadsToRetry(w, sid) && PartAt(w.db, w.sessions[sid].pc.target).attempts >= 1
    ensures Cooling(Finished(w, sid).db, ChannelOf(w.db, w.sessions[sid].pc.target), w.db.now + Rest(w, sid))
  {}

  /** A part that is being sent has been counted. */
  lemma SendingIsCounted(w: World, sid: nat)
    requires Inv(w) && HoldsChannel(w, sid)
    ensures PartAt(w.db, w.sessions[sid].pc.target).attempts >= 1
  {
    var t := w.sessions[sid].pc.target;
    assert RowOk(w.db.deliveries[t.id]) && PartAt(w.db, t) in w.db.deliveries[t.id].parts;
  }

  /**
   A rate-limited finish by the lease holder that leads to retry_wait keeps every
   delivery and test off the channel for 30 s after a first attempt, 120 s after a second.
   */
  lemma RateLimitBlocksChannel(w: World, sid: nat, steps: seq<Step>, i: nat)
    requires Inv(w) && LeadsToRetry(w, sid)
    requires var v := Run(Finished(w, sid), steps);
             |w.bookings| <= i < |v.bookings| && v.bookings[i].channel == ChannelOf(w.db, w.sessions[sid].pc.target)
    ensures Finished(w, sid) == Next(w, DoFinish(sid))
    ensures Run(Finished(w, sid), steps).bookings[i].time >= w.db.now + Rest(w, sid)
  {
    FinishStep(w, sid);
    RetryIsWritten(w, sid);
    SendingIsCounted(w, sid);
    LimitCools(w, sid);
    RunCools(Finished(w, sid), steps, ChannelOf(w.db, w.sessions[sid].pc.target), w.db.now + Rest(w, sid));
  }
}
