/**
 A rate limit is not the end of a Viber delivery: the row stays open, and the session of the next
 dispatch waits for the channel and sends the refused part again
 (go-domain/viberdelivery/postgres.go:384-430, go-domain/airuntime/viber.go:41-176).
 */
module ViberRetries {
  import opened Prelude
  import opened ViberStore
  import opened ViberProtocol
  import opened ViberProgress

  /** The parts that the call in `w` works through. */
  function PartsOf(w: World, sid: nat, rendered: Option<Rendering>): seq<Part>
    requires HasRow(w, sid)
  {
    Planned(RowAt(w, sid), rendered)
  }

  /**
   The row after the first message that was not accepted, answer by answer.  A rate limit that is
   not the third refusal leaves it open, with the parts before sent and the refused one next.
   */
  lemma FirstFailureDecides(
    w: World, v: World, sid: nat, rendered: Option<Rendering>, fits: string -> bool, answers: nat -> Answer, n: nat,
    m: nat)
    requires Favourable(w, sid, rendered, fits, answers, n, m) && m < |PartsOf(w, sid, rendered)|
    requires Settles(w, v, sid, rendered, answers, n, m)
    ensures var p, d, r := PartsOf(w, sid, rendered)[m], RowAt(v, sid), answers(m).result;
            && |d.parts| == |PartsOf(w, sid, rendered)| && d.parts[m].attempts == p.attempts + 1 <= 3
            && match r.state
               case RSent => r.token == "" && d.state == DSending && d.parts[m].state == Sending
               case RUnknown => d.state == DeliveryUnknown && d.parts[m].state == Unknown
               case RRejected =>
                 d.parts[m].state == Rejected
                 && if r.status != 429 && r.apiStatus != 12 then d.state == DRejected
                    else if p.attempts >= 2 then d.state == Exhausted
                    else d.state == RetryWait && SentUpTo(d.parts, m)
  {
    var before, d := PartsOf(w, sid, rendered), RowAt(v, sid);
    assert Tryable(before[m]);
    forall i | m < i < |d.parts| ensures d.parts[i] == before[i] {
      assert d.parts[i] == d.parts[m + 1..][i - m - 1] == before[m + 1..][i - m - 1];
    }
  }

  // ---------- the next dispatch ----------

  /** Time passes, the row is dispatched to the job of `o`, and that job calls the driver as session `sid`. */
  function Restarted(v: World, time: int, id: Uuid, sid: nat, o: Owner): World {
    Next(Next(Next(v, Tick(time)), Dispatch(id, o.job)), Start(sid, o, id))
  }

  /** The refused part `m` is next in a row that waits for its retry. */
  predicate Waits(w: World, sid: nat, m: nat) {
    && HasRow(w, sid) && RowAt(w, sid).state == RetryWait && SentUpTo(RowAt(w, sid).parts, m)
    && m < |RowAt(w, sid).parts|
  }

  lemma TryableParts(parts: seq<Part>, m: nat)
    requires SentUpTo(parts, m)
    ensures forall p <- parts :: p.state != Sending && p.state != Unknown
  {
    forall p | p in parts ensures p.state != Sending && p.state != Unknown {
      var i :| 0 <= i < |parts| && parts[i] == p;
    }
  }

  lemma DispatchTurn(v: World, sid: nat, time: int, job: Uuid, m: nat)
    requires Waits(v, sid, m)
    ensures var id, d := v.sessions[sid].delivery, RowAt(v, sid);
            Next(Next(v, Tick(time)), Dispatch(id, job))
            == v.(db := v.db.(now := Max(time, v.db.now), deliveries := v.db.deliveries[id :=
                    d.(lastJob := Some(job), dispatches := d.dispatches + 1)]))
  {
    TryableParts(RowAt(v, sid).parts, m);
  }

  /** The new session is entitled to the row, and finds the channel free when the old one would have. */
  lemma RestartEntitles(v: World, sid: nat, time: int, again: nat, o: Owner, m: nat)
    requires Waits(v, sid, m) && !At(v, again)
    requires v.db.settings.operational && Bound(v.db.settings, RowAt(v, sid))
    ensures var u := Restarted(v, time, v.sessions[sid].delivery, again, o);
            && Entitled(u, again) && RowAt(u, again).parts == RowAt(v, sid).parts && u.log == v.log
            && u.sessions[again].delivery == v.sessions[sid].delivery && u.sessions[again].owner == o
            && RowAt(u, again).createdAt == RowAt(v, sid).createdAt
            && ChannelFree(u, again) <= Max(time, ChannelFree(v, sid))
  {
    DispatchTurn(v, sid, time, o.job, m);
  }

  /**
   The first call is stopped at part `m` by a rate limit, and the row is still young when the second
   call has sent the parts from `m` on, up to the first failure of its own.
   */
  ghost predicate Retriable(
    w: World, sid: nat, rendered: Option<Rendering>, fits: string -> bool, answers: nat -> Answer, n: nat, m: nat,
    time: int, later: nat -> Answer, k: nat)
  {
    && Favourable(w, sid, rendered, fits, answers, n, m) && m < |PartsOf(w, sid, rendered)|
    && var a, p := answers(m), PartsOf(w, sid, rendered)[m];
    && a.result.state == RRejected && (a.result.status == 429 || a.result.apiStatus == 12) && p.attempts < 2
    && FirstFailure(later, m, k, |PartsOf(w, sid, rendered)|)
    && RowAt(w, sid).createdAt > Ahead(later, m, k) - DAY
         + Max(time, ChannelFree(w, sid) + Ahead(answers, n, m) + a.took + Rest(a.result, p.attempts + 1))
  }

  lemma FirstCallWaits(
    w: World, v: World, sid: nat, rendered: Option<Rendering>, fits: string -> bool, answers: nat -> Answer, n: nat,
    m: nat, time: int, later: nat -> Answer, k: nat)
    requires Retriable(w, sid, rendered, fits, answers, n, m, time, later, k)
    requires Settles(w, v, sid, rendered, answers, n, m)
    ensures Waits(v, sid, m) && v.db.settings.operational && Bound(v.db.settings, RowAt(v, sid))
    ensures Texts(RowAt(v, sid).parts) == Texts(PartsOf(w, sid, rendered))
    ensures RowAt(v, sid).createdAt > Max(time, ChannelFree(v, sid)) + Ahead(later, m, k) - DAY
  {
    FirstFailureDecides(w, v, sid, rendered, fits, answers, n, m);
  }

  lemma SameTextsFit(before: seq<Part>, after: seq<Part>, fits: string -> bool)
    requires Texts(after) == Texts(before) && forall p <- before :: fits(p.text)
    ensures forall p <- after :: fits(p.text)
  {
    assert |after| == |Texts(after)| == |before|;
    forall p | p in after ensures fits(p.text) {
      var i :| 0 <= i < |after| && after[i] == p;
      assert p.text == Texts(after)[i] == before[i].text;
    }
  }

  /** The row of `w` is as good for the second call as it was for the first. */
  lemma SecondCallIsFavourable(
    w: World, v: World, sid: nat, rendered: Option<Rendering>, fits: string -> bool, answers: nat -> Answer, n: nat,
    m: nat, time: int, later: nat -> Answer, k: nat, again: nat, o: Owner)
    requires Retriable(w, sid, rendered, fits, answers, n, m, time, later, k) && !At(v, again)
    requires Settles(w, v, sid, rendered, answers, n, m)
    ensures var u := Restarted(v, time, v.sessions[sid].delivery, again, o);
            && Favourable(u, again, None, fits, later, m, k) && Planned(RowAt(u, again), None) == RowAt(v, sid).parts
            && u.log == v.log && u.sessions[again].delivery == v.sessions[sid].delivery
  {
    FirstCallWaits(w, v, sid, rendered, fits, answers, n, m, time, later, k);
    RestartEntitles(v, sid, time, again, o, m);
    SameTextsFit(PartsOf(w, sid, rendered), RowAt(v, sid).parts, fits);
  }

  /** Between `w` and `v` the parts `n` to `m` were posted, then part `m` again and those after it, up to `last`. */
  ghost predicate PostsTwice(w: World, v: World, id: Uuid, n: nat, m: nat, last: nat) {
    && n <= m <= last && |v.log| == |w.log| + (m + 1 - n) + (last - m) && v.log[..|w.log|] == w.log
    && (forall i | n <= i <= m :: v.log[|w.log| + i - n].target == PartOf(id, i))
    && forall i | m <= i < last :: v.log[|w.log| + i - n + 1].target == PartOf(id, i)
  }

  lemma PostsJoin(w: World, v: World, u: World, x: World, sid: nat, again: nat, n: nat, m: nat, last: nat)
    requires Posts(w, v, sid, n, m + 1) && u.log == v.log && Posts(u, x, again, m, last) && n <= m
    requires w.sessions[sid].delivery == u.sessions[again].delivery
    ensures PostsTwice(w, x, w.sessions[sid].delivery, n, m, last)
  {
    assert x.log[..|w.log|] == x.log[..|u.log|][..|w.log|];
    forall i | n <= i <= m ensures x.log[|w.log| + i - n].target == PartOf(w.sessions[sid].delivery, i) {
      assert x.log[|w.log| + i - n] == x.log[..|u.log|][|w.log| + i - n];
    }
    forall i | m <= i < last ensures x.log[|w.log| + i - n + 1].target == PartOf(w.sessions[sid].delivery, i) {
      assert |w.log| + i - n + 1 == |u.log| + i - m;
    }
  }

  /** What the two calls leave together. */
  ghost predicate RetrySettles(
    w: World, v: World, sid: nat, rendered: Option<Rendering>, n: nat, m: nat, k: nat)
  {
    && HasRow(w, sid) && w.sessions[sid].delivery in v.db.deliveries
    && var id, parts := w.sessions[sid].delivery, PartsOf(w, sid, rendered);
    var d := v.db.deliveries[id];
    && Texts(d.parts) == Texts(parts)
    && if k == |parts| then
         d.state == Completed && (forall p <- d.parts :: p.state == Sent) && PostsTwice(w, v, id, n, m, k)
       else
         PostsTwice(w, v, id, n, m, k + 1) && forall i | 0 <= i < |d.parts| :: i < k ==> d.parts[i].state == Sent
  }

  lemma CallsJoin(
    w: World, v: World, u: World, x: World, sid: nat, rendered: Option<Rendering>, answers: nat -> Answer, n: nat,
    m: nat, later: nat -> Answer, k: nat, again: nat)
    requires Settles(w, v, sid, rendered, answers, n, m) && m < |PartsOf(w, sid, rendered)| && u.log == v.log
    requires HasRow(u, again) && Planned(RowAt(u, again), None) == RowAt(v, sid).parts
    requires w.sessions[sid].delivery == u.sessions[again].delivery
    requires Settles(u, x, again, None, later, m, k)
    ensures RetrySettles(w, x, sid, rendered, n, m, k)
  {
    assert |RowAt(v, sid).parts| == |Texts(RowAt(v, sid).parts)| == |PartsOf(w, sid, rendered)|;
    var last := if k == |RowAt(v, sid).parts| then k else k + 1;
    PostsJoin(w, v, u, x, sid, again, n, m, last);
  }

  lemma RestartRuns(v: World, time: int, id: Uuid, again: nat, o: Owner) returns (steps: seq<Step>)
    requires Inv(v) && !At(v, again)
    ensures var u := Restarted(v, time, id, again, o);
            u == Run(v, steps) && Inv(u) && LeasesOk(u.db) && IdleAt(u, again)
  {
    steps := [Tick(time)] + [Dispatch(id, o.job)] + [Start(again, o, id)];
    RunOne(v, Tick(time));
    RunNext(v, [Tick(time)], Dispatch(id, o.job));
    RunNext(v, [Tick(time)] + [Dispatch(id, o.job)], Start(again, o, id));
    StepKeepsKeys(v, Tick(time));
    StepKeepsKeys(Next(v, Tick(time)), Dispatch(id, o.job));
    RunKeepsInv(v, steps);
  }

  lemma CallsSettle(
    w: World, v: World, u: World, x: World, sid: nat, rendered: Option<Rendering>, fits: string -> bool,
    answers: nat -> Answer, n: nat, m: nat, time: int, later: nat -> Answer, k: nat, again: nat, o: Owner)
    requires At(w, sid) && !At(v, again) && u == Restarted(v, time, w.sessions[sid].delivery, again, o)
    requires Favourable(w, sid, rendered, fits, answers, n, m) ==> Settles(w, v, sid, rendered, answers, n, m)
    requires Favourable(u, again, None, fits, later, m, k) ==> Settles(u, x, again, None, later, m, k)
    ensures Retriable(w, sid, rendered, fits, answers, n, m, time, later, k) ==>
              RetrySettles(w, x, sid, rendered, n, m, k)
  {
    if Retriable(w, sid, rendered, fits, answers, n, m, time, later, k) {
      SecondCallIsFavourable(w, v, sid, rendered, fits, answers, n, m, time, later, k, again, o);
      CallsJoin(w, v, u, x, sid, rendered, answers, n, m, later, k, again);
    }
  }

  /**
   Two calls of the driver with a dispatch between them.  When a rate limit stops the first at part
   `m` on its first or second attempt, the second posts that part again and goes on after it; when
   nothing else is refused, the delivery is complete.
   */
  method DeliverWithRetry(
    w: World, sid: nat, rendered: Option<Rendering>, fits: string -> bool, answers: nat -> Answer, time: int,
    again: nat, o: Owner, later: nat -> Answer, ghost n: nat, ghost m: nat, ghost k: nat)
    returns (v: World, ghost steps: seq<Step>)
    requires IdleAt(w, sid) && Inv(w) && !At(w, again)
    ensures v == Run(w, steps) && Inv(v)
    ensures Retriable(w, sid, rendered, fits, answers, n, m, time, later, k) ==>
              RetrySettles(w, v, sid, rendered, n, m, k)
  {
    ghost var rest;
    var first;
    first, steps := ExecuteDelivery(w, sid, true, rendered, fits, answers, n, m);
    var id := w.sessions[sid].delivery;
    var mid := Restarted(first, time, id, again, o);
    ghost var between := RestartRuns(first, time, id, again, o);
    v, rest := ExecuteDelivery(mid, again, true, None, fits, later, m, k);
    CallsSettle(w, first, mid, v, sid, rendered, fits, answers, n, m, time, later, k, again, o);
    RunConcat(w, steps, between);
    RunConcat(w, steps + between, rest);
    steps := steps + between + rest;
  }
}
