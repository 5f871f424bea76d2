/**
 The Viber driver reaches its end: executeViberDelivery as a loop over the steps of the protocol
 (go-domain/airuntime/viber.go:41-176), while no other session moves and the settings stay.

 The loop is proved to be a run of the protocol whatever it meets.  On an open and bound row it
 sends the parts that are left in order, up to the first message that is not accepted, and the
 state of the row afterwards is known for every answer.
 */
module ViberProgress {
  import opened Prelude
  import opened ViberStore
  import opened ViberProtocol

  /** What the network says to a message, and after how many seconds. */
  datatype Answer = Answer(result: Result, took: nat)

  predicate Accepted(r: Result) {
    r.state == RSent && r.token != ""
  }

  predicate Tryable(p: Part) {
    (p.state == Pending || p.state == Rejected) && p.attempts < MAX_ATTEMPTS
  }

  predicate IdleAt(w: World, sid: nat) {
    At(w, sid) && w.sessions[sid].pc == Idle
  }

  predicate HasRow(w: World, sid: nat) {
    At(w, sid) && w.sessions[sid].delivery in w.db.deliveries
  }

  function RowAt(w: World, sid: nat): Delivery
    requires HasRow(w, sid)
  {
    w.db.deliveries[w.sessions[sid].delivery]
  }

  /** The session may work on its row: the row is open and bound, and the job is its own. */
  predicate Entitled(w: World, sid: nat) {
    && IdleAt(w, sid) && HasRow(w, sid)
    && RowAt(w, sid).lastJob == Some(w.sessions[sid].owner.job) && Open(RowAt(w, sid))
    && w.db.settings.operational && Bound(w.db.settings, RowAt(w, sid))
  }

  /** The first `n` parts are sent and the others can still be tried. */
  predicate SentUpTo(parts: seq<Part>, n: nat) {
    && n <= |parts| && (forall i | 0 <= i < n :: parts[i].state == Sent)
    && forall i | n <= i < |parts| :: Tryable(parts[i])
  }

  // ---------- waiting for the channel ----------

  /** When the channel becomes free for a delivery that waits alone. */
  function FreeAt(l: Lease, id: Uuid): int {
    var open := Max(l.nextPostAt, l.cooldownUntil);
    var taken := l.test.Some? || (l.delivery.Some? && l.delivery.value != id);
    if l.until.Some? && taken then Max(open, l.until.value) else open
  }

  lemma FreeAtDecides(l: Lease, id: Uuid, now: int)
    requires LeaseOk(l)
    ensures FreeFor(l, id, now) <==> FreeAt(l, id) <= now
  {}

  function ChannelFree(w: World, sid: nat): int
    requires HasRow(w, sid)
  {
    Max(w.db.now, FreeAt(LeaseOf(w.db, RowAt(w, sid).channel), w.sessions[sid].delivery))
  }

  function Later(w: World, time: int): World {
    w.(db := w.db.(now := time))
  }

  function Verdict(w: World, sid: nat, index: nat, text: string): Reservation
    requires At(w, sid)
  {
    ReserveVerdict(w.db, w.sessions[sid].delivery, w.sessions[sid].owner, index, text)
  }

  /** The lease of the row's channel has an end if it names anybody. */
  predicate ChannelOk(w: World, sid: nat) {
    HasRow(w, sid) ==> LeaseOk(LeaseOf(w.db, RowAt(w, sid).channel))
  }

  // ---------- runs ----------

  lemma RunOne(w: World, s: Step)
    ensures Run(w, [s]) == Next(w, s)
  {
    assert [s][..0] == [];
  }

  lemma RunNext(w: World, steps: seq<Step>, s: Step)
    ensures Run(w, steps + [s]) == Next(Run(w, steps), s)
  {
    assert (steps + [s])[..|steps|] == steps;
  }

  lemma {:induction false} RunConcat(w: World, a: seq<Step>, b: seq<Step>)
    ensures Run(w, a + b) == Run(Run(w, a), b)
    decreases |b|
  {
    if b == [] {
      assert a + b == a;
    } else {
      var n := |b| - 1;
      RunConcat(w, a, b[..n]);
      assert a + b == (a + b[..n]) + [b[n]];
      RunNext(w, a + b[..n], b[n]);
    }
  }

  // ---------- waiting ----------

  /** A refused reservation followed by a second of sleep moves the clock alone. */
  lemma WaitMovesClock(w: World, sid: nat, index: nat, text: string)
    requires IdleAt(w, sid) && ChannelOk(w, sid) && Verdict(w, sid, index, text) == Wait
    ensures Next(Next(w, DoReserve(sid, index, text)), Tick(w.db.now + 1)) == Later(w, w.db.now + 1)
    ensures HasRow(w, sid) && w.db.now < ChannelFree(w, sid) && RowAt(w, sid).channel in w.db.leases
  {
    var c := RowAt(w, sid).channel;
    assert c in w.db.leases;
    assert w.db.leases[c := w.db.leases[c]] == w.db.leases;
    FreeAtDecides(w.db.leases[c], w.sessions[sid].delivery, w.db.now);
  }

  /** One refused reservation and the sleep after it. */
  method PollOnce(w: World, sid: nat, index: nat, text: string) returns (v: World, ghost steps: seq<Step>)
    requires IdleAt(w, sid) && ChannelOk(w, sid) && Verdict(w, sid, index, text) == Wait
    ensures v == Run(w, steps) == Later(w, w.db.now + 1) && HasRow(w, sid) && w.db.now < ChannelFree(w, sid)
  {
    WaitMovesClock(w, sid, index, text);
    RunOne(w, DoReserve(sid, index, text));
    RunNext(w, [DoReserve(sid, index, text)], Tick(w.db.now + 1));
    v := Next(Next(w, DoReserve(sid, index, text)), Tick(w.db.now + 1));
    steps := [DoReserve(sid, index, text)] + [Tick(w.db.now + 1)];
  }

  /** The inner loop as far as it waits: one attempt a second until the store says something else. */
  method Poll(w: World, sid: nat, index: nat, text: string) returns (v: World, ghost steps: seq<Step>)
    requires IdleAt(w, sid) && ChannelOk(w, sid)
    ensures v == Run(w, steps)
    ensures v == Later(w, v.db.now) && w.db.now <= v.db.now && Verdict(v, sid, index, text) != Wait
    ensures Verdict(w, sid, index, text) != Wait ==> v == w
    ensures HasRow(w, sid) ==> v.db.now <= ChannelFree(w, sid)
  {
    v, steps := w, [];
    while Verdict(v, sid, index, text) == Wait
      invariant v == Run(w, steps)
      invariant v == Later(w, v.db.now) && w.db.now <= v.db.now && ChannelOk(v, sid)
      invariant Verdict(w, sid, index, text) != Wait ==> v == w
      invariant HasRow(w, sid) ==> v.db.now <= ChannelFree(w, sid)
      decreases if HasRow(w, sid) then ChannelFree(w, sid) - v.db.now else 0
    {
      ghost var more;
      v, more := PollOnce(v, sid, index, text);
      RunConcat(w, steps, more);
      steps := steps + more;
    }
  }

  // ---------- one message ----------

  /** How long a channel rests after an accepted message. */
  function Pause(r: Result): int {
    Max(SPACING, Min(Max(r.retryAfter, 0), HOUR))
  }

  /** How long it rests after any answer to attempt number `attempts`: longer when the part is to be sent again. */
  function Rest(r: Result, attempts: nat): int {
    if r.state == RRejected && (r.status == 429 || r.apiStatus == 12) && attempts < 3
    then Max(Pause(r), if attempts > 1 then 120 else 30) else Pause(r)
  }

  /** The session is at `pc` with part `index` of its row marked as sending for it. */
  predicate Sends(w: World, sid: nat, index: nat, pc: Pc) {
    && HasRow(w, sid) && w.sessions[sid].pc == pc
    && OwnsSending(w.db, w.sessions[sid].delivery, index, w.sessions[sid].owner)
  }

  /** The channel is leased to the session's row, free again a second after `time` at the latest. */
  predicate Leased(w: World, sid: nat, time: int) {
    && HasRow(w, sid) && RowAt(w, sid).channel in w.db.leases
    && var l := w.db.leases[RowAt(w, sid).channel];
    && l.delivery == Some(w.sessions[sid].delivery) && l.test.None? && l.until == Some(time + LEASE)
    && l.nextPostAt == time + SPACING && l.cooldownUntil <= time
  }

  predicate Reserves(w: World, v: World, sid: nat, index: nat) {
    && HasRow(w, sid) && index < |RowAt(w, sid).parts|
    && Sends(v, sid, index, Holding(PartOf(w.sessions[sid].delivery, index))) && Leased(v, sid, w.db.now)
    && v.db.now == w.db.now && v.db.settings == w.db.settings && v.log == w.log
    && v.sessions[sid] == w.sessions[sid].(pc := v.sessions[sid].pc)
    && RowAt(v, sid) == ReservedDelivery(RowAt(w, sid), index, w.sessions[sid].owner)
  }

  /** A granted reservation changes one part, its row's state and the lease. */
  lemma ReserveTurn(w: World, sid: nat, index: nat, text: string)
    requires IdleAt(w, sid) && Verdict(w, sid, index, text) == Reserved
    ensures Reserves(w, Next(w, DoReserve(sid, index, text)), sid, index)
    ensures RowAt(w, sid).createdAt > w.db.now - DAY && w.db.settings.operational && Bound(w.db.settings, RowAt(w, sid))
  {}

  /** The next part of an open and bound row is granted as soon as the channel is free. */
  lemma FrontIsGranted(w: World, sid: nat, index: nat, text: string)
    requires Entitled(w, sid) && SentUpTo(RowAt(w, sid).parts, index) && index < |RowAt(w, sid).parts|
    requires RowAt(w, sid).parts[index].text == text && RowAt(w, sid).createdAt > w.db.now - DAY
    requires Verdict(w, sid, index, text) != Wait
    ensures Verdict(w, sid, index, text) == Reserved
  {
    var d := RowAt(w, sid);
    assert NextInLine(d.parts, index) by {
      forall p | p in d.parts ensures p.state != Sending && p.state != Unknown {
        var i :| 0 <= i < |d.parts| && d.parts[i] == p;
      }
    }
  }

  predicate Checks(w: World, v: World, sid: nat, index: nat) {
    && HasRow(w, sid) && Sends(v, sid, index, Authorised(PartOf(w.sessions[sid].delivery, index), w.db.now))
    && Leased(v, sid, w.db.now) && v.db.now == w.db.now && v.db.settings == w.db.settings && v.log == w.log
    && v.db.deliveries == w.db.deliveries && v.sessions[sid] == w.sessions[sid].(pc := v.sessions[sid].pc)
  }

  lemma CheckTurn(w: World, sid: nat, index: nat)
    requires HasRow(w, sid) && Sends(w, sid, index, Holding(PartOf(w.sessions[sid].delivery, index)))
    requires Leased(w, sid, w.db.now) && RowAt(w, sid).createdAt > w.db.now - DAY
    requires w.db.settings.operational && Bound(w.db.settings, RowAt(w, sid))
    ensures Checks(w, Next(w, DoCheck(sid)), sid, index)
  {}

  /** Sending, waiting for the answer and taking it. */
  function Exchange(w: World, sid: nat, a: Answer): World {
    Next(Next(Next(w, BeginPost(sid)), Tick(w.db.now + a.took)), EndPost(sid, a.result))
  }

  predicate Exchanges(w: World, v: World, sid: nat, index: nat, a: Answer) {
    && HasRow(w, sid) && index < |RowAt(w, sid).parts|
    && var t := PartOf(w.sessions[sid].delivery, index);
    && Sends(v, sid, index, Posted(t, |w.log|)) && |w.log| in v.ended && v.ended[|w.log|].result == a.result
    && v.log == w.log + [Post(RowAt(w, sid).channel, t, RowAt(w, sid).parts[index].attempts, w.db.now,
                              w.db.now + LEASE)]
    && v.db == w.db.(now := w.db.now + a.took) && v.sessions[sid] == w.sessions[sid].(pc := v.sessions[sid].pc)
  }

  lemma ExchangeTurn(w: World, sid: nat, index: nat, a: Answer)
    requires HasRow(w, sid) && Sends(w, sid, index, Authorised(PartOf(w.sessions[sid].delivery, index), w.db.now))
    ensures Exchanges(w, Exchange(w, sid, a), sid, index, a)
  {}

  /** What an answer makes of the part; one that claims success without a token is never recorded. */
  function PartAfter(r: Result): PartState {
    if WellFormed(r) then AfterPost(r.state) else Sending
  }

  function RowAfter(parts: seq<Part>, attempts: nat, r: Result): DeliveryState {
    if WellFormed(r) then Disposition(parts, attempts, r) else DSending
  }

  predicate Finishes(w: World, v: World, sid: nat, index: nat, r: Result) {
    && HasRow(w, sid) && index < |RowAt(w, sid).parts|
    && HasRow(v, sid) && v.sessions[sid] == w.sessions[sid].(pc := if Accepted(r) then Idle else Ended)
    && v.log == w.log && v.db.settings == w.db.settings && v.db.now == w.db.now
    && RowAt(v, sid).parts == RowAt(w, sid).parts[index := RowAt(w, sid).parts[index].(state := PartAfter(r))]
    && RowAt(v, sid) == RowAt(w, sid).(parts := RowAt(v, sid).parts, nextDispatchAt := RowAt(v, sid).nextDispatchAt,
                          state := RowAfter(RowAt(v, sid).parts, RowAt(w, sid).parts[index].attempts, r))
    && (WellFormed(r) ==>
          ChannelFree(v, sid) == w.db.now + Rest(r, RowAt(w, sid).parts[index].attempts) && ChannelOk(v, sid))
  }

  /** An accepted message lets the session go on; any other answer ends it. */
  lemma FinishTurn(w: World, sid: nat, index: nat, post: nat, time: int)
    requires HasRow(w, sid) && Sends(w, sid, index, Posted(PartOf(w.sessions[sid].delivery, index), post))
    requires post in w.ended && Leased(w, sid, time) && time <= w.db.now
    ensures Finishes(w, Next(w, DoFinish(sid)), sid, index, w.ended[post].result)
  {
    if !WellFormed(w.ended[post].result) {
      var parts := RowAt(w, sid).parts;
      assert parts[index := parts[index]] == parts;
    }
  }

  /** The row after the answer `r` to part `index`. */
  function AfterAnswer(d: Delivery, index: nat, o: Owner, r: Result): Delivery
    requires index < |d.parts|
  {
    var attempts := d.parts[index].attempts + 1;
    var parts := d.parts[index := d.parts[index].(state := PartAfter(r), attempts := attempts, owner := Some(o))];
    d.(state := RowAfter(parts, attempts, r), owner := Some(o), parts := parts)
  }

  /** From `w` to `v` exactly part `index` was posted, and the answer `r` was recorded as far as it can be. */
  predicate PartTold(w: World, v: World, sid: nat, index: nat, r: Result) {
    && HasRow(w, sid) && HasRow(v, sid) && index < |RowAt(w, sid).parts| && v.db.settings == w.db.settings
    && v.sessions[sid] == w.sessions[sid].(pc := if Accepted(r) then Idle else Ended)
    && |v.log| == |w.log| + 1 && v.log[..|w.log|] == w.log
    && v.log[|w.log|].target == PartOf(w.sessions[sid].delivery, index)
    && RowAt(v, sid) == AfterAnswer(RowAt(w, sid), index, w.sessions[sid].owner, r)
                          .(nextDispatchAt := RowAt(v, sid).nextDispatchAt)
  }

  /** How long the channel is taken by the message of part `index`: the answer and the rest after it. */
  function Busy(w: World, sid: nat, index: nat, a: Answer): int
    requires HasRow(w, sid) && index < |RowAt(w, sid).parts|
  {
    a.took + Rest(a.result, RowAt(w, sid).parts[index].attempts + 1)
  }

  lemma PutTwice(parts: seq<Part>, index: nat, p: Part, q: Part)
    requires index < |parts|
    ensures parts[index := p][index := q] == parts[index := q]
  {}

  lemma TurnsTold(w: World, held: World, checked: World, told: World, v: World, sid: nat, index: nat, a: Answer)
    requires IdleAt(w, sid) && Reserves(w, held, sid, index) && Checks(held, checked, sid, index)
    requires Exchanges(checked, told, sid, index, a) && Finishes(told, v, sid, index, a.result)
    ensures PartTold(w, v, sid, index, a.result)
    ensures WellFormed(a.result) ==> ChannelOk(v, sid) && ChannelFree(v, sid) == w.db.now + Busy(w, sid, index, a)
  {
    assert RowAt(told, sid) == RowAt(held, sid);
    var p := ReservedPart(RowAt(w, sid).parts[index], w.sessions[sid].owner);
    PutTwice(RowAt(w, sid).parts, index, p, p.(state := PartAfter(a.result)));
  }

  /** What a granted reservation leads to: the check and, when it passes, the message and its record. */
  function Onward(held: World, sid: nat, a: Answer): World {
    var checked := Next(held, DoCheck(sid));
    if At(checked, sid) && checked.sessions[sid].pc.Authorised? then Next(Exchange(checked, sid, a), DoFinish(sid))
    else checked
  }

  lemma AfterExchange(checked: World, sid: nat, index: nat, a: Answer) returns (told: World, v: World)
    requires HasRow(checked, sid) && Leased(checked, sid, checked.db.now)
    requires Sends(checked, sid, index, Authorised(PartOf(checked.sessions[sid].delivery, index), checked.db.now))
    ensures told == Exchange(checked, sid, a) && v == Next(told, DoFinish(sid))
    ensures Exchanges(checked, told, sid, index, a) && Finishes(told, v, sid, index, a.result)
  {
    told := Exchange(checked, sid, a);
    ExchangeTurn(checked, sid, index, a);
    FinishTurn(told, sid, index, |checked.log|, checked.db.now);
    v := Next(told, DoFinish(sid));
  }

  /** The turn of the loop that sends a part: it ends idle exactly when the message is accepted. */
  lemma MessageTurn(w: World, sid: nat, index: nat, text: string, a: Answer) returns (v: World)
    requires IdleAt(w, sid) && Verdict(w, sid, index, text) == Reserved
    ensures v == Onward(Next(w, DoReserve(sid, index, text)), sid, a) && PartTold(w, v, sid, index, a.result)
    ensures WellFormed(a.result) ==> ChannelOk(v, sid) && ChannelFree(v, sid) == w.db.now + Busy(w, sid, index, a)
  {
    var held := Next(w, DoReserve(sid, index, text));
    ReserveTurn(w, sid, index, text);
    var checked := AfterCheck(w, held, sid, index);
    var told;
    told, v := AfterExchange(checked, sid, index, a);
    TurnsTold(w, held, checked, told, v, sid, index, a);
  }

  lemma AfterCheck(w: World, held: World, sid: nat, index: nat) returns (checked: World)
    requires HasRow(w, sid) && Reserves(w, held, sid, index) && RowAt(w, sid).createdAt > w.db.now - DAY
    requires w.db.settings.operational && Bound(w.db.settings, RowAt(w, sid))
    ensures checked == Next(held, DoCheck(sid)) && Checks(held, checked, sid, index)
  {
    CheckTurn(held, sid, index);
    checked := Next(held, DoCheck(sid));
  }

  // ---------- the loop ----------

  method Converse(w: World, sid: nat, a: Answer) returns (v: World, ghost steps: seq<Step>)
    ensures v == Exchange(w, sid, a) == Run(w, steps)
  {
    v := Exchange(w, sid, a);
    RunOne(w, BeginPost(sid));
    RunNext(w, [BeginPost(sid)], Tick(w.db.now + a.took));
    RunNext(w, [BeginPost(sid)] + [Tick(w.db.now + a.took)], EndPost(sid, a.result));
    steps := [BeginPost(sid)] + [Tick(w.db.now + a.took)] + [EndPost(sid, a.result)];
  }

  lemma StepKeepsKeys(w: World, s: Step)
    requires !s.Start?
    ensures Next(w, s).sessions.Keys == w.sessions.Keys
  {}

  lemma ExchangeKeepsKeys(w: World, sid: nat, a: Answer)
    ensures Exchange(w, sid, a).sessions.Keys == w.sessions.Keys
  {
    var sent := Next(w, BeginPost(sid));
    StepKeepsKeys(w, BeginPost(sid));
    StepKeepsKeys(sent, Tick(w.db.now + a.took));
    StepKeepsKeys(Next(sent, Tick(w.db.now + a.took)), EndPost(sid, a.result));
  }

  lemma OnwardKeepsKeys(held: World, sid: nat, a: Answer)
    ensures Onward(held, sid, a).sessions.Keys == held.sessions.Keys
  {
    var checked := Next(held, DoCheck(sid));
    StepKeepsKeys(held, DoCheck(sid));
    ExchangeKeepsKeys(checked, sid, a);
    StepKeepsKeys(Exchange(checked, sid, a), DoFinish(sid));
  }

  method SendHeld(held: World, sid: nat, a: Answer) returns (v: World, ghost steps: seq<Step>)
    ensures v == Onward(held, sid, a) == Run(held, steps) && v.sessions.Keys == held.sessions.Keys
  {
    OnwardKeepsKeys(held, sid, a);
    v, steps := Next(held, DoCheck(sid)), [DoCheck(sid)];
    RunOne(held, DoCheck(sid));
    if At(v, sid) && v.sessions[sid].pc.Authorised? {
      ghost var more;
      v, more := Converse(v, sid, a);
      RunConcat(held, steps, more);
      RunNext(held, steps + more, DoFinish(sid));
      v, steps := Next(v, DoFinish(sid)), steps + more + [DoFinish(sid)];
    }
  }

  /** One pass of the inner loop that does not wait. */
  method Respond(w: World, sid: nat, index: nat, text: string, a: Answer)
    returns (v: World, more: bool, ghost steps: seq<Step>)
    requires IdleAt(w, sid) && ChannelOk(w, sid) && Verdict(w, sid, index, text) != Wait
    ensures v == Run(w, steps) && v.sessions.Keys == w.sessions.Keys && (more ==> IdleAt(v, sid) && ChannelOk(v, sid))
    ensures Verdict(w, sid, index, text) == AlreadySent ==> more && v == w
    ensures Verdict(w, sid, index, text) == Reserved ==>
              PartTold(w, v, sid, index, a.result) && (more <==> Accepted(a.result))
    ensures Verdict(w, sid, index, text) == Reserved && WellFormed(a.result) ==>
              ChannelFree(v, sid) == w.db.now + Busy(w, sid, index, a)
  {
    v, steps := Next(w, DoReserve(sid, index, text)), [DoReserve(sid, index, text)];
    RunOne(w, DoReserve(sid, index, text));
    if Verdict(w, sid, index, text) == AlreadySent { return v, true, steps; }
    if Verdict(w, sid, index, text) != Reserved {
      RunNext(w, steps, DoLoad(sid));
      return Next(v, DoLoad(sid)), false, steps + [DoLoad(sid)];
    }
    var _ := MessageTurn(w, sid, index, text, a);
    ghost var rest;
    v, rest := SendHeld(v, sid, a);
    RunConcat(w, steps, rest);
    more, steps := IdleAt(v, sid), steps + rest;
  }

  /** The next part can be sent once the channel is free, and the row is not too old by then. */
  predicate NextUp(w: World, sid: nat, index: nat, text: string) {
    && Entitled(w, sid) && SentUpTo(RowAt(w, sid).parts, index) && index < |RowAt(w, sid).parts|
    && RowAt(w, sid).parts[index].text == text && RowAt(w, sid).createdAt > ChannelFree(w, sid) - DAY
  }

  /** The clock has moved, and nothing else that an answer to a part looks at. */
  lemma LaterTells(w: World, time: int, v: World, sid: nat, index: nat, r: Result)
    requires PartTold(Later(w, time), v, sid, index, r)
    ensures PartTold(w, v, sid, index, r)
  {}

  /** What the inner loop makes of one part. */
  predicate Attended(w: World, v: World, sid: nat, index: nat, text: string, a: Answer, more: bool) {
    && At(w, sid)
    && (Verdict(w, sid, index, text) == AlreadySent ==> more && v == w)
    && (NextUp(w, sid, index, text) ==> PartTold(w, v, sid, index, a.result) && (more <==> Accepted(a.result)))
    && (NextUp(w, sid, index, text) && WellFormed(a.result) ==>
          ChannelFree(v, sid) <= ChannelFree(w, sid) + Busy(w, sid, index, a))
  }

  /** One part: wait for the channel, reserve, check, send and record. */
  method Attend(w: World, sid: nat, index: nat, text: string, a: Answer)
    returns (v: World, more: bool, ghost steps: seq<Step>)
    requires IdleAt(w, sid) && ChannelOk(w, sid)
    ensures v == Run(w, steps) && v.sessions.Keys == w.sessions.Keys && (more ==> IdleAt(v, sid) && ChannelOk(v, sid))
    ensures Attended(w, v, sid, index, text, a, more)
  {
    ghost var waits, rest;
    var polled;
    polled, waits := Poll(w, sid, index, text);
    v, more, rest := Respond(polled, sid, index, text, a);
    RunConcat(w, waits, rest);
    steps := waits + rest;
    if NextUp(w, sid, index, text) {
      FrontIsGranted(polled, sid, index, text);
      LaterTells(w, polled.db.now, v, sid, index, a.result);
    }
  }

  // ---------- the whole delivery ----------

  /** Seconds that parts `i` to `n` take when their channel is free: answers and rests. */
  function Ahead(answers: nat -> Answer, i: nat, n: nat): (time: nat)
    requires i <= n
    decreases n - i
  {
    if i == n then 0 else answers(i).took + Pause(answers(i).result) + Ahead(answers, i + 1, n)
  }

  /** The messages from `n` to `m` will be accepted, and that of `m` is the first that will not. */
  ghost predicate FirstFailure(answers: nat -> Answer, n: nat, m: nat, count: nat) {
    && n <= m <= count && (forall k | n <= k < m :: Accepted(answers(k).result))
    && (m < count ==> !Accepted(answers(m).result))
  }

  /** `n` parts are sent, the others can be sent before the row is a day old, up to the first failure. */
  ghost predicate Promising(w: World, sid: nat, n: nat, m: nat, answers: nat -> Answer) {
    && Entitled(w, sid) && SentUpTo(RowAt(w, sid).parts, n) && n < |RowAt(w, sid).parts|
    && FirstFailure(answers, n, m, |RowAt(w, sid).parts|)
    && RowAt(w, sid).createdAt > ChannelFree(w, sid) + Ahead(answers, n, m) - DAY
  }

  /** Between `w` and `v` parts `n` to `i` were posted, once each and in order, and nothing else. */
  ghost predicate Posts(w: World, v: World, sid: nat, n: nat, i: nat) {
    && n <= i && At(w, sid) && |v.log| == |w.log| + i - n && v.log[..|w.log|] == w.log
    && forall k | n <= k < i :: v.log[|w.log| + k - n].target == PartOf(w.sessions[sid].delivery, k)
  }

  /** The first `i` parts are sent now and the others are what they were. */
  predicate Progressed(before: seq<Part>, after: seq<Part>, i: nat) {
    && i <= |before| == |after| && Texts(after) == Texts(before)
    && SentUpTo(after, i) && after[i..] == before[i..]
  }

  /** Nothing but the progress of a delivery has changed between two rows. */
  predicate SameOrder(d: Delivery, e: Delivery) {
    e == d.(state := e.state, renderVersion := e.renderVersion, parts := e.parts, owner := e.owner,
            nextDispatchAt := e.nextDispatchAt)
  }

  ghost predicate Delivered(w: World, v: World, sid: nat, n: nat, m: nat, i: nat, answers: nat -> Answer) {
    && HasRow(w, sid) && HasRow(v, sid) && v.sessions[sid] == w.sessions[sid] && Posts(w, v, sid, n, i) && i <= m
    && SameOrder(RowAt(w, sid), RowAt(v, sid)) && v.db.settings == w.db.settings
    && Progressed(RowAt(w, sid).parts, RowAt(v, sid).parts, i)
    && ChannelFree(v, sid) + Ahead(answers, i, m) <= ChannelFree(w, sid) + Ahead(answers, n, m)
    && if i < |RowAt(w, sid).parts| then Entitled(v, sid) else RowAt(v, sid).state == Completed
  }

  lemma ProgressMoves(first: seq<Part>, before: seq<Part>, after: seq<Part>, i: nat)
    requires Progressed(first, before, i) && i < |before| == |after|
    requires after == before[i := after[i]] && after[i].state == Sent && after[i].text == before[i].text
    ensures Progressed(first, after, i + 1) && (AllSent(after) <==> i + 1 == |before|)
  {
    assert after[i + 1..] == before[i..][1..] == first[i..][1..] == first[i + 1..];
    assert Texts(after) == Texts(before);
    if i + 1 < |before| {
      assert after[i + 1] in after && after[i + 1].state != Sent;
    }
  }

  lemma PostsNext(w: World, u: World, v: World, sid: nat, n: nat, i: nat, r: Result)
    requires Posts(w, u, sid, n, i) && At(u, sid) && u.sessions[sid] == w.sessions[sid] && PartTold(u, v, sid, i, r)
    ensures Posts(w, v, sid, n, i + 1)
  {
    assert v.log[..|w.log|] == v.log[..|u.log|][..|w.log|];
    forall k | n <= k < i + 1 ensures v.log[|w.log| + k - n].target == PartOf(w.sessions[sid].delivery, k) {
      assert k < i ==> v.log[|w.log| + k - n] == v.log[..|u.log|][|w.log| + k - n];
    }
  }

  lemma DeliveredNext(w: World, u: World, v: World, sid: nat, n: nat, m: nat, i: nat, answers: nat -> Answer)
    requires Delivered(w, u, sid, n, m, i, answers) && i < m <= |RowAt(w, sid).parts|
    requires Accepted(answers(i).result) && Entitled(u, sid)
    requires PartTold(u, v, sid, i, answers(i).result)
    requires ChannelFree(v, sid) <= ChannelFree(u, sid) + answers(i).took + Pause(answers(i).result)
    ensures Delivered(w, v, sid, n, m, i + 1, answers)
  {
    PostsNext(w, u, v, sid, n, i, answers(i).result);
    ProgressMoves(RowAt(w, sid).parts, RowAt(u, sid).parts, RowAt(v, sid).parts, i);
  }

  /** A row whose part `m` got the answer `r`: what came before is sent, what comes after is untouched. */
  predicate StoppedAt(before: seq<Part>, d: Delivery, m: nat, o: Owner, r: Result) {
    && m < |before| == |d.parts| && Texts(d.parts) == Texts(before)
    && (forall i | 0 <= i < m :: d.parts[i].state == Sent) && d.parts[m + 1..] == before[m + 1..]
    && d.parts[m] == before[m].(state := PartAfter(r), attempts := before[m].attempts + 1, owner := Some(o))
    && d.state == RowAfter(d.parts, before[m].attempts + 1, r)
  }

  /** The loop ended over part `m`, the last that was posted. */
  ghost predicate Halted(w: World, v: World, sid: nat, n: nat, m: nat, answers: nat -> Answer) {
    && HasRow(w, sid) && HasRow(v, sid) && v.sessions[sid] == w.sessions[sid].(pc := Ended)
    && n <= m && Posts(w, v, sid, n, m + 1) && SameOrder(RowAt(w, sid), RowAt(v, sid)) && v.db.settings == w.db.settings
    && StoppedAt(RowAt(w, sid).parts, RowAt(v, sid), m, w.sessions[sid].owner, answers(m).result)
    && (WellFormed(answers(m).result) ==>
          ChannelFree(v, sid) <= ChannelFree(w, sid) + Ahead(answers, n, m) + Busy(w, sid, m, answers(m)))
  }

  lemma StopsAt(first: seq<Part>, d: Delivery, e: Delivery, m: nat, o: Owner, r: Result)
    requires Progressed(first, d.parts, m) && m < |first| && e.parts == AfterAnswer(d, m, o, r).parts
    requires e.state == AfterAnswer(d, m, o, r).state
    ensures StoppedAt(first, e, m, o, r)
  {
    assert d.parts[m] == d.parts[m..][0] == first[m..][0] == first[m];
    assert e.parts[m + 1..] == d.parts[m..][1..] == first[m..][1..] == first[m + 1..];
    assert Texts(e.parts) == Texts(d.parts);
  }

  lemma HaltsNext(w: World, u: World, v: World, sid: nat, n: nat, m: nat, answers: nat -> Answer)
    requires Delivered(w, u, sid, n, m, m, answers) && m < |RowAt(w, sid).parts|
    requires !Accepted(answers(m).result) && PartTold(u, v, sid, m, answers(m).result)
    requires WellFormed(answers(m).result) ==>
               ChannelFree(v, sid) <= ChannelFree(u, sid) + Busy(u, sid, m, answers(m))
    ensures Halted(w, v, sid, n, m, answers)
  {
    PostsNext(w, u, v, sid, n, m, answers(m).result);
    assert RowAt(u, sid).parts[m] == RowAt(u, sid).parts[m..][0] == RowAt(w, sid).parts[m..][0];
    StopsAt(RowAt(w, sid).parts, RowAt(u, sid), RowAt(v, sid), m, w.sessions[sid].owner, answers(m).result);
  }

  /** A part that is sent already is passed over. */
  lemma SentIsSkipped(w: World, sid: nat, n: nat, m: nat, i: nat, answers: nat -> Answer)
    requires Promising(w, sid, n, m, answers) && i < n
    ensures Verdict(w, sid, i, RowAt(w, sid).parts[i].text) == AlreadySent
  {}

  /** Where the loop stands before part `i`. */
  ghost predicate OnTrack(w: World, v: World, sid: nat, n: nat, m: nat, i: nat, answers: nat -> Answer) {
    Promising(w, sid, n, m, answers) ==> if i <= n then v == w else Delivered(w, v, sid, n, m, i, answers)
  }

  lemma DeliveredNothing(w: World, sid: nat, n: nat, m: nat, answers: nat -> Answer)
    requires Promising(w, sid, n, m, answers)
    ensures Delivered(w, w, sid, n, m, n, answers)
  {
    assert w.log[..|w.log|] == w.log;
  }

  /** Whatever part the loop has reached, it is either sent already or next. */
  lemma PartComes(w: World, v: World, sid: nat, n: nat, m: nat, i: nat, answers: nat -> Answer)
    requires Promising(w, sid, n, m, answers) && i < |RowAt(w, sid).parts|
    requires OnTrack(w, v, sid, n, m, i, answers)
    ensures i < n ==> Verdict(v, sid, i, Texts(RowAt(w, sid).parts)[i]) == AlreadySent
    ensures n <= i ==> NextUp(v, sid, i, Texts(RowAt(w, sid).parts)[i]) && Delivered(w, v, sid, n, m, i, answers)
  {
    if i < n {
      SentIsSkipped(w, sid, n, m, i, answers);
    } else {
      DeliveredNothing(w, sid, n, m, answers);
      assert Texts(RowAt(v, sid).parts)[i] == RowAt(v, sid).parts[i].text;
    }
  }

  /** The loop stands before part `i`, and part `m` is still to come. */
  ghost predicate InLoop(w: World, v: World, sid: nat, n: nat, m: nat, i: nat, answers: nat -> Answer) {
    OnTrack(w, v, sid, n, m, i, answers) && (Promising(w, sid, n, m, answers) ==> i <= m)
  }

  /** What the loop leaves. */
  ghost predicate LoopEnds(w: World, v: World, sid: nat, n: nat, m: nat, answers: nat -> Answer) {
    Promising(w, sid, n, m, answers) ==>
      if m < |RowAt(w, sid).parts| then Halted(w, v, sid, n, m, answers) else Delivered(w, v, sid, n, m, m, answers)
  }

  /** One turn of the loop: it goes on, or it has ended over part `m`. */
  lemma TurnTells(
    w: World, u: World, v: World, sid: nat, n: nat, m: nat, i: nat, text: string, answers: nat -> Answer, more: bool)
    requires HasRow(w, sid) && i < |RowAt(w, sid).parts| && Texts(RowAt(w, sid).parts)[i] == text
    requires InLoop(w, u, sid, n, m, i, answers) && Attended(u, v, sid, i, text, answers(i), more)
    ensures if more then InLoop(w, v, sid, n, m, i + 1, answers) else LoopEnds(w, v, sid, n, m, answers)
  {
    if Promising(w, sid, n, m, answers) {
      PartComes(w, u, sid, n, m, i, answers);
      if i == m {
        HaltsNext(w, u, v, sid, n, m, answers);
      } else if n <= i {
        DeliveredNext(w, u, v, sid, n, m, i, answers);
      }
    }
  }

  lemma LoopIsOver(w: World, v: World, sid: nat, n: nat, m: nat, answers: nat -> Answer)
    requires HasRow(w, sid) && InLoop(w, v, sid, n, m, |RowAt(w, sid).parts|, answers)
    ensures LoopEnds(w, v, sid, n, m, answers)
  {}

  /**
   The loop over the parts.  `track` is whatever its turns keep, and `over` what it establishes by
   ending early.
   */
  method Loop(
    w: World, sid: nat, texts: seq<string>, answers: nat -> Answer, ghost track: (World, nat) -> bool,
    ghost over: World -> bool)
    returns (v: World, ghost steps: seq<Step>)
    requires IdleAt(w, sid) && ChannelOk(w, sid) && track(w, 0)
    requires forall u, v, i: nat, more |
               i < |texts| && track(u, i) && Attended(u, v, sid, i, texts[i], answers(i), more) ::
               if more then track(v, i + 1) else over(v)
    ensures v == Run(w, steps) && v.sessions.Keys == w.sessions.Keys && (over(v) || track(v, |texts|))
  {
    v, steps := w, [];
    for i := 0 to |texts|
      invariant v == Run(w, steps) && v.sessions.Keys == w.sessions.Keys
      invariant IdleAt(v, sid) && ChannelOk(v, sid) && track(v, i)
    {
      var more;
      ghost var rest;
      v, more, rest := Attend(v, sid, i, texts[i], answers(i));
      RunConcat(w, steps, rest);
      steps := steps + rest;
      if !more { return; }
    }
  }

  /** The loop over the parts of the row. */
  method SendParts(w: World, sid: nat, answers: nat -> Answer, ghost n: nat, ghost m: nat)
    returns (v: World, ghost steps: seq<Step>)
    requires IdleAt(w, sid) && ChannelOk(w, sid) && HasRow(w, sid)
    ensures v == Run(w, steps) && v.sessions.Keys == w.sessions.Keys && LoopEnds(w, v, sid, n, m, answers)
  {
    var texts := Texts(RowAt(w, sid).parts);
    ghost var track := (v: World, i: nat) => InLoop(w, v, sid, n, m, i, answers);
    ghost var over := (v: World) => LoopEnds(w, v, sid, n, m, answers);
    forall u, z, i: nat, more | i < |texts| && track(u, i) && Attended(u, z, sid, i, texts[i], answers(i), more)
      ensures if more then track(z, i + 1) else over(z)
    {
      TurnTells(w, u, z, sid, n, m, i, texts[i], answers, more);
    }
    v, steps := Loop(w, sid, texts, answers, track, over);
    if track(v, |texts|) { LoopIsOver(w, v, sid, n, m, answers); }
  }

  // ---------- executeViberDelivery ----------

  datatype Rendering = Rendering(version: string, texts: seq<string>)

  /** The parts that the driver works through: those of the row, or fresh ones. */
  function Planned(d: Delivery, rendered: Option<Rendering>): seq<Part> {
    if d.parts == [] && rendered.Some? then Fresh(rendered.value.texts) else d.parts
  }

  /**
   The row is open and bound, its parts are within the limits, and it stays younger than a day
   while the messages are sent up to the first one that is not accepted.
   */
  ghost predicate Favourable(
    w: World, sid: nat, rendered: Option<Rendering>, fits: string -> bool, answers: nat -> Answer, n: nat, m: nat)
  {
    && Entitled(w, sid)
    && var d := RowAt(w, sid);
    var parts := Planned(d, rendered);
    && (d.parts == [] && rendered.Some? ==>
          d.renderVersion.None? && Renderable(rendered.value.version, rendered.value.texts))
    && SentUpTo(parts, n) && n < |parts| && (forall p <- parts :: fits(p.text))
    && FirstFailure(answers, n, m, |parts|) && d.createdAt > ChannelFree(w, sid) + Ahead(answers, n, m) - DAY
  }

  /**
   The parts from `n` on were posted once each, in order, up to the first one that was not
   accepted.  The delivery is complete if there is none; otherwise the row says what became of it.
   */
  ghost predicate Settles(
    w: World, v: World, sid: nat, rendered: Option<Rendering>, answers: nat -> Answer, n: nat, m: nat)
  {
    && HasRow(w, sid) && HasRow(v, sid) && SameOrder(RowAt(w, sid), RowAt(v, sid)) && v.db.settings == w.db.settings
    && v.sessions[sid] == w.sessions[sid].(pc := v.sessions[sid].pc)
    && var parts, d := Planned(RowAt(w, sid), rendered), RowAt(v, sid);
    if m == |parts| then
      d.state == Completed && Texts(d.parts) == Texts(parts) && AllSent(d.parts) && Posts(w, v, sid, n, m)
    else && n <= m && Posts(w, v, sid, n, m + 1) && StoppedAt(parts, d, m, w.sessions[sid].owner, answers(m).result)
         && (WellFormed(answers(m).result) ==>
               ChannelFree(v, sid) <= ChannelFree(w, sid) + Ahead(answers, n, m)
                                      + answers(m).took + Rest(answers(m).result, parts[m].attempts + 1))
  }

  /** A session that has ended looks at nothing any more, and an open or completed row stays. */
  lemma LoadLeavesRow(w: World, sid: nat)
    requires HasRow(w, sid) && (w.sessions[sid].pc == Ended || RowAt(w, sid).state != DSending)
    ensures Next(w, DoLoad(sid)) == w
  {}

  /** The row with its parts frozen. */
  function Prepared(w: World, sid: nat, rendered: Option<Rendering>): World {
    if HasRow(w, sid) && RowAt(w, sid).parts == [] && rendered.Some?
    then Next(w, DoMaterialize(sid, rendered.value.version, rendered.value.texts)) else w
  }

  /** `v` is `w` up to the progress of the session's row. */
  predicate Follows(w: World, v: World, sid: nat) {
    && HasRow(w, sid) && HasRow(v, sid) && SameOrder(RowAt(w, sid), RowAt(v, sid)) && v.db.settings == w.db.settings
    && v.log == w.log && v.sessions == w.sessions && ChannelFree(v, sid) == ChannelFree(w, sid)
  }

  /** Fresh parts are all to be sent. */
  lemma MaterializeTurn(
    w: World, sid: nat, rendered: Option<Rendering>, fits: string -> bool, answers: nat -> Answer, n: nat, m: nat)
    requires Favourable(w, sid, rendered, fits, answers, n, m)
    ensures var v := Prepared(w, sid, rendered);
            && Promising(v, sid, n, m, answers) && RowAt(v, sid).parts == Planned(RowAt(w, sid), rendered)
            && Follows(w, v, sid)
  {}

  /** No frozen part is over the limits. */
  method Preflight(parts: seq<Part>, fits: string -> bool) returns (ok: bool)
    ensures ok <==> forall p <- parts :: fits(p.text)
  {
    for i := 0 to |parts|
      invariant forall p <- parts[..i] :: fits(p.text)
    {
      assert parts[i] in parts && parts[..i + 1] == parts[..i] + [parts[i]];
      if !fits(parts[i].text) { return false; }
    }
    assert parts[..|parts|] == parts;
    ok := true;
  }

  /** The store's errors: Load finds no row of this job, Materialize conflicts. */
  predicate Loaded(w: World, sid: nat) {
    HasRow(w, sid) && RowAt(w, sid).lastJob == Some(w.sessions[sid].owner.job)
  }

  /** Materialize and the look at the row after it. */
  function Frozen(w: World, sid: nat, r: Rendering): World {
    Next(Next(w, DoMaterialize(sid, r.version, r.texts)), DoLoad(sid))
  }

  lemma FrozenTurn(w: World, sid: nat, r: Rendering)
    requires IdleAt(w, sid) && HasRow(w, sid) && RowAt(w, sid).parts == []
    ensures var base, v := Prepared(w, sid, Some(r)), Frozen(w, sid, r);
            && (Entitled(base, sid) && RowAt(base, sid).parts != [] ==>
                  Loaded(v, sid) && RowAt(v, sid).parts != [] && v == base)
            && v.sessions == w.sessions && v.log == w.log && v.db.leases == w.db.leases && v.db.now == w.db.now
  {
    var base := Prepared(w, sid, Some(r));
    if Entitled(base, sid) { LoadLeavesRow(base, sid); }
  }

  /** Rendering and freezing the parts; `rendered` is what RenderViber returns. */
  method Freeze(w: World, sid: nat, rendered: Option<Rendering>)
    returns (v: World, more: bool, ghost steps: seq<Step>)
    requires IdleAt(w, sid) && HasRow(w, sid) && RowAt(w, sid).parts == []
    ensures v == Run(w, steps)
    ensures var base := Prepared(w, sid, rendered);
            Entitled(base, sid) && RowAt(base, sid).parts != [] ==> more && v == base
    ensures more ==> HasRow(v, sid)
    ensures v.sessions == w.sessions && v.log == w.log && v.db.leases == w.db.leases && v.db.now == w.db.now
  {
    if rendered.None? {
      RunOne(w, DoStop(sid, DRejected));
      return Next(w, DoStop(sid, DRejected)), false, [DoStop(sid, DRejected)];
    }
    steps := [DoMaterialize(sid, rendered.value.version, rendered.value.texts)];
    RunOne(w, steps[0]);
    RunNext(w, steps, DoLoad(sid));
    FrozenTurn(w, sid, rendered.value);
    v, steps := Frozen(w, sid, rendered.value), steps + [DoLoad(sid)];
    more := Loaded(v, sid) && RowAt(v, sid).parts != [];
  }

  /** The driver up to the first reservation. */
  method Prepare(w: World, sid: nat, credential: bool, rendered: Option<Rendering>)
    returns (v: World, more: bool, ghost steps: seq<Step>)
    requires IdleAt(w, sid)
    ensures v == Run(w, steps)
    ensures var base := Prepared(w, sid, rendered);
            credential && Entitled(w, sid) && Entitled(base, sid) && RowAt(base, sid).parts != [] ==> more && v == base
    ensures more ==> HasRow(v, sid)
    ensures v.sessions == w.sessions && v.log == w.log && v.db.leases == w.db.leases && v.db.now == w.db.now
  {
    v, steps := Next(w, DoLoad(sid)), [DoLoad(sid)];
    RunOne(w, DoLoad(sid));
    if !Loaded(v, sid) || !Open(RowAt(v, sid)) { return v, false, steps; }
    if !credential {
      RunNext(w, steps, DoStop(sid, ConfigurationChanged));
      return Next(v, DoStop(sid, ConfigurationChanged)), false, steps + [DoStop(sid, ConfigurationChanged)];
    }
    more := true;
    if RowAt(v, sid).parts == [] {
      ghost var rest;
      v, more, rest := Freeze(v, sid, rendered);
      RunConcat(w, steps, rest);
      steps := steps + rest;
    }
  }

  /** Preflight, the loop and the last look at the row. */
  method Deliver(w: World, sid: nat, fits: string -> bool, answers: nat -> Answer, ghost n: nat, ghost m: nat)
    returns (v: World, ghost steps: seq<Step>)
    requires IdleAt(w, sid) && ChannelOk(w, sid) && HasRow(w, sid)
    ensures v == Run(w, steps) && v.sessions.Keys == w.sessions.Keys
    ensures (forall p <- RowAt(w, sid).parts :: fits(p.text)) ==>
              LoopEnds(w, v, sid, n, m, answers)
  {
    var ok := Preflight(RowAt(w, sid).parts, fits);
    if !ok { return w, []; }
    v, steps := SendParts(w, sid, answers, n, m);
    RunNext(w, steps, DoLoad(sid));
    if Promising(w, sid, n, m, answers) { LoadLeavesRow(v, sid); }
    v, steps := Next(v, DoLoad(sid)), steps + [DoLoad(sid)];
  }

  lemma LeasesOkHere(w: World, sid: nat)
    requires LeasesOk(w.db)
    ensures ChannelOk(w, sid)
  {}

  lemma DeliverySettles(
    w: World, base: World, v: World, sid: nat, rendered: Option<Rendering>, answers: nat -> Answer, n: nat, m: nat)
    requires Follows(w, base, sid)
    requires RowAt(base, sid).parts == Planned(RowAt(w, sid), rendered) && n <= m <= |RowAt(base, sid).parts|
    requires if m < |RowAt(base, sid).parts| then Halted(base, v, sid, n, m, answers)
             else n < m && Delivered(base, v, sid, n, m, m, answers)
    ensures Settles(w, v, sid, rendered, answers, n, m)
  {
    assert |Texts(RowAt(v, sid).parts)| == |RowAt(v, sid).parts|;
  }

  /**
   executeViberDelivery.  Whatever it meets, it is a run of the protocol, so that every guarantee
   about runs holds of it.  When the row is open and bound, its parts are within the limits and it
   is young enough for the waiting and the answers, the messages posted and the row they leave are
   known for all answers: see `Settles`.
   */
  method ExecuteDelivery(
    w: World, sid: nat, credential: bool, rendered: Option<Rendering>, fits: string -> bool, answers: nat -> Answer,
    ghost n: nat, ghost m: nat)
    returns (v: World, ghost steps: seq<Step>)
    requires IdleAt(w, sid) && LeasesOk(w.db)
    ensures v == Run(w, steps) && v.sessions.Keys == w.sessions.Keys && (Inv(w) ==> Inv(v))
    ensures credential && Favourable(w, sid, rendered, fits, answers, n, m) ==>
              Settles(w, v, sid, rendered, answers, n, m)
  {
    ghost var good := credential && Favourable(w, sid, rendered, fits, answers, n, m);
    if good { MaterializeTurn(w, sid, rendered, fits, answers, n, m); }
    var base, more;
    ghost var rest;
    base, more, steps := Prepare(w, sid, credential, rendered);
    v := base;
    if more {
      LeasesOkHere(base, sid);
      v, rest := Deliver(base, sid, fits, answers, n, m);
      RunConcat(w, steps, rest);
      steps := steps + rest;
      if good { DeliverySettles(w, base, v, sid, rendered, answers, n, m); }
    }
    RunStays(w, steps);
  }

  lemma RunStays(w: World, steps: seq<Step>)
    ensures Inv(w) ==> Inv(Run(w, steps))
  {
    if Inv(w) { RunKeepsInv(w, steps); }
  }
}
