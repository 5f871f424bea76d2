/**
 What one undisturbed call of publishPrepared does (go-domain/airuntime/digest_execute.go:255-303,
 go-domain/telegramdelivery/delivery.go:69-112): for every intent, whatever receipts earlier calls
 have left in it, and for every sequence of answers it is settled which messages are posted, in
 which order, and what is recorded at the end.
 */
module TelegramProgress {
  import opened Prelude
  import opened TelegramStore
  import opened TelegramProtocol

  /** What the network says to a message, and after how many seconds. */
  datatype Answer = Answer(result: Result, took: nat)

  type Answers = Key -> Answer

  // ---------- the script ----------

  /** Only a definite refusal other than 429 lets the plain parts follow. */
  predicate FallsBack(r: Result) {
    r.state == Rejected && r.status != TOO_MANY
  }

  /** Where an answer leads. */
  function Onward(rendering: Rendering, key: Key, r: Result): Pc {
    if r.state == Sent then AfterSent(rendering, key) else if FallsBack(r) then AfterRejected(rendering, key) else Ended
  }

  /** Messages that may still come from this place on. */
  function Rank(pc: Pc, n: nat): int {
    if !pc.Next? then 0 else if pc.key.via == SendRich then n + 2 else n + 1 - pc.key.index
  }

  predicate ValidPc(rendering: Rendering, pc: Pc) {
    pc.Next? ==> ValidKey(rendering, pc.key)
  }

  /** What the store says to a message, by the receipts that the call has found. */
  function Known(base: Db, x: Session, key: Key): Reservation {
    ReserveVerdict(base, x.owner, key, Payload(x.rendering, key))
  }

  /** Where the session goes from a message. */
  function Place(base: Db, x: Session, key: Key, answers: Answers): (pc: Pc)
    requires ValidKey(x.rendering, key)
    ensures ValidPc(x.rendering, pc) && Rank(pc, |x.rendering.plain|) < Rank(Next(key), |x.rendering.plain|)
  {
    match Known(base, x, key)
    case New => Onward(x.rendering, key, answers(key).result)
    case AlreadySent => AfterSent(x.rendering, key)
    case PreviouslyRejected => AfterRejected(x.rendering, key)
    case _ => Ended
  }

  /** A message is posted only if it is new to the store. */
  function Emitted(base: Db, x: Session, key: Key): seq<Key> {
    if Known(base, x, key) == New then [key] else []
  }

  /** What a session at `pc` still posts when nothing disturbs it. */
  function Script(base: Db, x: Session, pc: Pc, answers: Answers): seq<Key>
    requires ValidPc(x.rendering, pc)
    decreases Rank(pc, |x.rendering.plain|)
  {
    if !pc.Next? then [] else Emitted(base, x, pc.key) + Script(base, x, Place(base, x, pc.key, answers), answers)
  }

  /** What is recorded at the end. */
  function Recorded(base: Db, x: Session, pc: Pc, answers: Answers): Option<Outcome>
    requires ValidPc(x.rendering, pc)
    decreases Rank(pc, |x.rendering.plain|)
  {
    var n := |x.rendering.plain|;
    match pc
    case Closing(rich) => if rich then Some(Outcome(1, true)) else if n > 0 then Some(Outcome(n, false)) else None
    case Next(key) => Recorded(base, x, Place(base, x, key, answers), answers)
    case _ => None
  }

  // ---------- a session that nothing disturbs ----------

  predicate Present(w: World, sid: nat) {
    sid in w.sessions
  }

  function PcOf(w: World, sid: nat): Pc
    requires Present(w, sid)
  {
    w.sessions[sid].pc
  }

  /** The intent is the session's own and still open. */
  predicate OwnedBy(db: Db, x: Session) {
    ActiveFor(db, x.owner) && db.intent.value.rendering == x.rendering
  }

  predicate Before(q: Key, key: Key) {
    key.via == SendPlain && (q.via == SendRich || q.index < key.index)
  }

  /** Nothing has happened to `key` and to the messages after it. */
  ghost predicate Untouched(first: map<Key, Receipt>, later: map<Key, Receipt>, key: Key) {
    && (forall q <- first :: !Before(q, key) ==> q in later && later[q] == first[q])
    && forall q <- later :: !Before(q, key) ==> q in first
  }

  /** A call that has found no 429 in its way has brought none in, and one that has found one does nothing. */
  ghost predicate Calm(base: Db, db: Db, o: Owner)
    requires base.intent.Some? && db.intent.Some?
  {
    if IntentThrottled(base.intent.value.parts, o, base.now) then db == base
    else !IntentThrottled(db.intent.value.parts, o, db.now)
  }

  ghost predicate Undisturbed(base: Db, w: World, sid: nat) {
    && Present(w, sid)
    && var x := w.sessions[sid];
    && ValidPc(x.rendering, x.pc) && base.now <= w.db.now && OwnedBy(base, x)
    && match x.pc
       case Next(key) =>
         OwnedBy(w.db, x) && Calm(base, w.db, x.owner)
         && Untouched(base.intent.value.parts, w.db.intent.value.parts, key)
       case Closing(_) => OwnedBy(w.db, x)
       case pc => pc == Ended && w.db.intent.Some? && w.db.intent.value.outcome.None?
  }

  /** The session is the same but for its place. */
  predicate SameSession(w: World, v: World, sid: nat) {
    Present(w, sid) && Present(v, sid) && v.sessions[sid] == w.sessions[sid].(pc := PcOf(v, sid))
  }

  /** The store still says what it said at the start. */
  lemma KnownStays(base: Db, w: World, sid: nat)
    requires Undisturbed(base, w, sid) && PcOf(w, sid).Next?
    ensures Known(w.db, w.sessions[sid], PcOf(w, sid).key) == Known(base, w.sessions[sid], PcOf(w, sid).key)
  {
    var o, key := w.sessions[sid].owner, PcOf(w, sid).key;
    var parts := w.db.intent.value.parts;
    if !IntentThrottled(base.intent.value.parts, o, base.now) && key in parts && Throttled(parts[key]) {
      assert !Waiting(parts[key], w.db.now) && !Waiting(parts[key], base.now);
    }
  }

  // ---------- one message ----------

  function Exchange(w: World, sid: nat, a: Answer): World {
    Do(Do(Do(w, BeginPost(sid)), Tick(w.db.now + a.took as real)), EndPost(sid, a.result))
  }

  predicate Reserves(w: World, v: World, sid: nat, key: Key) {
    && SameSession(w, v, sid) && PcOf(v, sid) == Holding(key) && v.log == w.log && v.db.now == w.db.now
    && OwnedBy(w.db, w.sessions[sid]) && OwnedBy(v.db, v.sessions[sid])
    && v.db.intent.value.parts
       == w.db.intent.value.parts[key := Receipt(Payload(w.sessions[sid].rendering, key), w.sessions[sid].owner,
                                                 Sending, None, None, w.db.now)]
  }

  lemma ReserveTurn(w: World, sid: nat, key: Key)
    requires Present(w, sid) && PcOf(w, sid) == Next(key) && OwnedBy(w.db, w.sessions[sid])
    requires Known(w.db, w.sessions[sid], key) == New
    ensures Reserves(w, Do(w, DoReserve(sid)), sid, key)
  {}

  predicate Exchanges(w: World, v: World, sid: nat, key: Key, a: Answer) {
    && SameSession(w, v, sid) && PcOf(v, sid) == Posted(key, |w.log|)
    && |w.log| in v.ended && v.ended[|w.log|] == a.result
    && v.log == w.log + [Post(key, w.sessions[sid].owner)] && v.db == w.db.(now := w.db.now + a.took as real)
  }

  lemma ExchangeTurn(w: World, sid: nat, key: Key, a: Answer)
    requires Present(w, sid) && PcOf(w, sid) == Holding(key)
    ensures Exchanges(w, Exchange(w, sid, a), sid, key, a)
  {}

  predicate Finishes(w: World, v: World, sid: nat, key: Key, r: Result) {
    && SameSession(w, v, sid) && v.log == w.log && v.db.now == w.db.now
    && OwnedBy(w.db, w.sessions[sid]) && OwnedBy(v.db, v.sessions[sid])
    && PcOf(v, sid) == Onward(w.sessions[sid].rendering, key, r)
    && v.db.intent.value.parts.Keys == w.db.intent.value.parts.Keys
    && forall q <- v.db.intent.value.parts ::
         if q == key then r.state == Sent || FallsBack(r) ==> !Throttled(v.db.intent.value.parts[q])
         else v.db.intent.value.parts[q] == w.db.intent.value.parts[q]
  }

  lemma FinishTurn(w: World, sid: nat, key: Key, post: nat)
    requires Present(w, sid) && OwnedBy(w.db, w.sessions[sid])
    requires PcOf(w, sid) == Posted(key, post) && post in w.ended && key in w.db.intent.value.parts
    requires var p := w.db.intent.value.parts[key];
             p.payload == Payload(w.sessions[sid].rendering, key) && p.owner == w.sessions[sid].owner
             && p.state == Sending
    ensures Finishes(w, Do(w, DoFinish(sid)), sid, key, w.ended[post])
  {}

  /** From `w` to `v` the message was posted if it was new, and its answer or its receipt decided the rest. */
  ghost predicate Told(base: Db, w: World, v: World, sid: nat, answers: Answers) {
    && SameSession(w, v, sid) && PcOf(w, sid).Next? && Undisturbed(base, v, sid)
    && ValidKey(w.sessions[sid].rendering, PcOf(w, sid).key)
    && v.log == w.log + PostsOf(Emitted(base, w.sessions[sid], PcOf(w, sid).key), w.sessions[sid].owner)
    && PcOf(v, sid) == Place(base, w.sessions[sid], PcOf(w, sid).key, answers)
  }

  function PostsOf(keys: seq<Key>, owner: Owner): seq<Post> {
    seq(|keys|, i requires 0 <= i < |keys| => Post(keys[i], owner))
  }

  /** A place that follows `key` comes after it. */
  lemma PlaceIsAfter(base: Db, x: Session, key: Key, answers: Answers)
    requires ValidKey(x.rendering, key)
    ensures var pc := Place(base, x, key, answers); pc.Next? ==> pc.key.via == SendPlain && Before(key, pc.key)
  {}

  lemma UntouchedAfter(first: map<Key, Receipt>, before: map<Key, Receipt>, after: map<Key, Receipt>, key: Key,
                       next: Key)
    requires Untouched(first, before, key) && Before(key, next) && (key.via == SendPlain || key == RICH)
    requires forall q <- before :: q != key ==> q in after && after[q] == before[q]
    requires forall q <- after :: q != key ==> q in before
    requires forall q: Key :: Before(q, key) ==> Before(q, next)
    ensures Untouched(first, after, next)
  {}

  lemma CalmAfter(base: Db, before: Db, after: Db, key: Key, o: Owner)
    requires base.intent.Some? && before.intent.Some? && after.intent.Some? && before.now <= after.now
    requires !IntentThrottled(base.intent.value.parts, o, base.now) && Calm(base, before, o)
    requires forall q <- after.intent.value.parts ::
               if q == key then !Throttled(after.intent.value.parts[q])
               else q in before.intent.value.parts && after.intent.value.parts[q] == before.intent.value.parts[q]
    ensures Calm(base, after, o)
  {}

  lemma TurnsTell(base: Db, w: World, held: World, told: World, v: World, sid: nat, answers: Answers)
    requires Undisturbed(base, w, sid) && PcOf(w, sid).Next? && Known(base, w.sessions[sid], PcOf(w, sid).key) == New
    requires Reserves(w, held, sid, PcOf(w, sid).key)
    requires Exchanges(held, told, sid, PcOf(w, sid).key, answers(PcOf(w, sid).key))
    requires Finishes(told, v, sid, PcOf(w, sid).key, answers(PcOf(w, sid).key).result)
    ensures Told(base, w, v, sid, answers)
  {
    var x, key := w.sessions[sid], PcOf(w, sid).key;
    PlaceIsAfter(base, x, key, answers);
    if PcOf(v, sid).Next? {
      UntouchedAfter(base.intent.value.parts, w.db.intent.value.parts, v.db.intent.value.parts, key, PcOf(v, sid).key);
      CalmAfter(base, w.db, v.db, key, x.owner);
    }
  }

  /** A message that is not new moves the session alone. */
  lemma KnownTurn(base: Db, w: World, sid: nat, answers: Answers)
    requires Undisturbed(base, w, sid) && PcOf(w, sid).Next? && Known(base, w.sessions[sid], PcOf(w, sid).key) != New
    ensures Told(base, w, Do(w, DoReserve(sid)), sid, answers)
  {
    var x, key := w.sessions[sid], PcOf(w, sid).key;
    var v := Do(w, DoReserve(sid));
    KnownStays(base, w, sid);
    PlaceIsAfter(base, x, key, answers);
    KnownMoves(w, sid, key, answers);
    if PcOf(v, sid).Next? {
      UntouchedAfter(base.intent.value.parts, w.db.intent.value.parts, v.db.intent.value.parts, key, PcOf(v, sid).key);
    }
  }

  lemma KnownMoves(w: World, sid: nat, key: Key, answers: Answers)
    requires Present(w, sid) && PcOf(w, sid) == Next(key) && ValidKey(w.sessions[sid].rendering, key)
    requires Known(w.db, w.sessions[sid], key) != New
    ensures var v := Do(w, DoReserve(sid));
            SameSession(w, v, sid) && PcOf(v, sid) == Place(w.db, w.sessions[sid], key, answers)
            && v.db == w.db && v.log == w.log
  {}

  // ---------- the whole call, as a run of the protocol ----------

  lemma RunOne(w: World, s: Step)
    ensures Run(w, [s]) == Do(w, s)
  {
    assert [s][..0] == [];
  }

  lemma RunNext(w: World, steps: seq<Step>, s: Step)
    ensures Run(w, steps + [s]) == Do(Run(w, steps), s)
  {
    assert (steps + [s])[..|steps|] == steps;
  }

  lemma {:induction false} RunConcat(w: World, a: seq<Step>, b: seq<Step>)
    ensures Run(w, a + b) == Run(Run(w, a), b)
    decreases |b|
  {
    if b == [] {
      assert a + b == a;
    } else {
      var n := |b| - 1;
      RunConcat(w, a, b[..n]);
      assert a + b == (a + b[..n]) + [b[n]];
      RunNext(w, a + b[..n], b[n]);
    }
  }

  method Converse(w: World, sid: nat, a: Answer) returns (v: World, ghost steps: seq<Step>)
    ensures v == Exchange(w, sid, a) == Run(w, steps)
  {
    v := Exchange(w, sid, a);
    RunOne(w, BeginPost(sid));
    RunNext(w, [BeginPost(sid)], Tick(w.db.now + a.took as real));
    RunNext(w, [BeginPost(sid)] + [Tick(w.db.now + a.took as real)], EndPost(sid, a.result));
    steps := [BeginPost(sid)] + [Tick(w.db.now + a.took as real)] + [EndPost(sid, a.result)];
  }

  /** The message behind a reservation, and its record. */
  method SendHeld(ghost base: Db, ghost w: World, held: World, sid: nat, key: Key, answers: Answers)
    returns (v: World, ghost steps: seq<Step>)
    requires Undisturbed(base, w, sid) && PcOf(w, sid) == Next(key) && Known(base, w.sessions[sid], key) == New
    requires Reserves(w, held, sid, key)
    ensures Told(base, w, v, sid, answers) && v == Run(held, steps)
  {
    var told;
    told, steps := Converse(held, sid, answers(key));
    ExchangeTurn(held, sid, key, answers(key));
    FinishTurn(told, sid, key, |held.log|);
    RunNext(held, steps, DoFinish(sid));
    v, steps := Do(told, DoFinish(sid)), steps + [DoFinish(sid)];
    TurnsTell(base, w, held, told, v, sid, answers);
  }

  /** SendPart: the reservation, and what it asks for. */
  method SendPart(ghost base: Db, w: World, sid: nat, answers: Answers) returns (v: World, ghost steps: seq<Step>)
    requires Undisturbed(base, w, sid) && PcOf(w, sid).Next?
    ensures Told(base, w, v, sid, answers) && v == Run(w, steps)
  {
    var x, key := w.sessions[sid], PcOf(w, sid).key;
    KnownStays(base, w, sid);
    v, steps := Do(w, DoReserve(sid)), [DoReserve(sid)];
    RunOne(w, DoReserve(sid));
    if Known(w.db, x, key) == New {
      ghost var rest;
      ReserveTurn(w, sid, key);
      v, rest := SendHeld(base, w, v, sid, key, answers);
      RunConcat(w, steps, rest);
      steps := steps + rest;
    } else {
      KnownTurn(base, w, sid, answers);
    }
  }
  /** The posts of a script, one message longer. */
  lemma PostsGrow(log: seq<Post>, done: seq<Key>, more: seq<Key>, owner: Owner)
    ensures log + PostsOf(done, owner) + PostsOf(more, owner) == log + PostsOf(done + more, owner)
  {}

  /** What has been posted so far and what the script still holds make up the whole. */
  ghost predicate OnScript(base: Db, w: World, v: World, sid: nat, done: seq<Key>, first: Pc, answers: Answers) {
    && SameSession(w, v, sid) && Undisturbed(base, v, sid) && ValidPc(w.sessions[sid].rendering, first)
    && v.log == w.log + PostsOf(done, w.sessions[sid].owner)
    && done + Script(base, v.sessions[sid], PcOf(v, sid), answers) == Script(base, w.sessions[sid], first, answers)
    && Recorded(base, v.sessions[sid], PcOf(v, sid), answers) == Recorded(base, w.sessions[sid], first, answers)
  }

  /** Script and record look at the owner and the rendering of a session, not at its place. */
  lemma {:induction false} SameScript(base: Db, x: Session, y: Session, pc: Pc, answers: Answers)
    requires y == x.(pc := y.pc) && ValidPc(x.rendering, pc)
    ensures Script(base, x, pc, answers) == Script(base, y, pc, answers)
    ensures Recorded(base, x, pc, answers) == Recorded(base, y, pc, answers)
    decreases Rank(pc, |x.rendering.plain|)
  {
    if pc.Next? {
      SamePlace(base, x, y, pc.key, answers);
      SameScript(base, x, y, Place(base, x, pc.key, answers), answers);
    }
  }

  lemma SamePlace(base: Db, x: Session, y: Session, key: Key, answers: Answers)
    requires y == x.(pc := y.pc) && ValidKey(x.rendering, key)
    ensures Place(base, x, key, answers) == Place(base, y, key, answers)
    ensures Emitted(base, x, key) == Emitted(base, y, key)
  {}

  lemma Regroup(done: seq<Key>, now: seq<Key>, before: seq<Key>, after: seq<Key>)
    requires before == now + after
    ensures done + before == (done + now) + after
  {}

  lemma OnScriptNext(base: Db, w: World, u: World, v: World, sid: nat, done: seq<Key>, first: Pc, answers: Answers)
    requires OnScript(base, w, u, sid, done, first, answers) && Told(base, u, v, sid, answers)
    ensures OnScript(base, w, v, sid, done + Emitted(base, u.sessions[sid], PcOf(u, sid).key), first, answers)
    ensures var n := |w.sessions[sid].rendering.plain|; Rank(PcOf(v, sid), n) < Rank(PcOf(u, sid), n)
  {
    var x, key := u.sessions[sid], PcOf(u, sid).key;
    var now, after := Emitted(base, x, key), Script(base, x, PcOf(v, sid), answers);
    SameScript(base, x, v.sessions[sid], PcOf(v, sid), answers);
    PostsGrow(w.log, done, now, w.sessions[sid].owner);
    Regroup(done, now, Script(base, x, PcOf(u, sid), answers), after);
  }

  /** The intent is open to the session. */
  predicate OpenTo(w: World, sid: nat) {
    Present(w, sid) && Resolve(w.db, w.sessions[sid].owner, w.sessions[sid].rendering) == Open
  }

  /** What the call finds once the intent is its own. */
  function Base(w: World, sid: nat): Db
    requires Present(w, sid)
  {
    ResolveTx(w.db, w.sessions[sid].owner, w.sessions[sid].rendering)
  }

  lemma ResolveTurn(w: World, sid: nat)
    requires OpenTo(w, sid) && PcOf(w, sid) == Begin
    ensures var v := Do(w, DoResolve(sid));
            && SameSession(w, v, sid) && PcOf(v, sid) == FirstStep(w, w.sessions[sid]) && v.log == w.log
            && v.db == Base(w, sid) && Undisturbed(Base(w, sid), v, sid)
  {}

  lemma RefusedTurn(w: World, sid: nat)
    requires Present(w, sid) && PcOf(w, sid) == Begin && !OpenTo(w, sid)
    ensures var v := Do(w, DoResolve(sid));
            Present(v, sid) && PcOf(v, sid) == Ended && v.log == w.log && v.db == w.db && Do(v, DoComplete(sid)) == v
  {}

  lemma CompleteTurn(base: Db, w: World, sid: nat, answers: Answers)
    requires Undisturbed(base, w, sid) && !PcOf(w, sid).Next?
    ensures var v := Do(w, DoComplete(sid));
            && v.log == w.log && v.db.intent.Some?
            && v.db.intent.value.outcome == Recorded(base, w.sessions[sid], PcOf(w, sid), answers)
  {}

  /** The loop over the messages. */
  method SendAll(w: World, u: World, sid: nat, answers: Answers) returns (v: World, ghost steps: seq<Step>)
    requires OpenTo(w, sid) && PcOf(w, sid) == Begin && u == Do(w, DoResolve(sid))
    ensures v == Run(u, steps) && Undisturbed(Base(w, sid), v, sid) && !PcOf(v, sid).Next? && SameSession(w, v, sid)
    ensures var x, first := w.sessions[sid], FirstStep(w, w.sessions[sid]);
            && v.log == w.log + PostsOf(Script(Base(w, sid), x, first, answers), x.owner)
            && Recorded(Base(w, sid), v.sessions[sid], PcOf(v, sid), answers)
               == Recorded(Base(w, sid), x, first, answers)
  {
    ghost var base, first := Base(w, sid), FirstStep(w, w.sessions[sid]);
    ghost var done: seq<Key> := [];
    ResolveTurn(w, sid);
    SameScript(base, w.sessions[sid], u.sessions[sid], first, answers);
    v, steps := u, [];
    while PcOf(v, sid).Next?
      invariant v == Run(u, steps) && OnScript(base, w, v, sid, done, first, answers)
      decreases Rank(PcOf(v, sid), |w.sessions[sid].rendering.plain|)
    {
      ghost var before, rest := v, steps;
      v, rest := SendPart(base, v, sid, answers);
      OnScriptNext(base, w, before, v, sid, done, first, answers);
      RunConcat(u, steps, rest);
      steps := steps + rest;
      done := done + Emitted(base, before.sessions[sid], PcOf(before, sid).key);
    }
  }

  /**
   publishPrepared, a run of the protocol.  An intent in conflict, completed or in doubt is left
   alone; otherwise the posts are the script of the first place, and the record is that of it.
   */
  method Publish(w: World, sid: nat, answers: Answers) returns (v: World, ghost steps: seq<Step>)
    requires Present(w, sid) && PcOf(w, sid) == Begin
    ensures v == Run(w, steps) && (Inv(w) ==> Inv(v))
    ensures !OpenTo(w, sid) ==> v.log == w.log && v.db == w.db
    ensures OpenTo(w, sid) ==>
              var x, first := w.sessions[sid], FirstStep(w, w.sessions[sid]);
              && v.log == w.log + PostsOf(Script(Base(w, sid), x, first, answers), x.owner)
              && v.db.intent.Some? && v.db.intent.value.outcome == Recorded(Base(w, sid), x, first, answers)
  {
    v, steps := Do(w, DoResolve(sid)), [DoResolve(sid)];
    RunOne(w, DoResolve(sid));
    if OpenTo(w, sid) {
      ghost var rest;
      ResolveTurn(w, sid);
      v, rest := SendAll(w, v, sid, answers);
      RunConcat(w, steps, rest);
      steps := steps + rest;
      CompleteTurn(Base(w, sid), v, sid, answers);
    } else {
      RefusedTurn(w, sid);
    }
    RunNext(w, steps, DoComplete(sid));
    v, steps := Do(v, DoComplete(sid)), steps + [DoComplete(sid)];
    RunStays(w, steps);
  }

  lemma RunStays(w: World, steps: seq<Step>)
    ensures Inv(w) ==> Inv(Run(w, steps))
  {
    if Inv(w) { RunKeepsInv(w, steps); }
  }

  // ---------- what the script is ----------

  function PlainKeys(i: nat, n: nat): seq<Key>
    requires i <= n
  {
    seq(n - i, k requires 0 <= k < n - i => Plain(i + k))
  }

  lemma PlainKeysNext(i: nat, n: nat)
    requires i < n
    ensures PlainKeys(i, n) == [Plain(i)] + PlainKeys(i + 1, n)
  {}

  /** The parts before `k` are known to be sent; the others are new and will be accepted. */
  ghost predicate Resumable(base: Db, x: Session, k: nat, answers: Answers) {
    && k <= |x.rendering.plain| && (forall i: nat | i < k :: Known(base, x, Plain(i)) == AlreadySent)
    && forall i: nat | k <= i < |x.rendering.plain| ::
         Known(base, x, Plain(i)) == New && answers(Plain(i)).result.state == Sent
  }

  /** From part `i` on, what such a call posts is what is new. */
  ghost predicate PlainFollows(base: Db, x: Session, i: nat, k: nat, answers: Answers)
    requires k <= |x.rendering.plain| && i <= |x.rendering.plain|
  {
    var n, pc := |x.rendering.plain|, PlainFrom(x.rendering, i);
    && Script(base, x, pc, answers) == PlainKeys(if i < k then k else i, n)
    && Recorded(base, x, pc, answers) == Some(Outcome(n, false))
  }

  lemma PlainStep(base: Db, x: Session, i: nat, k: nat, answers: Answers)
    requires Resumable(base, x, k, answers) && i < |x.rendering.plain|
    ensures var pc, after := PlainFrom(x.rendering, i), PlainFrom(x.rendering, i + 1);
            && (i < k ==> Script(base, x, pc, answers) == Script(base, x, after, answers))
            && (i >= k ==> Script(base, x, pc, answers) == [Plain(i)] + Script(base, x, after, answers))
            && Recorded(base, x, pc, answers) == Recorded(base, x, after, answers)
  {
    assert Plain(i).index == i && Place(base, x, Plain(i), answers) == PlainFrom(x.rendering, i + 1);
    NothingFirst(Script(base, x, PlainFrom(x.rendering, i + 1), answers));
  }

  lemma NothingFirst(keys: seq<Key>)
    ensures [] + keys == keys
  {}

  /** Behind the last part there is nothing to post, and all are recorded. */
  lemma PlainEnds(base: Db, x: Session, k: nat, answers: Answers)
    requires k <= |x.rendering.plain| && x.rendering.plain != []
    ensures PlainFollows(base, x, |x.rendering.plain|, k, answers)
  {
    assert PlainFrom(x.rendering, |x.rendering.plain|) == Closing(false);
  }

  lemma PlainGoesOn(base: Db, x: Session, i: nat, k: nat, answers: Answers)
    requires k <= |x.rendering.plain| && i < |x.rendering.plain| && PlainFollows(base, x, i + 1, k, answers)
    requires var pc, after := PlainFrom(x.rendering, i), PlainFrom(x.rendering, i + 1);
             && Script(base, x, pc, answers)
                == (if i < k then Script(base, x, after, answers) else [Plain(i)] + Script(base, x, after, answers))
             && Recorded(base, x, pc, answers) == Recorded(base, x, after, answers)
    ensures PlainFollows(base, x, i, k, answers)
  {
    if i >= k { PlainKeysNext(i, |x.rendering.plain|); }
  }

  lemma {:induction false} PlainScript(base: Db, x: Session, i: nat, k: nat, answers: Answers)
    requires Resumable(base, x, k, answers) && i <= |x.rendering.plain| && x.rendering.plain != []
    ensures PlainFollows(base, x, i, k, answers)
    decreases |x.rendering.plain| - i
  {
    if i < |x.rendering.plain| {
      PlainScript(base, x, i + 1, k, answers);
      PlainStep(base, x, i, k, answers);
      PlainGoesOn(base, x, i, k, answers);
    } else {
      PlainEnds(base, x, k, answers);
    }
  }

  /**
   What a call may find: the first `k` plain parts sent, and of the other messages at most refusals.
   A 429 among these is another owner's and its pause is over; a refused plain part is another's too.
   */
  ghost predicate Resumes(base: Db, x: Session, k: nat) {
    && OwnedBy(base, x) && k <= |x.rendering.plain|
    && var parts := base.intent.value.parts;
    && (forall q <- parts :: parts[q].payload == Payload(x.rendering, q))
    && (forall i: nat | i < k :: Plain(i) in parts && parts[Plain(i)].state == Sent)
    && forall q <- parts ::
         || (q.via == SendPlain && q.index < k)
         || (parts[q].state == Rejected
             && if parts[q].status == Some(429)
                then parts[q].owner != x.owner
                     && (parts[q].retryAfter.None? || parts[q].retryAfter.value <= base.now - parts[q].updatedAt)
                else q.via == SendRich || parts[q].owner != x.owner)
  }

  lemma ResumesKnows(base: Db, x: Session, k: nat, key: Key)
    requires Resumes(base, x, k)
    ensures var parts := base.intent.value.parts;
            Known(base, x, key) == if key.via == SendPlain then (if key.index < k then AlreadySent else New)
                                   else if key in parts && parts[key].status != Some(429) then PreviouslyRejected
                                   else New
  {
    ReserveDecides(base, x.owner, key, Payload(x.rendering, key));
    forall q <- base.intent.value.parts | q.via == SendPlain && q.index < k
      ensures base.intent.value.parts[q].state == Sent { assert q == Plain(q.index); }
    if key.via == SendPlain && key.index < k { assert key == Plain(key.index); }
  }

  lemma ResumesIsResumable(base: Db, x: Session, k: nat, answers: Answers)
    requires Resumes(base, x, k)
    requires forall i: nat | k <= i < |x.rendering.plain| :: answers(Plain(i)).result.state == Sent
    ensures Resumable(base, x, k, answers)
  {
    forall i: nat | i < |x.rendering.plain|
      ensures Known(base, x, Plain(i)) == if i < k then AlreadySent else New
    {
      ResumesKnows(base, x, k, Plain(i));
    }
  }

  /** The instance tries the rich message, and nobody was refused it for good. */
  predicate RichFirst(w: World, base: Db, x: Session) {
    && x.owner.instance in w.richOn
    && !(base.intent.Some? && RICH in base.intent.value.parts && base.intent.value.parts[RICH].status != Some(429))
  }

  /**
   After an interruption or an announced pause: the rich message comes first unless it was refused
   for good; the plain parts that are sent are passed over, each of the others is posted once, in
   order, and the intent is completed with all of them.
   */
  lemma ResumePostsTheRest(w: World, base: Db, x: Session, k: nat, answers: Answers)
    requires Resumes(base, x, k) && x.rendering.plain != []
    requires forall i: nat | k <= i < |x.rendering.plain| :: answers(Plain(i)).result.state == Sent
    ensures var n, r := |x.rendering.plain|, answers(RICH).result;
            var script := Script(base, x, FirstStep(w, x), answers);
            var record, plain := Recorded(base, x, FirstStep(w, x), answers), PlainKeys(k, n);
            if !RichFirst(w, base, x) then script == plain && record == Some(Outcome(n, false))
            else if r.state == Sent then script == [RICH] && record == Some(Outcome(1, true))
            else if r.state == Rejected && r.status != 429 then
              script == [RICH] + plain && record == Some(Outcome(n, false))
            else script == [RICH] && record.None?
  {
    ResumesIsResumable(base, x, k, answers);
    PlainScript(base, x, 0, k, answers);
    if x.owner.instance in w.richOn { RichScript(w, base, x, k, answers); }
  }

  /** The rich message, and what its answer leads to. */
  lemma RichScript(w: World, base: Db, x: Session, k: nat, answers: Answers)
    requires Resumes(base, x, k) && x.owner.instance in w.richOn && x.rendering.plain != []
    ensures var r, plain := answers(RICH).result, PlainFrom(x.rendering, 0);
            var script, record := Script(base, x, Next(RICH), answers), Recorded(base, x, Next(RICH), answers);
            if !RichFirst(w, base, x) then
              script == Script(base, x, plain, answers) && record == Recorded(base, x, plain, answers)
            else if r.state == Sent then script == [RICH] && record == Some(Outcome(1, true))
            else if r.state == Rejected && r.status != 429 then
              script == [RICH] + Script(base, x, plain, answers) && record == Recorded(base, x, plain, answers)
            else script == [RICH] && record.None?
  {
    RichPlace(w, base, x, k, answers);
    NothingFirst(Script(base, x, PlainFrom(x.rendering, 0), answers));
    NothingLast(RICH);
  }

  lemma NothingLast(key: Key)
    ensures [key] + [] == [key]
  {}

  lemma RichPlace(w: World, base: Db, x: Session, k: nat, answers: Answers)
    requires Resumes(base, x, k) && x.owner.instance in w.richOn
    ensures Emitted(base, x, RICH) == if RichFirst(w, base, x) then [RICH] else []
    ensures Place(base, x, RICH, answers)
            == if RichFirst(w, base, x) then Onward(x.rendering, RICH, answers(RICH).result)
               else PlainFrom(x.rendering, 0)
  {
    ResumesKnows(base, x, k, RICH);
  }

  /**
   From an intent without receipts, with the plain parts accepted: the one rich message or each
   plain part is posted exactly once and in order, and the intent is completed with that count; a
   refused rich message costs one post and the plain parts follow.
   */
  lemma AcceptedMeansCompleted(w: World, base: Db, x: Session, answers: Answers)
    requires OwnedBy(base, x) && base.intent.value.parts == map[] && x.rendering.plain != []
    requires forall i: nat | i < |x.rendering.plain| :: answers(Plain(i)).result.state == Sent
    ensures var n, r := |x.rendering.plain|, answers(RICH).result;
            var script := Script(base, x, FirstStep(w, x), answers);
            var record, plain := Recorded(base, x, FirstStep(w, x), answers), PlainKeys(0, n);
            if x.owner.instance !in w.richOn then script == plain && record == Some(Outcome(n, false))
            else if r.state == Sent then script == [RICH] && record == Some(Outcome(1, true))
            else if r.state == Rejected && r.status != 429 then
              script == [RICH] + plain && record == Some(Outcome(n, false))
            else script == [RICH] && record.None?
  {
    ResumePostsTheRest(w, base, x, 0, answers);
  }

  /** No 429 of `o` is on record, and no pause that somebody else was given is still running. */
  ghost predicate PauseOver(it: Intent, o: Owner, now: real) {
    forall q <- it.parts | it.parts[q].status == Some(429) ::
      var r := it.parts[q];
      r.owner != o && (r.retryAfter.None? || r.retryAfter.value <= now - r.updatedAt)
  }

  /**
   A later owner after the announced pause.  In every reachable state, an intent that another owner
   has left with nothing but refusals is open to it; what was refused with a 429 is posted again,
   the plain parts follow from the first one on, and the intent is completed.
   */
  lemma LaterOwnerFinishes(w: World, sid: nat, answers: Answers)
    requires Inv(w) && Present(w, sid) && w.sessions[sid].rendering.plain != [] && w.db.intent.Some?
    requires var it, x := w.db.intent.value, w.sessions[sid];
             && it.rendering == x.rendering && it.outcome.None? && it.owner != x.owner
             && PauseOver(it, x.owner, w.db.now)
             && forall q <- it.parts ::
                  it.parts[q].state == Rejected && (q.via == SendPlain ==> it.parts[q].owner != x.owner)
    requires forall i: nat | i < |w.sessions[sid].rendering.plain| :: answers(Plain(i)).result.state == Sent
    ensures OpenTo(w, sid)
    ensures var x, n, r := w.sessions[sid], |w.sessions[sid].rendering.plain|, answers(RICH).result;
            var script := Script(Base(w, sid), x, FirstStep(w, x), answers);
            var record, plain := Recorded(Base(w, sid), x, FirstStep(w, x), answers), PlainKeys(0, n);
            if !RichFirst(w, w.db, x) then script == plain && record == Some(Outcome(n, false))
            else if r.state == Sent then script == [RICH] && record == Some(Outcome(1, true))
            else if r.state == Rejected && r.status != 429 then
              script == [RICH] + plain && record == Some(Outcome(n, false))
            else script == [RICH] && record.None?
  {
    var it, x := w.db.intent.value, w.sessions[sid];
    TakeoverDecides(w.db, x.owner, x.rendering);
    assert Resumes(Base(w, sid), x, 0) by {
      forall q | q in it.parts ensures it.parts[q].payload == Payload(x.rendering, q) { assert ReceiptOk(w, it, q); }
    }
    ResumePostsTheRest(w, Base(w, sid), x, 0, answers);
  }
}
