/**
 Every run of the Viber delivery protocol: driver sessions, test sends, settings
 changes, dispatches and crashes, interleaved in any order
 (go-domain/airuntime/viber.go:41-176, go-domain/webbackend/viber.go:330-411).

 A session is one call of the delivery driver or of the test handler.  While idle
 it may call the store in any order, which covers the driver's loop; it posts only
 after its own successful reservation and authority check, once per reservation.
 */
module ViberProtocol {
  import opened Prelude
  import opened ViberStore

  /** What a message is for: one numbered part of a delivery, or a test request. */
  datatype Target = PartOf(id: Uuid, index: nat) | TestOf(id: Uuid)

  /** A message handed to the network; `deadline` is 60 s after its authority check. */
  datatype Post = Post(channel: Uuid, target: Target, attempt: nat, start: int, deadline: int)

  datatype Ending = Ending(time: int, result: Result)

  datatype Pc =
    | Idle
    | Holding(target: Target)
    | Authorised(target: Target, checkedAt: int)
    | Posting(target: Target, post: nat)
    | Posted(target: Target, post: nat)
    | Ended

  datatype Session = Session(owner: Owner, delivery: Uuid, pc: Pc)

  datatype Booking = Booking(channel: Uuid, time: int)

  datatype World = World(
    db: Db, sessions: map<nat, Session>, log: seq<Post>, ended: map<nat, Ending>, bookings: seq<Booking>)

  datatype Step =
    | Tick(time: int)
    | ChangeSettings(settings: Settings, cancel: bool)
    | Bind(id: Uuid, row: Delivery)
    | EditionReady(id: Uuid)
    | Dispatch(id: Uuid, job: Uuid)
    | DispatchUnknown(id: Uuid)
    | DispatchExhausted(id: Uuid)
    | Start(sid: nat, owner: Owner, delivery: Uuid)
    | Crash(sid: nat)
    | DoLoad(sid: nat)
    | DoMaterialize(sid: nat, version: string, texts: seq<string>)
    | DoStop(sid: nat, state: DeliveryState)
    | DoReserve(sid: nat, index: nat, text: string)
    | DoCheck(sid: nat)
    | BeginPost(sid: nat)
    | EndPost(sid: nat, result: Result)
    | DoFinish(sid: nat)
    | DoBeginTest(sid: nat, id: Uuid, expected: int, credential: int)
    | AbortTest(sid: nat)
    | Recover(id: Uuid)

  // ---------- steps ----------

  predicate At(w: World, sid: nat) {
    sid in w.sessions
  }

  function Go(w: World, sid: nat, pc: Pc): World
    requires At(w, sid)
  {
    w.(sessions := w.sessions[sid := w.sessions[sid].(pc := pc)])
  }

  function ChannelOf(db: Db, t: Target): Uuid {
    match t
    case PartOf(id, _) => if id in db.deliveries then db.deliveries[id].channel else UNSET
    case TestOf(id) => if id in db.tests then db.tests[id].channel else UNSET
  }

  function AttemptOf(db: Db, t: Target): nat {
    match t
    case PartOf(id, index) =>
      if id in db.deliveries && index < |db.deliveries[id].parts| then db.deliveries[id].parts[index].attempts else 0
    case TestOf(_) => 1
  }

  /** The cancellation that a settings change carries when it switches delivery off. */
  function CancelOpen(m: map<Uuid, Delivery>): map<Uuid, Delivery> {
    map id | id in m :: if m[id].state == WaitingEdition || Open(m[id]) then m[id].(state := Cancelled) else m[id]
  }

  predicate Unbound(row: Delivery) {
    && (row.state == Ready || row.state == WaitingEdition) && row.parts == [] && row.renderVersion.None?
    && row.owner.None?
  }

  predicate Dispatchable(d: Delivery) {
    Open(d) && forall p <- d.parts ::
      p.state != Sending && p.state != Unknown && (p.state == Rejected ==> d.state == RetryWait)
  }

  function Env(w: World, s: Step): World {
    match s
    case Tick(t) => if w.db.now <= t then w.(db := w.db.(now := t)) else w
    case ChangeSettings(x, cancel) =>
      var db := w.db.(settings := x);
      w.(db := if cancel then db.(deliveries := CancelOpen(db.deliveries)) else db)
    case Bind(id, row) =>
      if id !in w.db.deliveries && Unbound(row)
      then w.(db := w.db.(deliveries := w.db.deliveries[id := row])) else w
    case EditionReady(id) =>
      if id in w.db.deliveries && w.db.deliveries[id].state == WaitingEdition
      then w.(db := Restate(w.db, id, Ready)) else w
    case Dispatch(id, job) =>
      if id in w.db.deliveries && Dispatchable(w.db.deliveries[id])
      then w.(db := w.db.(deliveries := w.db.deliveries[id :=
                w.db.deliveries[id].(lastJob := Some(job), dispatches := w.db.deliveries[id].dispatches + 1)])) else w
    case DispatchUnknown(id) =>
      if id in w.db.deliveries && (w.db.deliveries[id].state == DSending
                                   || (Open(w.db.deliveries[id]) && Uncertain(w.db.deliveries[id].parts)))
      then w.(db := Restate(w.db, id, DeliveryUnknown)) else w
    case DispatchExhausted(id) =>
      if id in w.db.deliveries && (w.db.deliveries[id].state == WaitingEdition || Open(w.db.deliveries[id]))
      then w.(db := Restate(w.db, id, Exhausted)) else w
    case Recover(id) => w.(db := RecoverTx(w.db, id))
    case _ => w
  }

  function Reserve(w: World, sid: nat, index: nat, text: string): World
    requires At(w, sid)
  {
    var x := w.sessions[sid];
    var db := ReserveTx(w.db, x.delivery, x.owner, index, text);
    if ReserveVerdict(w.db, x.delivery, x.owner, index, text) == Reserved then
      Go(w, sid, Holding(PartOf(x.delivery, index)))
        .(db := db, bookings := w.bookings + [Booking(db.deliveries[x.delivery].channel, db.now)])
    else w.(db := db)
  }

  function Check(w: World, sid: nat, t: Target): World
    requires At(w, sid)
  {
    var x := w.sessions[sid];
    match t
    case PartOf(id, index) =>
      if CanPost(w.db, id, x.owner, index)
      then Go(w, sid, Authorised(t, w.db.now)).(db := CheckTx(w.db, id, x.owner, index)) else Go(w, sid, Ended)
    case TestOf(id) =>
      if CanPostTest(w.db, id) then Go(w, sid, Authorised(t, w.db.now)).(db := CheckTestTx(w.db, id)) else w
  }

  function Send(w: World, sid: nat, t: Target, checkedAt: int): World
    requires At(w, sid)
  {
    Go(w, sid, Posting(t, |w.log|))
      .(log := w.log + [Post(ChannelOf(w.db, t), t, AttemptOf(w.db, t), w.db.now, checkedAt + LEASE)])
  }

  function Finish(w: World, sid: nat, t: Target, r: Result): World
    requires At(w, sid)
  {
    var x := w.sessions[sid];
    match t
    case PartOf(id, index) =>
      var done := CanFinish(w.db, id, x.owner, index, r) && r.state == RSent;
      Go(w, sid, if done then Idle else Ended).(db := FinishTx(w.db, id, x.owner, index, r))
    case TestOf(id) => Go(w, sid, Ended).(db := FinishTestTx(w.db, id, r))
  }

  function BeginTest(w: World, sid: nat, id: Uuid, expected: int, credential: int): World
    requires At(w, sid)
  {
    var db := BeginTx(w.db, id, expected, credential);
    if CanBegin(w.db, id, expected, credential) then
      Go(w, sid, Holding(TestOf(id))).(db := db, bookings := w.bookings + [Booking(w.db.settings.channel, w.db.now)])
    else w.(db := db)
  }

  const NO_REPLY := Result(RUnknown, "", 0, 0, 0)

  /** The test handler may record doubt before it sends, and after the answer when its guard is gone by then. */
  predicate TestHandled(pc: Pc) {
    (pc.Holding? || pc.Authorised? || pc.Posted?) && pc.target.TestOf?
  }

  /** The effect of one step; a step that is not enabled changes nothing. */
  function Next(w: World, s: Step): World {
    match s
    case Start(sid, o, d) => if At(w, sid) then w else w.(sessions := w.sessions[sid := Session(o, d, Idle)])
    case Crash(sid) => if At(w, sid) then Go(w, sid, Ended) else w
    case DoLoad(sid) =>
      if At(w, sid) && w.sessions[sid].pc == Idle
      then w.(db := LoadTx(w.db, w.sessions[sid].delivery, w.sessions[sid].owner)) else w
    case DoMaterialize(sid, version, texts) =>
      if At(w, sid) && w.sessions[sid].pc == Idle
      then w.(db := MaterializeTx(w.db, w.sessions[sid].delivery, w.sessions[sid].owner, version, texts)) else w
    case DoStop(sid, state) =>
      if At(w, sid) && w.sessions[sid].pc == Idle
      then w.(db := StopTx(w.db, w.sessions[sid].delivery, w.sessions[sid].owner, state)) else w
    case DoReserve(sid, index, text) =>
      if At(w, sid) && w.sessions[sid].pc == Idle then Reserve(w, sid, index, text) else w
    case DoCheck(sid) =>
      if At(w, sid) && w.sessions[sid].pc.Holding? then Check(w, sid, w.sessions[sid].pc.target) else w
    case BeginPost(sid) =>
      if At(w, sid) && w.sessions[sid].pc.Authorised?
      then Send(w, sid, w.sessions[sid].pc.target, w.sessions[sid].pc.checkedAt) else w
    case EndPost(sid, r) =>
      if At(w, sid) && w.sessions[sid].pc.Posting? then
        var k := w.sessions[sid].pc.post;
        Go(w, sid, Posted(w.sessions[sid].pc.target, k)).(ended := w.ended[k := Ending(w.db.now, r)])
      else w
    case DoFinish(sid) =>
      if At(w, sid) && w.sessions[sid].pc.Posted? && w.sessions[sid].pc.post in w.ended
      then Finish(w, sid, w.sessions[sid].pc.target, w.ended[w.sessions[sid].pc.post].result) else w
    case DoBeginTest(sid, id, expected, credential) =>
      if At(w, sid) && w.sessions[sid].pc == Idle then BeginTest(w, sid, id, expected, credential) else w
    case AbortTest(sid) =>
      if At(w, sid) && TestHandled(w.sessions[sid].pc) then Finish(w, sid, w.sessions[sid].pc.target, NO_REPLY) else w
    case _ => Env(w, s)
  }

  function Run(w: World, steps: seq<Step>): World
    decreases |steps|
  {
    if steps == [] then w else Next(Run(w, steps[..|steps| - 1]), steps[|steps| - 1])
  }

  function Init(settings: Settings): World {
    World(Db(0, map[], map[], map[], settings), map[], [], map[], [])
  }

  // ---------- delivery rows ----------

  /** Sent parts are a prefix; only the next part may have been tried. */
  predicate Shape(parts: seq<Part>) {
    && (forall i, j | 0 <= i < j < |parts| && parts[j].state != Pending :: parts[i].state == Sent)
    && forall p <- parts :: p.attempts <= MAX_ATTEMPTS && (p.state == Pending <==> p.attempts == 0)
  }

  predicate Uncertain(parts: seq<Part>) {
    exists p <- parts :: p.state == Sending || p.state == Unknown
  }

  predicate RowOk(d: Delivery) {
    && Shape(d.parts)
    && (d.parts != [] && AllSent(d.parts) <==> d.state == Completed)
    && (Open(d) || d.state == WaitingEdition ==> !Uncertain(d.parts))
    && (d.renderVersion.None? ==> d.parts == [])
    && (forall p <- d.parts :: p.state == Sending ==>
          (d.state == DSending || d.state == DeliveryUnknown) && d.owner == p.owner)
    && (d.state == DSending ==> exists p <- d.parts :: p.state == Sending)
  }

  ghost predicate RowsOk(db: Db) {
    forall id <- db.deliveries :: RowOk(db.deliveries[id])
  }

  /** A lease names a delivery or a test but never both, and then has an end. */
  predicate LeaseOk(l: Lease) {
    (l.delivery.None? || l.test.None?) && (l.until.None? ==> l.delivery.None? && l.test.None?)
  }

  ghost predicate LeasesOk(db: Db) {
    forall c <- db.leases :: LeaseOk(db.leases[c])
  }

  // ---------- posts ----------

  predicate Exists(db: Db, t: Target) {
    match t
    case PartOf(id, index) => id in db.deliveries && index < |db.deliveries[id].parts|
    case TestOf(id) => id in db.tests
  }

  function PartAt(db: Db, t: Target): Part
    requires t.PartOf? && Exists(db, t)
  {
    db.deliveries[t.id].parts[t.index]
  }

  /** The network answered post `k` with a definite refusal. */
  predicate Refused(w: World, k: nat) {
    k in w.ended && w.ended[k].result.state == RRejected
  }

  ghost predicate PostOk(w: World, k: nat)
    requires k < |w.log|
  {
    var p := w.log[k];
    && Exists(w.db, p.target) && p.channel == ChannelOf(w.db, p.target)
    && p.start <= w.db.now && p.deadline <= w.db.now + LEASE && (k in w.ended ==> w.ended[k].time <= w.db.now)
    && 1 <= p.attempt <= AttemptOf(w.db, p.target)
    && (p.target.PartOf? && (p.attempt < AttemptOf(w.db, p.target) || PartAt(w.db, p.target).state == Rejected) ==>
          Refused(w, k))
  }

  ghost predicate PostsOk(w: World) {
    && (forall k | 0 <= k < |w.log| :: PostOk(w, k))
    && (forall k <- w.ended :: k < |w.log|)
    && forall j, k | 0 <= j < k < |w.log| && w.log[j].target == w.log[k].target :: w.log[j].attempt < w.log[k].attempt
  }

  // ---------- sessions ----------

  predicate Engaged(pc: Pc) {
    pc.Holding? || pc.Authorised? || pc.Posting? || pc.Posted?
  }

  ghost predicate SessionOk(w: World, x: Session) {
    Engaged(x.pc) ==>
      && Exists(w.db, x.pc.target)
      && (x.pc.target.PartOf? ==>
            x.pc.target.id == x.delivery && PartAt(w.db, x.pc.target).state == Sending
            && PartAt(w.db, x.pc.target).owner == Some(x.owner))
      && (x.pc.Holding? || x.pc.Authorised? ==>
            forall k | 0 <= k < |w.log| && w.log[k].target == x.pc.target ::
              w.log[k].attempt < AttemptOf(w.db, x.pc.target))
      && (x.pc.Authorised? ==> x.pc.checkedAt <= w.db.now)
      && (x.pc.Posting? || x.pc.Posted? ==>
            x.pc.post < |w.log| && w.log[x.pc.post].target == x.pc.target
            && w.log[x.pc.post].attempt == AttemptOf(w.db, x.pc.target)
            && (x.pc.Posted? <==> x.pc.post in w.ended))
  }

  ghost predicate SessionsOk(w: World) {
    && (forall sid <- w.sessions :: SessionOk(w, w.sessions[sid]))
    && forall a, b | a in w.sessions && b in w.sessions && a != b
                     && Engaged(w.sessions[a].pc) && Engaged(w.sessions[b].pc) ::
         w.sessions[a].pc.target != w.sessions[b].pc.target
  }

  // ---------- time ----------

  /** The channel's lease names `t` and lasts at least until `time`. */
  predicate Protects(db: Db, t: Target, time: int) {
    var c := ChannelOf(db, t);
    && c in db.leases && db.leases[c].until.Some? && time <= db.leases[c].until.value
    && (match t
        case PartOf(id, _) => db.leases[c].delivery == Some(id)
        case TestOf(id) => db.leases[c].test == Some(id))
  }

  predicate Current(db: Db, p: Post) {
    p.target.PartOf? ==>
      Exists(db, p.target) && PartAt(db, p.target).state == Sending && PartAt(db, p.target).attempts == p.attempt
  }

  /** Post `k` has ended, has run out of time, or still owns the channel. */
  ghost predicate Guarded(w: World, k: nat)
    requires k < |w.log|
  {
    || k in w.ended
    || w.log[k].deadline <= w.db.now
    || (Protects(w.db, w.log[k].target, w.log[k].deadline) && Current(w.db, w.log[k]))
  }

  /** Post `j` was over, or had to be over, when post `k` started. */
  predicate Before(w: World, j: nat, k: nat)
    requires j < |w.log| && k < |w.log|
  {
    (j in w.ended && w.ended[j].time <= w.log[k].start) || w.log[j].deadline <= w.log[k].start
  }

  ghost predicate Apart(w: World) {
    forall j, k | 0 <= j < k < |w.log| && w.log[j].channel == w.log[k].channel && w.log[k].start < w.log[k].deadline ::
      Before(w, j, k)
  }

  ghost predicate TimingOk(w: World) {
    && (forall k | 0 <= k < |w.log| :: Guarded(w, k))
    && Apart(w)
    && forall sid <- w.sessions ::
         w.sessions[sid].pc.Authorised? && w.db.now < w.sessions[sid].pc.checkedAt + LEASE ==>
           Protects(w.db, w.sessions[sid].pc.target, w.sessions[sid].pc.checkedAt + LEASE)
  }

  ghost predicate BookingsOk(w: World) {
    && (forall b <- w.bookings :: b.channel in w.db.leases && b.time + SPACING <= w.db.leases[b.channel].nextPostAt)
    && forall i, j | 0 <= i < j < |w.bookings| && w.bookings[i].channel == w.bookings[j].channel ::
         w.bookings[i].time + SPACING <= w.bookings[j].time
  }

  ghost predicate Inv(w: World) {
    RowsOk(w.db) && LeasesOk(w.db) && PostsOk(w) && SessionsOk(w) && TimingOk(w) && BookingsOk(w)
  }

  // ---------- steps that leave leases, tried parts and posts alone ----------

  ghost predicate DbFrame(db: Db, db': Db) {
    && db.now <= db'.now
    && (forall id <- db.deliveries :: id in db'.deliveries && db'.deliveries[id].channel == db.deliveries[id].channel
          && (db'.deliveries[id].parts == db.deliveries[id].parts || db.deliveries[id].parts == []))
    && (forall id <- db.tests :: id in db'.tests && db'.tests[id].channel == db.tests[id].channel)
    && (forall c <- db.leases :: c in db'.leases && db'.leases[c] == db.leases[c])
  }

  ghost predicate Frame(w: World, v: World) {
    && DbFrame(w.db, v.db) && v.log == w.log && v.ended == w.ended && v.bookings == w.bookings
    && (forall sid <- v.sessions ::
          !Engaged(v.sessions[sid].pc) || (sid in w.sessions && w.sessions[sid] == v.sessions[sid]))
  }

  /** The two databases agree on every message that exists in the first. */
  ghost predicate SameTargets(db: Db, db': Db) {
    && db.now <= db'.now
    && forall t: Target | Exists(db, t) ::
         && Exists(db', t) && AttemptOf(db', t) == AttemptOf(db, t) && ChannelOf(db', t) == ChannelOf(db, t)
         && (t.PartOf? ==> PartAt(db', t) == PartAt(db, t))
  }

  lemma SameTargetsKeepPosts(w: World, v: World)
    requires PostsOk(w) && SessionsOk(w) && SameTargets(w.db, v.db) && v.log == w.log && v.ended == w.ended
    ensures PostsOk(v)
    ensures forall sid <- w.sessions :: SessionOk(v, w.sessions[sid])
  {
    forall k | 0 <= k < |v.log| ensures PostOk(v, k) { assert PostOk(w, k); }
    forall sid | sid in w.sessions ensures SessionOk(v, w.sessions[sid]) { assert SessionOk(w, w.sessions[sid]); }
  }

  lemma ApartStays(w: World, v: World)
    requires Apart(w) && v.log == w.log && v.ended == w.ended
    ensures Apart(v)
  {
    forall j, k | 0 <= j < k < |v.log| && v.log[j].channel == v.log[k].channel && v.log[k].start < v.log[k].deadline
      ensures Before(v, j, k) { assert Before(w, j, k); }
  }

  lemma FrameKeepsPosts(w: World, v: World)
    requires PostsOk(w) && SessionsOk(w) && Frame(w, v)
    ensures PostsOk(v) && SessionsOk(v)
  {
    assert SameTargets(w.db, v.db);
    SameTargetsKeepPosts(w, v);
  }

  lemma FrameKeepsTiming(w: World, v: World)
    requires Inv(w) && Frame(w, v)
    ensures TimingOk(v) && BookingsOk(v)
  {
    forall k | 0 <= k < |v.log| ensures Guarded(v, k) {
      assert PostOk(w, k) && Guarded(w, k);
    }
    ApartStays(w, v);
    forall sid | sid in v.sessions && v.sessions[sid].pc.Authorised? && v.db.now < v.sessions[sid].pc.checkedAt + LEASE
      ensures Protects(v.db, v.sessions[sid].pc.target, v.sessions[sid].pc.checkedAt + LEASE)
    {
      assert SessionOk(w, w.sessions[sid]);
    }
  }

  lemma FrameKeepsInv(w: World, v: World)
    requires Inv(w) && Frame(w, v) && RowsOk(v.db) && LeasesOk(v.db)
    ensures Inv(v)
  {
    FrameKeepsPosts(w, v);
    FrameKeepsTiming(w, v);
  }

  // ---------- steps of the environment and calls that grant nothing ----------

  /** A row may always be closed, except that a part being sent leaves only delivery_unknown. */
  lemma CloseRow(d: Delivery, s: DeliveryState)
    requires RowOk(d)
    requires (StopState(s) && (Open(d) || d.state == WaitingEdition)) || (s == DeliveryUnknown && d.state == DSending)
    ensures RowOk(d.(state := s))
  {}

  ghost predicate Harmless(db: Db, db': Db) {
    DbFrame(db, db') && RowsOk(db') && LeasesOk(db')
  }

  lemma CloseHarmless(db: Db, id: Uuid, s: DeliveryState)
    requires RowsOk(db) && LeasesOk(db) && id in db.deliveries
    requires (StopState(s) && Open(db.deliveries[id])) || (s == DeliveryUnknown && db.deliveries[id].state == DSending)
    ensures Harmless(db, Restate(db, id, s))
  {
    CloseRow(db.deliveries[id], s);
  }

  lemma LoadHarmless(db: Db, id: Uuid, o: Owner)
    requires RowsOk(db) && LeasesOk(db)
    ensures Harmless(db, LoadTx(db, id, o))
  {
    if LoadTx(db, id, o) != db {
      CloseHarmless(db, id, DeliveryUnknown);
      assert LoadTx(db, id, o) == Restate(db, id, DeliveryUnknown);
    }
  }

  lemma StopHarmless(db: Db, id: Uuid, o: Owner, s: DeliveryState)
    requires RowsOk(db) && LeasesOk(db)
    ensures Harmless(db, StopTx(db, id, o, s))
  {
    if CanStop(db, id, o, s) { CloseHarmless(db, id, s); }
  }

  lemma FreshShape(texts: seq<string>)
    requires texts != []
    ensures Shape(Fresh(texts)) && Fresh(texts) != [] && !Uncertain(Fresh(texts)) && !AllSent(Fresh(texts))
  {
    assert Fresh(texts)[0] in Fresh(texts);
  }

  lemma FreshRow(d: Delivery, version: string, texts: seq<string>)
    requires RowOk(d) && Open(d) && d.parts == [] && texts != []
    ensures RowOk(d.(parts := Fresh(texts), renderVersion := Some(version)))
  {
    FreshShape(texts);
  }

  /** Parts may be written where there are none. */
  lemma FillHarmless(db: Db, id: Uuid, row: Delivery)
    requires RowsOk(db) && LeasesOk(db) && id in db.deliveries && RowOk(row)
    requires row.channel == db.deliveries[id].channel && db.deliveries[id].parts == []
    ensures Harmless(db, db.(deliveries := db.deliveries[id := row]))
  {}

  lemma MaterializeHarmless(db: Db, id: Uuid, o: Owner, version: string, texts: seq<string>)
    requires RowsOk(db) && LeasesOk(db)
    ensures Harmless(db, MaterializeTx(db, id, o, version, texts))
  {
    if CanMaterialize(db, id, o, version, texts) && db.deliveries[id].renderVersion.None? {
      var d := db.deliveries[id];
      assert RowOk(d);
      FreshRow(d, version, texts);
      FillHarmless(db, id, d.(parts := Fresh(texts), renderVersion := Some(version)));
    } else {
      SameHarmless(db, UNSET);
    }
  }

  lemma SameHarmless(db: Db, c: Uuid)
    requires RowsOk(db) && LeasesOk(db)
    ensures Harmless(db, db) && Harmless(db, db.(leases := db.leases[c := LeaseOf(db, c)]))
  {}

  lemma RefusalHarmless(db: Db, id: Uuid, o: Owner, index: nat, text: string)
    requires RowsOk(db) && LeasesOk(db)
    requires ReserveVerdict(db, id, o, index, text) != Reserved
    ensures Harmless(db, ReserveTx(db, id, o, index, text))
  {
    var db' := ReserveTx(db, id, o, index, text);
    SameHarmless(db, if id in db.deliveries then db.deliveries[id].channel else UNSET);
    if ReserveVerdict(db, id, o, index, text) == InFlight && db' != db {
      var s := db'.deliveries[id].state;
      assert db' == Restate(db, id, s);
      CloseHarmless(db, id, s);
    }
  }

  /** A step whose database effect is harmless and that engages no session. */
  lemma HarmlessKeepsInv(w: World, v: World)
    requires Inv(w) && Harmless(w.db, v.db)
    requires v.log == w.log && v.ended == w.ended && v.bookings == w.bookings
    requires forall sid <- v.sessions ::
              !Engaged(v.sessions[sid].pc) || (sid in w.sessions && w.sessions[sid] == v.sessions[sid])
    ensures Inv(v)
  {
    FrameKeepsInv(w, v);
  }

  // ---------- the environment ----------

  lemma RowHarmless(db: Db, id: Uuid, row: Delivery)
    requires RowsOk(db) && LeasesOk(db) && RowOk(row)
    requires id in db.deliveries ==> row.channel == db.deliveries[id].channel && row.parts == db.deliveries[id].parts
    ensures Harmless(db, db.(deliveries := db.deliveries[id := row]))
  {}

  lemma CancelHarmless(db: Db, x: Settings)
    requires RowsOk(db) && LeasesOk(db)
    ensures Harmless(db, db.(settings := x))
    ensures Harmless(db, db.(settings := x, deliveries := CancelOpen(db.deliveries)))
  {
    var next := db.(settings := x, deliveries := CancelOpen(db.deliveries));
    forall id | id in next.deliveries ensures RowOk(next.deliveries[id]) {
      var d := db.deliveries[id];
      assert RowOk(d);
      if Open(d) || d.state == WaitingEdition { CloseRow(d, Cancelled); }
    }
  }

  /** A database that is unchanged, or changed in one sound row with the same channel and parts. */
  ghost predicate OneRow(db: Db, next: Db, id: Uuid, row: Delivery) {
    next == db || (next == db.(deliveries := db.deliveries[id := row]) && RowOk(row) && SameMessages(db, id, row))
  }

  predicate SameMessages(db: Db, id: Uuid, row: Delivery) {
    id in db.deliveries ==> row.channel == db.deliveries[id].channel && row.parts == db.deliveries[id].parts
  }

  lemma OneRowHarmless(db: Db, next: Db, id: Uuid, row: Delivery)
    requires RowsOk(db) && LeasesOk(db) && OneRow(db, next, id, row)
    ensures Harmless(db, next)
  {
    if next == db { SameHarmless(db, UNSET); } else { RowHarmless(db, id, row); }
  }

  lemma RelabelRow(d: Delivery, job: Uuid)
    requires RowOk(d)
    ensures RowOk(d.(lastJob := Some(job), dispatches := d.dispatches + 1))
  {}

  lemma OpenIsCertain(d: Delivery)
    requires RowOk(d) && Open(d)
    ensures !Uncertain(d.parts)
  {}

  lemma DispatchRow(w: World, id: Uuid, job: Uuid, d: Delivery)
    requires id in w.db.deliveries && d == w.db.deliveries[id] && RowOk(d)
    ensures OneRow(w.db, Env(w, Dispatch(id, job)).db, id, d.(lastJob := Some(job), dispatches := d.dispatches + 1))
  {
    RelabelRow(d, job);
  }

  lemma UnknownRow(w: World, id: Uuid, d: Delivery)
    requires id in w.db.deliveries && d == w.db.deliveries[id] && RowOk(d)
    ensures OneRow(w.db, Env(w, DispatchUnknown(id)).db, id, d.(state := DeliveryUnknown))
  {
    if d.state == DSending { CloseRow(d, DeliveryUnknown); } else if Open(d) { OpenIsCertain(d); }
  }

  lemma ExhaustedRow(w: World, id: Uuid, d: Delivery)
    requires id in w.db.deliveries && d == w.db.deliveries[id] && RowOk(d)
    ensures OneRow(w.db, Env(w, DispatchExhausted(id)).db, id, d.(state := Exhausted))
  {
    if d.state == WaitingEdition || Open(d) { CloseRow(d, Exhausted); }
  }

  lemma EditionRow(w: World, id: Uuid, d: Delivery)
    requires id in w.db.deliveries && d == w.db.deliveries[id] && RowOk(d)
    ensures OneRow(w.db, Env(w, EditionReady(id)).db, id, d.(state := Ready))
  {}

  /** The dispatcher's steps on an existing row. */
  predicate OnRow(s: Step) {
    s.Dispatch? || s.DispatchUnknown? || s.DispatchExhausted? || s.EditionReady?
  }

  lemma RowStep(w: World, s: Step) returns (row: Delivery)
    requires OnRow(s) && s.id in w.db.deliveries && RowOk(w.db.deliveries[s.id])
    ensures OneRow(w.db, Env(w, s).db, s.id, row)
  {
    var d := w.db.deliveries[s.id];
    match s
    case Dispatch(id, job) =>
      DispatchRow(w, id, job, d);
      row := d.(lastJob := Some(job), dispatches := d.dispatches + 1);
    case DispatchUnknown(id) =>
      UnknownRow(w, id, d);
      row := d.(state := DeliveryUnknown);
    case DispatchExhausted(id) =>
      ExhaustedRow(w, id, d);
      row := d.(state := Exhausted);
    case EditionReady(id) =>
      EditionRow(w, id, d);
      row := d.(state := Ready);
  }

  lemma RowStepHarmless(w: World, s: Step)
    requires RowsOk(w.db) && LeasesOk(w.db) && OnRow(s)
    ensures Harmless(w.db, Env(w, s).db)
  {
    if s.id in w.db.deliveries {
      assert RowOk(w.db.deliveries[s.id]);
      var row := RowStep(w, s);
      OneRowHarmless(w.db, Env(w, s).db, s.id, row);
    } else {
      SameHarmless(w.db, UNSET);
    }
  }

  lemma BindHarmless(w: World, id: Uuid, row: Delivery)
    requires RowsOk(w.db) && LeasesOk(w.db)
    ensures Harmless(w.db, Env(w, Bind(id, row)).db)
  {
    OneRowHarmless(w.db, Env(w, Bind(id, row)).db, id, row);
  }

  lemma EnvHarmless(w: World, s: Step)
    requires RowsOk(w.db) && LeasesOk(w.db)
    ensures Harmless(w.db, Env(w, s).db)
  {
    if OnRow(s) {
      RowStepHarmless(w, s);
    } else {
      match s
      case ChangeSettings(x, _) => CancelHarmless(w.db, x);
      case Bind(id, row) => BindHarmless(w, id, row);
      case Recover(id) => RecoverHarmless(w.db, id);
      case _ => SameHarmless(w.db, UNSET);
    }
  }

  lemma EnvOnlyTouchesDb(w: World, s: Step)
    ensures Env(w, s) == w.(db := Env(w, s).db)
  {}

  lemma EnvKeepsInv(w: World, s: Step)
    requires Inv(w)
    ensures Inv(Env(w, s))
  {
    EnvHarmless(w, s);
    EnvOnlyTouchesDb(w, s);
    HarmlessKeepsInv(w, w.(db := Env(w, s).db));
  }

  // ---------- Reserve ----------

  function ReservedPart(p: Part, o: Owner): Part {
    p.(state := Sending, attempts := p.attempts + 1, owner := Some(o))
  }

  lemma ReservedRow(d: Delivery, index: nat, o: Owner)
    requires RowOk(d) && Open(d) && index < |d.parts| && NextInLine(d.parts, index)
    requires d.parts[index].state == Pending || d.parts[index].state == Rejected
    requires d.parts[index].attempts < MAX_ATTEMPTS
    ensures RowOk(ReservedDelivery(d, index, o))
  {
    var q := ReservedPart(d.parts[index], o);
    var parts := d.parts[index := q];
    assert parts[index] in parts;
    assert d.parts[index] in d.parts;
    forall p | p in parts ensures p == q || p in d.parts {}
  }

  ghost predicate Granted(w: World, sid: nat, index: nat, text: string) {
    && At(w, sid) && w.sessions[sid].pc == Idle
    && ReserveVerdict(w.db, w.sessions[sid].delivery, w.sessions[sid].owner, index, text) == Reserved
  }

  lemma ReserveKeepsLeases(w: World, sid: nat, index: nat, text: string)
    requires LeasesOk(w.db) && Granted(w, sid, index, text)
    ensures LeasesOk(Reserve(w, sid, index, text).db)
  {}

  lemma OtherRows(db: Db, id: Uuid, next: Db)
    requires RowsOk(db) && id in next.deliveries && RowOk(next.deliveries[id])
    requires forall other <- next.deliveries ::
              other == id || (other in db.deliveries && next.deliveries[other] == db.deliveries[other])
    ensures RowsOk(next)
  {
    forall other | other in next.deliveries ensures RowOk(next.deliveries[other]) {
      if other != id { assert RowOk(db.deliveries[other]); }
    }
  }

  lemma RowPut(db: Db, id: Uuid, row: Delivery, next: Db)
    requires RowsOk(db) && RowOk(row) && next.deliveries == db.deliveries[id := row]
    ensures RowsOk(next)
  {
    forall other | other in next.deliveries ensures RowOk(next.deliveries[other]) {
      if other != id { assert RowOk(db.deliveries[other]); }
    }
  }

  /** The row that a reservation writes. */
  function ReservedDelivery(d: Delivery, index: nat, o: Owner): Delivery
    requires index < |d.parts|
  {
    d.(state := DSending, owner := Some(o), parts := d.parts[index := ReservedPart(d.parts[index], o)])
  }

  lemma ReservedDeliveries(db: Db, id: Uuid, o: Owner, index: nat)
    requires id in db.deliveries && index < |db.deliveries[id].parts|
    ensures ReservedDb(db, id, o, index).deliveries
         == db.deliveries[id := ReservedDelivery(db.deliveries[id], index, o)]
  {}

  /** What a granted reservation has found out about its part. */
  lemma GrantedPart(w: World, sid: nat, index: nat, text: string)
    requires Granted(w, sid, index, text)
    ensures var x := w.sessions[sid];
            && x.delivery in w.db.deliveries
            && var d := w.db.deliveries[x.delivery];
            && Open(d) && index < |d.parts| && NextInLine(d.parts, index) && d.parts[index].attempts < MAX_ATTEMPTS
            && (d.parts[index].state == Pending || d.parts[index].state == Rejected)
            && Reserve(w, sid, index, text).db == ReservedDb(w.db, x.delivery, x.owner, index)
  {}

  lemma ReserveKeepsRows(w: World, sid: nat, index: nat, text: string)
    requires RowsOk(w.db) && Granted(w, sid, index, text)
    ensures RowsOk(Reserve(w, sid, index, text).db)
  {
    var x := w.sessions[sid];
    GrantedPart(w, sid, index, text);
    ReservedRow(w.db.deliveries[x.delivery], index, x.owner);
    ReservedDeliveries(w.db, x.delivery, x.owner, index);
    RowPut(w.db, x.delivery, ReservedDelivery(w.db.deliveries[x.delivery], index, x.owner),
           Reserve(w, sid, index, text).db);
  }

  lemma ReserveKeepsBookings(w: World, sid: nat, index: nat, text: string)
    requires BookingsOk(w) && Granted(w, sid, index, text)
    ensures BookingsOk(Reserve(w, sid, index, text))
  {}

  lemma ReserveKeepsPost(w: World, sid: nat, index: nat, text: string, k: nat)
    requires Granted(w, sid, index, text) && k < |w.log| && PostOk(w, k)
    requires RowOk(w.db.deliveries[w.sessions[sid].delivery])
    ensures PostOk(Reserve(w, sid, index, text), k)
  {
    var d := w.db.deliveries[w.sessions[sid].delivery];
    assert d.parts[index] in d.parts;
  }

  lemma ReserveKeepsPosts(w: World, sid: nat, index: nat, text: string)
    requires RowsOk(w.db) && PostsOk(w) && Granted(w, sid, index, text)
    ensures PostsOk(Reserve(w, sid, index, text))
  {
    var v := Reserve(w, sid, index, text);
    assert RowOk(w.db.deliveries[w.sessions[sid].delivery]);
    forall k | 0 <= k < |v.log| ensures PostOk(v, k) {
      assert PostOk(w, k);
      ReserveKeepsPost(w, sid, index, text, k);
    }
  }

  /** Nothing of a delivery that may be reserved is being posted. */
  lemma NoneSending(w: World, sid: nat, index: nat, text: string, t: Target)
    requires Granted(w, sid, index, text)
    requires t.PartOf? && t.id == w.sessions[sid].delivery && Exists(w.db, t)
    ensures PartAt(w.db, t).state != Sending
  {
    assert w.db.deliveries[t.id].parts[t.index] in w.db.deliveries[t.id].parts;
  }

  lemma ReserveKeepsSessions(w: World, sid: nat, index: nat, text: string)
    requires PostsOk(w) && SessionsOk(w) && Granted(w, sid, index, text)
    ensures SessionsOk(Reserve(w, sid, index, text))
  {
    var v := Reserve(w, sid, index, text);
    var t := PartOf(w.sessions[sid].delivery, index);
    forall a | a in v.sessions
      ensures SessionOk(v, v.sessions[a]) && (a != sid && Engaged(v.sessions[a].pc) ==> v.sessions[a].pc.target != t)
    {
      if a == sid {
        forall k | 0 <= k < |w.log| && w.log[k].target == t ensures w.log[k].attempt < AttemptOf(v.db, t) {
          assert PostOk(w, k);
        }
      } else {
        assert SessionOk(w, w.sessions[a]);
        var u := w.sessions[a].pc;
        if Engaged(u) && u.target.PartOf? && u.target.id == t.id { NoneSending(w, sid, index, text, u.target); }
      }
    }
  }

  lemma ReserveKeepsTiming(w: World, sid: nat, index: nat, text: string)
    requires LeasesOk(w.db) && PostsOk(w) && SessionsOk(w) && TimingOk(w) && Granted(w, sid, index, text)
    ensures TimingOk(Reserve(w, sid, index, text))
  {
    var v := Reserve(w, sid, index, text);
    var id := w.sessions[sid].delivery;
    forall k | 0 <= k < |v.log| ensures Guarded(v, k) {
      assert PostOk(w, k) && Guarded(w, k);
      if w.log[k].target.PartOf? && w.log[k].target.id == id { NoneSending(w, sid, index, text, w.log[k].target); }
    }
    ApartStays(w, v);
    forall a | a in v.sessions && v.sessions[a].pc.Authorised? && v.db.now < v.sessions[a].pc.checkedAt + LEASE
      ensures Protects(v.db, v.sessions[a].pc.target, v.sessions[a].pc.checkedAt + LEASE)
    {
      assert SessionOk(w, w.sessions[a]);
      var t := w.sessions[a].pc.target;
      if t.PartOf? && t.id == id { NoneSending(w, sid, index, text, t); }
    }
  }

  lemma ReserveKeepsInv(w: World, sid: nat, index: nat, text: string)
    requires Inv(w) && Granted(w, sid, index, text)
    ensures Inv(Reserve(w, sid, index, text))
  {
    ReserveKeepsRows(w, sid, index, text);
    ReserveKeepsLeases(w, sid, index, text);
    ReserveKeepsBookings(w, sid, index, text);
    ReserveKeepsPosts(w, sid, index, text);
    ReserveKeepsSessions(w, sid, index, text);
    ReserveKeepsTiming(w, sid, index, text);
  }

  // ---------- the authority check ----------

  function Renewed(db: Db, c: Uuid): Db
    requires c in db.leases
  {
    db.(leases := db.leases[c := db.leases[c].(until := Some(db.now + LEASE))])
  }

  lemma CheckKeepsTiming(w: World, v: World, sid: nat, t: Target)
    requires LeasesOk(w.db) && PostsOk(w) && SessionsOk(w) && TimingOk(w)
    requires At(w, sid) && w.sessions[sid].pc == Holding(t) && Protects(w.db, t, w.db.now)
    requires v == Go(w, sid, Authorised(t, w.db.now)).(db := Renewed(w.db, ChannelOf(w.db, t)))
    ensures TimingOk(v)
  {
    forall k | 0 <= k < |v.log| ensures Guarded(v, k) { assert PostOk(w, k) && Guarded(w, k); }
    ApartStays(w, v);
    forall a | a in v.sessions && v.sessions[a].pc.Authorised? && v.db.now < v.sessions[a].pc.checkedAt + LEASE
      ensures Protects(v.db, v.sessions[a].pc.target, v.sessions[a].pc.checkedAt + LEASE)
    { assert SessionOk(w, w.sessions[a]); }
  }

  lemma CheckKeepsSessions(w: World, v: World, sid: nat, t: Target)
    requires PostsOk(w) && SessionsOk(w) && At(w, sid) && w.sessions[sid].pc == Holding(t)
    requires Protects(w.db, t, w.db.now)
    requires v == Go(w, sid, Authorised(t, w.db.now)).(db := Renewed(w.db, ChannelOf(w.db, t)))
    ensures PostsOk(v) && SessionsOk(v)
  {
    assert SameTargets(w.db, v.db);
    SameTargetsKeepPosts(w, v);
    assert SessionOk(w, w.sessions[sid]);
  }

  lemma CheckKeepsInv(w: World, v: World, sid: nat, t: Target)
    requires Inv(w) && At(w, sid) && w.sessions[sid].pc == Holding(t) && Protects(w.db, t, w.db.now)
    requires v == Go(w, sid, Authorised(t, w.db.now)).(db := Renewed(w.db, ChannelOf(w.db, t)))
    ensures Inv(v)
  {
    CheckKeepsTiming(w, v, sid, t);
    CheckKeepsSessions(w, v, sid, t);
    RenewalKeepsLeases(w, v, ChannelOf(w.db, t));
  }

  lemma RenewalKeepsLeases(w: World, v: World, c: Uuid)
    requires RowsOk(w.db) && LeasesOk(w.db) && BookingsOk(w) && c in w.db.leases
    requires v.db == Renewed(w.db, c) && v.bookings == w.bookings
    ensures RowsOk(v.db) && LeasesOk(v.db) && BookingsOk(v)
  {}

  // ---------- handing a message to the network ----------

  lemma OneSending(d: Delivery, i: nat, j: nat)
    requires Shape(d.parts) && i < |d.parts| && j < |d.parts|
    requires d.parts[i].state == Sending && d.parts[j].state == Sending
    ensures i == j
  {}

  lemma SendKeepsPosts(w: World, sid: nat)
    requires RowsOk(w.db) && PostsOk(w) && At(w, sid) && w.sessions[sid].pc.Authorised? && SessionOk(w, w.sessions[sid])
    ensures var x := w.sessions[sid].pc; PostsOk(Send(w, sid, x.target, x.checkedAt))
  {
    var x := w.sessions[sid].pc;
    var v := Send(w, sid, x.target, x.checkedAt);
    if x.target.PartOf? {
      assert RowOk(w.db.deliveries[x.target.id]) && PartAt(w.db, x.target) in w.db.deliveries[x.target.id].parts;
    }
    forall k | 0 <= k < |v.log| ensures PostOk(v, k) {
      if k < |w.log| { assert PostOk(w, k); }
    }
  }

  lemma SendKeepsSessions(w: World, sid: nat)
    requires PostsOk(w) && SessionsOk(w) && At(w, sid) && w.sessions[sid].pc.Authorised?
    ensures var x := w.sessions[sid].pc; SessionsOk(Send(w, sid, x.target, x.checkedAt))
  {
    var x := w.sessions[sid].pc;
    var v := Send(w, sid, x.target, x.checkedAt);
    forall a | a in v.sessions ensures SessionOk(v, v.sessions[a]) { assert SessionOk(w, w.sessions[a]); }
  }

  /** A post on the same channel is over, or its time is up, when this one starts in time. */
  lemma ChannelClear(w: World, sid: nat, j: nat)
    requires Inv(w) && At(w, sid) && w.sessions[sid].pc.Authorised? && j < |w.log|
    requires w.db.now < w.sessions[sid].pc.checkedAt + LEASE
    requires w.log[j].channel == ChannelOf(w.db, w.sessions[sid].pc.target)
    ensures j in w.ended || w.log[j].deadline <= w.db.now
  {
    var t := w.sessions[sid].pc.target;
    var u := w.log[j].target;
    assert SessionOk(w, w.sessions[sid]) && PostOk(w, j) && Guarded(w, j);
    if j !in w.ended && w.log[j].deadline > w.db.now {
      assert LeaseOk(w.db.leases[ChannelOf(w.db, t)]);
      if t.PartOf? {
        assert RowOk(w.db.deliveries[t.id]);
        OneSending(w.db.deliveries[t.id], t.index, u.index);
      }
    }
  }

  lemma SendKeepsTiming(w: World, sid: nat)
    requires Inv(w) && At(w, sid) && w.sessions[sid].pc.Authorised?
    ensures var x := w.sessions[sid].pc; TimingOk(Send(w, sid, x.target, x.checkedAt))
  {
    var x := w.sessions[sid].pc;
    var v := Send(w, sid, x.target, x.checkedAt);
    assert SessionOk(w, w.sessions[sid]);
    forall k | 0 <= k < |v.log| ensures Guarded(v, k) {
      if k < |w.log| { assert Guarded(w, k); }
    }
    forall j, k | 0 <= j < k < |v.log| && v.log[j].channel == v.log[k].channel && v.log[k].start < v.log[k].deadline
      ensures Before(v, j, k)
    {
      if k < |w.log| { assert Before(w, j, k); } else { ChannelClear(w, sid, j); assert PostOk(w, j); }
    }
  }

  lemma SendKeepsInv(w: World, sid: nat)
    requires Inv(w) && At(w, sid) && w.sessions[sid].pc.Authorised?
    ensures var x := w.sessions[sid].pc; Inv(Send(w, sid, x.target, x.checkedAt))
  {
    assert SessionOk(w, w.sessions[sid]);
    SendKeepsPosts(w, sid);
    SendKeepsSessions(w, sid);
    SendKeepsTiming(w, sid);
  }

  ghost predicate OnTheWire(w: World, sid: nat) {
    At(w, sid) && w.sessions[sid].pc.Posting?
  }

  lemma EndPostKeepsPosts(w: World, sid: nat, r: Result)
    requires PostsOk(w) && OnTheWire(w, sid) && SessionOk(w, w.sessions[sid])
    ensures PostsOk(Next(w, EndPost(sid, r)))
  {
    var v := Next(w, EndPost(sid, r));
    forall k | 0 <= k < |v.log| ensures PostOk(v, k) { assert PostOk(w, k); }
  }

  lemma EndPostKeepsSessions(w: World, sid: nat, r: Result)
    requires SessionsOk(w) && OnTheWire(w, sid)
    ensures SessionsOk(Next(w, EndPost(sid, r)))
  {
    var v := Next(w, EndPost(sid, r));
    assert SessionOk(w, w.sessions[sid]);
    forall a | a in v.sessions ensures SessionOk(v, v.sessions[a]) { assert SessionOk(w, w.sessions[a]); }
  }

  lemma EndPostKeepsTiming(w: World, sid: nat, r: Result)
    requires TimingOk(w) && OnTheWire(w, sid) && SessionOk(w, w.sessions[sid])
    requires PostsOk(w) && SessionsOk(w)
    ensures TimingOk(Next(w, EndPost(sid, r)))
  {
    var v := Next(w, EndPost(sid, r));
    forall k | 0 <= k < |v.log| ensures Guarded(v, k) { assert Guarded(w, k); }
    forall j, k | 0 <= j < k < |v.log| && v.log[j].channel == v.log[k].channel && v.log[k].start < v.log[k].deadline
      ensures Before(v, j, k) { assert Before(w, j, k); }
  }

  lemma EndPostKeepsInv(w: World, sid: nat, r: Result)
    requires Inv(w)
    ensures Inv(Next(w, EndPost(sid, r)))
  {
    if OnTheWire(w, sid) {
      assert SessionOk(w, w.sessions[sid]);
      EndPostKeepsPosts(w, sid, r);
      EndPostKeepsSessions(w, sid, r);
      EndPostKeepsTiming(w, sid, r);
    }
  }

  // ---------- Finish ----------

  lemma FinishedRow(d: Delivery, index: nat, r: Result, at: int)
    requires RowOk(d) && d.state == DSending && index < |d.parts| && d.parts[index].state == Sending
    ensures var parts := d.parts[index := d.parts[index].(state := AfterPost(r.state))];
            RowOk(d.(state := Disposition(parts, d.parts[index].attempts, r), parts := parts, nextDispatchAt := at))
  {
    var q := d.parts[index].(state := AfterPost(r.state));
    var parts := d.parts[index := q];
    var e := d.(state := Disposition(parts, d.parts[index].attempts, r), parts := parts, nextDispatchAt := at);
    assert d.parts[index] in d.parts && parts[index] in parts;
    forall p | p in parts ensures p == q || (p in d.parts && p.state != Sending && p.state != Unknown) {
      var i :| 0 <= i < |parts| && parts[i] == p;
      if i != index { assert d.parts[i] in d.parts; }
    }
    assert Shape(parts);
  }

  /** A session that has its answer is the only one able to finish the part. */
  predicate Answered(w: World, sid: nat) {
    && At(w, sid) && w.sessions[sid].pc.Posted? && w.sessions[sid].pc.post in w.ended
  }

  function Finished(w: World, sid: nat): World
    requires Answered(w, sid)
  {
    Finish(w, sid, w.sessions[sid].pc.target, w.ended[w.sessions[sid].pc.post].result)
  }

  lemma FinishKeepsRows(db: Db, id: Uuid, o: Owner, index: nat, r: Result)
    requires RowsOk(db)
    ensures RowsOk(FinishTx(db, id, o, index, r))
  {
    if CanFinish(db, id, o, index, r) {
      var next := FinishTx(db, id, o, index, r);
      assert RowOk(db.deliveries[id]);
      FinishedRow(db.deliveries[id], index, r, next.deliveries[id].nextDispatchAt);
      OtherRows(db, id, next);
    }
  }

  /** Channels only ever become free later. */
  ghost predicate LeasesMoveOn(db: Db, next: Db) {
    forall c <- db.leases :: c in next.leases && db.leases[c].nextPostAt <= next.leases[c].nextPostAt
  }

  lemma FinishKeepsLeases(db: Db, id: Uuid, o: Owner, index: nat, r: Result)
    requires LeasesOk(db)
    ensures LeasesOk(FinishTx(db, id, o, index, r)) && LeasesMoveOn(db, FinishTx(db, id, o, index, r))
  {}

  lemma MoveOnKeepsBookings(w: World, v: World)
    requires BookingsOk(w) && LeasesMoveOn(w.db, v.db) && v.bookings == w.bookings
    ensures BookingsOk(v)
  {}

  lemma FinishPartKeepsRows(w: World, sid: nat)
    requires RowsOk(w.db) && LeasesOk(w.db) && BookingsOk(w) && Answered(w, sid) && w.sessions[sid].pc.target.PartOf?
    ensures var v := Finished(w, sid); RowsOk(v.db) && LeasesOk(v.db) && BookingsOk(v)
  {
    var x := w.sessions[sid];
    var t, r := x.pc.target, w.ended[x.pc.post].result;
    FinishKeepsRows(w.db, t.id, x.owner, t.index, r);
    FinishKeepsLeases(w.db, t.id, x.owner, t.index, r);
    MoveOnKeepsBookings(w, Finished(w, sid));
  }

  /** Finishing changes the state of one part and nothing else that posts or sessions look at. */
  lemma FinishKeepsTargets(db: Db, id: Uuid, o: Owner, index: nat, r: Result, t: Target)
    requires Exists(db, t)
    ensures var next := FinishTx(db, id, o, index, r);
            && Exists(next, t) && AttemptOf(next, t) == AttemptOf(db, t) && ChannelOf(next, t) == ChannelOf(db, t)
            && next.now == db.now
            && (t.PartOf? && t != PartOf(id, index) ==> PartAt(next, t) == PartAt(db, t))
            && (t == PartOf(id, index) && PartAt(next, t).state == Rejected ==>
                  PartAt(db, t).state == Rejected || r.state == RRejected)
  {}

  lemma FinishPartKeepsPosts(w: World, sid: nat)
    requires PostsOk(w) && SessionsOk(w) && Answered(w, sid) && w.sessions[sid].pc.target.PartOf?
    ensures PostsOk(Finished(w, sid))
  {
    var v, x := Finished(w, sid), w.sessions[sid];
    assert SessionOk(w, x);
    forall k | 0 <= k < |v.log| ensures PostOk(v, k) {
      assert PostOk(w, k);
      FinishKeepsTargets(w.db, x.pc.target.id, x.owner, x.pc.target.index, w.ended[x.pc.post].result, w.log[k].target);
    }
  }

  lemma FinishPartKeepsSessions(w: World, sid: nat)
    requires SessionsOk(w) && Answered(w, sid) && w.sessions[sid].pc.target.PartOf?
    ensures SessionsOk(Finished(w, sid))
  {
    var v, x := Finished(w, sid), w.sessions[sid];
    forall a | a in v.sessions ensures SessionOk(v, v.sessions[a]) {
      assert SessionOk(w, w.sessions[a]);
      if a != sid && Engaged(w.sessions[a].pc) {
        FinishKeepsTargets(w.db, x.pc.target.id, x.owner, x.pc.target.index, w.ended[x.pc.post].result,
                           w.sessions[a].pc.target);
      }
    }
  }

  /** The post that a session has an answer to is the latest of its part. */
  lemma OwnPost(w: World, sid: nat, k: nat)
    requires PostsOk(w) && Answered(w, sid) && SessionOk(w, w.sessions[sid]) && w.sessions[sid].pc.target.PartOf?
    requires k < |w.log| && w.log[k].target == w.sessions[sid].pc.target && Current(w.db, w.log[k])
    ensures k in w.ended
  {
    assert k == w.sessions[sid].pc.post;
  }

  /** Finishing a part leaves the leases and rows of every other message alone. */
  lemma FinishKeepsProtects(db: Db, id: Uuid, o: Owner, index: nat, r: Result, t: Target, time: int)
    requires Protects(db, t, time) && LeaseOk(db.leases[ChannelOf(db, t)]) && (t.PartOf? ==> t.id != id)
    requires Exists(db, t)
    ensures Protects(FinishTx(db, id, o, index, r), t, time)
    ensures var next := FinishTx(db, id, o, index, r);
            t.PartOf? ==> t.id in next.deliveries && next.deliveries[t.id] == db.deliveries[t.id]
  {}

  lemma FinishPartGuards(w: World, sid: nat, k: nat)
    requires RowsOk(w.db) && LeasesOk(w.db) && Answered(w, sid) && w.sessions[sid].pc.target.PartOf?
    requires SessionOk(w, w.sessions[sid]) && k < |w.log| && PostOk(w, k) && Guarded(w, k)
    requires w.log[k].target == w.sessions[sid].pc.target && Current(w.db, w.log[k]) ==> k in w.ended
    ensures Guarded(Finished(w, sid), k)
  {
    var x := w.sessions[sid];
    var t, u := x.pc.target, w.log[k].target;
    if u.PartOf? && u.id == t.id {
      if Current(w.db, w.log[k]) {
        assert RowOk(w.db.deliveries[t.id]);
        OneSending(w.db.deliveries[t.id], t.index, u.index);
      }
    } else if k !in w.ended && w.log[k].deadline > w.db.now {
      FinishKeepsProtects(w.db, t.id, x.owner, t.index, w.ended[x.pc.post].result, u, w.log[k].deadline);
    }
  }

  lemma FinishPartProtects(w: World, sid: nat, a: nat)
    requires Answered(w, sid) && w.sessions[sid].pc.target.PartOf? && SessionOk(w, w.sessions[sid])
    requires RowOk(w.db.deliveries[w.sessions[sid].pc.target.id])
    requires At(w, a) && w.sessions[a].pc.Authorised? && SessionOk(w, w.sessions[a])
    requires w.sessions[a].pc.target != w.sessions[sid].pc.target
    requires Protects(w.db, w.sessions[a].pc.target, w.sessions[a].pc.checkedAt + LEASE)
    requires LeaseOk(w.db.leases[ChannelOf(w.db, w.sessions[a].pc.target)])
    ensures Protects(Finished(w, sid).db, w.sessions[a].pc.target, w.sessions[a].pc.checkedAt + LEASE)
  {
    var x := w.sessions[sid];
    var t, u := x.pc.target, w.sessions[a].pc.target;
    if u.PartOf? && u.id == t.id {
      OneSending(w.db.deliveries[t.id], t.index, u.index);
    } else {
      FinishKeepsProtects(w.db, t.id, x.owner, t.index, w.ended[x.pc.post].result, u,
                          w.sessions[a].pc.checkedAt + LEASE);
    }
  }

  lemma FinishPartKeepsTiming(w: World, sid: nat)
    requires RowsOk(w.db) && LeasesOk(w.db) && PostsOk(w) && SessionsOk(w) && TimingOk(w)
    requires Answered(w, sid) && w.sessions[sid].pc.target.PartOf?
    ensures TimingOk(Finished(w, sid))
  {
    var v := Finished(w, sid);
    assert SessionOk(w, w.sessions[sid]);
    forall k | 0 <= k < |v.log| ensures Guarded(v, k) {
      assert PostOk(w, k) && Guarded(w, k);
      if w.log[k].target == w.sessions[sid].pc.target && Current(w.db, w.log[k]) { OwnPost(w, sid, k); }
      FinishPartGuards(w, sid, k);
    }
    ApartStays(w, v);
    forall a | a in v.sessions && v.sessions[a].pc.Authorised? && v.db.now < v.sessions[a].pc.checkedAt + LEASE
      ensures Protects(v.db, v.sessions[a].pc.target, v.sessions[a].pc.checkedAt + LEASE)
    {
      assert SessionOk(w, w.sessions[a]) && a != sid;
      FinishPartProtects(w, sid, a);
    }
  }

  // ---------- test sends ----------

  ghost predicate TestDone(w: World, sid: nat) {
    At(w, sid) && Engaged(w.sessions[sid].pc) && w.sessions[sid].pc.target.TestOf? && !w.sessions[sid].pc.Posting?
  }

  /** Finishing a test leaves the leases of every other message alone. */
  lemma FinishTestKeepsProtects(db: Db, id: Uuid, r: Result, t: Target, time: int)
    requires Protects(db, t, time) && t != TestOf(id) && LeaseOk(db.leases[ChannelOf(db, t)])
    requires t.TestOf? ==> t.id in db.tests
    ensures Protects(FinishTestTx(db, id, r), t, time) && FinishTestTx(db, id, r).deliveries == db.deliveries
  {}

  lemma FinishTestGuards(w: World, sid: nat, r: Result, k: nat)
    requires LeasesOk(w.db) && TestDone(w, sid) && SessionOk(w, w.sessions[sid])
    requires k < |w.log| && PostOk(w, k) && Guarded(w, k)
    requires w.log[k].target == w.sessions[sid].pc.target ==> k in w.ended
    ensures Guarded(Finish(w, sid, w.sessions[sid].pc.target, r), k)
  {
    var id := w.sessions[sid].pc.target.id;
    if k !in w.ended && w.log[k].deadline > w.db.now {
      FinishTestKeepsProtects(w.db, id, r, w.log[k].target, w.log[k].deadline);
    }
  }

  /** A test is posted at most once, so a session that is not posting has its answer. */
  lemma TestPostEnded(w: World, sid: nat, k: nat)
    requires PostsOk(w) && TestDone(w, sid) && SessionOk(w, w.sessions[sid])
    requires k < |w.log| && w.log[k].target == w.sessions[sid].pc.target
    ensures k in w.ended
  {
    assert PostOk(w, k);
    if w.sessions[sid].pc.Posted? { assert PostOk(w, w.sessions[sid].pc.post); }
  }

  lemma FinishTestKeepsTiming(w: World, sid: nat, r: Result)
    requires LeasesOk(w.db) && PostsOk(w) && SessionsOk(w) && TimingOk(w) && TestDone(w, sid)
    ensures TimingOk(Finish(w, sid, w.sessions[sid].pc.target, r))
  {
    var v := Finish(w, sid, w.sessions[sid].pc.target, r);
    assert SessionOk(w, w.sessions[sid]);
    forall k | 0 <= k < |v.log| ensures Guarded(v, k) {
      assert PostOk(w, k) && Guarded(w, k);
      if w.log[k].target == w.sessions[sid].pc.target { TestPostEnded(w, sid, k); }
      FinishTestGuards(w, sid, r, k);
    }
    ApartStays(w, v);
    forall a | a in v.sessions && v.sessions[a].pc.Authorised? && v.db.now < v.sessions[a].pc.checkedAt + LEASE
      ensures Protects(v.db, v.sessions[a].pc.target, v.sessions[a].pc.checkedAt + LEASE)
    {
      assert SessionOk(w, w.sessions[a]) && a != sid;
      FinishTestKeepsProtects(w.db, w.sessions[sid].pc.target.id, r, w.sessions[a].pc.target,
                              w.sessions[a].pc.checkedAt + LEASE);
    }
  }

  lemma FinishTestKeepsTargets(db: Db, id: Uuid, r: Result)
    ensures SameTargets(db, FinishTestTx(db, id, r)) && FinishTestTx(db, id, r).deliveries == db.deliveries
  {}

  lemma FinishTestKeepsLeases(db: Db, id: Uuid, r: Result)
    requires LeasesOk(db)
    ensures LeasesOk(FinishTestTx(db, id, r)) && LeasesMoveOn(db, FinishTestTx(db, id, r))
  {}

  lemma EndedKeepsSessions(w: World, v: World, sid: nat)
    requires SessionsOk(w) && At(w, sid) && v.sessions == Go(w, sid, Ended).sessions
    requires forall a <- w.sessions :: SessionOk(v, w.sessions[a])
    ensures SessionsOk(v)
  {}

  lemma FinishTestKeepsInv(w: World, sid: nat, r: Result)
    requires Inv(w) && TestDone(w, sid)
    ensures Inv(Finish(w, sid, w.sessions[sid].pc.target, r))
  {
    var id := w.sessions[sid].pc.target.id;
    var v := Finish(w, sid, w.sessions[sid].pc.target, r);
    FinishTestKeepsTiming(w, sid, r);
    FinishTestKeepsTargets(w.db, id, r);
    SameTargetsKeepPosts(w, v);
    EndedKeepsSessions(w, v, sid);
    FinishTestKeepsLeases(w.db, id, r);
    MoveOnKeepsBookings(w, v);
  }

  lemma BeginTestKeepsTiming(w: World, sid: nat, id: Uuid, expected: int, credential: int)
    requires LeasesOk(w.db) && PostsOk(w) && SessionsOk(w) && TimingOk(w)
    requires At(w, sid) && w.sessions[sid].pc == Idle && CanBegin(w.db, id, expected, credential)
    ensures TimingOk(BeginTest(w, sid, id, expected, credential))
  {
    var v := BeginTest(w, sid, id, expected, credential);
    forall k | 0 <= k < |v.log| ensures Guarded(v, k) { assert PostOk(w, k) && Guarded(w, k); }
    ApartStays(w, v);
    forall a | a in v.sessions && v.sessions[a].pc.Authorised? && v.db.now < v.sessions[a].pc.checkedAt + LEASE
      ensures Protects(v.db, v.sessions[a].pc.target, v.sessions[a].pc.checkedAt + LEASE)
    { assert SessionOk(w, w.sessions[a]); }
  }

  lemma BeginTestKeepsSessions(w: World, sid: nat, id: Uuid, expected: int, credential: int)
    requires PostsOk(w) && SessionsOk(w)
    requires At(w, sid) && w.sessions[sid].pc == Idle && CanBegin(w.db, id, expected, credential)
    ensures var v := BeginTest(w, sid, id, expected, credential); PostsOk(v) && SessionsOk(v)
  {
    var v := BeginTest(w, sid, id, expected, credential);
    assert SameTargets(w.db, v.db);
    SameTargetsKeepPosts(w, v);
    forall k | 0 <= k < |w.log| ensures w.log[k].target != TestOf(id) { assert PostOk(w, k); }
    forall a | a in w.sessions && Engaged(w.sessions[a].pc) ensures w.sessions[a].pc.target != TestOf(id) {
      assert SessionOk(w, w.sessions[a]);
    }
  }

  lemma BeginTestKeepsInv(w: World, sid: nat, id: Uuid, expected: int, credential: int)
    requires Inv(w) && At(w, sid) && w.sessions[sid].pc == Idle && CanBegin(w.db, id, expected, credential)
    ensures Inv(BeginTest(w, sid, id, expected, credential))
  {
    BeginTestKeepsTiming(w, sid, id, expected, credential);
    BeginTestKeepsSessions(w, sid, id, expected, credential);
    BeginTestKeepsLeases(w, sid, id, expected, credential);
  }

  lemma BeginTestKeepsLeases(w: World, sid: nat, id: Uuid, expected: int, credential: int)
    requires LeasesOk(w.db) && BookingsOk(w) && At(w, sid) && CanBegin(w.db, id, expected, credential)
    ensures var v := BeginTest(w, sid, id, expected, credential);
            LeasesOk(v.db) && BookingsOk(v) && v.db.deliveries == w.db.deliveries
  {}

  // ---------- every step, every run ----------

  lemma RecoverHarmless(db: Db, id: Uuid)
    requires RowsOk(db) && LeasesOk(db)
    ensures Harmless(db, RecoverTx(db, id))
  {}

  lemma RefusalKeepsInv(w: World, sid: nat, index: nat, text: string)
    requires Inv(w) && At(w, sid) && !Granted(w, sid, index, text) && w.sessions[sid].pc == Idle
    ensures Inv(Reserve(w, sid, index, text))
  {
    RefusalHarmless(w.db, w.sessions[sid].delivery, w.sessions[sid].owner, index, text);
    HarmlessKeepsInv(w, Reserve(w, sid, index, text));
  }

  lemma DoReserveKeepsInv(w: World, sid: nat, index: nat, text: string)
    requires Inv(w)
    ensures Inv(Next(w, DoReserve(sid, index, text)))
  {
    if Granted(w, sid, index, text) {
      ReserveKeepsInv(w, sid, index, text);
    } else if At(w, sid) && w.sessions[sid].pc == Idle {
      RefusalKeepsInv(w, sid, index, text);
    }
  }

  /** A check that fails ends the session of a delivery and leaves a test as it is. */
  lemma FailedCheckKeepsInv(w: World, sid: nat)
    requires Inv(w) && At(w, sid) && w.sessions[sid].pc.Holding?
    requires !Check(w, sid, w.sessions[sid].pc.target).sessions[sid].pc.Authorised?
    ensures Inv(Check(w, sid, w.sessions[sid].pc.target))
  {
    SameHarmless(w.db, UNSET);
    FailedCheckLeaves(w, sid);
    HarmlessKeepsInv(w, Go(w, sid, Ended));
  }

  lemma FailedCheckLeaves(w: World, sid: nat)
    requires At(w, sid) && w.sessions[sid].pc.Holding?
    requires !Check(w, sid, w.sessions[sid].pc.target).sessions[sid].pc.Authorised?
    ensures var v := Check(w, sid, w.sessions[sid].pc.target); v == w || v == Go(w, sid, Ended)
  {}

  /** A check that passes renews the lease that protects the message. */
  lemma PassedCheckRenews(w: World, sid: nat, t: Target)
    requires At(w, sid) && w.sessions[sid].pc == Holding(t) && Check(w, sid, t).sessions[sid].pc.Authorised?
    ensures Protects(w.db, t, w.db.now)
    ensures Check(w, sid, t) == Go(w, sid, Authorised(t, w.db.now)).(db := Renewed(w.db, ChannelOf(w.db, t)))
  {}

  lemma DoCheckKeepsInv(w: World, sid: nat)
    requires Inv(w)
    ensures Inv(Next(w, DoCheck(sid)))
  {
    if At(w, sid) && w.sessions[sid].pc.Holding? {
      var t := w.sessions[sid].pc.target;
      if Check(w, sid, t).sessions[sid].pc.Authorised? {
        PassedCheckRenews(w, sid, t);
        CheckKeepsInv(w, Check(w, sid, t), sid, t);
      } else {
        FailedCheckKeepsInv(w, sid);
      }
    }
  }

  lemma FinishPartKeepsInv(w: World, sid: nat)
    requires Inv(w) && Answered(w, sid) && w.sessions[sid].pc.target.PartOf?
    ensures Inv(Finished(w, sid))
  {
    FinishPartKeepsRows(w, sid);
    FinishPartKeepsPosts(w, sid);
    FinishPartKeepsSessions(w, sid);
    FinishPartKeepsTiming(w, sid);
  }

  lemma DoFinishKeepsInv(w: World, sid: nat)
    requires Inv(w)
    ensures Inv(Next(w, DoFinish(sid)))
  {
    FinishStep(w, sid);
    if Answered(w, sid) {
      if w.sessions[sid].pc.target.TestOf? {
        FinishTestKeepsInv(w, sid, w.ended[w.sessions[sid].pc.post].result);
      } else {
        FinishPartKeepsInv(w, sid);
      }
    }
  }

  lemma FinishStep(w: World, sid: nat)
    ensures Next(w, DoFinish(sid)) == if Answered(w, sid) then Finished(w, sid) else w
  {}

  lemma RefusedTestKeepsInv(w: World, sid: nat, id: Uuid, expected: int, credential: int)
    requires Inv(w) && At(w, sid) && w.sessions[sid].pc == Idle && !CanBegin(w.db, id, expected, credential)
    ensures Inv(BeginTest(w, sid, id, expected, credential))
  {
    RecoverHarmless(w.db, id);
    SameHarmless(w.db, UNSET);
    HarmlessKeepsInv(w, BeginTest(w, sid, id, expected, credential));
  }

  lemma DoBeginTestKeepsInv(w: World, sid: nat, id: Uuid, expected: int, credential: int)
    requires Inv(w)
    ensures Inv(Next(w, DoBeginTest(sid, id, expected, credential)))
  {
    if At(w, sid) && w.sessions[sid].pc == Idle {
      if CanBegin(w.db, id, expected, credential) {
        BeginTestKeepsInv(w, sid, id, expected, credential);
      } else {
        RefusedTestKeepsInv(w, sid, id, expected, credential);
      }
    }
  }

  lemma BeginPostKeepsInv(w: World, sid: nat)
    requires Inv(w)
    ensures Inv(Next(w, BeginPost(sid)))
  {
    if At(w, sid) && w.sessions[sid].pc.Authorised? { SendKeepsInv(w, sid); }
  }

  lemma AbortTestKeepsInv(w: World, sid: nat)
    requires Inv(w)
    ensures Inv(Next(w, AbortTest(sid)))
  {
    if At(w, sid) && TestHandled(w.sessions[sid].pc) { FinishTestKeepsInv(w, sid, NO_REPLY); }
  }

  /** Steps that grant nothing to any session. */
  predicate Quiet(s: Step) {
    s.Start? || s.Crash? || s.DoLoad? || s.DoMaterialize? || s.DoStop?
  }

  /** What the store does in such a step is harmless. */
  lemma QuietHarmless(w: World, s: Step)
    requires RowsOk(w.db) && LeasesOk(w.db) && Quiet(s)
    ensures Harmless(w.db, Next(w, s).db)
  {
    SameHarmless(w.db, UNSET);
    match s
    case DoLoad(sid) => if At(w, sid) { LoadHarmless(w.db, w.sessions[sid].delivery, w.sessions[sid].owner); }
    case DoMaterialize(sid, version, texts) =>
      if At(w, sid) { MaterializeHarmless(w.db, w.sessions[sid].delivery, w.sessions[sid].owner, version, texts); }
    case DoStop(sid, state) =>
      if At(w, sid) { StopHarmless(w.db, w.sessions[sid].delivery, w.sessions[sid].owner, state); }
    case _ =>
  }

  lemma QuietEngagesNobody(w: World, s: Step)
    requires Quiet(s)
    ensures var v := Next(w, s);
            && v.log == w.log && v.ended == w.ended && v.bookings == w.bookings
            && forall sid <- v.sessions ::
                 !Engaged(v.sessions[sid].pc) || (sid in w.sessions && w.sessions[sid] == v.sessions[sid])
  {}

  lemma QuietKeepsInv(w: World, s: Step)
    requires Inv(w) && Quiet(s)
    ensures Inv(Next(w, s))
  {
    QuietHarmless(w, s);
    QuietEngagesNobody(w, s);
    HarmlessKeepsInv(w, Next(w, s));
  }

  /** Steps of the environment and of the dispatcher. */
  predicate OfEnv(s: Step) {
    s.Tick? || s.ChangeSettings? || s.Bind? || s.Recover? || OnRow(s)
  }

  lemma EnvStepKeepsInv(w: World, s: Step)
    requires Inv(w) && OfEnv(s)
    ensures Inv(Next(w, s))
  {
    EnvKeepsInv(w, s);
  }

  lemma NextKeepsInv(w: World, s: Step)
    requires Inv(w)
    ensures Inv(Next(w, s))
  {
    match s
    case BeginPost(sid) => BeginPostKeepsInv(w, sid);
    case EndPost(sid, r) => EndPostKeepsInv(w, sid, r);
    case DoReserve(sid, index, text) => DoReserveKeepsInv(w, sid, index, text);
    case DoCheck(sid) => DoCheckKeepsInv(w, sid);
    case DoFinish(sid) => DoFinishKeepsInv(w, sid);
    case DoBeginTest(sid, id, expected, credential) => DoBeginTestKeepsInv(w, sid, id, expected, credential);
    case AbortTest(sid) => AbortTestKeepsInv(w, sid);
    case _ => if Quiet(s) { QuietKeepsInv(w, s); } else { EnvStepKeepsInv(w, s); }
  }

  /** The invariant holds after every run, however the steps interleave. */
  lemma {:induction false} RunKeepsInv(w: World, steps: seq<Step>)
    requires Inv(w)
    ensures Inv(Run(w, steps))
    decreases |steps|
  {
    if steps != [] {
      RunKeepsInv(w, steps[..|steps| - 1]);
      NextKeepsInv(Run(w, steps[..|steps| - 1]), steps[|steps| - 1]);
    }
  }
}
