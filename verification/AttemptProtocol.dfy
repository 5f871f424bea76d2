/**
 Every run of the executor: processes that boot and crash, submissions, attempts that talk
 to other services, cancellations, finalization and worker takeover, interleaved in any
 order (go-execution/http.go:111-165, 390-466; go-execution/lifecycle.go:12-123).

 A request on a cancelled context is not sent, and the job kind and payload of a row do
 not change; everything else the environment does is free.
 */
module AttemptProtocol {
  import opened Prelude
  import opened JobPipeline
  import opened ReceiptStore

  datatype Phase =
    | Starting
    | Initializing                                             // article_reprocess only
    | Thinking(pins: bool, t: seq<Reply>)                      // inside the pipeline, between two operations
    | Calling(pins: bool, t: seq<Reply>, op: Operation)        // an operation is on the wire
    | Closing(state: State)                                    // about to record this state

  datatype Attempt = Attempt(digest: Uuid, kind: Kind, payload: Payload, cancelled: bool, phase: Phase)

  /** A cancel handler: after stopping the context, and after reading the receipt. */
  datatype Cancel = Asked(key: Key) | Decided(key: Key, state: State)

  datatype Admitted = Admitted(key: Key, digest: Uuid, kind: Kind, payload: Payload)

  /** `admitting` is the attempt committed under the admission lock and not yet in `active`. */
  datatype Server = Server(guard: nat, admitting: Option<Admitted>, active: map<Key, Attempt>, cancels: set<Cancel>)

  datatype Entry = Entry(key: Key, digest: Uuid)

  datatype Record = Record(key: Key, state: State)

  /**
   `entered` counts the entries into the pipeline, `issued` holds the attempts that put a
   delivering operation on the wire, `recorded` the terminal writes of runs and cancels.
   */
  datatype World = World(
    db: Db, now: int, procs: map<Uuid, Server>, spent: set<Uuid>,
    entered: multiset<Entry>, issued: set<Key>, recorded: set<Record>)

  datatype Step =
    | Tick(time: int)
    | Environment(db: Db)
    | Finalise(i: Uuid, key: Key, marker: Uuid)
    | Boot(i: Uuid, guard: nat)
    | Crash(i: Uuid)
    | StopAll(i: Uuid)
    | Submit(i: Uuid, envelope: Envelope, acked: bool)
    | Activate(i: Uuid)
    | GiveUp(i: Uuid, key: Key)
    | Start(i: Uuid, key: Key, pins: bool, acked: bool)
    | Initialized(i: Uuid, key: Key, pins: bool)
    | Vanish(i: Uuid, key: Key)
    | Call(i: Uuid, key: Key)
    | Refuse(i: Uuid, key: Key, stale: bool)
    | Answer(i: Uuid, key: Key, reply: Reply)
    | Return(i: Uuid, key: Key, ending: Ending)
    | Close(i: Uuid, key: Key, reached: bool)
    | CancelAsk(i: Uuid, key: Key)
    | CancelRead(i: Uuid, key: Key)
    | CancelWrite(i: Uuid, key: Key, state: State)

  /** What the worker and the other services may do to the tables. */
  ghost predicate EnvironmentOk(db: Db, next: Db) {
    && (forall j | j in db.jobs ::
          j in next.jobs && next.jobs[j].kind == db.jobs[j].kind && next.jobs[j].payload == db.jobs[j].payload)
    && (forall k | k in db.receipts :: k in next.receipts && next.receipts[k] == db.receipts[k])
    && (forall k | k in next.receipts && k !in db.receipts :: !Open(next.receipts[k].state))
    && db.worker.generation <= next.worker.generation
  }

  predicate Has(w: World, i: Uuid, key: Key) {
    i in w.procs && key in w.procs[i].active
  }

  function PhaseAt(w: World, i: Uuid, key: Key): Phase
    requires Has(w, i, key)
  {
    w.procs[i].active[key].phase
  }

  function Next(a: Attempt): Action
    requires a.phase.Thinking? || a.phase.Calling?
  {
    Plan(a.kind, a.payload, a.phase.pins, a.phase.t)
  }

  ghost predicate Enabled(w: World, s: Step) {
    match s
    case Tick(time) => w.now <= time
    case Environment(db) => EnvironmentOk(w.db, db)
    case Finalise(i, _, _) => i in w.procs
    case Boot(i, _) => i !in w.spent
    case Crash(i) => i in w.procs
    case StopAll(i) => i in w.procs
    case Submit(i, e, _) => i in w.procs && w.procs[i].admitting.None? && w.procs[i].active == map[]
    case Activate(i) => i in w.procs && w.procs[i].admitting.Some?
    case GiveUp(i, key) => Has(w, i, key) && (PhaseAt(w, i, key).Starting? || PhaseAt(w, i, key).Initializing?)
    case Start(i, key, _, _) => Has(w, i, key) && PhaseAt(w, i, key).Starting?
    case Initialized(i, key, _) => Has(w, i, key) && PhaseAt(w, i, key).Initializing?
    case Vanish(i, key) => Has(w, i, key) && PhaseAt(w, i, key).Initializing?
    case Call(i, key) =>
      Has(w, i, key) && PhaseAt(w, i, key).Thinking? && !w.procs[i].active[key].cancelled
      && Next(w.procs[i].active[key]).Ask?
    case Refuse(i, key, _) => Has(w, i, key) && PhaseAt(w, i, key).Thinking? && Next(w.procs[i].active[key]).Ask?
    case Answer(i, key, _) => Has(w, i, key) && PhaseAt(w, i, key).Calling?
    case Return(i, key, ending) =>
      && Has(w, i, key) && PhaseAt(w, i, key).Thinking? && Next(w.procs[i].active[key]).Stop?
      && (w.procs[i].active[key].cancelled ==> !ending.end.StillOn?)
    case Close(i, key, _) => Has(w, i, key) && PhaseAt(w, i, key).Closing?
    case CancelAsk(i, key) => Has(w, i, key)
    case CancelRead(i, key) => i in w.procs && Asked(key) in w.procs[i].cancels
    case CancelWrite(i, key, state) => i in w.procs && Decided(key, state) in w.procs[i].cancels
  }

  function SetProcess(w: World, i: Uuid, p: Server): World {
    w.(procs := w.procs[i := p])
  }

  function SetAttempt(w: World, i: Uuid, key: Key, a: Attempt): World
    requires Has(w, i, key)
  {
    SetProcess(w, i, w.procs[i].(active := w.procs[i].active[key := a]))
  }

  function Go(w: World, i: Uuid, key: Key, phase: Phase): World
    requires Has(w, i, key)
  {
    SetAttempt(w, i, key, w.procs[i].active[key].(phase := phase))
  }

  /** The attempt's goroutine ends. */
  function Leave(w: World, i: Uuid, key: Key): World
    requires Has(w, i, key)
  {
    SetProcess(w, i, w.procs[i].(active := w.procs[i].active - {key}))
  }

  function Enter(w: World, i: Uuid, key: Key, pins: bool): World
    requires Has(w, i, key)
  {
    var entry := Entry(key, w.procs[i].active[key].digest);
    Go(w, i, key, Thinking(pins, [])).(entered := w.entered + multiset{entry})
  }

  function StoppedAll(active: map<Key, Attempt>): map<Key, Attempt> {
    map k | k in active :: active[k].(cancelled := true)
  }

  function DoSubmit(w: World, i: Uuid, e: Envelope, acked: bool): World
    requires i in w.procs
  {
    var verdict := AcceptVerdict(w.db, e, Executor(i, w.procs[i].guard), w.now);
    var next := w.(db := AcceptTx(w.db, e, Executor(i, w.procs[i].guard), w.now));
    if verdict.Fresh? && acked then
      SetProcess(next, i, w.procs[i].(admitting := Some(Admitted(e.key, e.digest, verdict.kind, verdict.payload))))
    else next
  }

  /** A saturated process keeps the receipt and never runs it. */
  function DoActivate(w: World, i: Uuid): World
    requires i in w.procs && w.procs[i].admitting.Some?
  {
    var p := w.procs[i].(admitting := None);
    var a := w.procs[i].admitting.value;
    if p.active != map[] then SetProcess(w, i, p)
    else SetProcess(w, i, p.(active := map[a.key := Attempt(a.digest, a.kind, a.payload, false, Starting)]))
  }

  function DoStart(w: World, i: Uuid, key: Key, pins: bool, acked: bool): World
    requires Has(w, i, key)
  {
    var a := w.procs[i].active[key];
    var ex := Executor(i, w.procs[i].guard);
    var next := w.(db := SetRunningTx(w.db, key, ex, w.now));
    if !acked then Go(next, i, key, Closing(Failed))
    else match FenceTx(w.db, key, ex, w.now, true)
      case Passed => if a.kind == ArticleReprocess then Go(next, i, key, Initializing) else Enter(next, i, key, pins)
      case Late => Go(next, i, key, Closing(if MayDeliver(a.kind, a.payload) then DeliveryUnknown else Failed))
      case Refused => Go(next, i, key, Closing(Failed))
  }

  function DoCall(w: World, i: Uuid, key: Key): World
    requires Has(w, i, key) && PhaseAt(w, i, key).Thinking? && Next(w.procs[i].active[key]).Ask?
  {
    var a := w.procs[i].active[key];
    var op := Next(a).op;
    Go(w, i, key, Calling(a.phase.pins, a.phase.t, op)).(issued := if Delivers(op) then w.issued + {key} else w.issued)
  }

  /** A terminal write; `reached` is false when it never got to the database. */
  function DoRecord(w: World, i: Uuid, key: Key, state: State, reached: bool): World
    requires i in w.procs
  {
    var ex := Executor(i, w.procs[i].guard);
    if reached && FenceTx(w.db, key, ex, w.now, false).Passed? then
      w.(db := RecordTx(w.db, key, ex, state, w.now), recorded := w.recorded + {Record(key, state)})
    else w
  }

  ghost function Do(w: World, s: Step): World
    requires Enabled(w, s)
  {
    match s
    case Tick(time) => w.(now := time)
    case Environment(db) => w.(db := db)
    case Finalise(i, key, marker) => w.(db := FinalizeTx(w.db, key, Executor(i, w.procs[i].guard), marker, w.now))
    case Boot(i, guard) => SetProcess(w, i, Server(guard, None, map[], {})).(spent := w.spent + {i})
    case Crash(i) => w.(procs := w.procs - {i})
    case StopAll(i) => SetProcess(w, i, w.procs[i].(active := StoppedAll(w.procs[i].active)))
    case Submit(i, e, acked) => DoSubmit(w, i, e, acked)
    case Activate(i) => DoActivate(w, i)
    case GiveUp(i, key) => Go(w, i, key, Closing(Failed))
    case Start(i, key, pins, acked) => DoStart(w, i, key, pins, acked)
    case Initialized(i, key, pins) => Enter(w, i, key, pins)
    case Vanish(i, key) => Leave(w, i, key)
    case Call(i, key) => DoCall(w, i, key)
    case Refuse(i, key, stale) =>
      var a := w.procs[i].active[key];
      Go(w, i, key, Thinking(a.phase.pins, a.phase.t + [CallFailed(stale)]))
    case Answer(i, key, reply) =>
      var a := w.procs[i].active[key];
      Go(w, i, key, Thinking(a.phase.pins, a.phase.t + [reply]))
    case Return(i, key, ending) =>
      var a := w.procs[i].active[key];
      Go(w, i, key, Closing(RunVerdict(a.kind, a.payload, Next(a).outcome, ending)))
    case Close(i, key, reached) => Leave(DoRecord(w, i, key, PhaseAt(w, i, key).state, reached), i, key)
    case CancelAsk(i, key) =>
      var stopped := SetAttempt(w, i, key, w.procs[i].active[key].(cancelled := true));
      SetProcess(stopped, i, stopped.procs[i].(cancels := w.procs[i].cancels + {Asked(key)}))
    case CancelRead(i, key) =>
      var verdict := CancelVerdict(w.db, key, Executor(i, w.procs[i].guard));
      if verdict.None? then w
      else SetProcess(w, i, w.procs[i].(cancels := w.procs[i].cancels + {Decided(key, verdict.value)}))
    case CancelWrite(i, key, state) => DoRecord(w, i, key, state, true)
  }

  /** No process yet and no receipt. */
  function Init(db: Db, now: int): World {
    World(db.(receipts := map[]), now, map[], {}, multiset{}, {}, {})
  }

  /** The steps in order; one that is not enabled does nothing. */
  ghost function Run(w: World, steps: seq<Step>): World
    decreases |steps|
  {
    if steps == [] then w
    else
      var m := Run(w, steps[..|steps| - 1]);
      var s := steps[|steps| - 1];
      if Enabled(m, s) then Do(m, s) else m
  }

  // ---------- the invariant ----------

  ghost predicate Backed(db: Db, i: Uuid, key: Key, digest: Uuid, kind: Kind, payload: Payload) {
    && key in db.receipts && db.receipts[key].instance == i && db.receipts[key].digest == digest
    && key.job in db.jobs && db.jobs[key.job].kind == kind && db.jobs[key.job].payload == payload
    && ValidPayload(payload)
  }

  /** Inside the pipeline, with a delivering operation asked. */
  ghost predicate Delivering(a: Attempt) {
    match a.phase
    case Calling(_, _, op) => Delivers(op) && Next(a) == Ask(op)
    case Thinking(_, _) => Risky(a.kind, a.payload, Next(a))
    case Closing(state) => state == Succeeded || state == DeliveryUnknown
    case _ => false
  }

  ghost predicate AttemptOk(w: World, i: Uuid, key: Key)
    requires Has(w, i, key)
  {
    var a := w.procs[i].active[key];
    && Backed(w.db, i, key, a.digest, a.kind, a.payload)
    && (a.phase.Starting? || a.phase.Initializing? ==> Entry(key, a.digest) !in w.entered)
    && (a.phase.Initializing? || a.phase.Thinking? || a.phase.Calling? ==> w.db.receipts[key].state != Accepted)
    && (a.phase.Calling? ==> Next(a) == Ask(a.phase.op)) && (a.phase.Closing? ==> !Open(a.phase.state))
    && (key in w.issued ==> Delivering(a))
    && ((exists s :: Record(key, s) in w.recorded) ==> a.cancelled)
  }

  ghost predicate CancelOk(w: World, i: Uuid, c: Cancel)
    requires i in w.procs
  {
    && c.key in w.db.receipts && w.db.receipts[c.key].instance == i
    && (c.key in w.procs[i].active ==> w.procs[i].active[c.key].cancelled)
    && (c.Decided? ==> !Open(c.state))
    && (c.Decided? && c.key in w.issued && c.state != DeliveryUnknown ==> !Open(w.db.receipts[c.key].state))
  }

  ghost predicate AdmittedOk(w: World, i: Uuid)
    requires i in w.procs && w.procs[i].admitting.Some?
  {
    var a := w.procs[i].admitting.value;
    && Backed(w.db, i, a.key, a.digest, a.kind, a.payload) && w.procs[i].active == map[]
    && Entry(a.key, a.digest) !in w.entered && a.key !in w.issued
    && (forall s :: Record(a.key, s) !in w.recorded)
    && (forall c | c in w.procs[i].cancels :: c.key != a.key)
  }

  ghost predicate ProcessOk(w: World, i: Uuid)
    requires i in w.procs
  {
    && i in w.spent
    && (w.procs[i].admitting.Some? ==> AdmittedOk(w, i))
    && (forall k, l | k in w.procs[i].active && l in w.procs[i].active :: k == l)
  }

  ghost predicate EntryOk(w: World, e: Entry) {
    w.entered[e] == 1 && e.key in w.db.receipts && w.db.receipts[e.key].digest == e.digest
  }

  ghost predicate IssuedOk(w: World, key: Key) {
    && key in w.db.receipts && w.db.receipts[key].state != Accepted && w.db.receipts[key].instance in w.spent
    && key.job in w.db.jobs && MayDeliver(w.db.jobs[key.job].kind, w.db.jobs[key.job].payload)
  }

  ghost predicate RecordOk(w: World, r: Record) {
    && r.key in w.db.receipts && !Open(w.db.receipts[r.key].state) && w.db.receipts[r.key].state == r.state
    && (r.key in w.issued ==> r.state == Succeeded || r.state == DeliveryUnknown)
  }

  ghost predicate Attempts(w: World) {
    forall i, key | Has(w, i, key) :: AttemptOk(w, i, key)
  }

  ghost predicate Cancels(w: World) {
    forall i, c | i in w.procs && c in w.procs[i].cancels :: CancelOk(w, i, c)
  }

  ghost predicate Processes(w: World) {
    forall i | i in w.procs :: ProcessOk(w, i)
  }

  ghost predicate Entries(w: World) {
    forall e | e in w.entered :: EntryOk(w, e)
  }

  ghost predicate Issues(w: World) {
    forall key | key in w.issued :: IssuedOk(w, key)
  }

  ghost predicate Records(w: World) {
    forall r | r in w.recorded :: RecordOk(w, r)
  }

  ghost predicate Inv(w: World) {
    Attempts(w) && Cancels(w) && Processes(w) && Entries(w) && Issues(w) && Records(w)
  }

  // ---------- what any transaction may do to the tables ----------

  predicate LaterReceipt(r: Receipt, q: Receipt) {
    && q.(state := r.state) == r
    && (q.state == r.state || (Open(r.state) && q.state != Accepted))
  }

  ghost predicate Later(db: Db, next: Db) {
    && (forall j | j in db.jobs ::
          j in next.jobs && next.jobs[j].kind == db.jobs[j].kind && next.jobs[j].payload == db.jobs[j].payload)
    && (forall k | k in db.receipts :: k in next.receipts && LaterReceipt(db.receipts[k], next.receipts[k]))
    && db.worker.generation <= next.worker.generation
  }

  lemma AcceptIsLater(db: Db, e: Envelope, ex: Executor, now: int)
    ensures Later(db, AcceptTx(db, e, ex, now))
  {}

  lemma SetRunningIsLater(db: Db, key: Key, ex: Executor, now: int)
    ensures Later(db, SetRunningTx(db, key, ex, now))
  {}

  lemma RecordIsLater(db: Db, key: Key, ex: Executor, state: State, now: int)
    requires !Open(state)
    ensures Later(db, RecordTx(db, key, ex, state, now))
  {}

  lemma FinalizeIsLater(db: Db, key: Key, ex: Executor, marker: Uuid, now: int)
    ensures Later(db, FinalizeTx(db, key, ex, marker, now))
  {}

  /** The transaction in a step, if there is one. */
  ghost function Transaction(w: World, s: Step): Db
    requires Enabled(w, s)
  {
    match s
    case Environment(db) => db
    case Finalise(i, key, marker) => FinalizeTx(w.db, key, Executor(i, w.procs[i].guard), marker, w.now)
    case Submit(i, e, _) => AcceptTx(w.db, e, Executor(i, w.procs[i].guard), w.now)
    case Start(i, key, _, _) => SetRunningTx(w.db, key, Executor(i, w.procs[i].guard), w.now)
    case Close(i, key, reached) =>
      if reached then RecordTx(w.db, key, Executor(i, w.procs[i].guard), PhaseAt(w, i, key).state, w.now) else w.db
    case CancelWrite(i, key, state) => RecordTx(w.db, key, Executor(i, w.procs[i].guard), state, w.now)
    case _ => w.db
  }

  lemma StepCommits(w: World, s: Step)
    requires Enabled(w, s)
    ensures Do(w, s).db == Transaction(w, s)
  {}

  lemma NothingIsLater(db: Db)
    ensures Later(db, db)
  {}

  /** Every step leaves a later database: receipts stay, and only open ones change. */
  lemma StepIsLater(w: World, s: Step)
    requires Attempts(w) && Cancels(w) && Enabled(w, s)
    ensures Later(w.db, Do(w, s).db)
  {
    StepCommits(w, s);
    NothingIsLater(w.db);
    match s {
      case Finalise(i, key, marker) => FinalizeIsLater(w.db, key, Executor(i, w.procs[i].guard), marker, w.now);
      case Submit(i, e, _) => AcceptIsLater(w.db, e, Executor(i, w.procs[i].guard), w.now);
      case Start(i, key, _, _) => SetRunningIsLater(w.db, key, Executor(i, w.procs[i].guard), w.now);
      case Close(i, key, _) =>
        assert AttemptOk(w, i, key);
        RecordIsLater(w.db, key, Executor(i, w.procs[i].guard), PhaseAt(w, i, key).state, w.now);
      case CancelWrite(i, key, state) =>
        assert CancelOk(w, i, Decided(key, state));
        RecordIsLater(w.db, key, Executor(i, w.procs[i].guard), state, w.now);
      case _ =>
    }
  }

  lemma LaterAttempts(w: World, db: Db)
    requires Attempts(w) && Later(w.db, db)
    ensures Attempts(w.(db := db))
  {
    forall i, key | Has(w, i, key) ensures AttemptOk(w.(db := db), i, key) {
      assert AttemptOk(w, i, key);
    }
  }

  lemma LaterProcesses(w: World, db: Db)
    requires Processes(w) && Later(w.db, db)
    ensures Processes(w.(db := db))
  {
    forall i | i in w.procs ensures ProcessOk(w.(db := db), i) {
      assert ProcessOk(w, i);
      if w.procs[i].admitting.Some? {
        assert AdmittedOk(w.(db := db), i);
      }
    }
  }

  lemma LaterRest(w: World, db: Db)
    requires Cancels(w) && Entries(w) && Issues(w) && Records(w) && Later(w.db, db)
    ensures var z := w.(db := db); Cancels(z) && Entries(z) && Issues(z) && Records(z)
  {
    var z := w.(db := db);
    forall i, c | i in w.procs && c in w.procs[i].cancels ensures CancelOk(z, i, c) {
      assert CancelOk(w, i, c);
    }
    forall e | e in w.entered ensures EntryOk(z, e) {
      assert EntryOk(w, e);
    }
    forall key | key in w.issued ensures IssuedOk(z, key) {
      assert IssuedOk(w, key);
    }
    forall r | r in w.recorded ensures RecordOk(z, r) {
      assert RecordOk(w, r);
    }
  }

  lemma LaterKeepsInv(w: World, db: Db)
    requires Inv(w) && Later(w.db, db)
    ensures Inv(w.(db := db))
  {
    LaterAttempts(w, db);
    LaterProcesses(w, db);
    LaterRest(w, db);
  }

  // ---------- moves of one attempt ----------

  /** The owner of an active attempt is the only process that has it. */
  lemma SoleOwner(w: World, i: Uuid, j: Uuid, key: Key)
    requires Attempts(w) && Has(w, i, key) && Has(w, j, key)
    ensures i == j
  {
    assert AttemptOk(w, i, key) && AttemptOk(w, j, key);
  }

  lemma SetAttemptKeepsInv(w: World, i: Uuid, key: Key, a: Attempt)
    requires Inv(w) && Has(w, i, key) && (w.procs[i].active[key].cancelled ==> a.cancelled)
    requires AttemptOk(SetAttempt(w, i, key, a), i, key)
    ensures Inv(SetAttempt(w, i, key, a))
  {
    var z := SetAttempt(w, i, key, a);
    forall j, k | Has(z, j, k) ensures AttemptOk(z, j, k) {
      if j != i || k != key {
        assert AttemptOk(w, j, k);
      }
    }
    forall j, c | j in z.procs && c in z.procs[j].cancels ensures CancelOk(z, j, c) {
      assert CancelOk(w, j, c);
    }
    forall j | j in z.procs ensures ProcessOk(z, j) {
      assert ProcessOk(w, j);
      if z.procs[j].admitting.Some? {
        assert AdmittedOk(w, j);
        assert j != i;
      }
    }
    RestKeeps(w, z);
  }

  /** Entries, issues and records do not look at the processes. */
  lemma RestKeeps(w: World, z: World)
    requires Entries(w) && Issues(w) && Records(w)
    requires z == w.(procs := z.procs, spent := z.spent) && w.spent <= z.spent
    ensures Entries(z) && Issues(z) && Records(z)
  {
    forall e | e in w.entered ensures EntryOk(z, e) {
      assert EntryOk(w, e);
    }
    forall key | key in w.issued ensures IssuedOk(z, key) {
      assert IssuedOk(w, key);
    }
    forall r | r in w.recorded ensures RecordOk(z, r) {
      assert RecordOk(w, r);
    }
  }

  lemma GoKeepsInv(w: World, i: Uuid, key: Key, phase: Phase)
    requires Inv(w) && Has(w, i, key)
    requires AttemptOk(Go(w, i, key, phase), i, key)
    ensures Inv(Go(w, i, key, phase))
  {
    SetAttemptKeepsInv(w, i, key, w.procs[i].active[key].(phase := phase));
  }

  lemma LeaveKeepsInv(w: World, i: Uuid, key: Key)
    requires Inv(w) && Has(w, i, key)
    ensures Inv(Leave(w, i, key))
  {
    var z := Leave(w, i, key);
    forall j, k | Has(z, j, k) ensures AttemptOk(z, j, k) {
      assert AttemptOk(w, j, k);
    }
    forall j, c | j in z.procs && c in z.procs[j].cancels ensures CancelOk(z, j, c) {
      assert CancelOk(w, j, c);
    }
    forall j | j in z.procs ensures ProcessOk(z, j) {
      assert ProcessOk(w, j);
      if z.procs[j].admitting.Some? {
        assert AdmittedOk(w, j);
        assert j != i;
      }
    }
    RestKeeps(w, z);
  }

  // ---------- one lemma a step ----------

  lemma SubmitKeepsInv(w: World, i: Uuid, e: Envelope, acked: bool)
    requires Inv(w) && Enabled(w, Submit(i, e, acked))
    ensures Inv(Do(w, Submit(i, e, acked)))
  {
    var ex := Executor(i, w.procs[i].guard);
    var verdict := AcceptVerdict(w.db, e, ex, w.now);
    var mid := w.(db := AcceptTx(w.db, e, ex, w.now));
    AcceptIsLater(w.db, e, ex, w.now);
    LaterKeepsInv(w, mid.db);
    if verdict.Fresh? && acked {
      NewKeyHasNoTrace(w, i, e);
      AdmitKeepsInv(mid, i, Admitted(e.key, e.digest, verdict.kind, verdict.payload));
    }
  }

  lemma NewKeyHasNoTrace(w: World, i: Uuid, e: Envelope)
    requires Inv(w) && i in w.procs && e.key !in w.db.receipts
    ensures Entry(e.key, e.digest) !in w.entered && e.key !in w.issued
    ensures forall s :: Record(e.key, s) !in w.recorded
    ensures forall c | c in w.procs[i].cancels :: c.key != e.key
  {
    assert Entry(e.key, e.digest) in w.entered ==> EntryOk(w, Entry(e.key, e.digest));
    assert e.key in w.issued ==> IssuedOk(w, e.key);
    forall s ensures Record(e.key, s) !in w.recorded {
      assert Record(e.key, s) in w.recorded ==> RecordOk(w, Record(e.key, s));
    }
    forall c | c in w.procs[i].cancels ensures c.key != e.key {
      assert CancelOk(w, i, c);
    }
  }

  lemma AdmitKeepsInv(w: World, i: Uuid, a: Admitted)
    requires Inv(w) && i in w.procs && w.procs[i].active == map[]
    requires AdmittedOk(SetProcess(w, i, w.procs[i].(admitting := Some(a))), i)
    ensures Inv(SetProcess(w, i, w.procs[i].(admitting := Some(a))))
  {
    var z := SetProcess(w, i, w.procs[i].(admitting := Some(a)));
    forall j, k | Has(z, j, k) ensures AttemptOk(z, j, k) {
      assert AttemptOk(w, j, k);
    }
    forall j, c | j in z.procs && c in z.procs[j].cancels ensures CancelOk(z, j, c) {
      assert CancelOk(w, j, c);
    }
    forall j | j in z.procs ensures ProcessOk(z, j) {
      assert ProcessOk(w, j);
      assert j != i && z.procs[j].admitting.Some? ==> AdmittedOk(w, j);
    }
    RestKeeps(w, z);
  }

  lemma ActivateKeepsInv(w: World, i: Uuid)
    requires Inv(w) && Enabled(w, Activate(i))
    ensures Inv(Do(w, Activate(i)))
  {
    var z := Do(w, Activate(i));
    assert ProcessOk(w, i) && AdmittedOk(w, i);
    forall j, k | Has(z, j, k) ensures AttemptOk(z, j, k) {
      if j != i { assert AttemptOk(w, j, k); }
    }
    forall j, c | j in z.procs && c in z.procs[j].cancels ensures CancelOk(z, j, c) {
      assert CancelOk(w, j, c);
    }
    forall j | j in z.procs ensures ProcessOk(z, j) {
      assert ProcessOk(w, j);
      assert j != i && z.procs[j].admitting.Some? ==> AdmittedOk(w, j);
    }
    RestKeeps(w, z);
  }

  lemma BootKeepsInv(w: World, i: Uuid, guard: nat)
    requires Inv(w) && Enabled(w, Boot(i, guard))
    ensures Inv(Do(w, Boot(i, guard)))
  {
    var z := Do(w, Boot(i, guard));
    forall j, k | Has(z, j, k) ensures AttemptOk(z, j, k) {
      assert AttemptOk(w, j, k);
    }
    forall j, c | j in z.procs && c in z.procs[j].cancels ensures CancelOk(z, j, c) {
      assert CancelOk(w, j, c);
    }
    forall j | j in z.procs ensures ProcessOk(z, j) {
      if j != i {
        assert ProcessOk(w, j);
        assert z.procs[j].admitting.Some? ==> AdmittedOk(w, j);
      }
    }
    RestKeeps(w, z);
  }

  lemma CrashKeepsInv(w: World, i: Uuid)
    requires Inv(w) && Enabled(w, Crash(i))
    ensures Inv(Do(w, Crash(i)))
  {
    var z := Do(w, Crash(i));
    forall j, k | Has(z, j, k) ensures AttemptOk(z, j, k) {
      assert AttemptOk(w, j, k);
    }
    forall j, c | j in z.procs && c in z.procs[j].cancels ensures CancelOk(z, j, c) {
      assert CancelOk(w, j, c);
    }
    forall j | j in z.procs ensures ProcessOk(z, j) {
      assert ProcessOk(w, j);
      assert z.procs[j].admitting.Some? ==> AdmittedOk(w, j);
    }
    RestKeeps(w, z);
  }

  lemma StopAllKeepsInv(w: World, i: Uuid)
    requires Inv(w) && Enabled(w, StopAll(i))
    ensures Inv(Do(w, StopAll(i)))
  {
    var z := Do(w, StopAll(i));
    forall j, k | Has(z, j, k) ensures AttemptOk(z, j, k) {
      assert AttemptOk(w, j, k);
    }
    forall j, c | j in z.procs && c in z.procs[j].cancels ensures CancelOk(z, j, c) {
      assert CancelOk(w, j, c);
    }
    forall j | j in z.procs ensures ProcessOk(z, j) {
      assert ProcessOk(w, j);
      if z.procs[j].admitting.Some? {
        assert AdmittedOk(w, j);
        assert z.procs[j].active == map[];
      }
    }
    RestKeeps(w, z);
  }

  lemma EnterKeepsInv(w: World, i: Uuid, key: Key, pins: bool)
    requires Inv(w) && Has(w, i, key) && w.db.receipts[key].state != Accepted
    requires PhaseAt(w, i, key).Starting? || PhaseAt(w, i, key).Initializing?
    ensures Inv(Enter(w, i, key, pins))
  {
    assert AttemptOk(w, i, key);
    var mid := Go(w, i, key, Thinking(pins, []));
    assert AttemptOk(mid, i, key);
    GoKeepsInv(w, i, key, Thinking(pins, []));
    var z := Enter(w, i, key, pins);
    var entry := Entry(key, w.procs[i].active[key].digest);
    forall j, k | Has(z, j, k) ensures AttemptOk(z, j, k) {
      assert AttemptOk(mid, j, k);
      if k == key { SoleOwner(mid, i, j, key); }
    }
    forall j, c | j in z.procs && c in z.procs[j].cancels ensures CancelOk(z, j, c) {
      assert CancelOk(mid, j, c);
    }
    forall j | j in z.procs ensures ProcessOk(z, j) {
      assert ProcessOk(mid, j);
      if z.procs[j].admitting.Some? {
        assert AdmittedOk(mid, j);
      }
    }
    forall e | e in z.entered ensures EntryOk(z, e) {
      if e != entry { assert EntryOk(mid, e); }
    }
    forall k | k in z.issued ensures IssuedOk(z, k) {
      assert IssuedOk(mid, k);
    }
    forall r | r in z.recorded ensures RecordOk(z, r) {
      assert RecordOk(mid, r);
    }
  }

  /** An attempt that has not entered may close with any final state. */
  lemma ClosesUnentered(w: World, i: Uuid, key: Key, state: State)
    requires Has(w, i, key) && AttemptOk(w, i, key) && !Open(state)
    requires PhaseAt(w, i, key).Starting? || PhaseAt(w, i, key).Initializing?
    ensures AttemptOk(Go(w, i, key, Closing(state)), i, key)
  {}

  lemma CloseUnenteredKeepsInv(w: World, i: Uuid, key: Key, state: State)
    requires Inv(w) && Has(w, i, key) && !Open(state)
    requires PhaseAt(w, i, key).Starting? || PhaseAt(w, i, key).Initializing?
    ensures Inv(Go(w, i, key, Closing(state)))
  {
    assert AttemptOk(w, i, key);
    ClosesUnentered(w, i, key, state);
    GoKeepsInv(w, i, key, Closing(state));
  }

  /** The place that a start leads to, by what the fence said. */
  lemma StartLeads(w: World, i: Uuid, key: Key, pins: bool, acked: bool)
    requires Has(w, i, key)
    ensures var ex := Executor(i, w.procs[i].guard);
            var mid, z := w.(db := SetRunningTx(w.db, key, ex, w.now)), DoStart(w, i, key, pins, acked);
            if acked && FenceTx(w.db, key, ex, w.now, true).Passed? then
              z == if w.procs[i].active[key].kind == ArticleReprocess then Go(mid, i, key, Initializing)
                   else Enter(mid, i, key, pins)
            else z == Go(mid, i, key, Closing(Failed)) || z == Go(mid, i, key, Closing(DeliveryUnknown))
  {}

  lemma PassedIsRunning(db: Db, key: Key, ex: Executor, now: int)
    requires FenceTx(db, key, ex, now, true).Passed?
    ensures var next := SetRunningTx(db, key, ex, now); key in next.receipts && next.receipts[key].state != Accepted
  {}

  lemma InitializeKeepsInv(w: World, i: Uuid, key: Key)
    requires Inv(w) && Has(w, i, key) && PhaseAt(w, i, key).Starting?
    requires key in w.db.receipts && w.db.receipts[key].state != Accepted
    ensures Inv(Go(w, i, key, Initializing))
  {
    assert AttemptOk(w, i, key);
    GoKeepsInv(w, i, key, Initializing);
  }

  lemma StartKeepsInv(w: World, i: Uuid, key: Key, pins: bool, acked: bool)
    requires Inv(w) && Has(w, i, key) && PhaseAt(w, i, key).Starting?
    ensures Inv(DoStart(w, i, key, pins, acked))
  {
    var ex := Executor(i, w.procs[i].guard);
    var mid := w.(db := SetRunningTx(w.db, key, ex, w.now));
    SetRunningIsLater(w.db, key, ex, w.now);
    LaterKeepsInv(w, mid.db);
    StartLeads(w, i, key, pins, acked);
    if acked && FenceTx(w.db, key, ex, w.now, true).Passed? {
      PassedIsRunning(w.db, key, ex, w.now);
      if w.procs[i].active[key].kind == ArticleReprocess {
        InitializeKeepsInv(mid, i, key);
      } else {
        EnterKeepsInv(mid, i, key, pins);
      }
    } else {
      CloseUnenteredKeepsInv(mid, i, key, Failed);
      CloseUnenteredKeepsInv(mid, i, key, DeliveryUnknown);
    }
  }

  lemma InitializedKeepsInv(w: World, i: Uuid, key: Key, pins: bool)
    requires Inv(w) && Has(w, i, key) && PhaseAt(w, i, key).Initializing?
    ensures Inv(Enter(w, i, key, pins))
  {
    assert AttemptOk(w, i, key);
    EnterKeepsInv(w, i, key, pins);
  }

  /** The run after one more reply. */
  function Replied(w: World, i: Uuid, key: Key, reply: Reply): World
    requires Has(w, i, key) && (PhaseAt(w, i, key).Thinking? || PhaseAt(w, i, key).Calling?)
  {
    Go(w, i, key, Thinking(PhaseAt(w, i, key).pins, PhaseAt(w, i, key).t + [reply]))
  }

  /** An attempt that has issued a delivery is waiting for its reply, so nothing it thinks of is refused. */
  lemma RefusedOk(w: World, i: Uuid, key: Key, stale: bool)
    requires Has(w, i, key) && AttemptOk(w, i, key) && PhaseAt(w, i, key).Thinking? && Next(w.procs[i].active[key]).Ask?
    ensures AttemptOk(Replied(w, i, key, CallFailed(stale)), i, key)
  {}

  lemma AnsweredOk(w: World, i: Uuid, key: Key, reply: Reply)
    requires Has(w, i, key) && AttemptOk(w, i, key) && PhaseAt(w, i, key).Calling?
    ensures AttemptOk(Replied(w, i, key, reply), i, key)
  {
    var a := w.procs[i].active[key];
    if key in w.issued { DeliveryIsLast(a.kind, a.payload, a.phase.pins, a.phase.t, reply); }
  }

  lemma RefuseKeepsInv(w: World, i: Uuid, key: Key, stale: bool)
    requires Inv(w) && Has(w, i, key) && PhaseAt(w, i, key).Thinking? && Next(w.procs[i].active[key]).Ask?
    ensures Inv(Replied(w, i, key, CallFailed(stale)))
  {
    assert AttemptOk(w, i, key);
    RefusedOk(w, i, key, stale);
    GoKeepsInv(w, i, key, Thinking(PhaseAt(w, i, key).pins, PhaseAt(w, i, key).t + [CallFailed(stale)]));
  }

  lemma AnswerKeepsInv(w: World, i: Uuid, key: Key, reply: Reply)
    requires Inv(w) && Has(w, i, key) && PhaseAt(w, i, key).Calling?
    ensures Inv(Replied(w, i, key, reply))
  {
    assert AttemptOk(w, i, key);
    AnsweredOk(w, i, key, reply);
    GoKeepsInv(w, i, key, Thinking(PhaseAt(w, i, key).pins, PhaseAt(w, i, key).t + [reply]));
  }

  lemma ReturnedOk(w: World, i: Uuid, key: Key, ending: Ending)
    requires Has(w, i, key) && AttemptOk(w, i, key) && PhaseAt(w, i, key).Thinking?
    requires Next(w.procs[i].active[key]).Stop?
    ensures var a := w.procs[i].active[key];
            AttemptOk(Go(w, i, key, Closing(RunVerdict(a.kind, a.payload, Next(a).outcome, ending))), i, key)
  {
    var a := w.procs[i].active[key];
    if key in w.issued { RiskyRunIsNeverDenied(a.kind, a.payload, Next(a).outcome, ending); }
  }

  lemma ReturnKeepsInv(w: World, i: Uuid, key: Key, ending: Ending)
    requires Inv(w) && Has(w, i, key) && PhaseAt(w, i, key).Thinking? && Next(w.procs[i].active[key]).Stop?
    ensures var a := w.procs[i].active[key];
            Inv(Go(w, i, key, Closing(RunVerdict(a.kind, a.payload, Next(a).outcome, ending))))
  {
    var a := w.procs[i].active[key];
    assert AttemptOk(w, i, key);
    ReturnedOk(w, i, key, ending);
    GoKeepsInv(w, i, key, Closing(RunVerdict(a.kind, a.payload, Next(a).outcome, ending)));
  }

  lemma CallKeepsInv(w: World, i: Uuid, key: Key)
    requires Inv(w) && Enabled(w, Call(i, key))
    ensures Inv(Do(w, Call(i, key)))
  {
    var a := w.procs[i].active[key];
    var op := Next(a).op;
    assert AttemptOk(w, i, key);
    var mid := Go(w, i, key, Calling(a.phase.pins, a.phase.t, op));
    assert AttemptOk(mid, i, key);
    GoKeepsInv(w, i, key, Calling(a.phase.pins, a.phase.t, op));
    if Delivers(op) {
      DeliveryIsLast(a.kind, a.payload, a.phase.pins, a.phase.t, CallFailed(false));
      IssueKeepsInv(mid, i, key);
    } else {
      assert Do(w, Call(i, key)) == mid;
    }
  }

  lemma IssueKeepsInv(w: World, i: Uuid, key: Key)
    requires Inv(w) && Has(w, i, key)
    requires var a := w.procs[i].active[key];
             Delivering(a) && a.phase.Calling? && !a.cancelled && MayDeliver(a.kind, a.payload)
    ensures Inv(w.(issued := w.issued + {key}))
  {
    var z := w.(issued := w.issued + {key});
    assert AttemptOk(w, i, key) && ProcessOk(w, i);
    forall j, k | Has(z, j, k) ensures AttemptOk(z, j, k) {
      assert AttemptOk(w, j, k);
      if k == key { SoleOwner(w, i, j, key); }
    }
    forall j, c | j in z.procs && c in z.procs[j].cancels ensures CancelOk(z, j, c) {
      assert CancelOk(w, j, c);
    }
    forall j | j in z.procs ensures ProcessOk(z, j) {
      assert ProcessOk(w, j);
      assert z.procs[j].admitting.Some? ==> AdmittedOk(w, j);
    }
    forall e | e in z.entered ensures EntryOk(z, e) {
      assert EntryOk(w, e);
    }
    forall k | k in z.issued ensures IssuedOk(z, k) {
      if k != key { assert IssuedOk(w, k); }
    }
    forall r | r in z.recorded ensures RecordOk(z, r) {
      assert RecordOk(w, r);
      assert r.key == key ==> Record(key, r.state) in w.recorded;
    }
  }

  /** A terminal write of `state` for `key`, by a process that is entitled to it. */
  ghost predicate MayRecord(w: World, i: Uuid, key: Key, state: State) {
    && i in w.procs && key in w.db.receipts && w.db.receipts[key].instance == i && !Open(state)
    && (key in w.procs[i].active ==> w.procs[i].active[key].cancelled)
    && (w.procs[i].admitting.Some? ==> w.procs[i].admitting.value.key != key)
    && (key in w.issued && Open(w.db.receipts[key].state) ==> state == Succeeded || state == DeliveryUnknown)
  }

  /** The record of a terminal write, once the receipt carries its state. */
  lemma RecordedKeepsInv(w: World, mid: World, key: Key, state: State)
    requires Inv(mid) && mid == w.(db := mid.db) && RecordOk(mid, Record(key, state))
    requires forall i | Has(mid, i, key) :: mid.procs[i].active[key].cancelled
    requires forall i | i in mid.procs && mid.procs[i].admitting.Some? :: mid.procs[i].admitting.value.key != key
    ensures Inv(mid.(recorded := w.recorded + {Record(key, state)}))
  {
    var z := mid.(recorded := w.recorded + {Record(key, state)});
    forall j, k | Has(z, j, k) ensures AttemptOk(z, j, k) {
      assert AttemptOk(mid, j, k);
      if k != key {
        assert forall s | Record(k, s) in z.recorded :: Record(k, s) in mid.recorded;
      }
    }
    forall j, c | j in z.procs && c in z.procs[j].cancels ensures CancelOk(z, j, c) {
      assert CancelOk(mid, j, c);
    }
    forall j | j in z.procs ensures ProcessOk(z, j) {
      assert ProcessOk(mid, j);
      assert z.procs[j].admitting.Some? ==> AdmittedOk(mid, j);
    }
    forall e | e in z.entered ensures EntryOk(z, e) {
      assert EntryOk(mid, e);
    }
    forall k | k in z.issued ensures IssuedOk(z, k) {
      assert IssuedOk(mid, k);
    }
    forall r | r in z.recorded ensures RecordOk(z, r) {
      if r != Record(key, state) { assert RecordOk(mid, r); }
    }
  }

  lemma RecordKeepsInv(w: World, i: Uuid, key: Key, state: State, reached: bool)
    requires Inv(w) && MayRecord(w, i, key, state)
    ensures Inv(DoRecord(w, i, key, state, reached))
  {
    var ex := Executor(i, w.procs[i].guard);
    if reached && FenceTx(w.db, key, ex, w.now, false).Passed? {
      var mid := w.(db := RecordTx(w.db, key, ex, state, w.now));
      RecordIsLater(w.db, key, ex, state, w.now);
      LaterKeepsInv(w, mid.db);
      RecordedKeepsInv(w, mid, key, state);
    }
  }

  lemma CloseKeepsInv(w: World, i: Uuid, key: Key, reached: bool)
    requires Inv(w) && Enabled(w, Close(i, key, reached))
    ensures Inv(Do(w, Close(i, key, reached)))
  {
    var state := PhaseAt(w, i, key).state;
    assert AttemptOk(w, i, key) && ProcessOk(w, i);
    var gone := Leave(w, i, key);
    LeaveKeepsInv(w, i, key);
    RecordKeepsInv(gone, i, key, state, reached);
    assert Do(w, Close(i, key, reached)) == DoRecord(gone, i, key, state, reached);
  }

  lemma StoppedOk(w: World, i: Uuid, key: Key)
    requires Has(w, i, key) && AttemptOk(w, i, key)
    ensures AttemptOk(SetAttempt(w, i, key, w.procs[i].active[key].(cancelled := true)), i, key)
  {}

  lemma CancelAskKeepsInv(w: World, i: Uuid, key: Key)
    requires Inv(w) && Has(w, i, key)
    ensures var stopped := SetAttempt(w, i, key, w.procs[i].active[key].(cancelled := true));
            Inv(SetProcess(stopped, i, stopped.procs[i].(cancels := w.procs[i].cancels + {Asked(key)})))
  {
    assert AttemptOk(w, i, key) && ProcessOk(w, i);
    var stopped := SetAttempt(w, i, key, w.procs[i].active[key].(cancelled := true));
    StoppedOk(w, i, key);
    SetAttemptKeepsInv(w, i, key, w.procs[i].active[key].(cancelled := true));
    AddCancelKeepsInv(stopped, i, Asked(key));
  }

  /** What a cancellation decides after reading the receipt is entitled to be written. */
  lemma DecidedOk(w: World, i: Uuid, key: Key)
    requires i in w.procs && CancelOk(w, i, Asked(key)) && (key in w.issued ==> IssuedOk(w, key))
    ensures var verdict := CancelVerdict(w.db, key, Executor(i, w.procs[i].guard));
            verdict.Some? ==> CancelOk(w, i, Decided(key, verdict.value))
  {}

  lemma AskedIsNotAdmitted(w: World, i: Uuid, c: Cancel)
    requires i in w.procs && ProcessOk(w, i) && c in w.procs[i].cancels
    ensures w.procs[i].admitting.Some? ==> w.procs[i].admitting.value.key != c.key
  {}

  lemma CancelReadKeepsInv(w: World, i: Uuid, key: Key)
    requires Inv(w) && i in w.procs && Asked(key) in w.procs[i].cancels
    ensures var verdict := CancelVerdict(w.db, key, Executor(i, w.procs[i].guard));
            verdict.Some? ==>
              Inv(SetProcess(w, i, w.procs[i].(cancels := w.procs[i].cancels + {Decided(key, verdict.value)})))
  {
    var verdict := CancelVerdict(w.db, key, Executor(i, w.procs[i].guard));
    assert CancelOk(w, i, Asked(key)) && ProcessOk(w, i);
    assert key in w.issued ==> IssuedOk(w, key);
    DecidedOk(w, i, key);
    AskedIsNotAdmitted(w, i, Asked(key));
    if verdict.Some? { AddCancelKeepsInv(w, i, Decided(key, verdict.value)); }
  }

  lemma DecidedMayRecord(w: World, i: Uuid, key: Key, state: State)
    requires i in w.procs && CancelOk(w, i, Decided(key, state))
    requires w.procs[i].admitting.Some? ==> w.procs[i].admitting.value.key != key
    ensures MayRecord(w, i, key, state)
  {}

  lemma CancelWriteKeepsInv(w: World, i: Uuid, key: Key, state: State)
    requires Inv(w) && i in w.procs && Decided(key, state) in w.procs[i].cancels
    ensures Inv(DoRecord(w, i, key, state, true))
  {
    assert CancelOk(w, i, Decided(key, state)) && ProcessOk(w, i);
    AskedIsNotAdmitted(w, i, Decided(key, state));
    DecidedMayRecord(w, i, key, state);
    RecordKeepsInv(w, i, key, state, true);
  }

  lemma AddCancelKeepsInv(w: World, i: Uuid, c: Cancel)
    requires Inv(w) && i in w.procs && CancelOk(w, i, c)
    requires w.procs[i].admitting.Some? ==> w.procs[i].admitting.value.key != c.key
    ensures Inv(SetProcess(w, i, w.procs[i].(cancels := w.procs[i].cancels + {c})))
  {
    var z := SetProcess(w, i, w.procs[i].(cancels := w.procs[i].cancels + {c}));
    forall j, k | Has(z, j, k) ensures AttemptOk(z, j, k) {
      assert AttemptOk(w, j, k);
    }
    forall j, d | j in z.procs && d in z.procs[j].cancels ensures CancelOk(z, j, d) {
      assert CancelOk(w, j, d);
    }
    forall j | j in z.procs ensures ProcessOk(z, j) {
      assert ProcessOk(w, j);
      assert z.procs[j].admitting.Some? ==> AdmittedOk(w, j);
    }
    RestKeeps(w, z);
  }

  /** The steps of one attempt. */
  predicate OfAttempt(s: Step) {
    || s.GiveUp? || s.Start? || s.Initialized? || s.Vanish? || s.Call? || s.Refuse? || s.Answer? || s.Return?
    || s.Close?
  }

  lemma AttemptStepKeepsInv(w: World, s: Step)
    requires Inv(w) && Enabled(w, s) && OfAttempt(s)
    ensures Inv(Do(w, s))
  {
    match s {
      case GiveUp(i, key) => CloseUnenteredKeepsInv(w, i, key, Failed);
      case Start(i, key, pins, acked) => StartKeepsInv(w, i, key, pins, acked);
      case Initialized(i, key, pins) => InitializedKeepsInv(w, i, key, pins);
      case Vanish(i, key) => LeaveKeepsInv(w, i, key);
      case Call(i, key) => CallKeepsInv(w, i, key);
      case Refuse(i, key, stale) => RefuseKeepsInv(w, i, key, stale);
      case Answer(i, key, reply) => AnswerKeepsInv(w, i, key, reply);
      case Return(i, key, ending) => ReturnKeepsInv(w, i, key, ending);
      case Close(i, key, reached) => CloseKeepsInv(w, i, key, reached);
    }
  }

  lemma DoKeepsInv(w: World, s: Step)
    requires Inv(w) && Enabled(w, s)
    ensures Inv(Do(w, s))
  {
    if OfAttempt(s) {
      AttemptStepKeepsInv(w, s);
    } else {
      match s {
        case Tick(_) => NowIsFree(w, s.time);
        case Environment(db) => LaterKeepsInv(w, db);
        case Finalise(i, key, marker) =>
          FinalizeIsLater(w.db, key, Executor(i, w.procs[i].guard), marker, w.now);
          LaterKeepsInv(w, Do(w, s).db);
        case Boot(i, guard) => BootKeepsInv(w, i, guard);
        case Crash(i) => CrashKeepsInv(w, i);
        case StopAll(i) => StopAllKeepsInv(w, i);
        case Submit(i, e, acked) => SubmitKeepsInv(w, i, e, acked);
        case Activate(i) => ActivateKeepsInv(w, i);
        case CancelAsk(i, key) => CancelAskKeepsInv(w, i, key);
        case CancelRead(i, key) => CancelReadKeepsInv(w, i, key);
        case CancelWrite(i, key, state) => CancelWriteKeepsInv(w, i, key, state);
      }
    }
  }

  lemma NowIsFree(w: World, time: int)
    requires Inv(w)
    ensures Inv(w.(now := time))
  {
    var z := w.(now := time);
    forall j, k | Has(z, j, k) ensures AttemptOk(z, j, k) {
      assert AttemptOk(w, j, k);
    }
    forall j, c | j in z.procs && c in z.procs[j].cancels ensures CancelOk(z, j, c) {
      assert CancelOk(w, j, c);
    }
    forall j | j in z.procs ensures ProcessOk(z, j) {
      assert ProcessOk(w, j);
      assert z.procs[j].admitting.Some? ==> AdmittedOk(w, j);
    }
    forall e | e in z.entered ensures EntryOk(z, e) {
      assert EntryOk(w, e);
    }
    forall k | k in z.issued ensures IssuedOk(z, k) {
      assert IssuedOk(w, k);
    }
    forall r | r in z.recorded ensures RecordOk(z, r) {
      assert RecordOk(w, r);
    }
  }

  lemma {:induction false} RunKeepsInv(w: World, steps: seq<Step>)
    requires Inv(w)
    ensures Inv(Run(w, steps))
    decreases |steps|
  {
    if steps != [] {
      var m, s := Run(w, steps[..|steps| - 1]), steps[|steps| - 1];
      RunKeepsInv(w, steps[..|steps| - 1]);
      if Enabled(m, s) { DoKeepsInv(m, s); }
    }
  }
}
