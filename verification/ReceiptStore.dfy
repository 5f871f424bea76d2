/**
 Execution receipts and the fence in front of every write to them
 (go-execution/store.go, go-execution/lifecycle.go, go-execution/http.go).
 Each function on `Db` is one committed transaction; times are whole seconds.
 */
module ReceiptStore {
  import opened Prelude
  import opened JobPipeline

  const HEARTBEAT_STALE: int := 20
  const MAX_DEADLINE: int := 24 * 60 * 60

  predicate Open(s: State) {
    s == Accepted || s == Running
  }

  datatype Worker = Worker(owner: Option<Uuid>, generation: nat, pid: Option<nat>, heartbeat: Option<int>,
                           running: bool)

  datatype Job = Job(kind: Kind, payload: Payload, state: State, ownerGeneration: Option<nat>, attempt: nat)

  datatype Key = Key(job: Uuid, attempt: nat)

  datatype Receipt = Receipt(
    digest: Uuid, instance: Uuid, owner: Option<Uuid>, generation: Option<nat>, deadline: Option<int>, state: State)

  /** `workerLocks` and `guards` are the backends that hold the worker lock and the execution guard. */
  datatype Db = Db(
    worker: Worker, workerLocks: set<nat>, guards: set<nat>, jobs: map<Uuid, Job>, receipts: map<Key, Receipt>)

  /** A running executor process: its instance and the backend of its guard session. */
  datatype Executor = Executor(instance: Uuid, guard: nat)

  datatype Envelope = Envelope(key: Key, owner: Uuid, generation: nat, deadline: int, digest: Uuid)

  predicate Beating(w: Worker, now: int) {
    w.heartbeat.Some? && w.heartbeat.value <= now <= w.heartbeat.value + HEARTBEAT_STALE
  }

  /** checkWorkerLeaseTx. */
  predicate LeaseHeld(db: Db, owner: Uuid, generation: nat, pid: nat, now: int) {
    && pid in db.workerLocks
    && db.worker.owner == Some(owner) && db.worker.generation == generation && db.worker.pid == Some(pid)
    && db.worker.running && Beating(db.worker, now)
  }

  predicate GuardHeld(db: Db, ex: Executor) {
    ex.guard > 0 && ex.guard in db.guards
  }

  predicate JobIs(db: Db, key: Key, generation: nat) {
    && key.job in db.jobs && db.jobs[key.job].state == Running
    && db.jobs[key.job].ownerGeneration == Some(generation) && db.jobs[key.job].attempt == key.attempt
  }

  datatype Fence = Passed | Late | Refused

  /** fenceTx, for the owner and generation that the receipt was accepted under. */
  function FenceTx(db: Db, key: Key, ex: Executor, now: int, enforceDeadline: bool): Fence {
    if key !in db.receipts then Refused
    else
      var r := db.receipts[key];
      if r.owner.None? || r.generation.None? || r.deadline.None? || db.worker.pid.None? then Refused
      else if !GuardHeld(db, ex) then Refused
      else if !LeaseHeld(db, r.owner.value, r.generation.value, db.worker.pid.value, now) then Refused
      else if !JobIs(db, key, r.generation.value) || r.instance != ex.instance || !Open(r.state) then Refused
      else if enforceDeadline && r.deadline.value <= now then Late
      else Passed
  }

  datatype Admission =
    Fresh(kind: Kind, payload: Payload) | Duplicate(state: State) | Conflict | LeaseLost | BadDeadline
    | StaleAttempt | InvalidPayload | NotReady

  function AcceptVerdict(db: Db, e: Envelope, ex: Executor, now: int): Admission {
    var w := db.worker;
    if e.key in db.receipts then
      if db.receipts[e.key].digest != e.digest then Conflict else Duplicate(db.receipts[e.key].state)
    else if w.pid.None? || !w.running || w.owner != Some(e.owner) || w.generation != e.generation
            || !Beating(w, now) then
      LeaseLost
    else if !(now < e.deadline <= now + MAX_DEADLINE) then BadDeadline
    else if !JobIs(db, e.key, e.generation) then StaleAttempt
    else if !ValidPayload(db.jobs[e.key.job].payload) then InvalidPayload
    else if w.pid.value !in db.workerLocks then LeaseLost
    else if !GuardHeld(db, ex) then NotReady
    else Fresh(db.jobs[e.key.job].kind, db.jobs[e.key.job].payload)
  }

  function AcceptedReceipt(e: Envelope, ex: Executor): Receipt {
    Receipt(e.digest, ex.instance, Some(e.owner), Some(e.generation), Some(e.deadline), Accepted)
  }

  /** acceptAttempt. */
  function AcceptTx(db: Db, e: Envelope, ex: Executor, now: int): Db {
    if AcceptVerdict(db, e, ex, now).Fresh? then db.(receipts := db.receipts[e.key := AcceptedReceipt(e, ex)]) else db
  }

  function Marked(db: Db, key: Key, state: State): Db
    requires key in db.receipts
  {
    db.(receipts := db.receipts[key := db.receipts[key].(state := state)])
  }

  /** setRunning: the update is conditional on `accepted`, the fence on an open receipt. */
  function SetRunningTx(db: Db, key: Key, ex: Executor, now: int): Db {
    if FenceTx(db, key, ex, now, true).Passed? && db.receipts[key].state == Accepted then Marked(db, key, Running)
    else db
  }

  /** The fenced terminal write of finish and of markCanceled. */
  function RecordTx(db: Db, key: Key, ex: Executor, state: State, now: int): Db {
    if FenceTx(db, key, ex, now, false).Passed? then Marked(db, key, state) else db
  }

  /** The read of markCanceled: what its later write will say. */
  function CancelVerdict(db: Db, key: Key, ex: Executor): Option<State> {
    if key.job !in db.jobs || db.jobs[key.job].state != Running then None
    else if key !in db.receipts || db.receipts[key].instance != ex.instance then None
    else if db.receipts[key].state == Running && MayDeliver(db.jobs[key.job].kind, db.jobs[key.job].payload) then
      Some(DeliveryUnknown)
    else Some(Interrupted)
  }

  /** lockCurrentWorker: some worker holds its lock and its heartbeat is fresh. */
  predicate WorkerCurrent(db: Db, now: int) {
    && db.worker.owner.Some? && db.worker.pid.Some? && db.worker.running && Beating(db.worker, now)
    && db.worker.pid.value in db.workerLocks
  }

  /** Finalize, once the worker has ended the job: an open receipt takes the job's state, a missing one is created. */
  function FinalizeTx(db: Db, key: Key, ex: Executor, marker: Uuid, now: int): Db {
    if !WorkerCurrent(db, now) || !GuardHeld(db, ex) then db
    else if key.job !in db.jobs || db.jobs[key.job].attempt != key.attempt then db
    else
      var job := db.jobs[key.job];
      if job.state !in {Succeeded, Failed, DeliveryUnknown} then db
      else if key !in db.receipts then
        db.(receipts := db.receipts[key := Receipt(marker, ex.instance, None, job.ownerGeneration, None, job.state)])
      else if Open(db.receipts[key].state) then Marked(db, key, job.state)
      else db
  }

  // ---------- what the transactions decide ----------

  /** A worker that runs under this owner and generation, has beaten within 20 seconds and holds its lock. */
  predicate Leads(db: Db, owner: Uuid, generation: nat, now: int) {
    && db.worker.running && db.worker.owner == Some(owner) && db.worker.generation == generation
    && db.worker.pid.Some? && db.worker.pid.value in db.workerLocks
    && db.worker.heartbeat.Some? && db.worker.heartbeat.value <= now <= db.worker.heartbeat.value + 20
  }

  /** The running job is at this attempt, and belongs to this generation. */
  predicate Assigned(db: Db, key: Key, generation: nat) {
    key.job in db.jobs && var j := db.jobs[key.job];
    j.state == Running && j.attempt == key.attempt && j.ownerGeneration == Some(generation)
  }

  /** A write gets through for an open receipt of this process while its worker leads and its guard is held. */
  lemma FenceDecides(db: Db, key: Key, ex: Executor, now: int, enforceDeadline: bool)
    requires key in db.receipts
    ensures var r := db.receipts[key];
            var through := && r.owner.Some? && r.generation.Some? && r.deadline.Some?
                           && Leads(db, r.owner.value, r.generation.value, now)
                           && Assigned(db, key, r.generation.value)
                           && 0 < ex.guard && ex.guard in db.guards && r.instance == ex.instance
                           && (r.state == Accepted || r.state == Running);
            FenceTx(db, key, ex, now, enforceDeadline)
            == if !through then Refused else if enforceDeadline && r.deadline.value <= now then Late else Passed
  {}

  /** A new attempt is accepted exactly under these conditions; its receipt is the only thing written. */
  lemma AcceptDecides(db: Db, e: Envelope, ex: Executor, now: int)
    requires e.key !in db.receipts
    ensures AcceptVerdict(db, e, ex, now).Fresh?
       <==> Leads(db, e.owner, e.generation, now) && now < e.deadline <= now + 86400
            && Assigned(db, e.key, e.generation) && ValidPayload(db.jobs[e.key.job].payload)
            && 0 < ex.guard && ex.guard in db.guards
    ensures AcceptTx(db, e, ex, now)
         == if !AcceptVerdict(db, e, ex, now).Fresh? then db
            else db.(receipts := db.receipts[e.key := Receipt(e.digest, ex.instance, Some(e.owner), Some(e.generation),
                                                              Some(e.deadline), Accepted)])
  {}

  /** setRunning and the terminal writes, behind the fence. */
  lemma WritesDecide(db: Db, key: Key, ex: Executor, state: State, now: int)
    requires key in db.receipts
    ensures var r := db.receipts[key];
            && SetRunningTx(db, key, ex, now)
               == (if FenceTx(db, key, ex, now, true) == Passed && r.state == Accepted
                   then db.(receipts := db.receipts[key := r.(state := Running)]) else db)
            && RecordTx(db, key, ex, state, now)
               == if FenceTx(db, key, ex, now, false) == Passed
                  then db.(receipts := db.receipts[key := r.(state := state)]) else db
  {}

  /** A cancel of a running attempt that may deliver leaves doubt; any other one interrupts. */
  lemma CancelDecides(db: Db, key: Key, ex: Executor)
    ensures CancelVerdict(db, key, ex)
         == if !(key.job in db.jobs && db.jobs[key.job].state == Running && key in db.receipts
                 && db.receipts[key].instance == ex.instance) then None
            else if db.receipts[key].state == Running && MayDeliver(db.jobs[key.job].kind, db.jobs[key.job].payload)
            then Some(DeliveryUnknown) else Some(Interrupted)
  {}

  /** Under a leading worker and a held guard, an attempt of an ended job gets a final receipt if it has none. */
  lemma FinalizeDecides(db: Db, key: Key, ex: Executor, marker: Uuid, now: int)
    requires key.job in db.jobs
    ensures var j, w := db.jobs[key.job], db.worker;
            FinalizeTx(db, key, ex, marker, now)
            == if w.owner.None? || !Leads(db, w.owner.value, w.generation, now) then db
               else if ex.guard == 0 || ex.guard !in db.guards || j.attempt != key.attempt then db
               else if j.state != Succeeded && j.state != Failed && j.state != DeliveryUnknown then db
               else if key !in db.receipts then
                 db.(receipts := db.receipts[key :=
                   Receipt(marker, ex.instance, None, j.ownerGeneration, None, j.state)])
               else if db.receipts[key].state == Accepted || db.receipts[key].state == Running then
                 db.(receipts := db.receipts[key := db.receipts[key].(state := j.state)])
               else db
  {}

  /** The tables that the transactions read and write. */
  class ReceiptTables {
    var worker: Worker
    var workerLocks: set<nat>
    var guards: set<nat>
    var jobs: map<Uuid, Job>
    var receipts: map<Key, Receipt>

    ghost function Value(): Db
      reads this
    {
      Db(worker, workerLocks, guards, jobs, receipts)
    }

    method CheckFence(key: Key, ex: Executor, now: int, enforceDeadline: bool) returns (r: Fence)
      ensures r == FenceTx(Value(), key, ex, now, enforceDeadline)
    {
      if key !in receipts { return Refused; }
      var receipt := receipts[key];
      if receipt.owner.None? || receipt.generation.None? || receipt.deadline.None? || worker.pid.None? {
        return Refused;
      }
      if ex.guard == 0 || ex.guard !in guards { return Refused; }
      if worker.pid.value !in workerLocks { return Refused; }
      if worker.owner != receipt.owner || worker.generation != receipt.generation.value || !worker.running {
        return Refused;
      }
      if !Beating(worker, now) { return Refused; }
      if key.job !in jobs { return Refused; }
      var job := jobs[key.job];
      if job.state != Running || job.ownerGeneration != receipt.generation || job.attempt != key.attempt {
        return Refused;
      }
      if receipt.instance != ex.instance || !Open(receipt.state) { return Refused; }
      if enforceDeadline && receipt.deadline.value <= now { return Late; }
      return Passed;
    }

    method Accept(e: Envelope, ex: Executor, now: int) returns (r: Admission)
      modifies this`receipts
      ensures r == AcceptVerdict(old(Value()), e, ex, now) && Value() == AcceptTx(old(Value()), e, ex, now)
    {
      if e.key in receipts {
        var prior := receipts[e.key];
        if prior.digest != e.digest { return Conflict; }
        return Duplicate(prior.state);
      }
      if worker.owner.None? || worker.pid.None? || worker.heartbeat.None? || !worker.running { return LeaseLost; }
      if worker.owner.value != e.owner || worker.generation != e.generation { return LeaseLost; }
      if worker.heartbeat.value > now || now - worker.heartbeat.value > HEARTBEAT_STALE { return LeaseLost; }
      if e.deadline <= now || e.deadline > now + MAX_DEADLINE { return BadDeadline; }
      if e.key.job !in jobs { return StaleAttempt; }
      var job := jobs[e.key.job];
      if job.state != Running || job.ownerGeneration != Some(e.generation) || job.attempt != e.key.attempt {
        return StaleAttempt;
      }
      if !ValidPayload(job.payload) { return InvalidPayload; }
      if worker.pid.value !in workerLocks { return LeaseLost; }
      if ex.guard == 0 || ex.guard !in guards { return NotReady; }
      receipts := receipts[e.key := Receipt(e.digest, ex.instance, Some(e.owner), Some(e.generation),
                                            Some(e.deadline), Accepted)];
      return Fresh(job.kind, job.payload);
    }

    method SetRunning(key: Key, ex: Executor, now: int) returns (r: Fence)
      modifies this`receipts
      ensures r == FenceTx(old(Value()), key, ex, now, true) && Value() == SetRunningTx(old(Value()), key, ex, now)
    {
      r := CheckFence(key, ex, now, true);
      if r.Passed? && receipts[key].state == Accepted {
        receipts := receipts[key := receipts[key].(state := Running)];
      }
    }

    method Finish(key: Key, ex: Executor, state: State, now: int)
      modifies this`receipts
      ensures Value() == RecordTx(old(Value()), key, ex, state, now)
    {
      var fence := CheckFence(key, ex, now, false);
      if fence.Passed? {
        receipts := receipts[key := receipts[key].(state := state)];
      }
    }

    method Finalize(key: Key, ex: Executor, marker: Uuid, now: int)
      modifies this`receipts
      ensures Value() == FinalizeTx(old(Value()), key, ex, marker, now)
    {
      if ex.guard == 0 { return; }
      if worker.owner.None? || worker.pid.None? || worker.heartbeat.None? || !worker.running { return; }
      if worker.heartbeat.value > now || now - worker.heartbeat.value > HEARTBEAT_STALE { return; }
      if worker.pid.value !in workerLocks || ex.guard !in guards { return; }
      if key.job !in jobs { return; }
      var job := jobs[key.job];
      if job.attempt != key.attempt || job.state !in {Succeeded, Failed, DeliveryUnknown} { return; }
      if key !in receipts {
        receipts := receipts[key := Receipt(marker, ex.instance, None, job.ownerGeneration, None, job.state)];
      } else if Open(receipts[key].state) {
        receipts := receipts[key := receipts[key].(state := job.state)];
      }
    }
  }
}
