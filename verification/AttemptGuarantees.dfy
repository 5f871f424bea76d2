/** What every run of the executor promises. */
module AttemptGuarantees {
  import opened Prelude
  import opened JobPipeline
  import opened ReceiptStore
  import opened AttemptProtocol

  ghost function Reached(db: Db, now: int, steps: seq<Step>): World {
    Run(Init(db, now), steps)
  }

  lemma ReachedInv(db: Db, now: int, steps: seq<Step>)
    ensures Inv(Reached(db, now, steps))
  {
    RunKeepsInv(Init(db, now), steps);
  }

  /**
   A run that has put a delivering operation on the wire is never recorded, by itself or by
   a cancellation, before or after, as anything but a success or an unknown delivery.
   */
  lemma DeliveryNeverDenied(db: Db, now: int, steps: seq<Step>, key: Key, state: State)
    requires var w := Reached(db, now, steps); key in w.issued && Record(key, state) in w.recorded
    ensures state == Succeeded || state == DeliveryUnknown
  {
    var w := Reached(db, now, steps);
    ReachedInv(db, now, steps);
    assert RecordOk(w, Record(key, state));
  }

  /** Each attempt enters the pipeline at most once, and only under the digest of its receipt. */
  lemma EntersAtMostOnce(db: Db, now: int, steps: seq<Step>, e: Entry, f: Entry)
    requires var w := Reached(db, now, steps); e in w.entered && f in w.entered && e.key == f.key
    ensures var w := Reached(db, now, steps);
            e == f && w.entered[e] == 1 && e.key in w.db.receipts && e.digest == w.db.receipts[e.key].digest
  {
    var w := Reached(db, now, steps);
    ReachedInv(db, now, steps);
    assert EntryOk(w, e) && EntryOk(w, f);
  }

  /** A process has at most one active attempt, and none while it admits the next. */
  lemma OneActiveAttempt(db: Db, now: int, steps: seq<Step>, i: Uuid)
    requires i in Reached(db, now, steps).procs
    ensures var p := Reached(db, now, steps).procs[i];
            && (forall k, l | k in p.active && l in p.active :: k == l)
            && (p.admitting.Some? ==> p.active == map[])
  {
    var w := Reached(db, now, steps);
    ReachedInv(db, now, steps);
    assert ProcessOk(w, i);
    assert w.procs[i].admitting.Some? ==> AdmittedOk(w, i);
  }

  /** A terminal receipt never changes again, and no receipt ever changes its digest or disappears. */
  lemma {:induction false} TerminalReceiptsAreFinal(w: World, steps: seq<Step>, key: Key)
    requires Inv(w) && key in w.db.receipts
    ensures var z := Run(w, steps);
            && key in z.db.receipts && z.db.receipts[key].digest == w.db.receipts[key].digest
            && z.db.receipts[key].instance == w.db.receipts[key].instance
            && (!Open(w.db.receipts[key].state) ==> z.db.receipts[key] == w.db.receipts[key])
    decreases |steps|
  {
    if steps != [] {
      var m, s := Run(w, steps[..|steps| - 1]), steps[|steps| - 1];
      TerminalReceiptsAreFinal(w, steps[..|steps| - 1], key);
      RunKeepsInv(w, steps[..|steps| - 1]);
      if Enabled(m, s) {
        StepIsLater(m, s);
        assert LaterReceipt(m.db.receipts[key], Do(m, s).db.receipts[key]);
      }
    }
  }

  /**
   Submitting an attempt again: from its first acceptance on, the same envelope is answered with the
   state that the receipt has by then, one with another digest is a conflict, and neither changes anything.
   */
  lemma ResubmissionIsAnswered(w: World, steps: seq<Step>, first: Envelope, again: Envelope, ex: Executor)
    requires Inv(w) && first.key in w.db.receipts && w.db.receipts[first.key].digest == first.digest
    requires again.key == first.key
    ensures var z := Run(w, steps);
            && AcceptTx(z.db, again, ex, z.now) == z.db && first.key in z.db.receipts
            && AcceptVerdict(z.db, again, ex, z.now)
               == if again.digest == first.digest then Duplicate(z.db.receipts[first.key].state) else Conflict
  {
    TerminalReceiptsAreFinal(w, steps, first.key);
  }

  /** Accepted under an earlier worker generation. */
  ghost predicate Superseded(db: Db, key: Key) {
    key in db.receipts && db.receipts[key].generation.Some? && db.receipts[key].generation.value < db.worker.generation
  }

  lemma SupersededIsFenced(db: Db, key: Key, ex: Executor, now: int, enforce: bool)
    requires Superseded(db, key)
    ensures FenceTx(db, key, ex, now, enforce) == Refused
  {}

  /** A superseded receipt stays what it is. */
  ghost predicate Frozen(db: Db, next: Db, key: Key) {
    key in db.receipts && Superseded(next, key) && next.receipts[key] == db.receipts[key]
  }

  lemma SetRunningFreezes(db: Db, key: Key, other: Key, ex: Executor, now: int)
    requires Superseded(db, key)
    ensures Frozen(db, SetRunningTx(db, other, ex, now), key)
  {
    SupersededIsFenced(db, key, ex, now, true);
  }

  lemma RecordFreezes(db: Db, key: Key, other: Key, ex: Executor, state: State, now: int)
    requires Superseded(db, key)
    ensures Frozen(db, RecordTx(db, other, ex, state, now), key)
  {
    SupersededIsFenced(db, key, ex, now, false);
  }

  lemma AcceptFreezes(db: Db, key: Key, e: Envelope, ex: Executor, now: int)
    requires Superseded(db, key)
    ensures Frozen(db, AcceptTx(db, e, ex, now), key)
  {}

  lemma SupersededStep(w: World, s: Step, key: Key)
    requires Enabled(w, s) && Superseded(w.db, key) && !s.Finalise?
    ensures Frozen(w.db, Do(w, s).db, key)
  {
    StepCommits(w, s);
    match s {
      case Submit(i, e, _) => AcceptFreezes(w.db, key, e, Executor(i, w.procs[i].guard), w.now);
      case Start(i, k, _, _) => SetRunningFreezes(w.db, key, k, Executor(i, w.procs[i].guard), w.now);
      case Close(i, k, _) => RecordFreezes(w.db, key, k, Executor(i, w.procs[i].guard), PhaseAt(w, i, k).state, w.now);
      case CancelWrite(i, k, state) => RecordFreezes(w.db, key, k, Executor(i, w.procs[i].guard), state, w.now);
      case _ =>
    }
  }

  /** Once a new worker generation has taken over, only finalization can change an earlier receipt. */
  lemma {:induction false} TakeoverFreezesReceipts(w: World, steps: seq<Step>, key: Key)
    requires Inv(w) && Superseded(w.db, key) && forall n | 0 <= n < |steps| :: !steps[n].Finalise?
    ensures Superseded(Run(w, steps).db, key) && Run(w, steps).db.receipts[key] == w.db.receipts[key]
    decreases |steps|
  {
    if steps != [] {
      var m, s := Run(w, steps[..|steps| - 1]), steps[|steps| - 1];
      TakeoverFreezesReceipts(w, steps[..|steps| - 1], key);
      RunKeepsInv(w, steps[..|steps| - 1]);
      if Enabled(m, s) { SupersededStep(m, s, key); }
    }
  }
}
