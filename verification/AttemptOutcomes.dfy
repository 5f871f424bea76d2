/**
 What a recorded success stands for: in every run of the executor, an attempt recorded as
 succeeded has returned from the pipeline with a result, and a digest has been published
 (go-execution/lifecycle.go:61-123).
 */
module AttemptOutcomes {
  import opened Prelude
  import opened JobPipeline
  import opened ReceiptStore
  import opened AttemptProtocol
  import opened AttemptGuarantees

  /** The pipeline came to its end with a sound result, in time and undisturbed. */
  predicate EndedWell(kind: Kind, outcome: Outcome, e: Ending) {
    && outcome.Done? && !e.oversized && e.end.StillOn? && e.sound
    && outcome.status != ProcessingDisabled && outcome.status != DeliveryDisabled
    && !(kind == SourceTest && outcome.status == Warning)
  }

  /** In `w` the run of `key` returns, and that well. */
  ghost predicate ReturnsWell(w: World, s: Step, key: Key) {
    && s.Return? && s.key == key && Enabled(w, s)
    && EndedWell(w.procs[s.i].active[key].kind, Next(w.procs[s.i].active[key]).outcome, s.ending)
  }

  ghost predicate HasReturned(db: Db, now: int, steps: seq<Step>, key: Key) {
    exists n :: 0 <= n < |steps| && ReturnsWell(Reached(db, now, steps[..n]), steps[n], key)
  }

  lemma ReturnedBefore(db: Db, now: int, steps: seq<Step>, s: Step, key: Key)
    requires HasReturned(db, now, steps, key)
    ensures HasReturned(db, now, steps + [s], key)
  {
    var n :| 0 <= n < |steps| && ReturnsWell(Reached(db, now, steps[..n]), steps[n], key);
    assert (steps + [s])[..n] == steps[..n] && (steps + [s])[n] == steps[n];
  }

  lemma ReturnsNow(db: Db, now: int, steps: seq<Step>, s: Step, key: Key)
    requires ReturnsWell(Reached(db, now, steps), s, key)
    ensures HasReturned(db, now, steps + [s], key)
  {
    assert (steps + [s])[..|steps|] == steps && (steps + [s])[|steps|] == s;
  }

  /** The run of `key` is about to record a success. */
  ghost predicate Closes(w: World, i: Uuid, key: Key) {
    Has(w, i, key) && PhaseAt(w, i, key) == Closing(Succeeded)
  }

  lemma ReturnCloses(w: World, s: Step, i: Uuid, key: Key)
    requires s.Return? && Enabled(w, s) && Closes(Do(w, s), i, key) && !Closes(w, i, key)
    ensures ReturnsWell(w, s, key)
  {
    var a := w.procs[s.i].active[s.key];
    SucceededIff(a.kind, a.payload, Next(a).outcome, s.ending);
  }

  /** An attempt that goes elsewhere than to a success leaves the others where they are. */
  lemma GoCloses(w: World, z: World, j: Uuid, k: Key, phase: Phase, i: Uuid, key: Key)
    requires Has(w, j, k) && z.procs == Go(w, j, k, phase).procs && phase != Closing(Succeeded) && Closes(z, i, key)
    ensures Closes(w, i, key)
  {}

  lemma StartCloses(w: World, s: Step, i: Uuid, key: Key)
    requires s.Start? && Enabled(w, s) && Closes(Do(w, s), i, key)
    ensures Closes(w, i, key)
  {
    StartLeads(w, s.i, s.key, s.pins, s.acked);
    StartGoes(w, DoStart(w, s.i, s.key, s.pins, s.acked), s.i, s.key, s.pins, s.acked, i, key);
  }

  lemma StartGoes(w: World, z: World, j: Uuid, k: Key, pins: bool, acked: bool, i: Uuid, key: Key)
    requires Has(w, j, k) && Closes(z, i, key)
    requires var mid := w.(db := z.db);
             || z == Go(mid, j, k, Initializing) || z == Enter(mid, j, k, pins)
             || z == Go(mid, j, k, Closing(Failed)) || z == Go(mid, j, k, Closing(DeliveryUnknown))
    ensures Closes(w, i, key)
  {
    GoCloses(w, z, j, k, PhaseAt(z, j, k), i, key);
  }

  /** A step inside an attempt moves that attempt alone. */
  lemma AttemptCloses(w: World, s: Step, i: Uuid, key: Key)
    requires OfAttempt(s) && !s.Return? && !s.Start? && Enabled(w, s) && Closes(Do(w, s), i, key)
    ensures Closes(w, i, key)
  {}

  lemma OtherCloses(w: World, s: Step, i: Uuid, key: Key)
    requires !OfAttempt(s) && Enabled(w, s) && Closes(Do(w, s), i, key)
    ensures Closes(w, i, key)
  {}

  lemma NewClosing(w: World, s: Step, i: Uuid, key: Key)
    requires Enabled(w, s) && Closes(Do(w, s), i, key) && !Closes(w, i, key)
    ensures ReturnsWell(w, s, key)
  {
    if s.Return? { ReturnCloses(w, s, i, key); }
    else if s.Start? { StartCloses(w, s, i, key); }
    else if OfAttempt(s) { AttemptCloses(w, s, i, key); }
    else { OtherCloses(w, s, i, key); }
  }

  /** A cancellation never decides on a success. */
  ghost predicate NoneDecided(w: World) {
    forall i, c | i in w.procs && c in w.procs[i].cancels && c.Decided? ::
      c.state == DeliveryUnknown || c.state == Interrupted
  }

  lemma ReadDecides(w: World, s: Step)
    requires s.CancelRead? && Enabled(w, s) && NoneDecided(w)
    ensures NoneDecided(Do(w, s))
  {
    CancelDecides(w.db, s.key, Executor(s.i, w.procs[s.i].guard));
  }

  lemma AttemptKeepsCancels(w: World, s: Step, i: Uuid)
    requires OfAttempt(s) && Enabled(w, s) && i in Do(w, s).procs
    ensures i in w.procs && Do(w, s).procs[i].cancels == w.procs[i].cancels
  {}

  /** No other step adds a decision. */
  lemma CancelsStay(w: World, s: Step, i: Uuid)
    requires Enabled(w, s) && !s.CancelRead? && i in Do(w, s).procs
    ensures forall c <- Do(w, s).procs[i].cancels | c.Decided? :: i in w.procs && c in w.procs[i].cancels
  {
    if OfAttempt(s) { AttemptKeepsCancels(w, s, i); }
  }

  lemma NoneDecidedStays(w: World, s: Step)
    requires Enabled(w, s) && NoneDecided(w)
    ensures NoneDecided(Do(w, s))
  {
    if s.CancelRead? {
      ReadDecides(w, s);
    } else {
      forall i | i in Do(w, s).procs
        ensures forall c <- Do(w, s).procs[i].cancels | c.Decided? ::
                  c.state == DeliveryUnknown || c.state == Interrupted
      {
        CancelsStay(w, s, i);
      }
    }
  }

  lemma NewSuccess(w: World, s: Step, key: Key)
    requires Enabled(w, s) && NoneDecided(w)
    requires Record(key, Succeeded) in Do(w, s).recorded && Record(key, Succeeded) !in w.recorded
    ensures s.Close? && s.key == key && Closes(w, s.i, key)
  {}

  /** Whoever has recorded a success, or is about to, has returned well before. */
  ghost predicate SuccessesReal(db: Db, now: int, steps: seq<Step>) {
    var w := Reached(db, now, steps);
    && NoneDecided(w)
    && (forall i, key | Closes(w, i, key) :: HasReturned(db, now, steps, key))
    && forall key | Record(key, Succeeded) in w.recorded :: HasReturned(db, now, steps, key)
  }

  lemma ReachedNext(db: Db, now: int, steps: seq<Step>, s: Step)
    ensures var w := Reached(db, now, steps);
            Reached(db, now, steps + [s]) == if Enabled(w, s) then Do(w, s) else w
  {
    assert (steps + [s])[..|steps|] == steps;
  }

  lemma SuccessesStayReal(db: Db, now: int, steps: seq<Step>, s: Step)
    requires SuccessesReal(db, now, steps)
    ensures SuccessesReal(db, now, steps + [s])
  {
    var w, v := Reached(db, now, steps), Reached(db, now, steps + [s]);
    ReachedNext(db, now, steps, s);
    if v != w { NoneDecidedStays(w, s); }
    forall i, key | Closes(v, i, key) ensures HasReturned(db, now, steps + [s], key) {
      if Closes(w, i, key) { ReturnedBefore(db, now, steps, s, key); }
      else { NewClosing(w, s, i, key); ReturnsNow(db, now, steps, s, key); }
    }
    forall key | Record(key, Succeeded) in v.recorded ensures HasReturned(db, now, steps + [s], key) {
      if Record(key, Succeeded) !in w.recorded { NewSuccess(w, s, key); }
      ReturnedBefore(db, now, steps, s, key);
    }
  }

  lemma {:induction false} SuccessesAreReal(db: Db, now: int, steps: seq<Step>)
    ensures SuccessesReal(db, now, steps)
    decreases |steps|
  {
    if steps != [] {
      var n := |steps| - 1;
      SuccessesAreReal(db, now, steps[..n]);
      SuccessesStayReal(db, now, steps[..n], steps[n]);
      assert steps[..n] + [steps[n]] == steps;
    }
  }

  /**
   An attempt recorded as succeeded returned from the pipeline: at some step of the run its plan had
   stopped with a result that is neither an error nor a refusal, sound, in time and not cancelled.
   */
  lemma SuccessMeansReturned(db: Db, now: int, steps: seq<Step>, key: Key) returns (n: nat)
    requires Record(key, Succeeded) in Reached(db, now, steps).recorded
    ensures n < |steps| && ReturnsWell(Reached(db, now, steps[..n]), steps[n], key)
  {
    SuccessesAreReal(db, now, steps);
    n :| n < |steps| && ReturnsWell(Reached(db, now, steps[..n]), steps[n], key);
  }

  /** A digest that may deliver and is recorded as succeeded was published, and the publication was confirmed. */
  lemma SuccessMeansPublished(db: Db, now: int, steps: seq<Step>, key: Key) returns (n: nat)
    requires Record(key, Succeeded) in Reached(db, now, steps).recorded
    ensures n < |steps| && ReturnsWell(Reached(db, now, steps[..n]), steps[n], key)
    ensures var a := Reached(db, now, steps[..n]).procs[steps[n].i].active[key];
            IsDigest(a.kind) && MayDeliver(a.kind, a.payload) ==>
              Published(a.kind, a.payload, a.phase.pins, a.phase.t)
  {
    n := SuccessMeansReturned(db, now, steps, key);
    var w, i := Reached(db, now, steps[..n]), steps[n].i;
    var a := w.procs[i].active[key];
    ReachedInv(db, now, steps[..n]);
    assert AttemptOk(w, i, key);
    if IsDigest(a.kind) && MayDeliver(a.kind, a.payload) {
      DigestDoneIsPublished(a.kind, a.payload, a.phase.pins, a.phase.t);
    }
  }
}
