/**
 What each kind of job asks for, in order, when everything goes well, and what a failing call
 does to it (go-execution/orchestration/pipeline.go:76-314).
 */
module JobScripts {
  import opened Prelude
  import opened JobPipeline

  /** A reply that no operation objects to; `count` is the number of summaries that it reports. */
  predicate Good(r: Reply, settings: Settings, count: nat) {
    && r.Replied? && r.settings == Some(settings) && r.summaries == Some(count) && r.token
    && r.success == Some(true) && r.counts && r.status != Some(Warning)
  }

  function Times(op: Operation, n: nat): seq<Operation> {
    seq(n, i => op)
  }

  /** Fetching, and processing unless it is switched off. */
  function CycleOps(s: Settings): seq<Operation> {
    [Ingest] + (if s.processing then [Process] else []) + [StatsPublish]
  }

  /** Missing summaries are generated before the digest is prepared and published. */
  function DigestOps(count: nat): seq<Operation> {
    [SummaryStatus] + (if count == 0 then [GenerateSummaries] else []) + [DigestPrepare, DigestPublish]
  }

  predicate Yes(v: Json) {
    v != Bool(false)
  }

  /** The operations of each kind of job after the status of the domain. */
  function KindOps(kind: Kind, p: Payload, s: Settings, count: nat): seq<Operation> {
    match kind
    case NewsProcessing => CycleOps(s)
    case NewsDigest =>
      (if Yes(p.runProcessing) then CycleOps(s) else [])
      + (if Yes(p.sendTelegram) && s.delivery then DigestOps(count) else [])
    case TelegramDigest => if s.delivery then DigestOps(count) else []
    case SummariesGenerate => [GenerateSummaries]
    case ViberDigestDelivery => [ViberDelivery]
    case SerbianDigestRetry => [SerbianRetry]
    case Backup => [MakeBackup]
    case SourceTest => if p.source.Some? then [TestSource] else []
    case ArticleReprocess =>
      if !s.processing || p.articles.None? then []
      else Times(MediaRefresh, if p.reextract == Bool(true) then p.articles.value else 0) + [Process]
    case ReprocessFailed => if s.processing then [Process] else []
  }

  /** All of them; a job whose settings are not pinned runs as if nothing were switched off. */
  function JobOps(kind: Kind, p: Payload, pins: bool, s: Settings, count: nat): seq<Operation> {
    if pins then [PrepareJob, DomainStatus] + KindOps(kind, p, s, count)
    else [DomainStatus] + KindOps(kind, p, Settings(true, true), count)
  }

  lemma {:induction false} RefreshAsks(n: nat, t: seq<Reply>, i: nat)
    requires i <= |t| <= i + n + 1 && forall k | 0 <= k < |t| :: t[k].Replied?
    ensures Refresh(n, t, i) == if |t| == i + n + 1 then Stop(Done(StatusOf(t[i + n])))
                                else if |t| == i + n then Ask(Process) else Ask(MediaRefresh)
    decreases n
  {
    if n > 0 && |t| > i { RefreshAsks(n - 1, t, i + 1); }
  }

  lemma CycleAsks(s: Settings, processing: bool, count: nat, t: seq<Reply>, i: nat)
    requires i <= |t| && forall k | 0 <= k < |t| :: Good(t[k], s, count)
    ensures var ops := CycleOps(Settings(true, processing));
            FullCycle(processing, t, i)
            == if |t| - i < |ops| then Asking(ops[|t| - i]) else Finished(Success, i + |ops|)
  {}

  lemma DigestAsks(s: Settings, count: nat, t: seq<Reply>, i: nat, status: Status)
    requires i <= |t| && forall k | 0 <= k < |t| :: Good(t[k], s, count)
    ensures var ops := DigestOps(count);
            Digest(t, i, status) == if |t| - i < |ops| then Ask(ops[|t| - i]) else Stop(Done(status))
  {}

  lemma FlagsAreBool(p: Payload)
    requires ValidPayload(p)
    ensures BoolDefault(p.runProcessing, true) == Yes(p.runProcessing)
    ensures BoolDefault(p.sendTelegram, true) == Yes(p.sendTelegram)
    ensures BoolDefault(p.reextract, false) == (p.reextract == Bool(true))
  {
    assert p.runProcessing in [p.runProcessing, p.sendTelegram, p.reextract];
    assert p.sendTelegram in [p.runProcessing, p.sendTelegram, p.reextract];
    assert p.reextract in [p.runProcessing, p.sendTelegram, p.reextract];
  }

  /** The settings that the switch over kinds goes by. */
  function InForce(settings: Option<Settings>): Settings {
    if settings.Some? then settings.value else Settings(true, true)
  }

  /** The next operation of a job after the replies `t`, or its end. */
  predicate Follows(a: Action, ops: seq<Operation>, n: int) {
    0 <= n <= |ops| && if n < |ops| then a == Ask(ops[n]) else a.Stop?
  }

  lemma DigestJobAsks(p: Payload, settings: Option<Settings>, s: Settings, count: nat, t: seq<Reply>, i: nat)
    requires ValidPayload(p) && i <= |t| && forall k | 0 <= k < |t| :: Good(t[k], s, count)
    requires |t| - i <= |KindOps(NewsDigest, p, InForce(settings), count)|
    ensures Follows(Body(NewsDigest, p, settings, t, i), KindOps(NewsDigest, p, InForce(settings), count), |t| - i)
  {
    FlagsAreBool(p);
    var cycle := if Yes(p.runProcessing) then CycleOps(InForce(settings)) else [];
    CycleAsks(s, InForce(settings).processing, count, t, i);
    if |t| - i >= |cycle| { DigestAsks(s, count, t, i + |cycle|, Success); }
  }

  lemma RefreshJobAsks(p: Payload, settings: Option<Settings>, s: Settings, count: nat, t: seq<Reply>, i: nat)
    requires ValidPayload(p) && i <= |t| && forall k | 0 <= k < |t| :: Good(t[k], s, count)
    requires |t| - i <= |KindOps(ArticleReprocess, p, InForce(settings), count)|
    ensures Follows(Body(ArticleReprocess, p, settings, t, i), KindOps(ArticleReprocess, p, InForce(settings), count),
                    |t| - i)
  {
    FlagsAreBool(p);
    if InForce(settings).processing && p.articles.Some? {
      RefreshAsks(if p.reextract == Bool(true) then p.articles.value else 0, t, i);
    }
  }

  lemma BodyAsks(kind: Kind, p: Payload, settings: Option<Settings>, s: Settings, count: nat, t: seq<Reply>, i: nat)
    requires ValidPayload(p) && i <= |t| && forall k | 0 <= k < |t| :: Good(t[k], s, count)
    requires |t| - i <= |KindOps(kind, p, InForce(settings), count)|
    ensures Follows(Body(kind, p, settings, t, i), KindOps(kind, p, InForce(settings), count), |t| - i)
  {
    match kind {
      case NewsDigest => DigestJobAsks(p, settings, s, count, t, i);
      case ArticleReprocess => RefreshJobAsks(p, settings, s, count, t, i);
      case NewsProcessing => CycleAsks(s, InForce(settings).processing, count, t, i);
      case TelegramDigest => DigestAsks(s, count, t, i, Success);
      case _ =>
    }
  }

  /** Whatever its kind and switches, a job whose calls go well asks exactly these operations, in this order. */
  lemma JobAsks(kind: Kind, p: Payload, pins: bool, s: Settings, count: nat, t: seq<Reply>)
    requires ValidPayload(p) && (forall k | 0 <= k < |t| :: Good(t[k], s, count))
    requires |t| <= |JobOps(kind, p, pins, s, count)|
    ensures Follows(Plan(kind, p, pins, t), JobOps(kind, p, pins, s, count), |t|)
  {
    var i := if pins then 2 else 1;
    if |t| >= i { BodyAsks(kind, p, if pins then Some(s) else None, s, count, t, i); }
  }

  // ---------- failing calls ----------

  /** Some failures are passed over: those of the statistics, and of a picture unless the fence is stale. */
  predicate Tolerated(op: Operation, stale: bool) {
    op == StatsPublish || (op == MediaRefresh && !stale)
  }

  predicate Fails(a: Action) {
    a.Stop? && a.outcome.Failure?
  }

  lemma {:induction false} RefreshFails(n: nat, t: seq<Reply>, stale: bool, i: nat)
    requires Refresh(n, t, i).Ask? && i <= |t|
    ensures Refresh(n, t, i).op in {MediaRefresh, Process}
    ensures Fails(Refresh(n, t + [CallFailed(stale)], i)) <==> !Tolerated(Refresh(n, t, i).op, stale)
    decreases n
  {
    if n > 0 && |t| > i {
      assert (t + [CallFailed(stale)])[i] == t[i];
      RefreshFails(n - 1, t, stale, i + 1);
    } else if n > 1 {
      assert |t| == i && (t + [CallFailed(stale)])[i] == CallFailed(stale);
    }
  }

  lemma CycleFails(processing: bool, t: seq<Reply>, stale: bool, i: nat)
    requires FullCycle(processing, t, i).Asking? && i <= |t|
    ensures var op, a := FullCycle(processing, t, i).op, FullCycle(processing, t + [CallFailed(stale)], i);
            op != MediaRefresh && if op == StatsPublish then a.Finished? && a.next == |t| + 1 else a.Broken?
  {
    assert forall k | 0 <= k < |t| :: (t + [CallFailed(stale)])[k] == t[k];
  }

  lemma DigestFails(t: seq<Reply>, stale: bool, i: nat, status: Status)
    requires Digest(t, i, status).Ask? && i <= |t|
    ensures Digest(t, i, status).op !in {StatsPublish, MediaRefresh}
    ensures Fails(Digest(t + [CallFailed(stale)], i, status))
  {
    assert forall k | 0 <= k < |t| :: (t + [CallFailed(stale)])[k] == t[k];
  }

  lemma CycleKeeps(processing: bool, t: seq<Reply>, stale: bool, i: nat)
    requires FullCycle(processing, t, i).Finished? && i <= |t|
    ensures FullCycle(processing, t + [CallFailed(stale)], i) == FullCycle(processing, t, i)
    ensures FullCycle(processing, t, i).next <= |t|
  {
    assert forall k | 0 <= k < |t| :: (t + [CallFailed(stale)])[k] == t[k];
  }

  lemma DigestJobFails(p: Payload, settings: Option<Settings>, t: seq<Reply>, stale: bool, i: nat)
    requires Body(NewsDigest, p, settings, t, i).Ask? && i <= |t|
    ensures var op := Body(NewsDigest, p, settings, t, i).op;
            op != MediaRefresh
            && (Fails(Body(NewsDigest, p, settings, t + [CallFailed(stale)], i)) <==> op != StatsPublish)
  {
    var processing := InForce(settings).processing;
    var run := Finished(Success, i);
    if BoolDefault(p.runProcessing, true) {
      run := FullCycle(processing, t, i);
      if run.Asking? { CycleFails(processing, t, stale, i); }
      if run.Finished? { CycleKeeps(processing, t, stale, i); }
    }
    if run.Finished? { DigestFails(t, stale, run.next, run.status); }
  }

  lemma BodyFails(kind: Kind, p: Payload, settings: Option<Settings>, t: seq<Reply>, stale: bool, i: nat)
    requires Body(kind, p, settings, t, i).Ask? && i <= |t|
    ensures Fails(Body(kind, p, settings, t + [CallFailed(stale)], i))
       <==> !Tolerated(Body(kind, p, settings, t, i).op, stale)
  {
    assert forall k | 0 <= k < |t| :: (t + [CallFailed(stale)])[k] == t[k];
    match kind {
      case NewsDigest => DigestJobFails(p, settings, t, stale, i);
      case NewsProcessing => CycleFails(InForce(settings).processing, t, stale, i);
      case TelegramDigest => DigestFails(t, stale, i, Success);
      case ArticleReprocess =>
        RefreshFails(if BoolDefault(p.reextract, false) then p.articles.value else 0, t, stale, i);
      case _ =>
    }
  }

  /** A failing call ends the job in an error exactly when it is not one of those that are passed over. */
  lemma FailureEndsJob(kind: Kind, p: Payload, pins: bool, t: seq<Reply>, stale: bool)
    requires Plan(kind, p, pins, t).Ask?
    ensures Fails(Plan(kind, p, pins, t + [CallFailed(stale)])) <==> !Tolerated(Plan(kind, p, pins, t).op, stale)
  {
    assert forall k | 0 <= k < |t| :: (t + [CallFailed(stale)])[k] == t[k];
    var i := if pins then 2 else 1;
    if |t| >= i { BodyFails(kind, p, if pins then t[0].settings else None, t, stale, i); }
  }

  /** The replies that come before the switch over kinds are good: the pinned settings and the domain's status. */
  predicate Reached(pins: bool, t: seq<Reply>) {
    if pins then |t| >= 2 && t[0].Replied? && t[0].settings.Some? && t[1].Replied? else |t| >= 1 && t[0].Replied?
  }

  lemma {:induction false} RefreshMarks(n: nat, t: seq<Reply>, i: nat)
    requires Fails(Refresh(n, t, i))
    ensures Refresh(n, t, i).outcome.risk.None?
    decreases n
  {
    if n > 0 && |t| > i && t[i] != CallFailed(true) { RefreshMarks(n - 1, t, i + 1); }
  }

  /** How an error is marked: a digest's always, another delivery's as risky once it has been asked, no other one. */
  lemma FailureMarks(kind: Kind, p: Payload, pins: bool, t: seq<Reply>)
    requires Fails(Plan(kind, p, pins, t))
    ensures var risk := Plan(kind, p, pins, t).outcome.risk;
            match kind
            case NewsDigest => risk.Some?
            case TelegramDigest => risk.Some?
            case ViberDigestDelivery => risk == if Reached(pins, t) then Some(true) else None
            case SerbianDigestRetry => risk == if Reached(pins, t) then Some(true) else None
            case _ => risk.None?
  {
    var i := if pins then 2 else 1;
    if kind == ArticleReprocess && Reached(pins, t) && p.articles.Some? {
      var n := if BoolDefault(p.reextract, false) then p.articles.value else 0;
      if Fails(Refresh(n, t, i)) { RefreshMarks(n, t, i); }
    }
  }

  /** A source test reports what its source answered. */
  lemma SourceTestTells(p: Payload, pins: bool, t: seq<Reply>)
    requires Plan(SourceTest, p, pins, t).Stop? && Plan(SourceTest, p, pins, t).outcome.Done?
    ensures var i := if pins then 2 else 1;
            i < |t| && t[i].Replied? && t[i].success.Some?
            && Plan(SourceTest, p, pins, t).outcome.status == if t[i].success.value then Success else Warning
  {}

  /** A payload is refused exactly when one of its switches is there and no truth value. */
  lemma PayloadDecides(p: Payload)
    ensures ValidPayload(p) <==> p.runProcessing in {Missing, Bool(true), Bool(false)}
                                 && p.sendTelegram in {Missing, Bool(true), Bool(false)}
                                 && p.reextract in {Missing, Bool(true), Bool(false)}
  {
    if ValidPayload(p) {
      assert p.runProcessing in [p.runProcessing, p.sendTelegram, p.reextract];
      assert p.sendTelegram in [p.runProcessing, p.sendTelegram, p.reextract];
      assert p.reextract in [p.runProcessing, p.sendTelegram, p.reextract];
    }
  }
}
