/**
 What a job asks of the other services, and how its end is classified
 (go-execution/orchestration/pipeline.go, lifecycle.go:61-123, delivery_risk.go, validation.go).

 A run of the pipeline is a conversation: it asks one operation at a time and goes on from
 the reply.  `Plan` gives the next thing it does from the replies so far, so that other
 steps of the system can interleave between any two operations.
 */
module JobPipeline {
  import opened Prelude

  datatype Kind =
    | NewsProcessing | NewsDigest | TelegramDigest | SummariesGenerate | ViberDigestDelivery
    | SerbianDigestRetry | Backup | SourceTest | ArticleReprocess | ReprocessFailed

  /** States of jobs and of receipts. */
  datatype State = Queued | Accepted | Running | Succeeded | Failed | Interrupted | DeliveryUnknown

  /** One value of a payload object. */
  datatype Json = Missing | Null | Bool(b: bool) | Other

  /** `articles` and `source` are `None` where articleIDs or positiveInt refuses the value. */
  datatype Payload = Payload(
    runProcessing: Json, sendTelegram: Json, reextract: Json, articles: Option<nat>, source: Option<nat>)

  /** The part of validatePayload that looks at the boolean fields. */
  predicate ValidPayload(p: Payload) {
    forall v <- [p.runProcessing, p.sendTelegram, p.reextract] :: v.Missing? || v.Bool?
  }

  /** How the pipeline reads a boolean: anything else means the default. */
  function BoolDefault(v: Json, default: bool): bool {
    if v.Bool? then v.b else default
  }

  /** mayDeliver decodes the field instead: a null decodes to false, a missing or ill-typed field does not decode. */
  predicate MayDeliver(kind: Kind, p: Payload) {
    || kind in {TelegramDigest, SerbianDigestRetry, ViberDigestDelivery}
    || (kind == NewsDigest && match p.sendTelegram { case Null => false case Bool(b) => b case _ => true })
  }

  datatype Operation =
    | PrepareJob | DomainStatus | Ingest | Process | StatsPublish | SummaryStatus | GenerateSummaries
    | DigestPrepare | DigestPublish | ViberDelivery | SerbianRetry | MakeBackup | TestSource | MediaRefresh

  /** The operations that may send something to readers. */
  predicate Delivers(op: Operation) {
    op in {DigestPublish, SerbianRetry, ViberDelivery}
  }

  datatype Status = Success | Warning | ProcessingDisabled | DeliveryDisabled | OtherStatus

  datatype Settings = Settings(delivery: bool, processing: bool)

  /** The parts of a reply that the pipeline looks at. */
  datatype Reply =
    | CallFailed(stale: bool)
    | Replied(settings: Option<Settings>, summaries: Option<nat>, token: bool, success: Option<bool>, counts: bool,
              status: Option<Status>)

  /** `risk` is the mark of a DeliveryRisk error; other errors carry none. */
  datatype Outcome = Done(status: Status) | Failure(risk: Option<bool>)

  datatype Action = Ask(op: Operation) | Stop(outcome: Outcome)

  predicate IsDigest(kind: Kind) {
    kind == NewsDigest || kind == TelegramDigest
  }

  /** An error before any delivery: marked for the digest kinds only. */
  function EarlyFailure(kind: Kind): Action {
    Stop(Failure(if IsDigest(kind) then Some(false) else None))
  }

  function StatusOf(r: Reply): Status {
    if r.Replied? && r.status.Some? then r.status.value else Success
  }

  /** One operation whose reply is the result. */
  function Single(op: Operation, risk: Option<bool>, t: seq<Reply>, i: nat): Action {
    if |t| <= i then Ask(op) else if t[i].CallFailed? then Stop(Failure(risk)) else Stop(Done(StatusOf(t[i])))
  }

  datatype Cycle = Asking(op: Operation) | Broken | Finished(status: Status, next: nat)

  /** fullCycle from reply `i` on; a failed stats_publish is ignored. */
  function FullCycle(processing: bool, t: seq<Reply>, i: nat): Cycle {
    if |t| <= i then Asking(Ingest)
    else if t[i].CallFailed? then Broken
    else if processing && |t| <= i + 1 then Asking(Process)
    else if processing && t[i + 1].CallFailed? then Broken
    else
      var status := if !processing then Success else if StatusOf(t[i + 1]) == Warning then Warning else Success;
      var last := if processing then i + 2 else i + 1;
      if |t| <= last then Asking(StatsPublish) else Finished(status, last + 1)
  }

  /** digest from reply `i` on. */
  function Digest(t: seq<Reply>, i: nat, status: Status): Action {
    if |t| <= i then Ask(SummaryStatus)
    else if t[i].CallFailed? || t[i].summaries.None? then Stop(Failure(Some(false)))
    else
      var generate := t[i].summaries == Some(0);
      if generate && |t| <= i + 1 then Ask(GenerateSummaries)
      else if generate && t[i + 1].CallFailed? then Stop(Failure(Some(false)))
      else
        var j := if generate then i + 2 else i + 1;
        if |t| <= j then Ask(DigestPrepare)
        else if t[j].CallFailed? || !t[j].token then Stop(Failure(Some(false)))
        else if |t| <= j + 1 then Ask(DigestPublish)
        else if t[j + 1].CallFailed? || t[j + 1].success != Some(true) || !t[j + 1].counts then
          Stop(Failure(Some(true)))
        else Stop(Done(status))
  }

  /** media_refresh for each article, given up only on a stale fence, then one processing run. */
  function Refresh(articles: nat, t: seq<Reply>, i: nat): Action
    decreases articles
  {
    if articles == 0 then Single(Process, None, t, i)
    else if |t| <= i then Ask(MediaRefresh)
    else if t[i] == CallFailed(true) then Stop(Failure(None))
    else Refresh(articles - 1, t, i + 1)
  }

  /** The switch over job kinds, from reply `i` on. */
  function Body(kind: Kind, p: Payload, settings: Option<Settings>, t: seq<Reply>, i: nat): Action {
    var delivery := settings.None? || settings.value.delivery;
    var processing := settings.None? || settings.value.processing;
    match kind
    case NewsProcessing =>
      (match FullCycle(processing, t, i)
       case Asking(op) => Ask(op)
       case Broken => Stop(Failure(None))
       case Finished(status, _) => Stop(Done(status)))
    case NewsDigest =>
      var run := if BoolDefault(p.runProcessing, true) then FullCycle(processing, t, i) else Finished(Success, i);
      (match run
       case Asking(op) => Ask(op)
       case Broken => Stop(Failure(Some(false)))
       case Finished(status, next) =>
         if BoolDefault(p.sendTelegram, true) && delivery then Digest(t, next, status)
         else if !delivery then Stop(Done(DeliveryDisabled))
         else Stop(Done(status)))
    case TelegramDigest => if delivery then Digest(t, i, Success) else Stop(Done(DeliveryDisabled))
    case SummariesGenerate => Single(GenerateSummaries, None, t, i)
    case ViberDigestDelivery => Single(ViberDelivery, Some(true), t, i)
    case SerbianDigestRetry => Single(SerbianRetry, Some(true), t, i)
    case Backup => Single(MakeBackup, None, t, i)
    case SourceTest =>
      if p.source.None? then Stop(Failure(None))
      else if |t| <= i then Ask(TestSource)
      else if t[i].CallFailed? || t[i].success.None? then Stop(Failure(None))
      else Stop(Done(if t[i].success.value then Success else Warning))
    case ArticleReprocess =>
      if !processing then Stop(Done(ProcessingDisabled))
      else if p.articles.None? then Stop(Failure(None))
      else Refresh(if BoolDefault(p.reextract, false) then p.articles.value else 0, t, i)
    case ReprocessFailed =>
      if !processing then Stop(Done(ProcessingDisabled)) else Single(Process, None, t, i)
  }

  /** The domain status, then the switch. */
  function Opening(kind: Kind, p: Payload, settings: Option<Settings>, t: seq<Reply>, i: nat): Action {
    if |t| <= i then Ask(DomainStatus)
    else if t[i].CallFailed? then EarlyFailure(kind)
    else Body(kind, p, settings, t, i + 1)
  }

  /** Execute: what it does next after the replies `t`; `pins` says whether job settings are pinned first. */
  function Plan(kind: Kind, p: Payload, pins: bool, t: seq<Reply>): Action {
    if !pins then Opening(kind, p, None, t, 0)
    else if |t| == 0 then Ask(PrepareJob)
    else if t[0].CallFailed? || t[0].settings.None? then EarlyFailure(kind)
    else Opening(kind, p, t[0].settings, t, 1)
  }

  // ---------- the delivery is the last thing asked ----------

  ghost predicate Risky(kind: Kind, p: Payload, a: Action) {
    MayDeliver(kind, p) && a.Stop? && (a.outcome.Failure? ==> a.outcome.risk != Some(false))
  }

  lemma DigestDeliversLast(t: seq<Reply>, r: Reply, i: nat, status: Status)
    requires Digest(t, i, status).Ask? && Delivers(Digest(t, i, status).op)
    ensures var a := Digest(t + [r], i, status); a.Stop? && (a.outcome.Failure? ==> a.outcome.risk == Some(true))
  {
    assert forall k | 0 <= k < |t| :: (t + [r])[k] == t[k];
  }

  lemma {:induction false} RefreshNeverDelivers(articles: nat, t: seq<Reply>, i: nat)
    ensures Refresh(articles, t, i).Ask? ==> !Delivers(Refresh(articles, t, i).op)
    decreases articles
  {
    if articles > 0 { RefreshNeverDelivers(articles - 1, t, i + 1); }
  }

  lemma BodyDeliversLast(kind: Kind, p: Payload, settings: Option<Settings>, t: seq<Reply>, r: Reply, i: nat)
    requires ValidPayload(p) && i <= |t|
    requires Body(kind, p, settings, t, i).Ask? && Delivers(Body(kind, p, settings, t, i).op)
    ensures Risky(kind, p, Body(kind, p, settings, t + [r], i))
  {
    var after := t + [r];
    assert forall k | 0 <= k < |t| :: after[k] == t[k];
    match kind {
      case ArticleReprocess =>
        RefreshNeverDelivers(if BoolDefault(p.reextract, false) then p.articles.value else 0, t, i);
      case NewsDigest =>
        assert p.sendTelegram in [p.runProcessing, p.sendTelegram, p.reextract];
        var processing := settings.None? || settings.value.processing;
        var run := if BoolDefault(p.runProcessing, true) then FullCycle(processing, t, i) else Finished(Success, i);
        assert run.Finished?;
        DigestDeliversLast(t, r, run.next, run.status);
      case TelegramDigest => DigestDeliversLast(t, r, i, Success);
      case _ =>
    }
  }

  /**
   Whatever a validated job has asked and been answered, a delivering operation is the last
   one: after its reply the run ends, its kind is one that may deliver, and an error it ends
   in is not marked as coming before any delivery.
   */
  lemma DeliveryIsLast(kind: Kind, p: Payload, pins: bool, t: seq<Reply>, r: Reply)
    requires ValidPayload(p)
    requires Plan(kind, p, pins, t).Ask? && Delivers(Plan(kind, p, pins, t).op)
    ensures Risky(kind, p, Plan(kind, p, pins, t + [r]))
  {
    var i := if pins then 1 else 0;
    var settings := if pins then t[0].settings else None;
    assert forall k | 0 <= k < |t| :: (t + [r])[k] == t[k];
    BodyDeliversLast(kind, p, settings, t, r, i + 1);
  }

  /** More replies follow those of `u`. */
  predicate Extends(t: seq<Reply>, u: seq<Reply>) {
    |u| <= |t| && forall k | 0 <= k < |u| :: t[k] == u[k]
  }

  lemma CycleStops(processing: bool, t: seq<Reply>, u: seq<Reply>, i: nat)
    requires Extends(t, u) && !FullCycle(processing, u, i).Asking?
    ensures FullCycle(processing, t, i) == FullCycle(processing, u, i)
  {}

  lemma DigestStops(t: seq<Reply>, u: seq<Reply>, i: nat, status: Status)
    requires Extends(t, u) && Digest(u, i, status).Stop?
    ensures Digest(t, i, status) == Digest(u, i, status)
  {}

  lemma BodyStops(kind: Kind, p: Payload, settings: Option<Settings>, t: seq<Reply>, u: seq<Reply>, i: nat)
    requires IsDigest(kind) && Extends(t, u) && Body(kind, p, settings, u, i).Stop?
    ensures Body(kind, p, settings, t, i) == Body(kind, p, settings, u, i)
  {
    var processing := settings.None? || settings.value.processing;
    var run := Finished(Success, i);
    if kind == NewsDigest && BoolDefault(p.runProcessing, true) {
      run := FullCycle(processing, u, i);
      CycleStops(processing, t, u, i);
    }
    if run.Finished? && Digest(u, run.next, run.status).Stop? { DigestStops(t, u, run.next, run.status); }
  }

  /** A digest job that has stopped is past every reply it will look at. */
  lemma PlanStops(kind: Kind, p: Payload, pins: bool, t: seq<Reply>, n: nat)
    requires IsDigest(kind) && n <= |t| && Plan(kind, p, pins, t[..n]).Stop?
    ensures Plan(kind, p, pins, t) == Plan(kind, p, pins, t[..n])
  {
    var u := t[..n];
    assert Extends(t, u);
    if pins && n > 1 && u[0].Replied? && u[0].settings.Some? && u[1].Replied? {
      BodyStops(kind, p, u[0].settings, t, u, 2);
    } else if !pins && n > 0 && u[0].Replied? {
      BodyStops(kind, p, None, t, u, 1);
    }
  }

  lemma PublishWasAsked(t: seq<Reply>, i: nat, status: Status) returns (n: nat)
    requires Digest(t, i, status) == Stop(Failure(Some(true)))
    ensures i < n < |t| && Digest(t[..n], i, status) == Ask(DigestPublish)
  {
    n := if t[i].summaries == Some(0) then i + 3 else i + 2;
    assert forall k | 0 <= k < n :: t[..n][k] == t[k];
  }

  ghost predicate AskedPublish(kind: Kind, p: Payload, pins: bool, t: seq<Reply>) {
    exists n :: 0 <= n < |t| && Plan(kind, p, pins, t[..n]) == Ask(DigestPublish)
  }

  lemma MarkedTrueAsked(kind: Kind, p: Payload, pins: bool, t: seq<Reply>)
    requires IsDigest(kind) && Plan(kind, p, pins, t) == Stop(Failure(Some(true)))
    ensures AskedPublish(kind, p, pins, t)
  {
    var i := if pins then 2 else 1;
    var settings := if pins then t[0].settings else None;
    var processing := settings.None? || settings.value.processing;
    var cycles := kind == NewsDigest && BoolDefault(p.runProcessing, true);
    var run := if cycles then FullCycle(processing, t, i) else Finished(Success, i);
    var n := PublishWasAsked(t, run.next, run.status);
    assert forall k | 0 <= k < n :: t[..n][k] == t[k];
    assert Plan(kind, p, pins, t[..n]) == Ask(DigestPublish);
  }

  lemma AskedIsMarked(kind: Kind, p: Payload, pins: bool, t: seq<Reply>, n: nat)
    requires IsDigest(kind) && ValidPayload(p) && n < |t| && Plan(kind, p, pins, t[..n]) == Ask(DigestPublish)
    ensures Risky(kind, p, Plan(kind, p, pins, t))
  {
    DeliveryIsLast(kind, p, pins, t[..n], t[n]);
    assert t[..n] + [t[n]] == t[..n + 1];
    PlanStops(kind, p, pins, t, n + 1);
  }

  /** The pipeline marks every failure of a digest. */
  lemma DigestFailuresAreMarked(kind: Kind, p: Payload, pins: bool, t: seq<Reply>)
    requires IsDigest(kind) && Plan(kind, p, pins, t).Stop? && Plan(kind, p, pins, t).outcome.Failure?
    ensures Plan(kind, p, pins, t).outcome.risk.Some?
  {}

  /** A failing digest job is marked as risky exactly when it had asked for the publication. */
  lemma DigestFailureMark(kind: Kind, p: Payload, pins: bool, t: seq<Reply>)
    requires IsDigest(kind) && ValidPayload(p)
    requires Plan(kind, p, pins, t).Stop? && Plan(kind, p, pins, t).outcome.Failure?
    ensures var risk := Plan(kind, p, pins, t).outcome.risk;
            risk.Some? && (risk.value <==> AskedPublish(kind, p, pins, t))
  {
    DigestFailuresAreMarked(kind, p, pins, t);
    if AskedPublish(kind, p, pins, t) {
      var n :| 0 <= n < |t| && Plan(kind, p, pins, t[..n]) == Ask(DigestPublish);
      AskedIsMarked(kind, p, pins, t, n);
    } else if Plan(kind, p, pins, t).outcome.risk == Some(true) {
      MarkedTrueAsked(kind, p, pins, t);
    }
  }

  /** The publication was asked and answered as a success. */
  ghost predicate Published(kind: Kind, p: Payload, pins: bool, t: seq<Reply>) {
    exists n :: 0 <= n < |t| && Plan(kind, p, pins, t[..n]) == Ask(DigestPublish)
                && t[n].Replied? && t[n].success == Some(true)
  }

  lemma DoneWasPublished(t: seq<Reply>, i: nat, status: Status) returns (n: nat)
    requires Digest(t, i, status).Stop? && Digest(t, i, status).outcome.Done?
    ensures i < n < |t| && Digest(t[..n], i, status) == Ask(DigestPublish)
    ensures t[n].Replied? && t[n].success == Some(true)
  {
    n := if t[i].summaries == Some(0) then i + 3 else i + 2;
    assert forall k | 0 <= k < n :: t[..n][k] == t[k];
  }

  /** A digest job that may deliver is done by a publication, unless delivery is switched off. */
  lemma DigestDoneIsPublished(kind: Kind, p: Payload, pins: bool, t: seq<Reply>)
    requires IsDigest(kind) && ValidPayload(p) && MayDeliver(kind, p)
    requires Plan(kind, p, pins, t).Stop? && Plan(kind, p, pins, t).outcome.Done?
    requires Plan(kind, p, pins, t).outcome.status != DeliveryDisabled
    ensures Published(kind, p, pins, t)
  {
    var i := if pins then 2 else 1;
    var settings := if pins then t[0].settings else None;
    var processing := settings.None? || settings.value.processing;
    var cycles := kind == NewsDigest && BoolDefault(p.runProcessing, true);
    var run := if cycles then FullCycle(processing, t, i) else Finished(Success, i);
    assert p.sendTelegram in [p.runProcessing, p.sendTelegram, p.reextract];
    var n := DoneWasPublished(t, run.next, run.status);
    assert forall k | 0 <= k < n :: t[..n][k] == t[k];
    assert Plan(kind, p, pins, t[..n]) == Ask(DigestPublish);
  }

  /** With delivery switched off a digest job asks no delivering operation, and ends as disabled if it ends well. */
  lemma DisabledDeliversNothing(kind: Kind, p: Payload, t: seq<Reply>)
    requires IsDigest(kind) && |t| > 0 && t[0].Replied? && t[0].settings.Some? && !t[0].settings.value.delivery
    ensures match Plan(kind, p, true, t)
            case Ask(op) => op !in {DigestPrepare, DigestPublish, ViberDelivery, SerbianRetry}
            case Stop(outcome) => outcome == Done(DeliveryDisabled) || outcome == Failure(Some(false))
  {}

  /** The two readings of `send_telegram` agree on every value but null, which validation refuses. */
  lemma ReadingsAgreeIffNotNull(p: Payload)
    ensures MayDeliver(NewsDigest, p) == BoolDefault(p.sendTelegram, true) <==> !p.sendTelegram.Null?
    ensures p.sendTelegram.Null? ==> !ValidPayload(p)
  {
    assert p.sendTelegram in [p.runProcessing, p.sendTelegram, p.reextract];
  }

  // ---------- how the end of a run is recorded ----------

  datatype ContextEnd = StillOn | Cancelled | TimedOut

  /** DeliveryOutcomeUnknown. */
  predicate OutcomeUnknown(kind: Kind, p: Payload, risk: Option<bool>) {
    if risk.Some? then risk.value else MayDeliver(kind, p)
  }

  /** pipelineFailureDisposition; `wraps` says that the error itself is a cancellation. */
  function FailureDisposition(kind: Kind, p: Payload, risk: Option<bool>, wraps: bool, end: ContextEnd): State {
    if OutcomeUnknown(kind, p, risk) then DeliveryUnknown
    else if end.Cancelled? || wraps then Interrupted
    else Failed
  }

  /** safeResult of a projection; `sound` says that everything but the status passes. */
  predicate SafeResult(status: Status, sound: bool) {
    sound && status != ProcessingDisabled && status != DeliveryDisabled
  }

  /** What the environment decides about the end of a run. */
  datatype Ending = Ending(end: ContextEnd, wraps: bool, oversized: bool, sound: bool)

  /** runAttempt from the return of Execute to its call of finish. */
  function RunVerdict(kind: Kind, p: Payload, outcome: Outcome, e: Ending): State {
    var failed := outcome.Failure? || e.oversized;
    var risk := if outcome.Failure? then outcome.risk else None;
    if failed || !e.end.StillOn? then FailureDisposition(kind, p, risk, e.wraps && failed, e.end)
    else if !SafeResult(outcome.status, e.sound) then if MayDeliver(kind, p) then DeliveryUnknown else Failed
    else if kind == SourceTest && outcome.status == Warning then Failed
    else Succeeded
  }

  /** A run is recorded as a success exactly when nothing at all went wrong. */
  lemma SucceededIff(kind: Kind, p: Payload, outcome: Outcome, e: Ending)
    ensures RunVerdict(kind, p, outcome, e) == Succeeded
            <==> outcome.Done? && !e.oversized && e.end.StillOn? && e.sound
                 && outcome.status != ProcessingDisabled && outcome.status != DeliveryDisabled
                 && !(kind == SourceTest && outcome.status == Warning)
  {}

  /**
   How every other run is recorded.  A mark on the error decides whether a delivery is in doubt;
   without one the kind decides, and for a news digest the field that asks for the delivery.
   */
  lemma FailureIsClassified(kind: Kind, p: Payload, outcome: Outcome, e: Ending)
    ensures var v := RunVerdict(kind, p, outcome, e);
            var may := kind == TelegramDigest || kind == SerbianDigestRetry || kind == ViberDigestDelivery
                       || (kind == NewsDigest && p.sendTelegram != Null && p.sendTelegram != Bool(false));
            var broken := outcome.Failure? || e.oversized;
            if broken || !e.end.StillOn? then
              && (v == DeliveryUnknown <==> if outcome.Failure? && outcome.risk.Some? then outcome.risk == Some(true)
                                            else may)
              && (v != DeliveryUnknown ==>
                    v == if e.end.Cancelled? || (broken && e.wraps) then Interrupted else Failed)
            else if !e.sound || outcome.status == ProcessingDisabled || outcome.status == DeliveryDisabled then
              v == if may then DeliveryUnknown else Failed
            else v == Succeeded || (v == Failed && kind == SourceTest && outcome.status == Warning)
  {}

  /** A run that asked a delivering operation ends as a success or in doubt, however it ends. */
  lemma RiskyRunIsNeverDenied(kind: Kind, p: Payload, outcome: Outcome, e: Ending)
    requires Risky(kind, p, Stop(outcome))
    ensures RunVerdict(kind, p, outcome, e) in {Succeeded, DeliveryUnknown}
  {}
}
