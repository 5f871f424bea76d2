/**
 Every run of the Telegram delivery of one edition to one destination: publishing
 sessions of any owners, interleaved, crashing at any point
 (go-domain/airuntime/digest_execute.go:255-303, go-domain/telegramdelivery/delivery.go:45-112).
 */
module TelegramProtocol {
  import opened Prelude
  import opened TelegramStore

  datatype Pc =
    | Begin
    | Next(key: Key)                  // about to reserve this part
    | Holding(key: Key)               // reservation committed, nothing sent yet
    | Posting(key: Key, post: nat)
    | Posted(key: Key, post: nat)
    | Closing(rich: bool)
    | Ended

  datatype Session = Session(owner: Owner, rendering: Rendering, pc: Pc)

  datatype Post = Post(key: Key, owner: Owner)

  datatype Booking = Booking(time: real, owner: Owner)

  /** `richOn` holds the domain instances configured to try the rich message first. */
  datatype World = World(
    db: Db, richOn: set<Uuid>, sessions: map<nat, Session>, log: seq<Post>, ended: map<nat, Result>,
    bookings: seq<Booking>)

  datatype Step =
    | Tick(time: real)
    | Start(sid: nat, owner: Owner, rendering: Rendering)
    | Crash(sid: nat)
    | DoResolve(sid: nat)
    | DoReserve(sid: nat)
    | BeginPost(sid: nat)
    | EndPost(sid: nat, result: Result)
    | DoFinish(sid: nat)
    | DoComplete(sid: nat)

  const RICH := Key(SendRich, 0)

  function Plain(i: nat): Key {
    Key(SendPlain, i)
  }

  predicate ValidKey(r: Rendering, k: Key) {
    match k.via
    case SendRich => k.index == 0
    case SendPlain => k.index < |r.plain|
  }

  function Payload(r: Rendering, k: Key): string {
    match k.via
    case SendRich => r.rich
    case SendPlain => if k.index < |r.plain| then r.plain[k.index] else ""
  }

  function PlainFrom(r: Rendering, i: nat): Pc {
    if i < |r.plain| then Next(Plain(i)) else Closing(false)
  }

  function FirstStep(w: World, x: Session): Pc {
    if x.owner.instance in w.richOn then Next(RICH) else PlainFrom(x.rendering, 0)
  }

  function AfterSent(r: Rendering, k: Key): Pc {
    if k.via == SendRich then Closing(true) else PlainFrom(r, k.index + 1)
  }

  /** Only a definite refusal of the rich message falls back to the plain parts. */
  function AfterRejected(r: Rendering, k: Key): Pc {
    if k.via == SendRich then PlainFrom(r, 0) else Ended
  }

  function Go(w: World, sid: nat, pc: Pc): World
    requires sid in w.sessions
  {
    w.(sessions := w.sessions[sid := w.sessions[sid].(pc := pc)])
  }

  function DoReserveStep(w: World, sid: nat, k: Key): World
    requires sid in w.sessions
  {
    var x := w.sessions[sid];
    match ReserveVerdict(w.db, x.owner, k, Payload(x.rendering, k))
    case New => Go(w, sid, Holding(k)).(db := ReserveTx(w.db, x.owner, k, Payload(x.rendering, k)),
                                        bookings := w.bookings + [Booking(w.db.now, x.owner)])
    case AlreadySent => Go(w, sid, AfterSent(x.rendering, k))
    case PreviouslyRejected => Go(w, sid, AfterRejected(x.rendering, k))
    case _ => Go(w, sid, Ended)
  }

  function FinishStep(w: World, sid: nat, k: Key, r: Result): World
    requires sid in w.sessions
  {
    var x := w.sessions[sid];
    var pc :=
      if !CanFinish(w.db, x.owner, k, Payload(x.rendering, k), r) then Ended
      else if r.state == Sent then AfterSent(x.rendering, k)
      else if r.state == Rejected && r.status != TOO_MANY then AfterRejected(x.rendering, k)
      else Ended;
    Go(w, sid, pc).(db := FinishTx(w.db, x.owner, k, Payload(x.rendering, k), r))
  }

  function CompleteStep(w: World, sid: nat, rich: bool): World
    requires sid in w.sessions
  {
    var x := w.sessions[sid];
    Go(w, sid, Ended).(db := CompleteTx(w.db, x.owner, if rich then 1 else |x.rendering.plain|, rich))
  }

  function Do(w: World, s: Step): World {
    match s
    case Tick(t) => if w.db.now <= t then w.(db := w.db.(now := t)) else w
    case Start(sid, o, r) => if sid in w.sessions then w else w.(sessions := w.sessions[sid := Session(o, r, Begin)])
    case Crash(sid) => if sid in w.sessions then Go(w, sid, Ended) else w
    case DoResolve(sid) =>
      if sid in w.sessions && w.sessions[sid].pc == Begin then
        var x := w.sessions[sid];
        if Resolve(w.db, x.owner, x.rendering) == Open
        then Go(w, sid, FirstStep(w, x)).(db := ResolveTx(w.db, x.owner, x.rendering)) else Go(w, sid, Ended)
      else w
    case DoReserve(sid) =>
      if sid in w.sessions && w.sessions[sid].pc.Next? then DoReserveStep(w, sid, w.sessions[sid].pc.key) else w
    case BeginPost(sid) =>
      if sid in w.sessions && w.sessions[sid].pc.Holding? then
        Go(w, sid, Posting(w.sessions[sid].pc.key, |w.log|))
          .(log := w.log + [Post(w.sessions[sid].pc.key, w.sessions[sid].owner)])
      else w
    case EndPost(sid, r) =>
      if sid in w.sessions && w.sessions[sid].pc.Posting? then
        Go(w, sid, Posted(w.sessions[sid].pc.key, w.sessions[sid].pc.post))
          .(ended := w.ended[w.sessions[sid].pc.post := r])
      else w
    case DoFinish(sid) =>
      if sid in w.sessions && w.sessions[sid].pc.Posted? && w.sessions[sid].pc.post in w.ended
      then FinishStep(w, sid, w.sessions[sid].pc.key, w.ended[w.sessions[sid].pc.post]) else w
    case DoComplete(sid) =>
      if sid in w.sessions && w.sessions[sid].pc.Closing? then CompleteStep(w, sid, w.sessions[sid].pc.rich) else w
  }

  function Run(w: World, steps: seq<Step>): World
    decreases |steps|
  {
    if steps == [] then w else Do(Run(w, steps[..|steps| - 1]), steps[|steps| - 1])
  }

  function Init(richOn: set<Uuid>): World {
    World(Db(0.0, None), richOn, map[], [], map[], [])
  }

  // ---------- the invariant ----------

  predicate Is(parts: map<Key, Receipt>, k: Key, s: ReceiptState) {
    k in parts && parts[k].state == s
  }

  /** Owner `o` is past the rich message: it never tries it, or it was refused for good. */
  predicate Settled(w: World, parts: map<Key, Receipt>, o: Owner) {
    o.instance in w.richOn ==> Is(parts, RICH, Rejected) && !Throttled(parts[RICH])
  }

  predicate SentBelow(parts: map<Key, Receipt>, n: nat, o: Owner) {
    forall i: nat | i < n :: Is(parts, Plain(i), Sent) && parts[Plain(i)].owner == o
  }

  ghost predicate ReceiptOk(w: World, it: Intent, k: Key)
    requires k in it.parts
  {
    && ValidKey(it.rendering, k) && it.parts[k].payload == Payload(it.rendering, k)
    && (Possible(it.parts[k]) ==>
          && it.parts[k].owner == it.owner
          && (k.via == SendRich ==> it.owner.instance in w.richOn)
          && (k.via == SendPlain ==> Settled(w, it.parts, it.owner) && SentBelow(it.parts, k.index, it.owner)))
  }

  ghost predicate OutcomeOk(it: Intent) {
    it.outcome.Some? ==>
      if it.outcome.value.rich then it.outcome.value.count == 1 && Is(it.parts, RICH, Sent)
      else 0 < it.outcome.value.count == |it.rendering.plain| && SentBelow(it.parts, |it.rendering.plain|, it.owner)
  }

  ghost predicate IntentOk(w: World) {
    w.db.intent.Some? ==>
      && (forall k <- w.db.intent.value.parts :: ReceiptOk(w, w.db.intent.value, k))
      && OutcomeOk(w.db.intent.value)
  }

  predicate Engaged(pc: Pc) {
    pc.Holding? || pc.Posting? || pc.Posted?
  }

  predicate Refused(w: World, p: nat) {
    p in w.ended && w.ended[p].state == Rejected
  }

  ghost predicate SessionOk(w: World, x: Session) {
    (x.pc.Next? || x.pc.Closing? || Engaged(x.pc)) ==>
      && w.db.intent.Some? && w.db.intent.value.rendering == x.rendering
      && var parts := w.db.intent.value.parts;
      && (x.pc.Next? || Engaged(x.pc) ==> ValidKey(x.rendering, x.pc.key))
      && (x.pc.Next? ==> if x.pc.key.via == SendRich then x.owner.instance in w.richOn
                         else Settled(w, parts, x.owner) && SentBelow(parts, x.pc.key.index, x.owner))
      && (x.pc == Closing(true) ==> Is(parts, RICH, Sent) && parts[RICH].owner == x.owner)
      && (x.pc == Closing(false) ==> Settled(w, parts, x.owner) && SentBelow(parts, |x.rendering.plain|, x.owner))
      && (Engaged(x.pc) ==> Is(parts, x.pc.key, Sending) && parts[x.pc.key].owner == x.owner)
      && (x.pc.Holding? ==> forall p | 0 <= p < |w.log| && w.log[p].key == x.pc.key :: Refused(w, p))
      && (x.pc.Posting? || x.pc.Posted? ==>
            && x.pc.post < |w.log| && w.log[x.pc.post].key == x.pc.key && (x.pc.Posted? <==> x.pc.post in w.ended)
            && forall p | x.pc.post < p < |w.log| :: w.log[p].key != x.pc.key)
  }

  ghost predicate SessionsOk(w: World) {
    && (forall sid <- w.sessions :: SessionOk(w, w.sessions[sid]))
    && forall a, b | a in w.sessions && b in w.sessions && a != b
                     && Engaged(w.sessions[a].pc) && Engaged(w.sessions[b].pc) ::
         w.sessions[a].pc.key != w.sessions[b].pc.key
  }

  ghost predicate PostOk(w: World, p: nat)
    requires p < |w.log|
  {
    && w.db.intent.Some? && w.log[p].key in w.db.intent.value.parts
    && (Refused(w, p) || Possible(w.db.intent.value.parts[w.log[p].key]))
  }

  ghost predicate PostsOk(w: World) {
    && (forall p | 0 <= p < |w.log| :: PostOk(w, p))
    && (forall p <- w.ended :: p < |w.log|)
    && forall j, p | 0 <= j < p < |w.log| && w.log[j].key == w.log[p].key :: Refused(w, j)
  }

  ghost predicate Inv(w: World) {
    IntentOk(w) && SessionsOk(w) && PostsOk(w)
  }

  // ---------- every step keeps it ----------

  /** A step that touches no receipt and engages no session. */
  lemma QuietKeepsInv(w: World, v: World)
    requires Inv(w) && v.richOn == w.richOn && v.log == w.log && v.ended == w.ended && v.db.intent == w.db.intent
    requires forall sid <- v.sessions ::
               (sid in w.sessions && w.sessions[sid] == v.sessions[sid])
               || (!Engaged(v.sessions[sid].pc) && SessionOk(w, v.sessions[sid]))
    ensures Inv(v)
  {
    forall p | 0 <= p < |v.log| ensures PostOk(v, p) { assert PostOk(w, p); }
    forall k | v.db.intent.Some? && k in v.db.intent.value.parts ensures ReceiptOk(v, v.db.intent.value, k) {
      assert ReceiptOk(w, w.db.intent.value, k);
    }
    forall sid | sid in v.sessions ensures SessionOk(v, v.sessions[sid]) {
      if sid in w.sessions && w.sessions[sid] == v.sessions[sid] { assert SessionOk(w, w.sessions[sid]); }
    }
  }

  /** A receipt that no step changes any more: a sent one, or the rich one refused for good. */
  predicate Firm(k: Key, r: Receipt) {
    r.state == Sent || (k == RICH && r.state == Rejected && !Throttled(r))
  }

  /**
   From `w` to `v` at most the receipt of `key` changed, unless firm, and at most messages of `key` were
   posted or answered.
   */
  ghost predicate Keeps(w: World, v: World, key: Key) {
    && v.richOn == w.richOn
    && (w.db.intent.Some? ==>
          && v.db.intent.Some? && v.db.intent.value.rendering == w.db.intent.value.rendering
          && forall k <- w.db.intent.value.parts :: k != key || Firm(k, w.db.intent.value.parts[k]) ==>
               k in v.db.intent.value.parts && v.db.intent.value.parts[k] == w.db.intent.value.parts[k])
    && |w.log| <= |v.log| && (forall p | 0 <= p < |w.log| :: v.log[p] == w.log[p])
    && (forall p | |w.log| <= p < |v.log| :: v.log[p].key == key)
    && (forall p <- w.ended :: p in v.ended && v.ended[p] == w.ended[p])
    && forall p <- v.ended :: p in w.ended || p >= |w.log| || w.log[p].key == key
  }

  /** A session is not concerned by what happens to another message than its own. */
  lemma OtherStays(w: World, v: World, key: Key, x: Session)
    requires Keeps(w, v, key) && SessionOk(w, x) && (Engaged(x.pc) ==> x.pc.key != key)
    ensures SessionOk(v, x)
  {}

  /** If the moving session is in order and alone with its message, all sessions are. */
  lemma SessionsFrom(w: World, v: World, sid: nat, key: Key)
    requires SessionsOk(w) && Keeps(w, v, key) && sid in v.sessions && SessionOk(v, v.sessions[sid])
    requires forall a <- v.sessions :: a == sid || (a in w.sessions && v.sessions[a] == w.sessions[a])
    requires Engaged(v.sessions[sid].pc) ==> v.sessions[sid].pc.key == key
    requires forall a <- w.sessions :: a != sid && Engaged(w.sessions[a].pc) ==> w.sessions[a].pc.key != key
    ensures SessionsOk(v)
  {
    forall a | a in v.sessions ensures SessionOk(v, v.sessions[a]) {
      if a != sid { OtherStays(w, v, key, w.sessions[a]); }
    }
  }

  /** The same when no message at all is concerned. */
  lemma SessionsFromQuiet(w: World, v: World, sid: nat)
    requires SessionsOk(w) && Keeps(w, v, RICH) && Keeps(w, v, Plain(0)) && sid in v.sessions
    requires SessionOk(v, v.sessions[sid]) && !Engaged(v.sessions[sid].pc)
    requires forall a <- v.sessions :: a == sid || (a in w.sessions && v.sessions[a] == w.sessions[a])
    ensures SessionsOk(v)
  {
    forall a | a in v.sessions ensures SessionOk(v, v.sessions[a]) {
      if a != sid {
        var pc := w.sessions[a].pc;
        OtherStays(w, v, if Engaged(pc) && pc.key == RICH then Plain(0) else RICH, w.sessions[a]);
      }
    }
  }

  /** A message that one session holds is held by no other. */
  lemma OthersDiffer(w: World, sid: nat)
    requires SessionsOk(w) && sid in w.sessions && Engaged(w.sessions[sid].pc)
    ensures forall a <- w.sessions ::
              a != sid && Engaged(w.sessions[a].pc) ==> w.sessions[a].pc.key != w.sessions[sid].pc.key
  {}

  lemma ResolveKeepsIntent(w: World, sid: nat)
    requires Inv(w) && sid in w.sessions && w.sessions[sid].pc == Begin
    requires Resolve(w.db, w.sessions[sid].owner, w.sessions[sid].rendering) == Open
    ensures IntentOk(Do(w, DoResolve(sid))) && PostsOk(Do(w, DoResolve(sid)))
  {
    var v := Do(w, DoResolve(sid));
    forall k | k in v.db.intent.value.parts ensures ReceiptOk(v, v.db.intent.value, k) {
      assert ReceiptOk(w, w.db.intent.value, k);
    }
    forall p | 0 <= p < |v.log| ensures PostOk(v, p) { assert PostOk(w, p); }
  }

  lemma ResolveKeepsOwn(w: World, sid: nat)
    requires sid in w.sessions && w.sessions[sid].pc == Begin
    requires Resolve(w.db, w.sessions[sid].owner, w.sessions[sid].rendering) == Open
    ensures var v := Do(w, DoResolve(sid)); SessionOk(v, v.sessions[sid]) && !Engaged(v.sessions[sid].pc)
  {}

  /** An opened or taken over intent keeps its receipts, so any key will do. */
  lemma ResolveKeeps(w: World, sid: nat, key: Key)
    requires sid in w.sessions && w.sessions[sid].pc == Begin
    requires Resolve(w.db, w.sessions[sid].owner, w.sessions[sid].rendering) == Open
    requires forall p <- w.ended :: p < |w.log|
    ensures Keeps(w, Do(w, DoResolve(sid)), key)
  {}

  lemma ResolveKeepsSessions(w: World, sid: nat)
    requires Inv(w) && sid in w.sessions && w.sessions[sid].pc == Begin
    requires Resolve(w.db, w.sessions[sid].owner, w.sessions[sid].rendering) == Open
    ensures SessionsOk(Do(w, DoResolve(sid)))
  {
    ResolveKeeps(w, sid, RICH);
    ResolveKeeps(w, sid, Plain(0));
    ResolveKeepsOwn(w, sid);
    SessionsFromQuiet(w, Do(w, DoResolve(sid)), sid);
  }

  lemma ResolveKeepsInv(w: World, sid: nat)
    requires Inv(w) && sid in w.sessions && w.sessions[sid].pc == Begin
    requires Resolve(w.db, w.sessions[sid].owner, w.sessions[sid].rendering) == Open
    ensures Inv(Do(w, DoResolve(sid)))
  {
    ResolveKeepsIntent(w, sid);
    ResolveKeepsSessions(w, sid);
  }

  ghost predicate Wins(w: World, sid: nat) {
    && sid in w.sessions && w.sessions[sid].pc.Next?
    && var x := w.sessions[sid]; ReserveVerdict(w.db, x.owner, x.pc.key, Payload(x.rendering, x.pc.key)) == New
  }

  lemma ReserveKeepsIntent(w: World, sid: nat)
    requires Inv(w) && Wins(w, sid)
    ensures IntentOk(Do(w, DoReserve(sid)))
  {
    var v := Do(w, DoReserve(sid));
    var key := w.sessions[sid].pc.key;
    assert SessionOk(w, w.sessions[sid]);
    var it := v.db.intent.value;
    forall k | k in it.parts ensures ReceiptOk(v, it, k) {
      if k != key { assert ReceiptOk(w, w.db.intent.value, k); }
    }
  }

  lemma ReserveKeeps(w: World, sid: nat)
    requires Wins(w, sid) && forall p <- w.ended :: p < |w.log|
    ensures Keeps(w, Do(w, DoReserve(sid)), w.sessions[sid].pc.key)
  {}

  lemma ReserveKeepsOwn(w: World, sid: nat)
    requires PostsOk(w) && Wins(w, sid) && SessionOk(w, w.sessions[sid])
    ensures var v := Do(w, DoReserve(sid));
            SessionOk(v, v.sessions[sid]) && v.sessions[sid].pc == Holding(w.sessions[sid].pc.key)
  {
    var key := w.sessions[sid].pc.key;
    forall p | 0 <= p < |w.log| && w.log[p].key == key ensures Refused(w, p) { assert PostOk(w, p); }
  }

  /** A message that can be reserved is in nobody's hands. */
  lemma WonIsFree(w: World, sid: nat)
    requires SessionsOk(w) && Wins(w, sid)
    ensures forall a <- w.sessions ::
              a != sid && Engaged(w.sessions[a].pc) ==> w.sessions[a].pc.key != w.sessions[sid].pc.key
  {
    forall a | a in w.sessions && Engaged(w.sessions[a].pc) ensures w.sessions[a].pc.key != w.sessions[sid].pc.key {
      assert SessionOk(w, w.sessions[a]);
    }
  }

  lemma ReserveKeepsSessions(w: World, sid: nat)
    requires Inv(w) && Wins(w, sid)
    ensures SessionsOk(Do(w, DoReserve(sid)))
  {
    ReserveKeeps(w, sid);
    assert SessionOk(w, w.sessions[sid]);
    ReserveKeepsOwn(w, sid);
    WonIsFree(w, sid);
    SessionsFrom(w, Do(w, DoReserve(sid)), sid, w.sessions[sid].pc.key);
  }

  lemma ReserveKeepsPosts(w: World, sid: nat)
    requires Inv(w) && Wins(w, sid)
    ensures PostsOk(Do(w, DoReserve(sid)))
  {
    var v := Do(w, DoReserve(sid));
    forall p | 0 <= p < |v.log| ensures PostOk(v, p) { assert PostOk(w, p); }
  }

  /** A reservation that is not granted leads to a place that the receipts justify. */
  lemma LosesQuietly(w: World, sid: nat)
    requires sid in w.sessions && w.sessions[sid].pc.Next? && !Wins(w, sid) && SessionOk(w, w.sessions[sid])
    requires w.sessions[sid].pc.key in w.db.intent.value.parts ==>
               ReceiptOk(w, w.db.intent.value, w.sessions[sid].pc.key)
    ensures var v := Do(w, DoReserve(sid));
            && SessionOk(w, v.sessions[sid]) && !Engaged(v.sessions[sid].pc)
            && v == w.(sessions := w.sessions[sid := v.sessions[sid]])
  {
    var x := w.sessions[sid];
    match ReserveVerdict(w.db, x.owner, x.pc.key, Payload(x.rendering, x.pc.key))
    case AlreadySent => KnownSentLeads(w, x);
    case PreviouslyRejected => KnownRefusalLeads(w, x);
    case _ =>
  }

  lemma KnownSentLeads(w: World, x: Session)
    requires x.pc.Next? && SessionOk(w, x)
    requires ReserveVerdict(w.db, x.owner, x.pc.key, Payload(x.rendering, x.pc.key)) == AlreadySent
    requires ReceiptOk(w, w.db.intent.value, x.pc.key)
    ensures SessionOk(w, x.(pc := AfterSent(x.rendering, x.pc.key)))
  {}

  lemma KnownRefusalLeads(w: World, x: Session)
    requires x.pc.Next? && SessionOk(w, x)
    requires ReserveVerdict(w.db, x.owner, x.pc.key, Payload(x.rendering, x.pc.key)) == PreviouslyRejected
    ensures SessionOk(w, x.(pc := AfterRejected(x.rendering, x.pc.key)))
  {}

  lemma DoReserveKeepsInv(w: World, sid: nat)
    requires Inv(w) && sid in w.sessions && w.sessions[sid].pc.Next?
    ensures Inv(Do(w, DoReserve(sid)))
  {
    if Wins(w, sid) {
      ReserveKeepsIntent(w, sid);
      ReserveKeepsSessions(w, sid);
      ReserveKeepsPosts(w, sid);
    } else {
      assert SessionOk(w, w.sessions[sid]);
      LosesQuietly(w, sid);
      QuietKeepsInv(w, Do(w, DoReserve(sid)));
    }
  }

  lemma BeginPostKeepsIntent(w: World, sid: nat)
    requires IntentOk(w) && sid in w.sessions && w.sessions[sid].pc.Holding?
    ensures IntentOk(Do(w, BeginPost(sid)))
  {
    var v := Do(w, BeginPost(sid));
    if v.db.intent.Some? {
      forall k | k in v.db.intent.value.parts ensures ReceiptOk(v, v.db.intent.value, k) {
        assert ReceiptOk(w, w.db.intent.value, k);
      }
    }
  }

  lemma BeginPostKeepsPosts(w: World, sid: nat)
    requires PostsOk(w) && sid in w.sessions && w.sessions[sid].pc.Holding? && SessionOk(w, w.sessions[sid])
    ensures PostsOk(Do(w, BeginPost(sid)))
  {
    var v := Do(w, BeginPost(sid));
    forall p | 0 <= p < |v.log| ensures PostOk(v, p) { if p < |w.log| { assert PostOk(w, p); } }
  }

  lemma BeginPostKeepsSessions(w: World, sid: nat)
    requires SessionsOk(w) && PostsOk(w) && sid in w.sessions && w.sessions[sid].pc.Holding?
    ensures SessionsOk(Do(w, BeginPost(sid)))
  {
    assert SessionOk(w, w.sessions[sid]);
    OthersDiffer(w, sid);
    SessionsFrom(w, Do(w, BeginPost(sid)), sid, w.sessions[sid].pc.key);
  }

  lemma BeginPostKeepsInv(w: World, sid: nat)
    requires Inv(w) && sid in w.sessions && w.sessions[sid].pc.Holding?
    ensures Inv(Do(w, BeginPost(sid)))
  {
    assert SessionOk(w, w.sessions[sid]);
    BeginPostKeepsIntent(w, sid);
    BeginPostKeepsSessions(w, sid);
    BeginPostKeepsPosts(w, sid);
  }

  lemma EndPostKeepsIntent(w: World, sid: nat, r: Result)
    requires Inv(w) && sid in w.sessions && w.sessions[sid].pc.Posting?
    ensures IntentOk(Do(w, EndPost(sid, r))) && PostsOk(Do(w, EndPost(sid, r)))
  {
    var v := Do(w, EndPost(sid, r));
    assert SessionOk(w, w.sessions[sid]);
    forall k | k in v.db.intent.value.parts ensures ReceiptOk(v, v.db.intent.value, k) {
      assert ReceiptOk(w, w.db.intent.value, k);
    }
    forall p | 0 <= p < |v.log| ensures PostOk(v, p) { assert PostOk(w, p); }
  }

  lemma EndPostKeepsSessions(w: World, sid: nat, r: Result)
    requires SessionsOk(w) && PostsOk(w) && sid in w.sessions && w.sessions[sid].pc.Posting?
    ensures SessionsOk(Do(w, EndPost(sid, r)))
  {
    assert SessionOk(w, w.sessions[sid]);
    OthersDiffer(w, sid);
    SessionsFrom(w, Do(w, EndPost(sid, r)), sid, w.sessions[sid].pc.key);
  }

  lemma EndPostKeepsInv(w: World, sid: nat, r: Result)
    requires Inv(w) && sid in w.sessions && w.sessions[sid].pc.Posting?
    ensures Inv(Do(w, EndPost(sid, r)))
  {
    EndPostKeepsIntent(w, sid, r);
    EndPostKeepsSessions(w, sid, r);
  }

  ghost predicate Answered(w: World, sid: nat) {
    && sid in w.sessions && w.sessions[sid].pc.Posted? && w.sessions[sid].pc.post in w.ended
    && var x := w.sessions[sid];
    CanFinish(w.db, x.owner, x.pc.key, Payload(x.rendering, x.pc.key), w.ended[x.pc.post])
  }

  lemma FinishKeepsIntent(w: World, sid: nat)
    requires Inv(w) && Answered(w, sid)
    ensures IntentOk(Do(w, DoFinish(sid)))
  {
    var v := Do(w, DoFinish(sid));
    assert SessionOk(w, w.sessions[sid]);
    forall k | k in v.db.intent.value.parts ensures ReceiptOk(v, v.db.intent.value, k) {
      assert ReceiptOk(w, w.db.intent.value, k);
    }
  }

  lemma FinishKeeps(w: World, sid: nat)
    requires Answered(w, sid) && forall p <- w.ended :: p < |w.log|
    ensures Keeps(w, Do(w, DoFinish(sid)), w.sessions[sid].pc.key)
  {}

  lemma FinishKeepsOwn(w: World, sid: nat)
    requires Answered(w, sid) && SessionOk(w, w.sessions[sid])
    requires ReceiptOk(w, w.db.intent.value, w.sessions[sid].pc.key)
    ensures var v := Do(w, DoFinish(sid)); SessionOk(v, v.sessions[sid]) && !Engaged(v.sessions[sid].pc)
  {}

  lemma FinishKeepsSessions(w: World, sid: nat)
    requires Inv(w) && Answered(w, sid)
    ensures SessionsOk(Do(w, DoFinish(sid)))
  {
    FinishKeeps(w, sid);
    assert SessionOk(w, w.sessions[sid]) && ReceiptOk(w, w.db.intent.value, w.sessions[sid].pc.key);
    FinishKeepsOwn(w, sid);
    OthersDiffer(w, sid);
    SessionsFrom(w, Do(w, DoFinish(sid)), sid, w.sessions[sid].pc.key);
  }

  lemma FinishKeepsPosts(w: World, sid: nat)
    requires Inv(w) && Answered(w, sid)
    ensures PostsOk(Do(w, DoFinish(sid)))
  {
    var v := Do(w, DoFinish(sid));
    assert SessionOk(w, w.sessions[sid]);
    forall p | 0 <= p < |v.log| ensures PostOk(v, p) { assert PostOk(w, p); }
  }

  lemma CompleteKeepsIntent(w: World, sid: nat)
    requires Inv(w) && sid in w.sessions && w.sessions[sid].pc.Closing?
    ensures IntentOk(Do(w, DoComplete(sid))) && PostsOk(Do(w, DoComplete(sid)))
  {
    var v := Do(w, DoComplete(sid));
    assert SessionOk(w, w.sessions[sid]);
    forall k | k in v.db.intent.value.parts ensures ReceiptOk(v, v.db.intent.value, k) {
      assert ReceiptOk(w, w.db.intent.value, k);
    }
    forall p | 0 <= p < |v.log| ensures PostOk(v, p) { assert PostOk(w, p); }
  }

  lemma CompleteKeeps(w: World, sid: nat, key: Key)
    requires sid in w.sessions && w.sessions[sid].pc.Closing? && forall p <- w.ended :: p < |w.log|
    ensures var v := Do(w, DoComplete(sid)); Keeps(w, v, key) && v.sessions[sid].pc == Ended
  {}

  lemma CompleteKeepsSessions(w: World, sid: nat)
    requires Inv(w) && sid in w.sessions && w.sessions[sid].pc.Closing?
    ensures SessionsOk(Do(w, DoComplete(sid)))
  {
    CompleteKeeps(w, sid, RICH);
    CompleteKeeps(w, sid, Plain(0));
    SessionsFromQuiet(w, Do(w, DoComplete(sid)), sid);
  }

  lemma CompleteKeepsInv(w: World, sid: nat)
    requires Inv(w) && sid in w.sessions && w.sessions[sid].pc.Closing?
    ensures Inv(Do(w, DoComplete(sid)))
  {
    CompleteKeepsIntent(w, sid);
    CompleteKeepsSessions(w, sid);
  }

  lemma DoResolveKeepsInv(w: World, sid: nat)
    requires Inv(w) && sid in w.sessions && w.sessions[sid].pc == Begin
    ensures Inv(Do(w, DoResolve(sid)))
  {
    if Resolve(w.db, w.sessions[sid].owner, w.sessions[sid].rendering) == Open {
      ResolveKeepsInv(w, sid);
    } else {
      QuietKeepsInv(w, Do(w, DoResolve(sid)));
    }
  }

  lemma DoFinishKeepsInv(w: World, sid: nat)
    requires Inv(w) && sid in w.sessions && w.sessions[sid].pc.Posted? && w.sessions[sid].pc.post in w.ended
    ensures Inv(Do(w, DoFinish(sid)))
  {
    if Answered(w, sid) {
      FinishKeepsIntent(w, sid);
      FinishKeepsSessions(w, sid);
      FinishKeepsPosts(w, sid);
    } else {
      QuietKeepsInv(w, Do(w, DoFinish(sid)));
    }
  }

  lemma DoKeepsInv(w: World, s: Step)
    requires Inv(w)
    ensures Inv(Do(w, s))
  {
    var v := Do(w, s);
    if v == w { return; }
    match s
    case DoResolve(sid) =>
      DoResolveKeepsInv(w, sid);
    case DoReserve(sid) => DoReserveKeepsInv(w, sid);
    case BeginPost(sid) => BeginPostKeepsInv(w, sid);
    case EndPost(sid, r) => EndPostKeepsInv(w, sid, r);
    case DoFinish(sid) =>
      DoFinishKeepsInv(w, sid);
    case DoComplete(sid) => CompleteKeepsInv(w, sid);
    case _ => QuietKeepsInv(w, v);
  }

  /** The invariant holds after every run, however sessions and owners interleave. */
  lemma {:induction false} RunKeepsInv(w: World, steps: seq<Step>)
    requires Inv(w)
    ensures Inv(Run(w, steps))
    decreases |steps|
  {
    if steps != [] {
      RunKeepsInv(w, steps[..|steps| - 1]);
      DoKeepsInv(Run(w, steps[..|steps| - 1]), steps[|steps| - 1]);
    }
  }

  // ---------- guarantees ----------

  ghost function Reached(richOn: set<Uuid>, steps: seq<Step>): World {
    Run(Init(richOn), steps)
  }

  lemma ReachedInv(richOn: set<Uuid>, steps: seq<Step>)
    ensures Inv(Reached(richOn, steps))
  {
    RunKeepsInv(Init(richOn), steps);
  }

  /** The keys whose messages may be with the recipient. */
  function PossibleKeys(it: Intent): set<Key> {
    set k | k in it.parts && Possible(it.parts[k])
  }

  /** `ks` is nothing but the rich message, or exactly the first plain parts. */
  ghost predicate RichOrPrefix(ks: set<Key>) {
    ks == {RICH} || exists n :: FirstPlain(ks, n)
  }

  ghost predicate FirstPlain(ks: set<Key>, n: nat) {
    forall k :: k in ks <==> k.via == SendPlain && k.index < n
  }

  lemma {:induction false} PrefixOf(it: Intent, n: nat)
    requires forall k <- PossibleKeys(it) :: k.via == SendPlain
    requires forall k <- PossibleKeys(it) :: SentBelow(it.parts, k.index, it.owner)
    requires n <= |it.rendering.plain| && forall i: nat | i < n :: Plain(i) in PossibleKeys(it)
    requires forall k <- PossibleKeys(it) :: k.index < |it.rendering.plain|
    ensures RichOrPrefix(PossibleKeys(it))
    decreases |it.rendering.plain| - n
  {
    var ks := PossibleKeys(it);
    if Plain(n) in ks {
      PrefixOf(it, n + 1);
    } else {
      forall k ensures k in ks <==> k.via == SendPlain && k.index < n {
        assert k in ks && k.index > n ==> Is(it.parts, Plain(n), Sent);
        if k.via == SendPlain { assert k == Plain(k.index); }
      }
      assert FirstPlain(ks, n);
    }
  }

  /**
   Whatever may have been delivered belongs to the current owner, and is only the rich
   message or only a prefix of the plain parts.
   */
  lemma DeliveredIsRichOrPrefix(richOn: set<Uuid>, steps: seq<Step>)
    requires Reached(richOn, steps).db.intent.Some?
    ensures var it := Reached(richOn, steps).db.intent.value;
            && RichOrPrefix(PossibleKeys(it))
            && forall k <- PossibleKeys(it) :: it.parts[k].owner == it.owner
  {
    ReachedInv(richOn, steps);
    var w := Reached(richOn, steps);
    var it := w.db.intent.value;
    var ks := PossibleKeys(it);
    forall k | k in ks ensures ReceiptOk(w, it, k) {}
    if RICH in ks {
      forall k | k in ks ensures k == RICH { assert ReceiptOk(w, it, k) && ReceiptOk(w, it, RICH); }
      assert ks == {RICH};
    } else {
      forall k | k in ks ensures k.via == SendPlain { assert ReceiptOk(w, it, k); }
      PrefixOf(it, 0);
    }
  }

  /** A message is posted again only after the network refused every earlier post of it. */
  lemma NeverRepeated(richOn: set<Uuid>, steps: seq<Step>, j: nat, p: nat)
    requires var w := Reached(richOn, steps); j < p < |w.log| && w.log[j].key == w.log[p].key
    ensures Refused(Reached(richOn, steps), j)
  {
    ReachedInv(richOn, steps);
  }

  /** Completion records only what was confirmed: the rich message, or every plain part. */
  lemma CompletedMeansSent(richOn: set<Uuid>, steps: seq<Step>)
    requires Reached(richOn, steps).db.intent.Some? && Reached(richOn, steps).db.intent.value.outcome.Some?
    ensures var it := Reached(richOn, steps).db.intent.value;
            if it.outcome.value.rich then it.outcome.value.count == 1 && Is(it.parts, RICH, Sent)
            else it.outcome.value.count == |it.rendering.plain|
                 && forall i: nat | i < |it.rendering.plain| :: Is(it.parts, Plain(i), Sent)
  {
    ReachedInv(richOn, steps);
  }

  /** Once completed, whatever may be with the recipient is known to be. */
  lemma CompletedRow(w: World, k: Key)
    requires Inv(w) && w.db.intent.Some? && w.db.intent.value.outcome.Some? && k in w.db.intent.value.parts
    ensures Possible(w.db.intent.value.parts[k]) ==> w.db.intent.value.parts[k].state == Sent
  {
    var it := w.db.intent.value;
    assert ReceiptOk(w, it, k);
    if k.via == SendPlain {
      assert k == Plain(k.index);
    } else if !it.outcome.value.rich {
      assert Is(it.parts, Plain(0), Sent);
      assert ReceiptOk(w, it, Plain(0));
    }
  }

  lemma CompletedIsQuiet(w: World, sid: nat)
    requires Inv(w) && w.db.intent.Some? && w.db.intent.value.outcome.Some? && sid in w.sessions
    ensures !w.sessions[sid].pc.Holding?
  {
    var x := w.sessions[sid];
    assert SessionOk(w, x);
    if x.pc.Holding? { CompletedRow(w, x.pc.key); }
  }

  lemma CompletedStep(w: World, s: Step)
    requires Inv(w) && w.db.intent.Some? && w.db.intent.value.outcome.Some?
    ensures var v := Do(w, s); v.log == w.log && v.db.intent == w.db.intent
  {
    if s.BeginPost? && s.sid in w.sessions { CompletedIsQuiet(w, s.sid); }
  }

  /** Nothing is posted after completion, and completion is final. */
  lemma {:induction false} NothingAfterCompletion(w: World, steps: seq<Step>)
    requires Inv(w) && w.db.intent.Some? && w.db.intent.value.outcome.Some?
    ensures var v := Run(w, steps); v.log == w.log && v.db.intent == w.db.intent
    decreases |steps|
  {
    if steps != [] {
      NothingAfterCompletion(w, steps[..|steps| - 1]);
      RunKeepsInv(w, steps[..|steps| - 1]);
      CompletedStep(Run(w, steps[..|steps| - 1]), steps[|steps| - 1]);
    }
  }

  // ---------- rate limits ----------

  /** Part `k` carries a 429 of owner `o`, received at `at`, with the given pause. */
  predicate Limited(w: World, k: Key, o: Owner, at: real, pause: real) {
    && w.db.intent.Some? && k in w.db.intent.value.parts
    && var r := w.db.intent.value.parts[k];
    Throttled(r) && r.owner == o && r.updatedAt == at && r.retryAfter == Some(pause)
  }

  /** What a step does to the reservations, and to a receipt that carries a 429. */
  ghost predicate Paused(w: World, v: World, k: Key, o: Owner, at: real, pause: real) {
    if v.bookings == w.bookings then Limited(v, k, o, at, pause)
    else
      |v.bookings| == |w.bookings| + 1 && v.bookings[..|w.bookings|] == w.bookings
      && v.bookings[|w.bookings|].time >= at + pause && v.bookings[|w.bookings|].owner != o
  }

  lemma LimitedReserve(w: World, sid: nat, k: Key, o: Owner, at: real, pause: real)
    requires Limited(w, k, o, at, pause)
    ensures Paused(w, Do(w, DoReserve(sid)), k, o, at, pause)
  {}

  lemma LimitedFinish(w: World, sid: nat, k: Key, o: Owner, at: real, pause: real)
    requires Limited(w, k, o, at, pause) && (sid in w.sessions ==> SessionOk(w, w.sessions[sid]))
    ensures Paused(w, Do(w, DoFinish(sid)), k, o, at, pause)
  {}

  lemma LimitedStep(w: World, s: Step, k: Key, o: Owner, at: real, pause: real)
    requires SessionsOk(w) && Limited(w, k, o, at, pause)
    ensures Paused(w, Do(w, s), k, o, at, pause)
  {
    match s
    case DoReserve(sid) => LimitedReserve(w, sid, k, o, at, pause);
    case DoFinish(sid) => LimitedFinish(w, sid, k, o, at, pause);
    case _ =>
  }

  /** Reservations are only ever added. */
  lemma BookingsGrow(w: World, s: Step)
    ensures w.bookings <= Do(w, s).bookings
  {}

  lemma PausedThen(w: World, u: World, v: World, k: Key, o: Owner, at: real, pause: real)
    requires w.bookings <= u.bookings <= v.bookings
    requires if |u.bookings| == |w.bookings| then Paused(u, v, k, o, at, pause) else NextIsLater(w, u, o, at, pause)
    ensures if |v.bookings| == |w.bookings| then Limited(v, k, o, at, pause) else NextIsLater(w, v, o, at, pause)
  {}

  /** The first reservation after those of `w` respects the pause and comes from somebody else. */
  predicate NextIsLater(w: World, v: World, o: Owner, at: real, pause: real) {
    |w.bookings| < |v.bookings| && v.bookings[|w.bookings|].time >= at + pause && v.bookings[|w.bookings|].owner != o
  }

  lemma PausedStep(w: World, u: World, s: Step, k: Key, o: Owner, at: real, pause: real)
    requires Inv(u) && w.bookings <= u.bookings
    requires if |u.bookings| == |w.bookings| then Limited(u, k, o, at, pause) else NextIsLater(w, u, o, at, pause)
    ensures var v := Do(u, s);
            && w.bookings <= v.bookings
            && if |v.bookings| == |w.bookings| then Limited(v, k, o, at, pause) else NextIsLater(w, v, o, at, pause)
  {
    BookingsGrow(u, s);
    if |u.bookings| == |w.bookings| { LimitedStep(u, s, k, o, at, pause); }
    PausedThen(w, u, Do(u, s), k, o, at, pause);
  }

  /**
   After a 429 the next reservation of any part of the intent, by any session, comes
   only after the announced pause and never from the owner that was refused.
   */
  lemma {:induction false} RateLimitPausesIntent(w: World, steps: seq<Step>, k: Key, o: Owner, at: real, pause: real)
    requires Inv(w) && Limited(w, k, o, at, pause)
    ensures var v := Run(w, steps);
            && w.bookings <= v.bookings
            && if |v.bookings| == |w.bookings| then Limited(v, k, o, at, pause) else NextIsLater(w, v, o, at, pause)
    decreases |steps|
  {
    if steps != [] {
      var u := Run(w, steps[..|steps| - 1]);
      RateLimitPausesIntent(w, steps[..|steps| - 1], k, o, at, pause);
      RunKeepsInv(w, steps[..|steps| - 1]);
      PausedStep(w, u, steps[|steps| - 1], k, o, at, pause);
    }
  }

  /** A plain part has been sent, and the owner of the intent has been refused another one with a 429. */
  predicate Stuck(w: World, i: nat, j: nat) {
    && w.db.intent.Some? && w.db.intent.value.outcome.None?
    && var it := w.db.intent.value;
    && Plain(i) in it.parts && it.parts[Plain(i)].state == Sent
    && Plain(j) in it.parts && it.parts[Plain(j)].state == Rejected && it.parts[Plain(j)].status == Some(429)
    && it.parts[Plain(j)].owner == it.owner
  }

  /** No session of the owner has all its messages sent. */
  lemma StuckIsNotClosing(w: World, i: nat, j: nat, x: Session)
    requires IntentOk(w) && SessionOk(w, x) && Stuck(w, i, j) && x.owner == w.db.intent.value.owner
    ensures !x.pc.Closing?
  {
    var it := w.db.intent.value;
    assert ReceiptOk(w, it, Plain(i)) && ReceiptOk(w, it, Plain(j));
  }

  lemma StuckReserve(w: World, sid: nat, i: nat, j: nat)
    requires Stuck(w, i, j)
    ensures var v := Do(w, DoReserve(sid)); Stuck(v, i, j) && v.bookings == w.bookings
  {}

  lemma StuckComplete(w: World, sid: nat, i: nat, j: nat)
    requires Inv(w) && Stuck(w, i, j)
    ensures Stuck(Do(w, DoComplete(sid)), i, j)
  {
    if sid in w.sessions && w.sessions[sid].owner == w.db.intent.value.owner {
      StuckIsNotClosing(w, i, j, w.sessions[sid]);
    }
  }

  lemma StuckResolve(w: World, sid: nat, i: nat, j: nat)
    requires Stuck(w, i, j)
    ensures var v := Do(w, DoResolve(sid)); Stuck(v, i, j) && v.bookings == w.bookings
  {}

  lemma StuckFinish(w: World, sid: nat, i: nat, j: nat)
    requires Stuck(w, i, j)
    ensures var v := Do(w, DoFinish(sid)); Stuck(v, i, j) && v.bookings == w.bookings
  {}

  lemma StuckStep(w: World, s: Step, i: nat, j: nat)
    requires Inv(w) && Stuck(w, i, j)
    ensures var v := Do(w, s); Stuck(v, i, j) && v.bookings == w.bookings
  {
    match s
    case DoResolve(sid) => StuckResolve(w, sid, i, j);
    case DoReserve(sid) => StuckReserve(w, sid, i, j);
    case DoFinish(sid) => StuckFinish(w, sid, i, j);
    case DoComplete(sid) => StuckComplete(w, sid, i, j);
    case _ =>
  }

  /**
   A 429 after a sent part is never got over: its owner stays refused and nobody else gets the
   intent, so that no message is ever reserved again and the intent is never completed.
   */
  lemma {:induction false} RateLimitAfterSentIsFinal(w: World, steps: seq<Step>, i: nat, j: nat)
    requires Inv(w) && Stuck(w, i, j)
    ensures var v := Run(w, steps); Stuck(v, i, j) && v.bookings == w.bookings
    decreases |steps|
  {
    if steps != [] {
      RateLimitAfterSentIsFinal(w, steps[..|steps| - 1], i, j);
      RunKeepsInv(w, steps[..|steps| - 1]);
      StuckStep(Run(w, steps[..|steps| - 1]), steps[|steps| - 1], i, j);
    }
  }
}
