/**
 The rows behind Viber delivery and the transactions on them
 (go-domain/viberdelivery/postgres.go and go-domain/viberdelivery/testsend.go).

 Each transaction is a function from one database value to the next, with one
 reading of the database clock; class `Database` performs the same transactions
 row by row.  Hashes are taken to be injective, so a payload hash is the text
 itself and a render hash is the list of texts.  Times are whole seconds.
 */
module ViberStore {
  import opened Prelude
  import opened TextSize

  datatype PartState = Pending | Sending | Sent | Rejected | Unknown

  datatype DeliveryState =
    | WaitingEdition | Ready | DSending | RetryWait | Completed | DRejected
    | DeliveryUnknown | Exhausted | ConfigurationChanged | Cancelled

  /** The (job, attempt, domain instance) triple that owns a reservation. */
  datatype Owner = Owner(job: Uuid, attempt: nat, instance: Uuid)

  datatype Part = Part(text: string, state: PartState, attempts: nat, owner: Option<Owner>)

  datatype Delivery = Delivery(
    channel: Uuid, sender: Uuid, credential: int, enabledFrom: int, createdAt: int,
    state: DeliveryState, renderVersion: Option<string>, parts: seq<Part>,
    lastJob: Option<Uuid>, owner: Option<Owner>, nextDispatchAt: int, dispatches: nat)

  /** viber_channel_leases: who may post on a channel, and from when. */
  datatype Lease = Lease(
    delivery: Option<Uuid>, test: Option<Uuid>, until: Option<int>,
    nextPostAt: int, cooldownUntil: int)

  datatype Test = Test(channel: Uuid, sender: Uuid, settingsRevision: int, credential: int, state: PartState)

  /** viber_settings, operational_delivery_enabled and the stored credential. */
  datatype Settings = Settings(
    operational: bool, deliveryEnabled: bool, enabledFrom: int, channel: Uuid, sender: Uuid,
    credential: int, verified: int, webhookReady: bool, verifiedAt: bool, revision: int,
    stored: int, configured: bool)

  datatype Db = Db(
    now: int, deliveries: map<Uuid, Delivery>, leases: map<Uuid, Lease>,
    tests: map<Uuid, Test>, settings: Settings)

  datatype ResultState = RSent | RRejected | RUnknown

  datatype Result = Result(state: ResultState, token: string, status: int, apiStatus: int, retryAfter: int)

  datatype Reservation = Reserved | AlreadySent | Wait | InFlight | Failed

  /** The empty channel or sender identifier. */
  const UNSET: Uuid := 0

  const LEASE: int := 60
  const SPACING: int := 1
  const DAY: int := 86400
  const HOUR: int := 3600
  const MAX_PARTS: int := 512
  const MAX_PART_BYTES: int := 0x10_0000
  const MAX_ATTEMPTS: int := 3

  // ---------- row predicates ----------

  /** currentBinding without the operational switch. */
  predicate Bound(s: Settings, d: Delivery) {
    && s.deliveryEnabled && s.credential == d.credential && s.verified == d.credential && s.webhookReady
    && s.channel == d.channel && s.sender == d.sender && s.enabledFrom == d.enabledFrom
    && s.stored == d.credential && s.configured
  }

  predicate Open(d: Delivery) {
    d.state == Ready || d.state == RetryWait
  }

  predicate AllSent(parts: seq<Part>) {
    forall p <- parts :: p.state == Sent
  }

  /** The NOT EXISTS guard of Reserve: everything earlier is sent and nothing is uncertain. */
  predicate NextInLine(parts: seq<Part>, index: nat) {
    && (forall i | 0 <= i < |parts| && i < index :: parts[i].state == Sent)
    && forall p <- parts :: p.state != Sending && p.state != Unknown
  }

  function LeaseOf(db: Db, channel: Uuid): Lease {
    if channel in db.leases then db.leases[channel] else Lease(None, None, None, db.now, db.now)
  }

  predicate Expired(l: Lease, now: int) {
    l.until.Some? && l.until.value <= now
  }

  predicate FreeFor(l: Lease, id: Uuid, now: int) {
    && (l.test.None? || Expired(l, now))
    && (l.delivery.None? || l.delivery.value == id || Expired(l, now))
    && l.nextPostAt <= now && l.cooldownUntil <= now
  }

  predicate FreeForTest(l: Lease, now: int) {
    && (l.until.None? || l.until.value <= now)
    && l.nextPostAt <= now && l.cooldownUntil <= now
  }

  /** The row pair that Finish and CheckSendAuthority lock: both sending, both owned by `o`. */
  predicate OwnsSending(db: Db, id: Uuid, index: nat, o: Owner) {
    && id in db.deliveries
    && var d := db.deliveries[id];
    && d.state == DSending && d.lastJob == Some(o.job) && d.owner == Some(o)
    && index < |d.parts| && d.parts[index].state == Sending && d.parts[index].owner == Some(o)
  }

  predicate RateLimited(r: Result) {
    r.status == 429 || r.apiStatus == 12
  }

  predicate WellFormed(r: Result) {
    r.state == RSent ==> r.token != ""
  }

  function AfterPost(s: ResultState): PartState {
    match s
    case RSent => Sent
    case RRejected => Rejected
    case RUnknown => Unknown
  }

  /** The delivery state that Finish records once the part carries its result. */
  function Disposition(parts: seq<Part>, attempts: nat, r: Result): DeliveryState {
    match r.state
    case RUnknown => DeliveryUnknown
    case RSent => if AllSent(parts) then Completed else Ready
    case RRejected =>
      if !RateLimited(r) then DRejected else if attempts >= MAX_ATTEMPTS then Exhausted else RetryWait
  }

  function Delay(s: DeliveryState, attempts: nat, r: Result): int {
    var capped := Min(Max(r.retryAfter, 0), HOUR);
    if s != RetryWait then capped
    else if attempts > 1 then Max(capped, 120)
    else Max(capped, 30)
  }

  // ---------- delivery transactions ----------

  /** Load: a sending row of another attempt or instance becomes delivery_unknown. */
  function LoadTx(db: Db, id: Uuid, o: Owner): Db {
    if id in db.deliveries && db.deliveries[id].lastJob == Some(o.job) && db.deliveries[id].state == DSending
       && !(db.deliveries[id].owner.Some? && db.deliveries[id].owner.value.attempt == o.attempt
            && db.deliveries[id].owner.value.instance == o.instance)
    then db.(deliveries := db.deliveries[id := db.deliveries[id].(state := DeliveryUnknown)])
    else db
  }

  predicate Renderable(version: string, texts: seq<string>) {
    version != "" && 0 < |texts| <= MAX_PARTS && forall t <- texts :: PartText(t)
  }

  /** Not empty, and at most a mebibyte of UTF-8. */
  predicate PartText(t: string) {
    t != "" && Cost(Utf8, t) <= MAX_PART_BYTES
  }

  function Fresh(texts: seq<string>): seq<Part> {
    seq(|texts|, i requires 0 <= i < |texts| => Part(texts[i], Pending, 0, None))
  }

  function Texts(parts: seq<Part>): seq<string> {
    seq(|parts|, i requires 0 <= i < |parts| => parts[i].text)
  }

  predicate CanMaterialize(db: Db, id: Uuid, o: Owner, version: string, texts: seq<string>) {
    && Renderable(version, texts) && id in db.deliveries && db.deliveries[id].lastJob == Some(o.job)
    && Open(db.deliveries[id])
    && (db.deliveries[id].renderVersion.Some? ==>
          db.deliveries[id].renderVersion.value == version && Texts(db.deliveries[id].parts) == texts)
  }

  function MaterializeTx(db: Db, id: Uuid, o: Owner, version: string, texts: seq<string>): Db {
    if CanMaterialize(db, id, o, version, texts) && db.deliveries[id].renderVersion.None? then
      db.(deliveries := db.deliveries[id := db.deliveries[id].(parts := Fresh(texts), renderVersion := Some(version))])
    else db
  }

  function Restate(db: Db, id: Uuid, s: DeliveryState): Db
    requires id in db.deliveries
  {
    db.(deliveries := db.deliveries[id := db.deliveries[id].(state := s)])
  }

  /** What Reserve decides, before it writes anything. */
  function ReserveVerdict(db: Db, id: Uuid, o: Owner, index: nat, text: string): Reservation {
    if id !in db.deliveries || db.deliveries[id].lastJob != Some(o.job) then Failed
    else
      var d := db.deliveries[id];
      if !Open(d) || d.createdAt <= db.now - DAY || !db.settings.operational || !Bound(db.settings, d) then InFlight
      else if index >= |d.parts| || d.parts[index].text != text then Failed
      else if d.parts[index].state == Sent then AlreadySent
      else if (d.parts[index].state != Pending && d.parts[index].state != Rejected)
              || d.parts[index].attempts >= MAX_ATTEMPTS || !NextInLine(d.parts, index) then InFlight
      else if !FreeFor(LeaseOf(db, d.channel), id, db.now) then Wait
      else Reserved
  }

  function ReservedDb(db: Db, id: Uuid, o: Owner, index: nat): Db
    requires id in db.deliveries && index < |db.deliveries[id].parts|
  {
    var d := db.deliveries[id];
    var p := d.parts[index];
    db.(deliveries := db.deliveries[id := d.(state := DSending, owner := Some(o),
                        parts := d.parts[index := p.(state := Sending, attempts := p.attempts + 1, owner := Some(o))])],
        leases := db.leases[d.channel := LeaseOf(db, d.channel).(delivery := Some(id), test := None,
                        until := Some(db.now + LEASE), nextPostAt := db.now + SPACING)])
  }

  function ReserveTx(db: Db, id: Uuid, o: Owner, index: nat, text: string): Db {
    match ReserveVerdict(db, id, o, index, text)
    case Reserved => ReservedDb(db, id, o, index)
    case Wait => db.(leases := db.leases[db.deliveries[id].channel := LeaseOf(db, db.deliveries[id].channel)])
    case InFlight =>
      var d := db.deliveries[id];
      if !Open(d) then db
      else if d.createdAt <= db.now - DAY then Restate(db, id, Exhausted)
      else if !db.settings.operational then Restate(db, id, Cancelled)
      else if !Bound(db.settings, d) then Restate(db, id, ConfigurationChanged)
      else db
    case _ => db
  }

  function Released(l: Lease, s: DeliveryState, now: int, delay: int): Lease {
    l.(delivery := if s == Ready then l.delivery else None,
       until := if s == Ready then Some(now + LEASE) else None,
       nextPostAt := Max(l.nextPostAt, now + SPACING),
       cooldownUntil := Max(l.cooldownUntil, now + delay))
  }

  predicate CanFinish(db: Db, id: Uuid, o: Owner, index: nat, r: Result) {
    WellFormed(r) && OwnsSending(db, id, index, o)
  }

  function FinishTx(db: Db, id: Uuid, o: Owner, index: nat, r: Result): Db {
    if !CanFinish(db, id, o, index, r) then db
    else
      var d := db.deliveries[id];
      var attempts := d.parts[index].attempts;
      var parts := d.parts[index := d.parts[index].(state := AfterPost(r.state))];
      var s := Disposition(parts, attempts, r);
      var delay := Delay(s, attempts, r);
      var db1 := db.(deliveries := db.deliveries[id := d.(state := s, parts := parts,
                                                          nextDispatchAt := db.now + delay)]);
      if d.channel in db.leases && db.leases[d.channel].delivery == Some(id)
      then db1.(leases := db.leases[d.channel := Released(db.leases[d.channel], s, db.now, delay)])
      else db1
  }

  /** A row before and after the answer to part `index`: the part, the state and the next dispatch move. */
  predicate OnlyAnswered(d: Delivery, e: Delivery, index: nat, s: PartState) {
    && index < |d.parts|
    && e == d.(state := e.state, nextDispatchAt := e.nextDispatchAt,
               parts := d.parts[index := d.parts[index].(state := s)])
  }

  /**
   What Finish makes of a part that its owner is sending.  A refusal is tried again when it is a
   rate limit (status 429 or API status 12) and the part has been sent fewer than three times.
   */
  lemma FinishRecords(db: Db, id: Uuid, o: Owner, index: nat, r: Result)
    requires id in db.deliveries && index < |db.deliveries[id].parts|
    requires db.deliveries[id].state == DSending && db.deliveries[id].parts[index].state == Sending
    requires db.deliveries[id].lastJob == Some(o.job) && db.deliveries[id].owner == Some(o)
    requires db.deliveries[id].parts[index].owner == Some(o)
    ensures var d := db.deliveries[id];
            var v := FinishTx(db, id, o, index, r);
            var e := if id in v.deliveries then v.deliveries[id] else d;
            match r.state
            case RUnknown => OnlyAnswered(d, e, index, Unknown) && e.state == DeliveryUnknown
            case RSent =>
              if r.token == "" then v == db
              else OnlyAnswered(d, e, index, Sent)
                   && e.state == (if forall i | 0 <= i < |d.parts| && i != index :: d.parts[i].state == Sent
                                  then Completed else Ready)
            case RRejected =>
              OnlyAnswered(d, e, index, Rejected)
              && e.state == (if r.status != 429 && r.apiStatus != 12 then DRejected
                             else if d.parts[index].attempts < 3 then RetryWait else Exhausted)
  {
    var d := db.deliveries[id];
    var parts := d.parts[index := d.parts[index].(state := AfterPost(r.state))];
    if forall i | 0 <= i < |d.parts| && i != index :: d.parts[i].state == Sent {
      assert r.state == RSent ==> AllSent(parts);
    } else {
      var i :| 0 <= i < |d.parts| && i != index && d.parts[i].state != Sent;
      assert parts[i] in parts && !AllSent(parts);
    }
  }

  /**
   When the row and its channel come up again.  The pause that the network asked for counts up to
   an hour, and a retry waits at least 30 seconds, after a second refusal 120.  The lease is
   released unless more parts are to follow.
   */
  lemma FinishPauses(db: Db, id: Uuid, o: Owner, index: nat, r: Result)
    requires OwnsSending(db, id, index, o) && (r.state == RSent ==> r.token != "")
    ensures var v := FinishTx(db, id, o, index, r);
            var d, c := db.deliveries[id], db.deliveries[id].channel;
            && v.now == db.now && v.tests == db.tests && v.settings == db.settings
            && v.deliveries == db.deliveries[id := v.deliveries[id]]
            && var pause := v.deliveries[id].nextDispatchAt - db.now;
            && var asked := if r.retryAfter < 0 then 0 else if r.retryAfter > 3600 then 3600 else r.retryAfter;
            var least := if v.deliveries[id].state != RetryWait then 0
                         else if d.parts[index].attempts > 1 then 120 else 30;
            && pause == (if asked < least then least else asked)
            && if c !in db.leases || db.leases[c].delivery != Some(id) then v.leases == db.leases
               else && v.leases == db.leases[c := v.leases[c]]
                    && var l, m := db.leases[c], v.leases[c];
                    && m.test == l.test
                    && m.nextPostAt == (if l.nextPostAt < db.now + 1 then db.now + 1 else l.nextPostAt)
                    && m.cooldownUntil == (if l.cooldownUntil < db.now + pause then db.now + pause else l.cooldownUntil)
                    && if v.deliveries[id].state == Ready then m.delivery == Some(id) && m.until == Some(db.now + 60)
                       else m.delivery.None? && m.until.None?
  {
    assert CanFinish(db, id, o, index, r);
  }

  predicate StopState(s: DeliveryState) {
    s == DRejected || s == ConfigurationChanged || s == Cancelled || s == Exhausted
  }

  predicate CanStop(db: Db, id: Uuid, o: Owner, s: DeliveryState) {
    && StopState(s) && id in db.deliveries && db.deliveries[id].lastJob == Some(o.job) && Open(db.deliveries[id])
    && forall p <- db.deliveries[id].parts :: Stoppable(p, s)
  }

  /** Nothing of the part is in doubt, and a refused delivery has sent nothing. */
  predicate Stoppable(p: Part, s: DeliveryState) {
    p.state != Sending && p.state != Unknown && (s == DRejected ==> p.state != Sent)
  }

  function StopTx(db: Db, id: Uuid, o: Owner, s: DeliveryState): Db {
    if CanStop(db, id, o, s) then Restate(db, id, s) else db
  }

  predicate CanPost(db: Db, id: Uuid, o: Owner, index: nat) {
    && OwnsSending(db, id, index, o)
    && var d := db.deliveries[id];
    && d.channel in db.leases && db.leases[d.channel].delivery == Some(id) && db.leases[d.channel].test.None?
    && db.leases[d.channel].until.Some? && db.leases[d.channel].until.value > db.now
    && d.createdAt > db.now - DAY && db.settings.operational && Bound(db.settings, d)
  }

  /** CheckSendAuthority: renews the lease when the reservation still stands. */
  function CheckTx(db: Db, id: Uuid, o: Owner, index: nat): Db {
    if CanPost(db, id, o, index) then
      var c := db.deliveries[id].channel;
      db.(leases := db.leases[c := db.leases[c].(until := Some(db.now + LEASE))])
    else db
  }

  // ---------- one-shot test sends ----------

  /** recoverTestByID: a sending receipt whose lease is gone can no longer be finished. */
  function RecoverTx(db: Db, id: Uuid): Db {
    if id in db.tests && db.tests[id].state == Sending
       && !(db.tests[id].channel in db.leases && var l := db.leases[db.tests[id].channel];
            l.test == Some(id) && l.delivery.None? && l.until.Some? && l.until.value > db.now)
    then db.(tests := db.tests[id := db.tests[id].(state := Unknown)])
    else db
  }

  predicate TestReady(s: Settings, expected: int, credential: int) {
    && s.revision == expected && s.configured && s.stored == credential && s.webhookReady && s.verifiedAt
    && s.credential == credential && s.verified == credential
  }

  predicate CanBegin(db: Db, id: Uuid, expected: int, credential: int) {
    && expected >= 0 && credential >= 1 && id !in db.tests && TestReady(db.settings, expected, credential)
    && db.settings.channel != UNSET && db.settings.sender != UNSET
    && FreeForTest(LeaseOf(db, db.settings.channel), db.now)
  }

  function BeginTx(db: Db, id: Uuid, expected: int, credential: int): Db {
    if expected < 0 || credential < 1 then db
    else if CanBegin(db, id, expected, credential) then
      var c := db.settings.channel;
      db.(tests := db.tests[id := Test(c, db.settings.sender, expected, credential, Sending)],
          leases := db.leases[c := LeaseOf(db, c).(delivery := None, test := Some(id),
                          until := Some(db.now + LEASE), nextPostAt := db.now + SPACING)])
    else RecoverTx(db, id)
  }

  predicate CanPostTest(db: Db, id: Uuid) {
    && id in db.tests && db.tests[id].state == Sending && db.tests[id].channel in db.leases
    && var t := db.tests[id];
    var l := db.leases[t.channel];
    && l.test == Some(id) && l.delivery.None? && l.until.Some? && l.until.value > db.now
    && TestReady(db.settings, t.settingsRevision, t.credential)
    && db.settings.channel == t.channel && db.settings.sender == t.sender
  }

  function CheckTestTx(db: Db, id: Uuid): Db {
    if CanPostTest(db, id) then
      var c := db.tests[id].channel;
      db.(leases := db.leases[c := db.leases[c].(until := Some(db.now + LEASE))])
    else db
  }

  function TestCooldown(r: Result): int {
    var capped := Min(Max(r.retryAfter, 0), HOUR);
    if r.state == RRejected && RateLimited(r) then Max(capped, 30) else capped
  }

  predicate CanFinishTest(db: Db, id: Uuid, r: Result) {
    WellFormed(r) && id in db.tests && db.tests[id].state == Sending
  }

  function FinishTestTx(db: Db, id: Uuid, r: Result): Db {
    if !CanFinishTest(db, id, r) then db
    else
      var c := db.tests[id].channel;
      var db1 := db.(tests := db.tests[id := db.tests[id].(state := AfterPost(r.state))]);
      if c in db.leases && db.leases[c].test == Some(id) then
        db1.(leases := db.leases[c := db.leases[c].(test := None, until := None,
                          nextPostAt := Max(db.leases[c].nextPostAt, db.now + SPACING),
                          cooldownUntil := Max(db.leases[c].cooldownUntil, db.now + TestCooldown(r)))])
      else db1
  }

  // ---------- the same transactions, row by row ----------

  /** The state and the delay that Finish writes. */
  method Dispose(parts: seq<Part>, attempts: nat, r: Result) returns (s: DeliveryState, delay: int)
    ensures s == Disposition(parts, attempts, r) && delay == Delay(s, attempts, r)
  {
    s := DeliveryUnknown;
    if r.state == RSent {
      s := Ready;
    } else if r.state == RRejected {
      s := DRejected;
      if r.status == 429 || r.apiStatus == 12 {
        s := if attempts >= MAX_ATTEMPTS then Exhausted else RetryWait;
      }
    }
    if s == Ready && AllSent(parts) {
      s := Completed;
    }
    delay := r.retryAfter;
    if delay < 0 { delay := 0; }
    if delay > HOUR { delay := HOUR; }
    if s == RetryWait {
      var least := if attempts > 1 then 120 else 30;
      if delay < least { delay := least; }
    }
  }

  class Database {
    var now: int
    var deliveries: map<Uuid, Delivery>
    var leases: map<Uuid, Lease>
    var tests: map<Uuid, Test>
    var settings: Settings

    constructor (s: Settings)
      ensures Value() == Db(0, map[], map[], map[], s)
    {
      now, deliveries, leases, tests, settings := 0, map[], map[], map[], s;
    }

    function Value(): Db
      reads this
    {
      Db(now, deliveries, leases, tests, settings)
    }

    method Load(id: Uuid, o: Owner) returns (row: Option<Delivery>)
      modifies this`deliveries
      ensures Value() == LoadTx(old(Value()), id, o)
      ensures row == if id in deliveries && deliveries[id].lastJob == Some(o.job) then Some(deliveries[id]) else None
    {
      if id !in deliveries || deliveries[id].lastJob != Some(o.job) {
        return None;
      }
      var d := deliveries[id];
      if d.state == DSending {
        var stale := d.owner.None? || d.owner.value.attempt != o.attempt || d.owner.value.instance != o.instance;
        if stale {
          d := d.(state := DeliveryUnknown);
          deliveries := deliveries[id := d];
        }
      }
      row := Some(d);
    }

    method Materialize(id: Uuid, o: Owner, version: string, texts: seq<string>) returns (ok: bool)
      modifies this`deliveries
      ensures Value() == MaterializeTx(old(Value()), id, o, version, texts)
      ensures ok <==> CanMaterialize(old(Value()), id, o, version, texts)
    {
      if version == "" || |texts| == 0 || |texts| > MAX_PARTS { return false; }
      var i := 0;
      while i < |texts|
        invariant 0 <= i <= |texts|
        invariant forall j | 0 <= j < i :: PartText(texts[j])
      {
        assert texts[i] in texts;
        if texts[i] == "" || Cost(Utf8, texts[i]) > MAX_PART_BYTES { return false; }
        i := i + 1;
      }
      if id !in deliveries || deliveries[id].lastJob != Some(o.job) || !Open(deliveries[id]) { return false; }
      var d := deliveries[id];
      if d.renderVersion.Some? {
        return Texts(d.parts) == texts && d.renderVersion.value == version;
      }
      var parts: seq<Part> := [];
      i := 0;
      while i < |texts|
        invariant 0 <= i <= |texts|
        invariant parts == Fresh(texts)[..i]
      {
        parts := parts + [Part(texts[i], Pending, 0, None)];
        i := i + 1;
      }
      assert parts == Fresh(texts);
      deliveries := deliveries[id := d.(parts := parts, renderVersion := Some(version))];
      ok := true;
    }

    method Reserve(id: Uuid, o: Owner, index: nat, text: string) returns (r: Reservation)
      modifies this`deliveries, this`leases
      ensures r == ReserveVerdict(old(Value()), id, o, index, text)
      ensures Value() == ReserveTx(old(Value()), id, o, index, text)
    {
      if id !in deliveries || deliveries[id].lastJob != Some(o.job) { return Failed; }
      var d := deliveries[id];
      if !Open(d) { return InFlight; }
      if d.createdAt <= now - DAY {
        deliveries := deliveries[id := d.(state := Exhausted)];
        return InFlight;
      }
      if !settings.operational {
        deliveries := deliveries[id := d.(state := Cancelled)];
        return InFlight;
      }
      if !Bound(settings, d) {
        deliveries := deliveries[id := d.(state := ConfigurationChanged)];
        return InFlight;
      }
      if index >= |d.parts| || d.parts[index].text != text { return Failed; }
      var p := d.parts[index];
      if p.state == Sent { return AlreadySent; }
      if (p.state != Pending && p.state != Rejected) || p.attempts >= MAX_ATTEMPTS { return InFlight; }
      if !NextInLine(d.parts, index) { return InFlight; }
      if d.channel !in leases {
        leases := leases[d.channel := Lease(None, None, None, now, now)];
      }
      var l := leases[d.channel];
      if !FreeFor(l, id, now) {
        assert leases == old(leases)[d.channel := LeaseOf(old(Value()), d.channel)];
        return Wait;
      }
      Grant(id, o, index, l);
      return Reserved;
    }

    /** The writes of a granted reservation: the lease, the part and its row. */
    method Grant(id: Uuid, o: Owner, index: nat, l: Lease)
      requires id in deliveries && index < |deliveries[id].parts|
      modifies this`deliveries, this`leases
      ensures leases == old(leases)[old(deliveries[id].channel) :=
                l.(delivery := Some(id), test := None, until := Some(now + LEASE), nextPostAt := now + SPACING)]
      ensures var d := old(deliveries[id]);
              var p := d.parts[index].(state := Sending, attempts := d.parts[index].attempts + 1, owner := Some(o));
              deliveries == old(deliveries)[id := d.(state := DSending, owner := Some(o), parts := d.parts[index := p])]
    {
      var d := deliveries[id];
      var p := d.parts[index];
      leases := leases[d.channel := Lease(Some(id), None, Some(now + LEASE), now + SPACING, l.cooldownUntil)];
      p := p.(state := Sending, attempts := p.attempts + 1, owner := Some(o));
      deliveries := deliveries[id := d.(parts := d.parts[index := p])];
      deliveries := deliveries[id := deliveries[id].(state := DSending, owner := Some(o))];
    }

    method Finish(id: Uuid, o: Owner, index: nat, r: Result) returns (ok: bool)
      modifies this`deliveries, this`leases
      ensures ok <==> CanFinish(old(Value()), id, o, index, r)
      ensures Value() == FinishTx(old(Value()), id, o, index, r)
      ensures ok && r.state == RRejected ==>
                deliveries[id].state == (if r.status != 429 && r.apiStatus != 12 then DRejected
                                         else if old(deliveries[id]).parts[index].attempts < 3 then RetryWait
                                         else Exhausted)
      ensures ok && r.state == RUnknown ==> deliveries[id].state == DeliveryUnknown
      ensures ok && r.state == RSent ==>
                deliveries[id].state == if forall p <- deliveries[id].parts :: p.state == Sent then Completed else Ready
    {
      if r.state == RSent && r.token == "" { return false; }
      if !OwnsSending(Value(), id, index, o) { return false; }
      var d := deliveries[id];
      var attempts := d.parts[index].attempts;
      d := d.(parts := d.parts[index := d.parts[index].(state := AfterPost(r.state))]);
      var s, delay := Dispose(d.parts, attempts, r);
      deliveries := deliveries[id := d.(state := s, nextDispatchAt := now + delay)];
      if d.channel in leases && leases[d.channel].delivery == Some(id) {
        leases := leases[d.channel := Released(leases[d.channel], s, now, delay)];
      }
      ok := true;
    }

    method Stop(id: Uuid, o: Owner, s: DeliveryState) returns (ok: bool)
      modifies this`deliveries
      ensures ok <==> CanStop(old(Value()), id, o, s)
      ensures Value() == StopTx(old(Value()), id, o, s)
    {
      if s != DRejected && s != ConfigurationChanged && s != Cancelled && s != Exhausted { return false; }
      if id !in deliveries || deliveries[id].lastJob != Some(o.job) { return false; }
      var d := deliveries[id];
      if d.state != Ready && d.state != RetryWait { return false; }
      for i := 0 to |d.parts|
        invariant forall p <- d.parts[..i] :: Stoppable(p, s)
      {
        assert d.parts[i] in d.parts && d.parts[..i + 1] == d.parts[..i] + [d.parts[i]];
        if d.parts[i].state == Sending || d.parts[i].state == Unknown { return false; }
        if s == DRejected && d.parts[i].state == Sent { return false; }
      }
      assert d.parts[..|d.parts|] == d.parts;
      deliveries := deliveries[id := d.(state := s)];
      ok := true;
    }

    method CheckSendAuthority(id: Uuid, o: Owner, index: nat) returns (ok: bool)
      modifies this`leases
      ensures ok <==> CanPost(old(Value()), id, o, index)
      ensures Value() == CheckTx(old(Value()), id, o, index)
    {
      if !OwnsSending(Value(), id, index, o) { return false; }
      var d := deliveries[id];
      if d.channel !in leases { return false; }
      var l := leases[d.channel];
      if !(d.createdAt > now - DAY && l.delivery == Some(id) && l.test.None? && l.until.Some? && l.until.value > now) {
        return false;
      }
      if !settings.operational || !Bound(settings, d) { return false; }
      leases := leases[d.channel := l.(until := Some(now + LEASE))];
      ok := true;
    }

    method BeginTest(id: Uuid, expected: int, credential: int) returns (send: bool)
      modifies this`tests, this`leases
      ensures send <==> CanBegin(old(Value()), id, expected, credential)
      ensures Value() == BeginTx(old(Value()), id, expected, credential)
    {
      if expected < 0 || credential < 1 { return false; }
      RecoverTest(id);
      if id in tests { return false; }
      if !TestReady(settings, expected, credential) || settings.channel == UNSET || settings.sender == UNSET {
        return false;
      }
      var c := settings.channel;
      var l := if c in leases then leases[c] else Lease(None, None, None, now, now);
      if !FreeForTest(l, now) { return false; }
      tests := tests[id := Test(c, settings.sender, settings.revision, credential, Sending)];
      leases := leases[c := Lease(None, Some(id), Some(now + LEASE), now + SPACING, l.cooldownUntil)];
      send := true;
    }

    method RecoverTest(id: Uuid)
      modifies this`tests
      ensures Value() == RecoverTx(old(Value()), id)
    {
      if id in tests && tests[id].state == Sending {
        var c := tests[id].channel;
        var held := c in leases && leases[c].test == Some(id) && leases[c].delivery.None?
                    && leases[c].until.Some? && leases[c].until.value > now;
        if !held {
          tests := tests[id := tests[id].(state := Unknown)];
        }
      }
    }

    method CheckTest(id: Uuid) returns (ok: bool)
      modifies this`leases
      ensures ok <==> CanPostTest(old(Value()), id)
      ensures Value() == CheckTestTx(old(Value()), id)
    {
      if id !in tests || tests[id].state != Sending { return false; }
      var t := tests[id];
      if t.channel !in leases { return false; }
      var l := leases[t.channel];
      if l.test != Some(id) || l.delivery.Some? || l.until.None? || l.until.value <= now { return false; }
      if settings.channel != t.channel || settings.sender != t.sender || settings.revision != t.settingsRevision {
        return false;
      }
      if !TestReady(settings, t.settingsRevision, t.credential) { return false; }
      leases := leases[t.channel := l.(until := Some(now + LEASE))];
      ok := true;
    }

    method FinishTest(id: Uuid, r: Result) returns (ok: bool)
      modifies this`tests, this`leases
      ensures ok <==> CanFinishTest(old(Value()), id, r)
      ensures Value() == FinishTestTx(old(Value()), id, r)
    {
      if (r.state == RSent && r.token == "") || id !in tests || tests[id].state != Sending { return false; }
      var c := tests[id].channel;
      tests := tests[id := tests[id].(state := AfterPost(r.state))];
      var cooldown := r.retryAfter;
      if cooldown < 0 { cooldown := 0; }
      if cooldown > HOUR { cooldown := HOUR; }
      if r.state == RRejected && (r.status == 429 || r.apiStatus == 12) && cooldown < 30 { cooldown := 30; }
      if c in leases && leases[c].test == Some(id) {
        var l := leases[c];
        leases := leases[c := Lease(l.delivery, None, None, Max(l.nextPostAt, now + SPACING),
                                    Max(l.cooldownUntil, now + cooldown))];
      }
      ok := true;
    }
  }
}
