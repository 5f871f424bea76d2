/**
 What the transactions of Viber delivery decide, told in rows and seconds
 (go-domain/viberdelivery/postgres.go:150-480, go-domain/viberdelivery/testsend.go:32-215).
 */
module ViberDecisions {
  import opened Prelude
  import opened TextSize
  import opened ViberStore

  /** The settings that a delivery depends on are exactly these: a change to one of them unbinds it. */
  lemma BindingIsExact(s: Settings, t: Settings, d: Delivery)
    requires Bound(s, d)
    ensures Bound(t, d) <==> t == s.(operational := t.operational, verifiedAt := t.verifiedAt, revision := t.revision)
  {}

  /** Load gives up what another attempt or process of the job was sending, and nothing else. */
  lemma LoadDecides(db: Db, id: Uuid, o: Owner)
    ensures var v := LoadTx(db, id, o);
            if id in db.deliveries && db.deliveries[id].state == DSending && db.deliveries[id].lastJob == Some(o.job)
               && (forall p: Owner | db.deliveries[id].owner == Some(p) ::
                     p.attempt != o.attempt || p.instance != o.instance)
            then v == db.(deliveries := db.deliveries[id := db.deliveries[id].(state := DeliveryUnknown)])
            else v == db
  {}

  /** The calls of Materialize that succeed: the first, and later ones with the same rendering. */
  lemma MaterializeAgrees(db: Db, id: Uuid, o: Owner, version: string, texts: seq<string>)
    requires id in db.deliveries && Renderable(version, texts)
    ensures var d := db.deliveries[id];
            CanMaterialize(db, id, o, version, texts)
            <==> && d.lastJob == Some(o.job) && (d.state == Ready || d.state == RetryWait)
                 && (d.renderVersion.None?
                     || (d.renderVersion == Some(version) && |d.parts| == |texts|
                         && forall i | 0 <= i < |texts| :: d.parts[i].text == texts[i]))
  {
    var d := db.deliveries[id];
    if |d.parts| == |texts| && forall i | 0 <= i < |texts| :: d.parts[i].text == texts[i] {
      assert Texts(d.parts) == texts;
    }
  }

  /** Parts are frozen once: a later rendering has to be the same, and changes nothing. */
  lemma MaterializeDecides(db: Db, id: Uuid, o: Owner, version: string, texts: seq<string>)
    requires id in db.deliveries
    ensures var v := MaterializeTx(db, id, o, version, texts);
            var d, e := db.deliveries[id], if id in v.deliveries then v.deliveries[id] else db.deliveries[id];
            var first := d.lastJob == Some(o.job) && (d.state == Ready || d.state == RetryWait) && d.renderVersion.None?
                         && version != "" && 1 <= |texts| <= 512
                         && forall i | 0 <= i < |texts| :: texts[i] != "" && Cost(Utf8, texts[i]) <= 1048576;
            && v == db.(deliveries := v.deliveries) && v.deliveries == db.deliveries[id := e]
            && (!first ==> e == d)
            && (first ==>
                  && e == d.(parts := e.parts, renderVersion := Some(version)) && |e.parts| == |texts|
                  && forall i | 0 <= i < |texts| :: e.parts[i] == Part(texts[i], Pending, 0, None))
  {
    if forall i | 0 <= i < |texts| :: texts[i] != "" && Cost(Utf8, texts[i]) <= 1048576 {
      forall t <- texts ensures PartText(t) {
        var i :| 0 <= i < |texts| && texts[i] == t;
      }
    } else {
      var i :| 0 <= i < |texts| && (texts[i] == "" || Cost(Utf8, texts[i]) > 1048576);
      assert !PartText(texts[i]) && texts[i] in texts;
    }
  }

  // ---------- one message ----------

  /** The channel rests, and its lease is free, run out or held by the delivery `id`. */
  predicate AtRest(db: Db, channel: Uuid, id: Uuid) {
    channel in db.leases ==>
      var l := db.leases[channel];
      && l.nextPostAt <= db.now && l.cooldownUntil <= db.now
      && ((l.until.Some? && l.until.value <= db.now)
          || (l.test.None? && (l.delivery.None? || l.delivery == Some(id))))
  }

  /** Every part before `index` is sent, and no message of the delivery is under way or in doubt. */
  predicate IsNext(parts: seq<Part>, index: nat) {
    && (forall i | 0 <= i < |parts| && i < index :: parts[i].state == Sent)
    && forall i | 0 <= i < |parts| :: parts[i].state != Sending && parts[i].state != Unknown
  }

  lemma NextIsNext(parts: seq<Part>, index: nat)
    ensures NextInLine(parts, index) <==> IsNext(parts, index)
  {
    if IsNext(parts, index) {
      forall p | p in parts ensures p.state != Sending && p.state != Unknown {
        var i :| 0 <= i < |parts| && parts[i] == p;
      }
    }
  }

  /** An open row that is a day old, switched off or no longer bound is closed instead, and for that reason. */
  lemma ReserveCloses(db: Db, id: Uuid, o: Owner, index: nat, text: string)
    requires id in db.deliveries && db.deliveries[id].lastJob == Some(o.job)
    requires db.deliveries[id].state == Ready || db.deliveries[id].state == RetryWait
    requires var d := db.deliveries[id];
             d.createdAt + 86400 <= db.now || !db.settings.operational || !Bound(db.settings, d)
    ensures var d := db.deliveries[id];
            && ReserveVerdict(db, id, o, index, text) == InFlight
            && ReserveTx(db, id, o, index, text)
               == db.(deliveries := db.deliveries[id := d.(state := if d.createdAt + 86400 <= db.now then Exhausted
                                                                    else if !db.settings.operational then Cancelled
                                                                    else ConfigurationChanged)])
  {}

  /** In every other open row the next part is granted once the channel rests, up to three times. */
  lemma ReserveDecides(db: Db, id: Uuid, o: Owner, index: nat, text: string)
    requires id in db.deliveries && db.deliveries[id].lastJob == Some(o.job)
    requires db.deliveries[id].state == Ready || db.deliveries[id].state == RetryWait
    requires db.deliveries[id].createdAt + 86400 > db.now && db.settings.operational
    requires Bound(db.settings, db.deliveries[id])
    ensures var d, r := db.deliveries[id], ReserveVerdict(db, id, o, index, text);
            if index >= |d.parts| || d.parts[index].text != text then r == Failed
            else if d.parts[index].state == Sent then r == AlreadySent
            else if d.parts[index].attempts >= 3 || !IsNext(d.parts, index) then r == InFlight
            else r == if AtRest(db, d.channel, id) then Reserved else Wait
    ensures var v := ReserveTx(db, id, o, index, text);
            v == db.(deliveries := v.deliveries, leases := v.leases)
            && (ReserveVerdict(db, id, o, index, text) != Reserved ==> v.deliveries == db.deliveries)
  {
    NextIsNext(db.deliveries[id].parts, index);
  }

  /** What a granted reservation writes. */
  lemma ReservationIsRecorded(db: Db, id: Uuid, o: Owner, index: nat, text: string)
    requires ReserveVerdict(db, id, o, index, text) == Reserved
    ensures var d, v := db.deliveries[id], ReserveTx(db, id, o, index, text);
            var p, c := d.parts[index], d.channel;
            && v.deliveries == db.deliveries[id := d.(state := DSending, owner := Some(o), parts := d.parts[index :=
                                 Part(p.text, Sending, p.attempts + 1, Some(o))])]
            && v.leases == db.leases[c := Lease(Some(id), None, Some(db.now + 60), db.now + 1,
                                                if c in db.leases then db.leases[c].cooldownUntil else db.now)]
  {}

  /** A row that another job works on, or that is not open, is left alone. */
  lemma ReserveRefuses(db: Db, id: Uuid, o: Owner, index: nat, text: string)
    requires id in db.deliveries && db.deliveries[id].lastJob == Some(o.job) ==>
               db.deliveries[id].state != Ready && db.deliveries[id].state != RetryWait
    ensures ReserveTx(db, id, o, index, text) == db
    ensures ReserveVerdict(db, id, o, index, text)
            == if id in db.deliveries && db.deliveries[id].lastJob == Some(o.job) then InFlight else Failed
  {}

  /** A message goes out only for its own reservation, under a running lease, for a young and bound row. */
  lemma CheckDecides(db: Db, id: Uuid, o: Owner, index: nat)
    requires id in db.deliveries && index < |db.deliveries[id].parts|
    ensures var d := db.deliveries[id];
            && (CanPost(db, id, o, index) <==>
                  && d.state == DSending && d.lastJob == Some(o.job) && d.owner == Some(o)
                  && d.parts[index].state == Sending && d.parts[index].owner == Some(o)
                  && d.createdAt + 86400 > db.now && db.settings.operational && Bound(db.settings, d)
                  && d.channel in db.leases
                  && var l := db.leases[d.channel];
                  l.delivery == Some(id) && l.test.None? && l.until.Some? && db.now < l.until.value)
            && CheckTx(db, id, o, index)
               == if !CanPost(db, id, o, index) then db
                  else db.(leases := db.leases[d.channel := db.leases[d.channel].(until := Some(db.now + 60))])
  {}

  /** Closing an open row for good, unless a part is in doubt; a refusal needs that nothing was sent. */
  lemma StopDecides(db: Db, id: Uuid, o: Owner, s: DeliveryState)
    requires id in db.deliveries
    ensures var d := db.deliveries[id];
            var may := && s in {DRejected, ConfigurationChanged, Cancelled, Exhausted} && d.lastJob == Some(o.job)
                       && (d.state == Ready || d.state == RetryWait)
                       && forall p <- d.parts :: p.state !in (if s == DRejected then {Sending, Unknown, Sent}
                                                             else {Sending, Unknown});
            StopTx(db, id, o, s) == if may then db.(deliveries := db.deliveries[id := d.(state := s)]) else db
  {}

  // ---------- test messages ----------

  /** The settings stand as the test request expects them, verified for this credential. */
  predicate Verified(s: Settings, expected: int, credential: int) {
    && s.revision == expected && s.configured && s.stored == credential && s.credential == credential
    && s.verified == credential && s.webhookReady && s.verifiedAt
  }

  /** A test is sent once for its request, and only over a channel without a lease. */
  lemma TestBeginDecides(db: Db, id: Uuid, expected: int, credential: int)
    ensures var s := db.settings;
            var c := s.channel;
            && (CanBegin(db, id, expected, credential) <==>
                  && expected >= 0 && credential >= 1 && id !in db.tests && Verified(s, expected, credential)
                  && c != 0 && s.sender != 0
                  && (c in db.leases ==>
                        var l := db.leases[c];
                        && l.nextPostAt <= db.now && l.cooldownUntil <= db.now
                        && (l.until.Some? ==> l.until.value <= db.now)))
            && (CanBegin(db, id, expected, credential) ==>
                  BeginTx(db, id, expected, credential)
                  == db.(tests := db.tests[id := Test(c, s.sender, expected, credential, Sending)],
                         leases := db.leases[c :=
                           Lease(None, Some(id), Some(db.now + 60), db.now + 1,
                                 if c in db.leases then db.leases[c].cooldownUntil else db.now)]))
  {}

  /** A test whose lease is gone can no longer be settled; asking for it again says so. */
  lemma TestRecoveryDecides(db: Db, id: Uuid, expected: int, credential: int)
    requires id in db.tests
    ensures var t := db.tests[id];
            var held := t.channel in db.leases && var l := db.leases[t.channel];
                        l.test == Some(id) && l.delivery.None? && l.until.Some? && db.now < l.until.value;
            var gone := db.(tests := db.tests[id := t.(state := Unknown)]);
            && RecoverTx(db, id) == (if t.state == Sending && !held then gone else db)
            && BeginTx(db, id, expected, credential)
               == if expected >= 0 && credential >= 1 && t.state == Sending && !held then gone else db
  {}

  lemma TestCheckDecides(db: Db, id: Uuid)
    requires id in db.tests
    ensures var t, s := db.tests[id], db.settings;
            && (CanPostTest(db, id) <==>
                  && t.state == Sending && Verified(s, t.settingsRevision, t.credential)
                  && s.channel == t.channel && s.sender == t.sender && t.channel in db.leases
                  && var l := db.leases[t.channel];
                  l.test == Some(id) && l.delivery.None? && l.until.Some? && db.now < l.until.value)
            && CheckTestTx(db, id)
               == if !CanPostTest(db, id) then db
                  else db.(leases := db.leases[t.channel := db.leases[t.channel].(until := Some(db.now + 60))])
  {}

  /** A test's answer is recorded once; its channel rests a second, and half a minute after a rate limit. */
  lemma TestFinishDecides(db: Db, id: Uuid, r: Result)
    requires id in db.tests
    ensures var t, v := db.tests[id], FinishTestTx(db, id, r);
            var asked := if r.retryAfter < 0 then 0 else if r.retryAfter > 3600 then 3600 else r.retryAfter;
            var limited := r.state == RRejected && (r.status == 429 || r.apiStatus == 12);
            var rest := if limited && asked < 30 then 30 else asked;
            if t.state != Sending || (r.state == RSent && r.token == "") then v == db
            else
              && v == db.(tests := v.tests, leases := v.leases)
              && v.tests == db.tests[id := t.(state := match r.state case RSent => Sent case RRejected => Rejected
                                                       case RUnknown => Unknown)]
              && if t.channel !in db.leases || db.leases[t.channel].test != Some(id) then v.leases == db.leases
                 else
                   var l := db.leases[t.channel];
                   v.leases == db.leases[t.channel :=
                     Lease(l.delivery, None, None,
                           if l.nextPostAt < db.now + 1 then db.now + 1 else l.nextPostAt,
                           if l.cooldownUntil < db.now + rest then db.now + rest else l.cooldownUntil)]
  {}
}
