/**
 The delivery intent of one edition and destination, its part receipts, and the
 transactions on them (go-domain/telegramdelivery/postgres.go).

 Hashes are taken to be injective, so a payload hash is the payload and a render
 hash is the rendering.  Times are seconds, possibly fractional, with one clock
 reading per transaction.
 */
module TelegramStore {
  import opened Prelude

  datatype Owner = Owner(job: Uuid, attempt: nat, instance: Uuid)

  datatype Method = SendRich | SendPlain

  datatype Key = Key(via: Method, index: nat)

  /** What is sent: one rich message, or the numbered plain parts. */
  datatype Rendering = Rendering(rich: string, plain: seq<string>)

  datatype ReceiptState = Sending | Sent | Rejected | Unknown

  datatype Receipt = Receipt(
    payload: string, owner: Owner, state: ReceiptState, status: Option<int>, retryAfter: Option<real>, updatedAt: real)

  datatype Intent = Intent(
    owner: Owner, rendering: Rendering, parts: map<Key, Receipt>, outcome: Option<Outcome>)

  /** parts_sent and rich_message of a completed intent. */
  datatype Outcome = Outcome(count: nat, rich: bool)

  datatype Db = Db(now: real, intent: Option<Intent>)

  datatype Result = Result(state: ReceiptState, status: int, retryAfter: Option<real>)

  datatype Reservation = New | AlreadySent | InFlight | PreviouslyRejected | RateLimited | Failed

  datatype Resolution = Open | Done | Conflict | Uncertain

  const TOO_MANY: int := 429

  // ---------- row predicates ----------

  /** sending, sent and unknown receipts: the message may be with the recipient. */
  predicate Possible(r: Receipt) {
    r.state == Sending || r.state == Sent || r.state == Unknown
  }

  predicate Throttled(r: Receipt) {
    r.state == Rejected && r.status == Some(TOO_MANY)
  }

  predicate Waiting(r: Receipt, now: real) {
    r.retryAfter.Some? && r.retryAfter.value > now - r.updatedAt
  }

  predicate ActiveFor(db: Db, o: Owner) {
    db.intent.Some? && db.intent.value.outcome.None? && db.intent.value.owner == o
  }

  predicate AnyPossible(parts: map<Key, Receipt>) {
    exists k <- parts :: Possible(parts[k])
  }

  /** A 429 applies to the whole intent: to its own owner always, to others until it has waited. */
  predicate IntentThrottled(parts: map<Key, Receipt>, o: Owner, now: real) {
    exists k <- parts :: Throttled(parts[k]) && (parts[k].owner == o || Waiting(parts[k], now))
  }

  // ---------- transactions ----------

  function Resolve(db: Db, o: Owner, r: Rendering): Resolution {
    if db.intent.None? then Open
    else if db.intent.value.rendering != r then Conflict
    else if db.intent.value.outcome.Some? then Done
    else if db.intent.value.owner != o && AnyPossible(db.intent.value.parts) then Uncertain
    else Open
  }

  /** ResolveIntent: create the intent, or take it over when nothing can have been delivered. */
  function ResolveTx(db: Db, o: Owner, r: Rendering): Db {
    if Resolve(db, o, r) != Open then db
    else if db.intent.None? then db.(intent := Some(Intent(o, r, map[], None)))
    else db.(intent := Some(db.intent.value.(owner := o)))
  }

  function ReserveVerdict(db: Db, o: Owner, k: Key, payload: string): Reservation {
    if !ActiveFor(db, o) then Failed
    else
      var parts := db.intent.value.parts;
      if IntentThrottled(parts, o, db.now) then RateLimited
      else if k !in parts then New
      else if parts[k].payload != payload then Failed
      else match parts[k].state
        case Sent => AlreadySent
        case Rejected =>
          if Throttled(parts[k]) && Waiting(parts[k], db.now) then RateLimited
          else if parts[k].owner != o && (Throttled(parts[k]) || k.via == SendPlain) then New
          else if Throttled(parts[k]) then RateLimited
          else PreviouslyRejected
        case _ => InFlight
  }

  function ReserveTx(db: Db, o: Owner, k: Key, payload: string): Db {
    if ReserveVerdict(db, o, k, payload) == New then
      db.(intent := Some(db.intent.value.(
            parts := db.intent.value.parts[k := Receipt(payload, o, Sending, None, None, db.now)])))
    else db
  }

  /** The first owner creates the intent; its own later calls find it open until it is completed. */
  lemma ResolveCreates(db: Db, o: Owner, r: Rendering)
    requires db.intent.Some? ==> db.intent.value.owner == o
    ensures if db.intent.None? then
              Resolve(db, o, r) == Open && ResolveTx(db, o, r) == Db(db.now, Some(Intent(o, r, map[], None)))
            else
              && ResolveTx(db, o, r) == db
              && Resolve(db, o, r) == if db.intent.value.rendering != r then Conflict
                                      else if db.intent.value.outcome.Some? then Done else Open
  {}

  /** An answer is recorded once, by the owner whose message it is; a status of zero is none. */
  lemma FinishDecides(db: Db, o: Owner, k: Key, payload: string, r: Result)
    requires db.intent.Some? && k in db.intent.value.parts
    ensures var it := db.intent.value;
            var p := it.parts[k];
            FinishTx(db, o, k, payload, r)
            == if r.state == Sending || it.outcome.Some? || it.owner != o || p.owner != o || p.state != Sending
                  || p.payload != payload then db
               else db.(intent := Some(it.(parts := it.parts[k :=
                      Receipt(payload, o, r.state, if r.status == 0 then None else Some(r.status), r.retryAfter,
                              db.now)])))
  {}

  /** Another owner gets an unfinished intent exactly when each message was refused or never reserved. */
  lemma TakeoverDecides(db: Db, o: Owner, r: Rendering)
    requires db.intent.Some? && db.intent.value.owner != o
    ensures var it := db.intent.value;
            if it.rendering == r && it.outcome.None? && (forall q <- it.parts :: it.parts[q].state == Rejected) then
              Resolve(db, o, r) == Open && ResolveTx(db, o, r) == Db(db.now, Some(Intent(o, r, it.parts, None)))
            else Resolve(db, o, r) != Open && ResolveTx(db, o, r) == db
  {}

  /**
   What Reserve answers to the intent's owner.  It is held back exactly while a 429 of its own, or
   one of another owner whose pause is not over, is on record for any message; otherwise it gets
   what has no receipt, a refused plain part of another owner, and whatever another owner got a 429 for.
   */
  lemma ReserveDecides(db: Db, o: Owner, k: Key, payload: string)
    requires db.intent.Some? && db.intent.value.outcome.None? && db.intent.value.owner == o
    ensures var parts, res := db.intent.value.parts, ReserveVerdict(db, o, k, payload);
            var free := forall q <- parts :: parts[q].state == Rejected && parts[q].status == Some(429) ==>
                          parts[q].owner != o
                          && (parts[q].retryAfter.None? || parts[q].retryAfter.value <= db.now - parts[q].updatedAt);
            && (res == RateLimited <==> !free)
            && (free ==>
                  res == if k !in parts then New
                         else if parts[k].payload != payload then Failed
                         else match parts[k].state
                              case Sent => AlreadySent
                              case Rejected =>
                                if parts[k].owner != o && (k.via == SendPlain || parts[k].status == Some(429)) then New
                                else PreviouslyRejected
                              case _ => InFlight)
            && ReserveTx(db, o, k, payload)
               == if res != New then db
                  else Db(db.now, Some(db.intent.value.(parts := parts[k := Receipt(payload, o, Sending, None, None,
                                                                                    db.now)])))
  {
    var parts := db.intent.value.parts;
    if q :| q in parts && Throttled(parts[q]) && (parts[q].owner == o || Waiting(parts[q], db.now)) {
      assert IntentThrottled(parts, o, db.now);
    }
  }

  predicate CanFinish(db: Db, o: Owner, k: Key, payload: string, r: Result) {
    && r.state != Sending && ActiveFor(db, o) && k in db.intent.value.parts
    && var p := db.intent.value.parts[k];
    p.payload == payload && p.owner == o && p.state == Sending
  }

  function FinishTx(db: Db, o: Owner, k: Key, payload: string, r: Result): Db {
    if CanFinish(db, o, k, payload, r) then
      var p := db.intent.value.parts[k];
      var q := p.(state := r.state, status := if r.status == 0 then None else Some(r.status),
                  retryAfter := r.retryAfter, updatedAt := db.now);
      db.(intent := Some(db.intent.value.(parts := db.intent.value.parts[k := q])))
    else db
  }

  function CompleteTx(db: Db, o: Owner, count: nat, rich: bool): Db {
    if count >= 1 && ActiveFor(db, o) then
      db.(intent := Some(db.intent.value.(outcome := Some(Outcome(count, rich)))))
    else db
  }

  // ---------- the same transactions, row by row ----------

  class Receipts {
    var now: real
    var intent: Option<Intent>

    constructor ()
      ensures Value() == Db(0.0, None)
    {
      now, intent := 0.0, None;
    }

    function Value(): Db
      reads this
    {
      Db(now, intent)
    }

    method ResolveIntent(o: Owner, r: Rendering) returns (res: Resolution)
      modifies this`intent
      ensures res == Resolve(old(Value()), o, r)
      ensures Value() == ResolveTx(old(Value()), o, r)
    {
      if intent.None? {
        intent := Some(Intent(o, r, map[], None));
      }
      var row := intent.value;
      if row.rendering != r { return Conflict; }
      if row.outcome.Some? { return Done; }
      if row.owner != o {
        if exists k <- row.parts :: Possible(row.parts[k]) { return Uncertain; }
        intent := Some(row.(owner := o));
      }
      return Open;
    }

    method Reserve(o: Owner, k: Key, payload: string) returns (res: Reservation)
      modifies this`intent
      ensures res == ReserveVerdict(old(Value()), o, k, payload)
      ensures Value() == ReserveTx(old(Value()), o, k, payload)
      ensures old(intent).Some? && old(intent).value.outcome.None? && old(intent).value.owner == o ==>
                var parts := old(intent).value.parts;
                && (res == RateLimited <==>
                      exists q <- parts :: parts[q].state == Rejected && parts[q].status == Some(429)
                        && (parts[q].retryAfter.None? || parts[q].retryAfter.value <= now - parts[q].updatedAt ==>
                            parts[q].owner == o))
                && (res != RateLimited && (k in parts ==> parts[k].payload == payload && parts[k].state == Rejected
                                                          && parts[k].status == Some(429)) ==>
                      res == New && intent == Some(old(intent).value.(
                                      parts := parts[k := Receipt(payload, o, Sending, None, None, now)])))
    {
      if intent.None? || intent.value.outcome.Some? || intent.value.owner != o { return Failed; }
      ReserveDecides(Value(), o, k, payload);
      var row := intent.value;
      if IntentThrottled(row.parts, o, now) { return RateLimited; }
      if k !in row.parts {
        intent := Some(row.(parts := row.parts[k := Receipt(payload, o, Sending, None, None, now)]));
        return New;
      }
      var p := row.parts[k];
      if p.payload != payload { return Failed; }
      if p.state == Sent { return AlreadySent; }
      if p.state != Rejected { return InFlight; }
      var limited := p.status == Some(TOO_MANY);
      if limited && Waiting(p, now) { return RateLimited; }
      if p.owner != o && (limited || k.via == SendPlain) {
        intent := Some(row.(parts := row.parts[k := p.(state := Sending, owner := o, status := None,
                                                       retryAfter := None, updatedAt := now)]));
        return New;
      }
      return if limited then RateLimited else PreviouslyRejected;
    }

    method Finish(o: Owner, k: Key, payload: string, r: Result) returns (ok: bool)
      modifies this`intent
      ensures ok <==> CanFinish(old(Value()), o, k, payload, r)
      ensures Value() == FinishTx(old(Value()), o, k, payload, r)
    {
      if r.state == Sending || intent.None? || intent.value.outcome.Some? || intent.value.owner != o { return false; }
      var row := intent.value;
      if k !in row.parts || row.parts[k].payload != payload { return false; }
      if row.parts[k].owner != o || row.parts[k].state != Sending { return false; }
      var status := if r.status == 0 then None else Some(r.status);
      intent := Some(row.(parts := row.parts[k := Receipt(payload, o, r.state, status, r.retryAfter, now)]));
      ok := true;
    }

    method Complete(o: Owner, count: nat, rich: bool) returns (ok: bool)
      modifies this`intent
      ensures ok <==> count >= 1 && ActiveFor(old(Value()), o)
      ensures Value() == CompleteTx(old(Value()), o, count, rich)
    {
      if count < 1 || intent.None? || intent.value.outcome.Some? || intent.value.owner != o { return false; }
      intent := Some(intent.value.(outcome := Some(Outcome(count, rich))));
      ok := true;
    }
  }
}
