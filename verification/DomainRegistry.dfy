/** The registry of domain operations (go-domain/domainops/service.go).  Times are whole seconds. */
module DomainRegistry {
  import opened Prelude

  const MAX_RECORDS: nat := 512
  const MAX_BYTES: nat := 4 * 1024 * 1024
  const MAX_RESULT: nat := 4096
  const MAX_DEADLINE: int := 24 * 60 * 60
  const RETENTION: int := 5 * 60

  datatype Key = Key(job: Uuid, attempt: nat, operation: nat, id: Uuid)

  /** `envelope` stands for the rest of the authority envelope. */
  datatype Request = Request(key: Key, fingerprint: Uuid, envelope: Uuid, deadline: int)

  datatype State = Accepted | Running | Succeeded | Failed

  /** `live` while the operation runs and can be cancelled; `stopped` once its context is. */
  datatype Record = Record(request: Request, state: State, size: nat, live: bool, stopped: bool)

  function Expires(r: Record): int {
    r.request.deadline + RETENTION
  }

  type Records = map<Key, Record>

  datatype Registry = Registry(records: Records, bytes: int, active: int, draining: bool)

  datatype Verdict = BadDeadline | Conflict | Expired | Known(state: State) | Full | Started

  ghost function Total(m: Records): nat {
    if m == map[] then 0 else var k :| k in m; m[k].size + Total(m - {k})
  }

  function Live(m: Records): set<Key> {
    set k | k in m && m[k].live
  }

  predicate Kept(r: Record, now: int) {
    r.live || now < Expires(r)
  }

  function Pruned(m: Records, now: int): Records {
    map k | k in m && Kept(m[k], now) :: m[k]
  }

  /**
   The four clock readings of a post: two against the deadline before the lock is taken, one for
   pruning and one for expiry after it.
   */
  datatype Clock = Clock(first: int, second: int, pruning: int, expiry: int)

  predicate Rising(c: Clock) {
    c.first <= c.second <= c.pruning <= c.expiry
  }

  predicate DeadlineOk(req: Request, c: Clock) {
    c.first < req.deadline <= c.second + MAX_DEADLINE
  }

  function PostVerdict(g: Registry, req: Request, size: nat, total: int, c: Clock): Verdict {
    if !DeadlineOk(req, c) then BadDeadline
    else
      var m := Pruned(g.records, c.pruning);
      if req.key in m then
        if m[req.key].request != req then Conflict
        else if Expires(m[req.key]) <= c.expiry then Expired
        else Known(m[req.key].state)
      else if g.draining || g.active >= 1 || |m| >= MAX_RECORDS || total + size > MAX_BYTES then Full
      else Started
  }

  ghost function AfterPost(g: Registry, req: Request, size: nat, c: Clock): Registry {
    if !DeadlineOk(req, c) then g
    else
      var m := Pruned(g.records, c.pruning);
      if PostVerdict(g, req, size, Total(m), c) == Started then
        Registry(m[req.key := Record(req, Accepted, size, true, false)], Total(m) + size, g.active + 1, g.draining)
      else g.(records := m, bytes := Total(m))
  }

  /** `result` is the encoded size of a successful operation's result. */
  function AfterRun(g: Registry, key: Key, result: Option<nat>): Registry {
    if key !in g.records || !g.records[key].live then g
    else
      var r := g.records[key].(live := false);
      if result.None? || result.value > MAX_RESULT || g.bytes + result.value > MAX_BYTES then
        g.(records := g.records[key := r.(state := Failed)], active := g.active - 1)
      else
        Registry(g.records[key := r.(state := Succeeded, size := r.size + result.value)], g.bytes + result.value,
                 g.active - 1,
                 g.draining)
  }

  /** Drain: no more work is admitted, and every running operation is cancelled. */
  function AfterDrain(g: Registry): Registry {
    g.(draining := true, records := Stopped(g.records))
  }

  function Stopped(m: Records): Records {
    map k | k in m :: if m[k].live then m[k].(stopped := true) else m[k]
  }

  ghost predicate Sound(g: Registry) {
    && (forall k <- g.records :: g.records[k].request.key == k)
    && g.bytes == Total(g.records) && g.bytes <= MAX_BYTES && |g.records| <= MAX_RECORDS
    && g.active == |Live(g.records)| && g.active <= 1
  }

  // ---------- sums over the records ----------

  lemma {:induction false} TotalSplits(m: Records, k: Key)
    requires k in m
    ensures Total(m) == m[k].size + Total(m - {k})
    decreases |m|
  {
    var j :| j in m && Total(m) == m[j].size + Total(m - {j});
    if j != k {
      TotalSplits(m - {j}, k);
      TotalSplits(m - {k}, j);
      assert m - {j} - {k} == m - {k} - {j};
    }
  }

  lemma TotalPut(m: Records, k: Key, r: Record)
    ensures Total(m[k := r]) == r.size + Total(m - {k})
  {
    TotalSplits(m[k := r], k);
    assert m[k := r] - {k} == m - {k};
  }

  lemma {:induction false} TotalShrinks(m: Records, part: Records)
    requires part.Keys <= m.Keys && forall k <- part :: part[k] == m[k]
    ensures Total(part) <= Total(m) && |part| <= |m|
    decreases |m|
  {
    if part != m {
      var k :| k in m && k !in part;
      TotalSplits(m, k);
      TotalShrinks(m - {k}, part);
    }
  }

  lemma {:induction false} TotalOfSizes(m: Records, n: Records)
    requires m.Keys == n.Keys && forall k <- m :: m[k].size == n[k].size
    ensures Total(m) == Total(n)
    decreases |m|
  {
    if m != map[] {
      var k :| k in m;
      TotalSplits(m, k);
      TotalSplits(n, k);
      TotalOfSizes(m - {k}, n - {k});
    }
  }

  lemma PruneKeepsLive(m: Records, now: int)
    ensures Live(Pruned(m, now)) == Live(m)
  {}

  // ---------- the object ----------

  class Service {
    var records: Records
    var bytes: int
    var active: int
    var draining: bool

    ghost function Value(): Registry
      reads this
    {
      Registry(records, bytes, active, draining)
    }

    constructor ()
      ensures Value() == Registry(map[], 0, 0, false)
    {
      records, bytes, active, draining := map[], 0, 0, false;
    }

    method Prune(now: int)
      requires bytes == Total(records)
      modifies this`records, this`bytes
      ensures records == Pruned(old(records), now) && bytes == Total(records)
    {
      var rest := records.Keys;
      while rest != {}
        invariant rest <= records.Keys && records.Keys <= old(records).Keys && bytes == Total(records)
        invariant forall k <- records :: records[k] == old(records)[k]
        invariant forall k <- old(records) :: k in rest || (k in records <==> Kept(old(records)[k], now))
        decreases |rest|
      {
        var k :| k in rest;
        rest := rest - {k};
        if !records[k].live && Expires(records[k]) <= now {
          TotalSplits(records, k);
          bytes := bytes - records[k].size;
          records := records - {k};
        }
      }
    }

    method Post(req: Request, size: nat, c: Clock) returns (r: Verdict)
      requires bytes == Total(records)
      modifies this`records, this`bytes, this`active
      ensures r == PostVerdict(old(Value()), req, size, Total(Pruned(old(records), c.pruning)), c)
      ensures Value() == AfterPost(old(Value()), req, size, c)
    {
      if req.deadline <= c.first || req.deadline > c.second + MAX_DEADLINE { return BadDeadline; }
      Prune(c.pruning);
      if req.key in records {
        var prior := records[req.key];
        if prior.request != req { return Conflict; }
        if Expires(prior) <= c.expiry { return Expired; }
        return Known(prior.state);
      }
      if draining || active >= 1 || |records| >= MAX_RECORDS || bytes + size > MAX_BYTES { return Full; }
      records := records[req.key := Record(req, Accepted, size, true, false)];
      bytes, active := bytes + size, active + 1;
      return Started;
    }

    /** The end of an operation: `result` is the size of what it returned, if it succeeded. */
    method Complete(key: Key, result: Option<nat>)
      requires key in records && records[key].live
      modifies this`records, this`bytes, this`active
      ensures Value() == AfterRun(old(Value()), key, result)
    {
      var r := records[key].(live := false);
      active := active - 1;
      if result.None? || result.value > MAX_RESULT || bytes + result.value > MAX_BYTES {
        records := records[key := r.(state := Failed)];
        return;
      }
      records := records[key := r.(state := Succeeded, size := r.size + result.value)];
      bytes := bytes + result.value;
    }

    method Drain()
      modifies this`draining, this`records
      ensures Value() == AfterDrain(old(Value()))
    {
      draining := true;
      var rest := records.Keys;
      while rest != {}
        invariant draining && rest <= records.Keys == old(records).Keys
        invariant forall k <- records :: records[k] == if k in rest then old(records)[k] else Stopped(old(records))[k]
        decreases |rest|
      {
        var k :| k in rest;
        rest := rest - {k};
        if records[k].live {
          records := records[k := records[k].(stopped := true)];
        }
      }
      assert records == Stopped(old(records));
    }
  }

  // ---------- every run ----------

  datatype Step =
    | Post(request: Request, size: nat, clock: Clock)
    | Lookup(now: int)
    | Enter(key: Key)
    | Complete(key: Key, result: Option<nat>)
    | Drain

  /** `started` counts every execution in the life of the process. */
  datatype World = World(registry: Registry, now: int, started: multiset<Request>)

  /** The steps under the lock; one whose readings there do not follow the last one does not happen. */
  ghost function Do(w: World, s: Step): World {
    match s
    case Post(req, size, c) =>
      if c.pruning < w.now || !Rising(c) then w
      else
        var go := PostVerdict(w.registry, req, size, Total(Pruned(w.registry.records, c.pruning)), c) == Started;
        World(AfterPost(w.registry, req, size, c), c.expiry, if go then w.started + multiset{req} else w.started)
    case Lookup(now) =>
      if now < w.now then w
      else
        var m := Pruned(w.registry.records, now);
        World(w.registry.(records := m, bytes := Total(m)), now, w.started)
    case Enter(key) =>
      if key in w.registry.records && w.registry.records[key].live then
        w.(registry := w.registry.(records := w.registry.records[key := w.registry.records[key].(state := Running)]))
      else w
    case Complete(key, result) => w.(registry := AfterRun(w.registry, key, result))
    case Drain => w.(registry := AfterDrain(w.registry))
  }

  ghost function Run(steps: seq<Step>, now: int): World {
    if steps == [] then World(Registry(map[], 0, 0, false), now, multiset{})
    else Do(Run(steps[..|steps| - 1], now), steps[|steps| - 1])
  }

  /** A started request is still on record, or it is five minutes past its own deadline. */
  ghost predicate Remembered(w: World, req: Request) {
    || req.deadline + RETENTION <= w.now
    || (req.key in w.registry.records && w.registry.records[req.key].request == req)
  }

  ghost predicate Inv(w: World) {
    Sound(w.registry) && forall req <- w.started :: Remembered(w, req)
  }

  lemma PruneKeepsInv(w: World, now: int)
    requires Inv(w) && w.now <= now
    ensures var m := Pruned(w.registry.records, now);
            Inv(World(w.registry.(records := m, bytes := Total(m)), now, w.started))
  {
    var m := Pruned(w.registry.records, now);
    TotalShrinks(w.registry.records, m);
    PruneKeepsLive(w.registry.records, now);
    var z := World(w.registry.(records := m, bytes := Total(m)), now, w.started);
    forall req <- z.started ensures Remembered(z, req) {
      assert Remembered(w, req);
    }
  }

  lemma LivePut(m: Records, k: Key, r: Record)
    ensures Live(m[k := r]) == if r.live then Live(m) + {k} else Live(m) - {k}
  {}

  lemma StartKeepsSound(g: Registry, req: Request, size: nat)
    requires Sound(g) && req.key !in g.records && g.active == 0 && |g.records| < MAX_RECORDS
    requires g.bytes + size <= MAX_BYTES
    ensures Sound(Registry(g.records[req.key := Record(req, Accepted, size, true, false)], g.bytes + size, 1,
                           g.draining))
  {
    var r := Record(req, Accepted, size, true, false);
    NewRecord(g.records, req.key, r);
    FirstLive(g.records, req.key, r);
  }

  lemma NewRecord(m: Records, k: Key, r: Record)
    requires k !in m
    ensures Total(m[k := r]) == Total(m) + r.size && |m[k := r]| == |m| + 1
  {
    TotalPut(m, k, r);
    assert m - {k} == m;
  }

  lemma FirstLive(m: Records, k: Key, r: Record)
    requires |Live(m)| == 0 && r.live
    ensures |Live(m[k := r])| == 1
  {
    LivePut(m, k, r);
    assert Live(m) == {};
  }

  lemma StartKeepsInv(w: World, req: Request, size: nat)
    requires Inv(w) && req.key !in w.registry.records
    requires w.registry.active == 0 && |w.registry.records| < MAX_RECORDS && w.registry.bytes + size <= MAX_BYTES
    ensures var g := w.registry;
            Inv(World(Registry(g.records[req.key := Record(req, Accepted, size, true, false)], g.bytes + size, 1,
                               g.draining),
                      w.now, w.started + multiset{req}))
  {
    StartKeepsSound(w.registry, req, size);
    var g := w.registry;
    var next := Registry(g.records[req.key := Record(req, Accepted, size, true, false)], g.bytes + size, 1, g.draining);
    var z := World(next, w.now, w.started + multiset{req});
    forall other <- z.started ensures Remembered(z, other) {
      if other != req { assert Remembered(w, other); }
    }
  }

  /** The registry of a post once it has been pruned. */
  ghost function PrunedWorld(w: World, now: int): World {
    var m := Pruned(w.registry.records, now);
    World(w.registry.(records := m, bytes := Total(m)), now, w.started)
  }

  lemma PostKeepsInv(w: World, req: Request, size: nat, c: Clock)
    requires Inv(w) && w.now <= c.pruning && Rising(c)
    ensures Inv(Do(w, Post(req, size, c)))
  {
    PruneKeepsInv(w, c.pruning);
    var mid := PrunedWorld(w, c.pruning);
    var verdict := PostVerdict(w.registry, req, size, Total(mid.registry.records), c);
    if verdict == Started {
      StartKeepsInv(mid, req, size);
      TimePasses(Do(w, Post(req, size, c)).(now := c.pruning), c.expiry);
    } else if verdict == BadDeadline {
      TimePasses(w, c.expiry);
    } else {
      TimePasses(mid, c.expiry);
    }
  }

  lemma TimePasses(w: World, now: int)
    requires Inv(w) && w.now <= now
    ensures Inv(w.(now := now))
  {
    forall req <- w.started ensures Remembered(w.(now := now), req) {
      assert Remembered(w, req);
    }
  }

  /** A record that changes without changing its request. */
  lemma TouchKeepsInv(w: World, key: Key, r: Record, g: Registry)
    requires Inv(w) && key in w.registry.records && r.request == w.registry.records[key].request
    requires g.records == w.registry.records[key := r]
    requires g.bytes == w.registry.bytes - w.registry.records[key].size + r.size
    requires g.bytes <= MAX_BYTES && g.active == |Live(g.records)| && g.active <= 1
    ensures Inv(w.(registry := g))
  {
    TotalSplits(w.registry.records, key);
    TotalPut(w.registry.records, key, r);
    assert |g.records.Keys| == |w.registry.records.Keys| by { assert g.records.Keys == w.registry.records.Keys; }
    var z := w.(registry := g);
    forall req <- z.started ensures Remembered(z, req) {
      assert Remembered(w, req);
    }
  }

  lemma EnterKeepsInv(w: World, key: Key)
    requires Inv(w)
    ensures Inv(Do(w, Enter(key)))
  {
    var m := w.registry.records;
    if key in m && m[key].live {
      LivePut(m, key, m[key].(state := Running));
      assert Live(m) + {key} == Live(m);
      TouchKeepsInv(w, key, m[key].(state := Running), Do(w, Enter(key)).registry);
    }
  }

  lemma CompleteKeepsInv(w: World, key: Key, result: Option<nat>)
    requires Inv(w)
    ensures Inv(Do(w, Complete(key, result)))
  {
    var m := w.registry.records;
    if key in m && m[key].live {
      var z := AfterRun(w.registry, key, result);
      LivePut(m, key, z.records[key]);
      assert |Live(m) - {key}| == |Live(m)| - 1;
      TouchKeepsInv(w, key, z.records[key], z);
    }
  }

  lemma DrainKeepsInv(w: World)
    requires Inv(w)
    ensures Inv(Do(w, Drain))
  {
    var m := w.registry.records;
    TotalOfSizes(m, Stopped(m));
    assert Live(Stopped(m)) == Live(m) && |Stopped(m).Keys| == |m.Keys| by { assert Stopped(m).Keys == m.Keys; }
    forall req <- w.started ensures Remembered(Do(w, Drain), req) {
      assert Remembered(w, req);
    }
  }

  lemma DoKeepsInv(w: World, s: Step)
    requires Inv(w)
    ensures Inv(Do(w, s))
  {
    match s {
      case Post(req, size, c) => if w.now <= c.pruning && Rising(c) { PostKeepsInv(w, req, size, c); }
      case Lookup(now) => if w.now <= now { PruneKeepsInv(w, now); }
      case Enter(key) => EnterKeepsInv(w, key);
      case Complete(key, result) => CompleteKeepsInv(w, key, result);
      case Drain => DrainKeepsInv(w);
    }
  }

  lemma {:induction false} RunKeepsInv(steps: seq<Step>, now: int)
    ensures Inv(Run(steps, now))
  {
    if steps != [] {
      RunKeepsInv(steps[..|steps| - 1], now);
      DoKeepsInv(Run(steps[..|steps| - 1], now), steps[|steps| - 1]);
    }
  }

  // ---------- posting again ----------

  ghost function RunOn(w: World, steps: seq<Step>): World {
    if steps == [] then w else Do(RunOn(w, steps[..|steps| - 1]), steps[|steps| - 1])
  }

  /** The record of a finished operation stays as it is until it expires. */
  predicate Settled(w: World, r: Record) {
    var k := r.request.key;
    r.request.deadline + 300 <= w.now || (k in w.registry.records && w.registry.records[k] == r)
  }

  lemma SettledStep(w: World, s: Step, r: Record)
    requires Settled(w, r) && !r.live
    ensures Settled(Do(w, s), r) && w.now <= Do(w, s).now
  {}

  lemma {:induction false} SettledStays(w: World, steps: seq<Step>, r: Record)
    requires Settled(w, r) && !r.live
    ensures Settled(RunOn(w, steps), r) && w.now <= RunOn(w, steps).now
  {
    if steps != [] {
      SettledStays(w, steps[..|steps| - 1], r);
      SettledStep(RunOn(w, steps[..|steps| - 1]), steps[|steps| - 1], r);
    }
  }

  /**
   What a caller is told who posts again before the record is forgotten: the same request gets the
   outcome of the operation until five minutes after its deadline, a success exactly when it
   returned a result within both bounds, and another request under its key is a conflict.
   */
  lemma RepostIsAnswered(w: World, key: Key, result: Option<nat>, steps: seq<Step>, req: Request, size: nat, c: Clock)
    requires key in w.registry.records && w.registry.records[key].live && w.registry.records[key].request.key == key
    requires req.key == key && c.first < req.deadline <= c.second + 86400
    requires var z := RunOn(Do(w, Complete(key, result)), steps);
             z.now <= c.pruning < w.registry.records[key].request.deadline + 300 && Rising(c)
    ensures var z := RunOn(Do(w, Complete(key, result)), steps);
            && key in z.registry.records
            && PostVerdict(z.registry, req, size, Total(Pruned(z.registry.records, c.pruning)), c)
               == if req != w.registry.records[key].request then Conflict
                  else if req.deadline + 300 <= c.expiry then Expired
                  else if result.Some? && result.value <= 4096 && w.registry.bytes + result.value <= 4194304
                  then Known(Succeeded) else Known(Failed)
  {
    var v := Do(w, Complete(key, result));
    SettledStays(v, steps, v.registry.records[key]);
  }

  /** Work begins exactly when its deadline is near enough, its key is free, and the process is idle and has room. */
  lemma WorkBegins(g: Registry, req: Request, size: nat, c: Clock)
    requires Sound(g)
    ensures var m := Pruned(g.records, c.pruning);
            PostVerdict(g, req, size, Total(m), c) == Started
            <==> && c.first < req.deadline <= c.second + 86400
                 && (req.key in g.records ==>
                       !g.records[req.key].live && g.records[req.key].request.deadline + 300 <= c.pruning)
                 && !g.draining && (forall k <- g.records :: !g.records[k].live)
                 && |m| < 512 && Total(m) + size <= 4194304
  {
    if k :| k in g.records && g.records[k].live {
      assert k in Live(g.records);
    } else {
      assert Live(g.records) == {};
    }
  }

  // ---------- at most once ----------

  /** The registry is pruned for the post before its own request could have been forgotten. */
  predicate Prompt(s: Step) {
    s.Post? ==> s.clock.pruning < s.request.deadline + RETENTION
  }

  /** A prompt request that may start now was never started before: its record would still be there. */
  lemma StartIsFirst(w: World, req: Request, size: nat, c: Clock)
    requires Inv(w) && w.now <= c.pruning && Prompt(Post(req, size, c))
    requires PostVerdict(w.registry, req, size, Total(Pruned(w.registry.records, c.pruning)), c) == Started
    ensures req !in w.started
  {
    PruneKeepsInv(w, c.pruning);
    assert req in w.started ==> Remembered(PrunedWorld(w, c.pruning), req);
  }

  lemma OnceStays(w: World, s: Step, req: Request)
    requires Inv(w) && Prompt(s) && w.started[req] <= 1
    ensures Do(w, s).started[req] <= 1
  {
    if Do(w, s).started != w.started { StartIsFirst(w, s.request, s.size, s.clock); }
  }

  /** If every post is prompt, no request is executed twice in the life of the process, however often it is posted. */
  lemma {:induction false} ExecutedAtMostOnce(steps: seq<Step>, now: int, req: Request)
    requires forall s <- steps :: Prompt(s)
    ensures Run(steps, now).started[req] <= 1
  {
    if steps != [] {
      var n := |steps| - 1;
      ExecutedAtMostOnce(steps[..n], now, req);
      RunKeepsInv(steps[..n], now);
      OnceStays(Run(steps[..n], now), steps[n], req);
    }
  }

  function At(time: int): Clock {
    Clock(time, time, time, time)
  }

  /** Posted, done, and posted again. */
  function Repeat(req: Request, size: nat, c: Clock): seq<Step> {
    [Post(req, size, At(c.first)), Complete(req.key, None), Post(req, size, c)]
  }

  lemma AfterFirst(req: Request, size: nat, c: Clock)
    requires DeadlineOk(req, At(c.first)) && size <= MAX_BYTES
    ensures var g := Registry(map[req.key := Record(req, Accepted, size, true, false)], size, 1, false);
            Run([Post(req, size, At(c.first))], c.first) == World(g, c.first, multiset{req})
  {
    var none: Records := map[];
    assert Pruned(none, c.first) == none;
    assert [Post(req, size, At(c.first))][..0] == [];
    var r := Record(req, Accepted, size, true, false);
    assert none[req.key := r] == map[req.key := r];
  }

  /**
   And every post that is not prompt repeats an execution in some run: it passed its deadline
   checks in time, but waited for the lock until its earlier record had been forgotten.
   */
  lemma LatePostRepeats(req: Request, size: nat, c: Clock)
    requires Rising(c) && DeadlineOk(req, At(c.first)) && size <= MAX_BYTES && !Prompt(Post(req, size, c))
    ensures Run(Repeat(req, size, c), c.first).started[req] == 2
  {
    var steps := Repeat(req, size, c);
    AfterFirst(req, size, c);
    var w1 := Run([steps[0]], c.first);
    assert steps[..2] == [steps[0], steps[1]] && steps[..2][..1] == [steps[0]];
    var w2 := Do(w1, steps[1]);
    assert Run(steps[..2], c.first) == w2;
    assert w2.registry.records.Keys == {req.key} && !w2.registry.records[req.key].live;
    var m := Pruned(w2.registry.records, c.pruning);
    assert m == map[];
    assert Run(steps, c.first) == Do(w2, steps[2]);
  }

  /** The counters are exact, and the three bounds hold, after every run. */
  lemma BoundsHold(steps: seq<Step>, now: int)
    ensures var g := Run(steps, now).registry;
            && g.bytes == Total(g.records) <= MAX_BYTES && |g.records| <= MAX_RECORDS
            && g.active == |Live(g.records)| <= 1
  {
    RunKeepsInv(steps, now);
  }

  lemma DrainedStep(w: World, s: Step)
    requires w.registry.draining
    ensures Do(w, s).registry.draining && Do(w, s).started == w.started
    ensures forall k | k in Do(w, s).registry.records :: k in w.registry.records
    ensures forall k | k in Do(w, s).registry.records && w.registry.records[k].stopped ::
              Do(w, s).registry.records[k].stopped
  {}

  /** A service that drains starts nothing more, and every operation that was running then stays cancelled. */
  lemma {:induction false} NothingStartsAfterDrain(w: World, steps: seq<Step>)
    ensures var d, z := Do(w, Drain), RunOn(Do(w, Drain), steps);
            && z.registry.draining && z.started == d.started
            && forall k | k in z.registry.records ::
                 k in w.registry.records && (w.registry.records[k].live ==> z.registry.records[k].stopped)
  {
    if steps != [] {
      NothingStartsAfterDrain(w, steps[..|steps| - 1]);
      DrainedStep(RunOn(Do(w, Drain), steps[..|steps| - 1]), steps[|steps| - 1]);
    }
  }
}
