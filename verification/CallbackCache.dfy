/** Admission and replay of article callbacks (go-domain/callbacks/admission.go). */
module CallbackCache {
  import opened Prelude

  type Key = nat
  type Bytes = seq<nat>

  datatype Entry = Entry(key: Key, response: Bytes)

  datatype Limits = Limits(active: int, entries: int, bytes: int)

  /** The running callbacks, and the cached responses from the least to the most recently used. */
  datatype Cache = Cache(active: set<Key>, entries: seq<Entry>)

  datatype Admission = Hit(response: Bytes) | Admitted | AlreadyRunning | Full

  function Size(entries: seq<Entry>): nat {
    if entries == [] then 0 else |entries[0].response| + Size(entries[1..])
  }

  predicate Has(entries: seq<Entry>, key: Key) {
    exists i | 0 <= i < |entries| :: entries[i].key == key
  }

  predicate Distinct(entries: seq<Entry>) {
    forall i, j | 0 <= i < j < |entries| :: entries[i].key != entries[j].key
  }

  function Position(entries: seq<Entry>, key: Key): (i: nat)
    requires Has(entries, key)
    ensures i < |entries| && entries[i].key == key
  {
    if entries[0].key == key then 0 else 1 + Position(entries[1..], key)
  }

  function Without(entries: seq<Entry>, i: nat): seq<Entry>
    requires i < |entries|
  {
    entries[..i] + entries[i + 1..]
  }

  function BeginVerdict(c: Cache, key: Key, limits: Limits): Admission {
    if Has(c.entries, key) then Hit(c.entries[Position(c.entries, key)].response)
    else if key in c.active then AlreadyRunning
    else if |c.active| >= limits.active then Full
    else Admitted
  }

  /** A hit moves its entry to the recent end. */
  function AfterBegin(c: Cache, key: Key, limits: Limits): Cache {
    match BeginVerdict(c, key, limits)
    case Hit(_) =>
      var i := Position(c.entries, key);
      c.(entries := Without(c.entries, i) + [c.entries[i]])
    case Admitted => c.(active := c.active + {key})
    case _ => c
  }

  predicate Over(entries: seq<Entry>, limits: Limits) {
    |entries| > limits.entries || Size(entries) > limits.bytes
  }

  /** The eviction loop: the least recently used entry goes first. */
  function Trim(entries: seq<Entry>, limits: Limits): seq<Entry> {
    if entries != [] && Over(entries, limits) then Trim(entries[1..], limits) else entries
  }

  predicate Cacheable(response: Option<Bytes>, limits: Limits) {
    response.Some? && |response.value| <= limits.bytes && limits.entries > 0
  }

  /** `None` is a failed callback. */
  function AfterFinish(c: Cache, key: Key, response: Option<Bytes>, limits: Limits): Cache {
    if key !in c.active then c
    else if !Cacheable(response, limits) then c.(active := c.active - {key})
    else Cache(c.active - {key}, Trim(c.entries + [Entry(key, response.value)], limits))
  }

  ghost predicate Sound(c: Cache, limits: Limits) {
    && Distinct(c.entries) && (forall key <- c.active :: !Has(c.entries, key))
    && (c.entries != [] ==> !Over(c.entries, limits))
    && |c.active| <= Max(limits.active, 0)
  }

  // ---------- sizes and eviction ----------

  lemma {:induction false} SizeConcat(a: seq<Entry>, b: seq<Entry>)
    ensures Size(a + b) == Size(a) + Size(b)
  {
    if a == [] {
      assert a + b == b;
    } else {
      SizeConcat(a[1..], b);
      assert (a + b)[1..] == a[1..] + b;
    }
  }

  lemma SizeWithout(entries: seq<Entry>, i: nat)
    requires i < |entries|
    ensures Size(entries) == Size(Without(entries, i)) + |entries[i].response|
  {
    assert entries == entries[..i] + ([entries[i]] + entries[i + 1..]);
    SizeConcat(entries[..i], [entries[i]] + entries[i + 1..]);
    SizeConcat([entries[i]], entries[i + 1..]);
    SizeConcat(entries[..i], entries[i + 1..]);
  }

  /** Eviction drops a run of the oldest entries, as few as will do. */
  lemma {:induction false} TrimIsLeast(entries: seq<Entry>, limits: Limits) returns (n: nat)
    ensures n <= |entries| && Trim(entries, limits) == entries[n..]
    ensures n < |entries| ==> |entries[n..]| <= limits.entries && Size(entries[n..]) <= limits.bytes
    ensures forall k | 0 <= k < n :: |entries[k..]| > limits.entries || Size(entries[k..]) > limits.bytes
  {
    n := 0;
    if entries != [] && Over(entries, limits) {
      var m := TrimIsLeast(entries[1..], limits);
      n := m + 1;
      assert entries[n..] == entries[1..][m..];
      forall k | 0 <= k < n ensures |entries[k..]| > limits.entries || Size(entries[k..]) > limits.bytes {
        assert k == 0 ==> entries[k..] == entries;
        assert k > 0 ==> entries[k..] == entries[1..][k - 1..];
      }
    }
  }

  /** A response that is small enough always survives its own eviction. */
  lemma {:induction false} NewestSurvives(entries: seq<Entry>, limits: Limits)
    requires entries != [] && |entries[|entries| - 1].response| <= limits.bytes && limits.entries > 0
    ensures Trim(entries, limits) != [] && Trim(entries, limits)[|Trim(entries, limits)| - 1] == entries[|entries| - 1]
  {
    if |entries| > 1 {
      if Over(entries, limits) { NewestSurvives(entries[1..], limits); }
    } else {
      assert entries[1..] == [];
      assert Size(entries) == |entries[0].response| + Size(entries[1..]);
    }
  }

  // ---------- every operation keeps the cache sound ----------

  lemma HasWithout(entries: seq<Entry>, i: nat, key: Key)
    requires i < |entries| && Distinct(entries)
    ensures Has(Without(entries, i), key) <==> Has(entries, key) && key != entries[i].key
  {
    var rest := Without(entries, i);
    if Has(entries, key) && key != entries[i].key {
      var k :| 0 <= k < |entries| && entries[k].key == key;
      assert rest[if k < i then k else k - 1] == entries[k];
    }
    if Has(rest, key) {
      var k :| 0 <= k < |rest| && rest[k].key == key;
      assert rest[k] == entries[if k < i then k else k + 1];
    }
  }

  lemma MovedKeys(entries: seq<Entry>, i: nat)
    requires i < |entries| && Distinct(entries)
    ensures var moved := Without(entries, i) + [entries[i]];
            && Distinct(moved) && Size(moved) == Size(entries) && |moved| == |entries|
            && forall key :: Has(moved, key) <==> Has(entries, key)
  {
    var rest, moved := Without(entries, i), Without(entries, i) + [entries[i]];
    SizeWithout(entries, i);
    SizeConcat(rest, [entries[i]]);
    HasWithout(entries, i, entries[i].key);
    forall k | 0 <= k < |rest| ensures rest[k].key != entries[i].key {
      assert !Has(rest, entries[i].key);
    }
    forall key ensures Has(moved, key) <==> Has(entries, key) {
      HasWithout(entries, i, key);
      HasAppend(rest, entries[i], key);
    }
  }

  lemma HasAppend(entries: seq<Entry>, e: Entry, key: Key)
    ensures Has(entries + [e], key) <==> Has(entries, key) || key == e.key
  {
    var wider := entries + [e];
    assert wider[|entries|] == e;
    if Has(entries, key) {
      var k :| 0 <= k < |entries| && entries[k].key == key;
      assert wider[k] == entries[k];
    }
  }

  lemma HasSuffix(entries: seq<Entry>, n: nat, key: Key)
    requires n <= |entries| && Has(entries[n..], key)
    ensures Has(entries, key)
  {
    var k :| 0 <= k < |entries[n..]| && entries[n..][k].key == key;
    assert entries[n + k].key == key;
  }

  lemma BeginKeepsSound(c: Cache, key: Key, limits: Limits)
    requires Sound(c, limits)
    ensures Sound(AfterBegin(c, key, limits), limits)
  {
    if Has(c.entries, key) {
      MovedKeys(c.entries, Position(c.entries, key));
    }
  }

  lemma FinishKeepsSound(c: Cache, key: Key, response: Option<Bytes>, limits: Limits)
    requires Sound(c, limits)
    ensures Sound(AfterFinish(c, key, response, limits), limits)
  {
    if key in c.active && Cacheable(response, limits) {
      var wider := c.entries + [Entry(key, response.value)];
      var n := TrimIsLeast(wider, limits);
      forall other <- c.active - {key} ensures !Has(wider[n..], other) {
        HasAppend(c.entries, Entry(key, response.value), other);
        if Has(wider[n..], other) { HasSuffix(wider, n, other); }
      }
      assert !Has(c.entries, key);
    }
  }

  /** The index holds exactly the keys of the list, which are all different. */
  ghost predicate Indexed(cached: set<Key>, lru: seq<Entry>, bytes: int) {
    (forall key :: key in cached <==> Has(lru, key)) && bytes == Size(lru) && Distinct(lru)
  }

  lemma IndexedTail(cached: set<Key>, lru: seq<Entry>, bytes: int)
    requires Indexed(cached, lru, bytes) && lru != []
    ensures Indexed(cached - {lru[0].key}, lru[1..], bytes - |lru[0].response|)
  {
    assert lru[1..] == Without(lru, 0);
    forall key ensures Has(lru[1..], key) <==> Has(lru, key) && key != lru[0].key {
      HasWithout(lru, 0, key);
    }
  }

  lemma IndexedAppend(cached: set<Key>, lru: seq<Entry>, bytes: int, item: Entry)
    requires Indexed(cached, lru, bytes) && !Has(lru, item.key)
    ensures Indexed(cached + {item.key}, lru + [item], bytes + |item.response|)
  {
    SizeConcat(lru, [item]);
    forall key ensures Has(lru + [item], key) <==> Has(lru, key) || key == item.key {
      HasAppend(lru, item, key);
    }
  }

  // ---------- the object ----------

  class AdmissionCache {
    const limits: Limits
    var active: set<Key>
    var cached: set<Key>      // the keys that have an element in the list
    var lru: seq<Entry>
    var bytes: int

    ghost function Value(): Cache
      reads this
    {
      Cache(active, lru)
    }

    /** The index and the byte count agree with the list. */
    ghost predicate Valid()
      reads this
    {
      Indexed(cached, lru, bytes) && Sound(Value(), limits)
    }

    constructor (limits: Limits)
      ensures this.limits == limits && Valid() && Value() == Cache({}, [])
    {
      this.limits := limits;
      active, cached, lru, bytes := {}, {}, [], 0;
    }

    method Begin(key: Key) returns (r: Admission)
      requires Valid()
      modifies this`active, this`lru
      ensures Valid() && r == BeginVerdict(old(Value()), key, limits)
      ensures Value() == AfterBegin(old(Value()), key, limits)
    {
      BeginKeepsSound(Value(), key, limits);
      if key in cached {
        var i := Position(lru, key);
        var item := lru[i];
        MovedKeys(lru, i);
        lru := lru[..i] + lru[i + 1..] + [item];
        return Hit(item.response);
      }
      if key in active { return AlreadyRunning; }
      if |active| >= limits.active { return Full; }
      active := active + {key};
      return Admitted;
    }

    method Finish(key: Key, response: Option<Bytes>)
      requires Valid()
      modifies this`active, this`cached, this`lru, this`bytes
      ensures Valid() && Value() == AfterFinish(old(Value()), key, response, limits)
    {
      if key !in active { return; }
      FinishKeepsSound(Value(), key, response, limits);
      active := active - {key};
      if response.None? || |response.value| > limits.bytes || limits.entries <= 0 { return; }
      if key in cached { assert false; }
      PushBack(Entry(key, response.value));
      EvictAll();
    }

    method PushBack(item: Entry)
      requires Indexed(cached, lru, bytes) && !Has(lru, item.key)
      modifies this`cached, this`lru, this`bytes
      ensures Indexed(cached, lru, bytes) && lru == old(lru) + [item]
    {
      IndexedAppend(cached, lru, bytes, item);
      lru, cached, bytes := lru + [item], cached + {item.key}, bytes + |item.response|;
    }

    /** The eviction loop. */
    method EvictAll()
      requires Indexed(cached, lru, bytes) && limits.entries > 0 && limits.bytes >= 0
      modifies this`cached, this`lru, this`bytes
      ensures Indexed(cached, lru, bytes) && lru == Trim(old(lru), limits)
    {
      while |lru| > limits.entries || bytes > limits.bytes
        invariant Indexed(cached, lru, bytes) && Trim(lru, limits) == Trim(old(lru), limits)
        decreases |lru|
      {
        var e := lru[0];
        IndexedTail(cached, lru, bytes);
        cached, bytes, lru := cached - {e.key}, bytes - |e.response|, lru[1..];
      }
    }
  }

  // ---------- every run ----------

  datatype Op = Begin(key: Key) | Finish(key: Key, response: Option<Bytes>)

  /**
   The cache beside a simple map: `latest` is what was last finished and cacheable for each
   key, `used` when each key was last hit or finished.
   */
  datatype World = World(cache: Cache, latest: map<Key, Bytes>, used: map<Key, nat>, clock: nat)

  function Do(w: World, op: Op, limits: Limits): World {
    match op
    case Begin(key) =>
      var hit := BeginVerdict(w.cache, key, limits).Hit?;
      World(AfterBegin(w.cache, key, limits), w.latest, if hit then w.used[key := w.clock] else w.used, w.clock + 1)
    case Finish(key, response) =>
      if key in w.cache.active && Cacheable(response, limits) then
        World(AfterFinish(w.cache, key, response, limits), w.latest[key := response.value], w.used[key := w.clock],
              w.clock + 1)
      else w.(cache := AfterFinish(w.cache, key, response, limits), clock := w.clock + 1)
  }

  function Run(ops: seq<Op>, limits: Limits): World {
    if ops == [] then World(Cache({}, []), map[], map[], 0)
    else Do(Run(ops[..|ops| - 1], limits), ops[|ops| - 1], limits)
  }

  /** A cached entry holds the latest response, and the list is in the order of use. */
  ghost predicate Listed(w: World, entries: seq<Entry>) {
    && (forall i | 0 <= i < |entries| ::
          && entries[i].key in w.latest && w.latest[entries[i].key] == entries[i].response
          && entries[i].key in w.used && w.used[entries[i].key] < w.clock)
    && forall i, j | 0 <= i < j < |entries| :: w.used[entries[i].key] < w.used[entries[j].key]
  }

  ghost predicate Inv(w: World, limits: Limits) {
    Sound(w.cache, limits) && Listed(w, w.cache.entries)
  }

  /** A key that is used now goes behind all others. */
  lemma ListedAppend(w: World, entries: seq<Entry>, key: Key, response: Bytes)
    requires Listed(w, entries) && !Has(entries, key)
    ensures Listed(World(w.cache, w.latest[key := response], w.used[key := w.clock], w.clock + 1),
                   entries + [Entry(key, response)])
  {
    assert forall i | 0 <= i < |entries| :: entries[i].key != key;
  }

  lemma ListedWithout(w: World, entries: seq<Entry>, i: nat)
    requires Listed(w, entries) && i < |entries|
    ensures Listed(w, Without(entries, i))
  {
    var rest := Without(entries, i);
    assert forall k | 0 <= k < |rest| :: rest[k] == entries[if k < i then k else k + 1];
  }

  lemma BeginKeepsList(w: World, key: Key, limits: Limits)
    requires Inv(w, limits)
    ensures var z := Do(w, Begin(key), limits); Listed(z, z.cache.entries)
  {
    var entries := w.cache.entries;
    if Has(entries, key) {
      var i := Position(entries, key);
      ListedWithout(w, entries, i);
      HasWithout(entries, i, key);
      ListedAppend(w, Without(entries, i), key, entries[i].response);
      assert w.latest[key := entries[i].response] == w.latest;
    }
  }

  lemma ListedSuffix(w: World, entries: seq<Entry>, n: nat)
    requires Listed(w, entries) && n <= |entries|
    ensures Listed(w, entries[n..])
  {
    assert forall k | 0 <= k < |entries[n..]| :: entries[n..][k] == entries[n + k];
  }

  lemma FinishKeepsList(w: World, key: Key, response: Option<Bytes>, limits: Limits)
    requires Inv(w, limits)
    ensures var z := Do(w, Finish(key, response), limits); Listed(z, z.cache.entries)
  {
    if key in w.cache.active && Cacheable(response, limits) {
      var wider := w.cache.entries + [Entry(key, response.value)];
      var z := Do(w, Finish(key, response), limits);
      ListedAppend(w, w.cache.entries, key, response.value);
      var n := TrimIsLeast(wider, limits);
      ListedSuffix(z, wider, n);
    }
  }

  lemma {:induction false} RunKeepsInv(ops: seq<Op>, limits: Limits)
    ensures Inv(Run(ops, limits), limits)
  {
    if ops != [] {
      var w, op := Run(ops[..|ops| - 1], limits), ops[|ops| - 1];
      RunKeepsInv(ops[..|ops| - 1], limits);
      match op {
        case Begin(key) =>
          BeginKeepsSound(w.cache, key, limits);
          BeginKeepsList(w, key, limits);
        case Finish(key, response) =>
          FinishKeepsSound(w.cache, key, response, limits);
          FinishKeepsList(w, key, response, limits);
      }
    }
  }

  /** After any history: no more running callbacks than allowed, no more cached responses, and no more bytes of them. */
  lemma BoundsHold(ops: seq<Op>, limits: Limits)
    ensures var c := Run(ops, limits).cache;
            && |c.active| <= Max(limits.active, 0)
            && (c.entries != [] ==> |c.entries| <= limits.entries && Size(c.entries) <= limits.bytes)
  {
    RunKeepsInv(ops, limits);
  }

  /** A hit returns exactly the bytes last finished for its key, after any history. */
  lemma HitIsLatest(ops: seq<Op>, limits: Limits, key: Key)
    requires BeginVerdict(Run(ops, limits).cache, key, limits).Hit?
    ensures var w := Run(ops, limits);
            key in w.latest && BeginVerdict(w.cache, key, limits) == Hit(w.latest[key]) && key !in w.cache.active
  {
    RunKeepsInv(ops, limits);
  }

  /** What is finished and fits is a hit from then on; what fails or does not fit leaves the cache as it was. */
  lemma FinishedIsHit(ops: seq<Op>, limits: Limits, key: Key, response: Option<Bytes>)
    requires key in Run(ops, limits).cache.active
    ensures var c := Run(ops, limits).cache;
            var d := Run(ops + [Finish(key, response)], limits).cache;
            && d.active == c.active - {key}
            && if response.Some? && |response.value| <= limits.bytes && limits.entries > 0
               then BeginVerdict(d, key, limits) == Hit(response.value)
               else d.entries == c.entries && !BeginVerdict(d, key, limits).Hit?
  {
    var c := Run(ops, limits).cache;
    assert (ops + [Finish(key, response)])[..|ops|] == ops;
    RunKeepsInv(ops, limits);
    RunKeepsInv(ops + [Finish(key, response)], limits);
    if response.Some? && |response.value| <= limits.bytes && limits.entries > 0 {
      var wider := c.entries + [Entry(key, response.value)];
      NewestSurvives(wider, limits);
      HitIsHeld(Trim(wider, limits), |Trim(wider, limits)| - 1);
    }
  }

  lemma {:induction false} HitIsHeld(entries: seq<Entry>, i: nat)
    requires Distinct(entries) && i < |entries|
    ensures Has(entries, entries[i].key) && entries[Position(entries, entries[i].key)] == entries[i]
  {}

  /** Who is let in: a cached key is answered, another one starts unless it or too many others are running. */
  lemma AdmissionDecides(ops: seq<Op>, limits: Limits, key: Key)
    ensures var w := Run(ops, limits);
            var r := BeginVerdict(w.cache, key, limits);
            && (r.Hit? <==> exists e <- w.cache.entries :: e.key == key)
            && (r == AlreadyRunning <==> key in w.cache.active)
            && (r == Admitted <==> (forall e <- w.cache.entries :: e.key != key) && key !in w.cache.active
                                   && |w.cache.active| < limits.active)
            && (r == Admitted ==>
                  Run(ops + [Begin(key)], limits).cache == Cache(w.cache.active + {key}, w.cache.entries))
  {
    RunKeepsInv(ops, limits);
    assert (ops + [Begin(key)])[..|ops|] == ops;
    var entries := Run(ops, limits).cache.entries;
    if e :| e in entries && e.key == key {
      var i :| 0 <= i < |entries| && entries[i] == e;
    }
  }

  lemma InSuffix<T>(s: seq<T>, n: nat)
    requires n <= |s|
    ensures forall i | n <= i < |s| :: s[i] in s[n..]
  {
    forall i | n <= i < |s| ensures s[i] in s[n..] {
      assert s[n..][i - n] == s[i];
    }
  }

  /** Whatever a finish evicts was used before everything that it keeps. */
  lemma EvictsOldest(ops: seq<Op>, limits: Limits, key: Key, response: Option<Bytes>, gone: Entry, kept: Entry)
    requires var w := Run(ops, limits);
             && key in w.cache.active && Cacheable(response, limits) && gone in w.cache.entries
             && gone !in AfterFinish(w.cache, key, response, limits).entries
             && kept in AfterFinish(w.cache, key, response, limits).entries
    ensures var z := Do(Run(ops, limits), Finish(key, response), limits);
            gone.key in z.used && kept.key in z.used && z.used[gone.key] < z.used[kept.key]
  {
    var w := Run(ops, limits);
    RunKeepsInv(ops, limits);
    var wider := w.cache.entries + [Entry(key, response.value)];
    var z := Do(w, Finish(key, response), limits);
    ListedAppend(w, w.cache.entries, key, response.value);
    assert Listed(z, wider);
    var n := TrimIsLeast(wider, limits);
    var i :| 0 <= i < |w.cache.entries| && w.cache.entries[i] == gone;
    var j :| 0 <= j < |wider[n..]| && wider[n..][j] == kept;
    assert wider[i] == gone && wider[n + j] == kept;
    InSuffix(wider, n);
  }
}
