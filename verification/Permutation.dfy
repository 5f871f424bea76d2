/** Lists built element by element from other lists, and what reordering the input does to them. */
module Permutation {
  import opened Ordering

  function Flat<T, U>(s: seq<T>, f: T -> seq<U>): seq<U> {
    if s == [] then [] else Flat(s[..|s| - 1], f) + f(s[|s| - 1])
  }

  function Each<T, U>(s: seq<T>, f: T -> U): (r: seq<U>)
    ensures |r| == |s|
    ensures forall i | 0 <= i < |s| :: r[i] == f(s[i])
  {
    if s == [] then [] else Each(s[..|s| - 1], f) + [f(s[|s| - 1])]
  }

  lemma {:induction false} FlatConcat<T, U>(s: seq<T>, t: seq<T>, f: T -> seq<U>)
    ensures Flat(s + t, f) == Flat(s, f) + Flat(t, f)
  {
    if t == [] {
      assert s + t == s;
    } else {
      assert (s + t)[..|s + t| - 1] == s + t[..|t| - 1];
      FlatConcat(s, t[..|t| - 1], f);
    }
  }

  lemma FlatOne<T, U>(x: T, f: T -> seq<U>)
    ensures Flat([x], f) == f(x)
  {
    assert [x][..0] == [];
  }

  lemma {:induction false} FlatHas<T, U>(s: seq<T>, f: T -> seq<U>, k: nat, y: U)
    requires k < |s| && y in f(s[k])
    ensures y in Flat(s, f)
  {
    if k < |s| - 1 { FlatHas(s[..|s| - 1], f, k, y); }
  }

  lemma {:induction false} FlatFrom<T, U>(s: seq<T>, f: T -> seq<U>, y: U) returns (k: nat)
    requires y in Flat(s, f)
    ensures k < |s| && y in f(s[k])
  {
    if y in f(s[|s| - 1]) { k := |s| - 1; } else { k := FlatFrom(s[..|s| - 1], f, y); }
  }

  lemma SplitFlat<T, U>(a: seq<T>, x: T, b: seq<T>, f: T -> seq<U>)
    ensures multiset(Flat(a + [x] + b, f)) == multiset(Flat(a + b, f)) + multiset(f(x))
  {
    FlatConcat(a + [x], b, f);
    FlatConcat(a, [x], f);
    FlatOne(x, f);
    FlatConcat(a, b, f);
  }

  function Drop<T>(s: seq<T>, k: nat): seq<T>
    requires k < |s|
  {
    s[..k] + s[k + 1..]
  }

  lemma Rejoin<T>(s: seq<T>, k: nat)
    requires k < |s|
    ensures s[..k] + [s[k]] + s[k + 1..] == s
  {}

  lemma SplitMultiset<T>(s: seq<T>, k: nat)
    requires k < |s|
    ensures multiset(s) == multiset(Drop(s, k)) + multiset{s[k]}
  {
    assert s == s[..k] + ([s[k]] + s[k + 1..]);
  }

  lemma SplitAt<T, U>(s: seq<T>, k: nat, f: T -> seq<U>)
    requires k < |s|
    ensures multiset(Flat(s, f)) == multiset(Flat(Drop(s, k), f)) + multiset(f(s[k]))
  {
    var a, x, b := s[..k], s[k], s[k + 1..];
    Rejoin(s, k);
    SplitFlat(a, x, b, f);
  }

  lemma Cancel<T>(a: multiset<T>, b: multiset<T>, x: T)
    requires a + multiset{x} == b + multiset{x}
    ensures a == b
  {
    assert a == a + multiset{x} - multiset{x};
  }

  lemma Locate<T>(s: seq<T>, t: seq<T>) returns (k: nat)
    requires multiset(s) == multiset(t) && s != []
    ensures k < |t| && t[k] == s[0]
  {
    assert s[0] in multiset(s) && s[0] in multiset(t);
    k :| 0 <= k < |t| && t[k] == s[0];
  }

  /** Reordering a list only reorders what is built from it. */
  lemma {:induction false} FlatPermutes<T, U>(s: seq<T>, t: seq<T>, f: T -> seq<U>)
    requires multiset(s) == multiset(t)
    ensures multiset(Flat(s, f)) == multiset(Flat(t, f))
    decreases |s|
  {
    SameLength(s, t);
    if s != [] {
      var k := Locate(s, t);
      SplitMultiset(s, 0);
      SplitMultiset(t, k);
      Cancel(multiset(Drop(s, 0)), multiset(Drop(t, k)), s[0]);
      FlatPermutes(Drop(s, 0), Drop(t, k), f);
      SplitAt(s, 0, f);
      SplitAt(t, k, f);
    }
  }

  lemma {:induction false} EachIsFlat<T, U>(s: seq<T>, f: T -> U)
    ensures Each(s, f) == Flat(s, x => [f(x)])
  {
    if s != [] { EachIsFlat(s[..|s| - 1], f); }
  }

  lemma EachPermutes<T, U>(s: seq<T>, t: seq<T>, f: T -> U)
    requires multiset(s) == multiset(t)
    ensures multiset(Each(s, f)) == multiset(Each(t, f))
  {
    EachIsFlat(s, f);
    EachIsFlat(t, f);
    FlatPermutes(s, t, x => [f(x)]);
  }

  /** Two places that share a value make it occur twice. */
  lemma SharedAt<T, U>(s: seq<T>, f: T -> seq<U>, i: nat, j: nat, v: U)
    requires i < |s| && j < |s| && i != j && v in f(s[i]) && v in f(s[j])
    ensures multiset(Flat(s, f))[v] >= 2
  {
    SplitAt(s, i, f);
    var rest := Drop(s, i);
    var l := if j < i then j else j - 1;
    assert rest[l] == s[j];
    FlatHas(rest, f, l, v);
    assert v in multiset(Flat(rest, f)) && v in multiset(f(s[i]));
  }

  /** Two different elements that share a value make it occur twice. */
  lemma SharedTwice<T, U>(s: seq<T>, f: T -> seq<U>, x: T, y: T, v: U)
    requires x in s && y in s && x != y && v in f(x) && v in f(y)
    ensures multiset(Flat(s, f))[v] >= 2
  {
    var i :| 0 <= i < |s| && s[i] == x;
    var j :| 0 <= j < |s| && s[j] == y;
    SharedAt(s, f, i, j, v);
  }

  /** `less` looks only at what `f` shows to `more`. */
  ghost predicate Mirrors<T(!new), U>(f: T -> U, less: Order<T>, more: Order<U>) {
    forall a, b :: less(a, b) == more(f(a), f(b))
  }

  lemma EachAppend<T, U>(s: seq<T>, x: T, f: T -> U)
    ensures Each(s + [x], f) == Each(s, f) + [f(x)]
  {
    assert (s + [x])[..|s|] == s;
  }

  lemma {:induction false} InsertMaps<T(!new), U>(s: seq<T>, x: T, f: T -> U, less: Order<T>, more: Order<U>)
    requires Mirrors(f, less, more)
    ensures Each(Insert(s, x, less), f) == Insert(Each(s, f), f(x), more)
  {
    assert s != [] ==> Each(s, f)[|s| - 1] == f(s[|s| - 1]);
    if s == [] || !less(x, s[|s| - 1]) {
      EachAppend(s, x, f);
    } else {
      var n := |s| - 1;
      InsertMaps(s[..n], x, f, less, more);
      EachAppend(Insert(s[..n], x, less), s[n], f);
      assert Each(s, f)[..n] == Each(s[..n], f);
    }
  }

  /** A sort that looks only at `f` commutes with it. */
  lemma {:induction false} SortMaps<T(!new), U>(s: seq<T>, f: T -> U, less: Order<T>, more: Order<U>)
    requires Mirrors(f, less, more)
    ensures Each(Sort(s, less), f) == Sort(Each(s, f), more)
  {
    if s != [] {
      var n := |s| - 1;
      SortMaps(s[..n], f, less, more);
      assert Each(s, f)[..n] == Each(s[..n], f);
      InsertMaps(Sort(s[..n], less), s[n], f, less, more);
    }
  }
}
