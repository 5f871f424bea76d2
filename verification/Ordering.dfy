/**
 Sorting: the in-place sort of article ids and the stable sort of stories
 (go-editorial/editorial/validate.go:255-261).
 */
module Ordering {

  type Order<!T> = (T, T) -> bool

  /** `x` goes behind everything that it is not less than. */
  function Insert<T>(s: seq<T>, x: T, less: Order<T>): seq<T> {
    if s == [] || !less(x, s[|s| - 1]) then s + [x] else Insert(s[..|s| - 1], x, less) + [s[|s| - 1]]
  }

  function Sort<T>(s: seq<T>, less: Order<T>): seq<T> {
    if s == [] then [] else Insert(Sort(s[..|s| - 1], less), s[|s| - 1], less)
  }

  lemma {:induction false} InsertKeeps<T>(s: seq<T>, x: T, less: Order<T>)
    ensures multiset(Insert(s, x, less)) == multiset(s) + multiset{x}
  {
    if s != [] && less(x, s[|s| - 1]) {
      InsertKeeps(s[..|s| - 1], x, less);
      assert s == s[..|s| - 1] + [s[|s| - 1]];
    }
  }

  lemma {:induction false} SortKeeps<T>(s: seq<T>, less: Order<T>)
    ensures multiset(Sort(s, less)) == multiset(s) && |Sort(s, less)| == |s|
  {
    if s != [] {
      SortKeeps(s[..|s| - 1], less);
      InsertKeeps(Sort(s[..|s| - 1], less), s[|s| - 1], less);
      assert s == s[..|s| - 1] + [s[|s| - 1]];
    }
    assert |Sort(s, less)| == |multiset(Sort(s, less))| && |s| == |multiset(s)|;
  }

  // ---------- a sorted arrangement is unique ----------

  predicate Compares<T(==)>(less: Order<T>, x: T, y: T) {
    !less(x, x) && (x == y || less(x, y) || less(y, x))
  }

  predicate Chains<T>(less: Order<T>, x: T, y: T, z: T) {
    less(x, y) && less(y, z) ==> less(x, z)
  }

  /** A strict order that decides between any two different elements of `s`. */
  ghost predicate Decides<T(!new)>(s: multiset<T>, less: Order<T>) {
    && (forall x, y {:trigger Compares(less, x, y)} :: x in s && y in s ==> Compares(less, x, y))
    && (forall x, y, z {:trigger Chains(less, x, y, z)} :: x in s && y in s && z in s ==> Chains(less, x, y, z))
  }

  lemma DecidesPart<T(!new)>(s: multiset<T>, t: multiset<T>, less: Order<T>)
    requires s <= t && Decides(t, less)
    ensures Decides(s, less)
  {
    forall x, y | x in s && y in s ensures Compares(less, x, y) {
      assert x in t && y in t;
    }
    forall x, y, z | x in s && y in s && z in s ensures Chains(less, x, y, z) {
      assert x in t && y in t && z in t;
    }
  }

  ghost predicate Sorted<T>(s: seq<T>, less: Order<T>) {
    forall i, j | 0 <= i < j < |s| :: !less(s[j], s[i])
  }

  lemma BelowLast<T(!new)>(s: seq<T>, x: T, less: Order<T>, i: nat)
    requires Sorted(s, less) && Decides(multiset(s) + multiset{x}, less)
    requires i < |s| && !less(x, s[|s| - 1])
    ensures !less(x, s[i])
  {
    var last := s[|s| - 1];
    assert s[i] in multiset(s) && last in multiset(s) && x in multiset(s) + multiset{x};
    assert Compares(less, s[i], last) && Chains(less, x, s[i], last);
  }

  lemma {:induction false} InsertSorts<T(!new)>(s: seq<T>, x: T, less: Order<T>)
    requires Sorted(s, less) && Decides(multiset(s) + multiset{x}, less)
    ensures Sorted(Insert(s, x, less), less)
  {
    var n := |s|;
    if s == [] || !less(x, s[n - 1]) {
      forall i | 0 <= i < n ensures !less(x, s[i]) {
        BelowLast(s, x, less, i);
      }
    } else {
      var front, last := s[..n - 1], s[n - 1];
      assert s == front + [last];
      DecidesPart(multiset(front) + multiset{x}, multiset(s) + multiset{x}, less);
      InsertSorts(front, x, less);
      InsertKeeps(front, x, less);
      var r := Insert(front, x, less);
      forall i | 0 <= i < |r| ensures !less(last, r[i]) {
        assert r[i] in multiset(r);
        LastAbove(s, x, less, r[i]);
      }
    }
  }

  lemma LastAbove<T(!new)>(s: seq<T>, x: T, less: Order<T>, y: T)
    requires Sorted(s, less) && Decides(multiset(s) + multiset{x}, less) && s != [] && less(x, s[|s| - 1])
    requires y in multiset(s[..|s| - 1]) + multiset{x}
    ensures !less(s[|s| - 1], y)
  {
    var n := |s| - 1;
    if y == x {
      assert x in multiset(s) + multiset{x} && s[n] in multiset(s);
      assert Chains(less, x, s[n], x) && Compares(less, x, x);
    } else {
      assert y in multiset(s[..n]);
      var k :| 0 <= k < n && s[..n][k] == y;
      assert !less(s[n], s[k]);
    }
  }

  lemma {:induction false} SortSorts<T(!new)>(s: seq<T>, less: Order<T>)
    requires Decides(multiset(s), less)
    ensures Sorted(Sort(s, less), less)
  {
    if s != [] {
      var front := s[..|s| - 1];
      assert s == front + [s[|s| - 1]];
      DecidesPart(multiset(front), multiset(s), less);
      SortSorts(front, less);
      SortKeeps(front, less);
      InsertSorts(Sort(front, less), s[|s| - 1], less);
    }
  }

  lemma SameLast<T(!new)>(s: seq<T>, t: seq<T>, less: Order<T>)
    requires Sorted(s, less) && Sorted(t, less) && multiset(s) == multiset(t) && Decides(multiset(s), less)
    requires s != [] && t != []
    ensures s[|s| - 1] == t[|t| - 1]
  {
    var a, b := s[|s| - 1], t[|t| - 1];
    assert a in multiset(s) && b in multiset(t);
    var k :| 0 <= k < |s| && s[k] == b;
    var l :| 0 <= l < |t| && t[l] == a;
    assert k < |s| - 1 ==> !less(s[|s| - 1], s[k]);
    assert l < |t| - 1 ==> !less(t[|t| - 1], t[l]);
    assert Compares(less, a, b);
  }

  lemma DropLast<T>(s: seq<T>, less: Order<T>)
    requires s != [] && Sorted(s, less)
    ensures Sorted(s[..|s| - 1], less) && multiset(s[..|s| - 1]) == multiset(s) - multiset{s[|s| - 1]}
  {
    assert s == s[..|s| - 1] + [s[|s| - 1]];
  }

  lemma SameLength<T>(s: seq<T>, t: seq<T>)
    requires multiset(s) == multiset(t)
    ensures |s| == |t|
  {
    assert |s| == |multiset(s)| && |t| == |multiset(t)|;
  }

  ghost predicate Arrangements<T(!new)>(s: seq<T>, t: seq<T>, less: Order<T>) {
    Sorted(s, less) && Sorted(t, less) && multiset(s) == multiset(t) && Decides(multiset(s), less)
  }

  lemma Fronts<T(!new)>(s: seq<T>, t: seq<T>, less: Order<T>)
    requires Arrangements(s, t, less) && s != [] && |s| == |t|
    ensures Arrangements(s[..|s| - 1], t[..|t| - 1], less)
  {
    SameLast(s, t, less);
    DropLast(s, less);
    DropLast(t, less);
    DecidesPart(multiset(s[..|s| - 1]), multiset(s), less);
  }

  lemma {:induction false} SortedIsUnique<T(!new)>(s: seq<T>, t: seq<T>, less: Order<T>)
    requires Arrangements(s, t, less)
    ensures s == t
  {
    SameLength(s, t);
    if s != [] {
      SameLast(s, t, less);
      Fronts(s, t, less);
      SortedIsUnique(s[..|s| - 1], t[..|t| - 1], less);
      assert s == s[..|s| - 1] + [s[|s| - 1]] && t == t[..|t| - 1] + [t[|t| - 1]];
    }
  }

  /** Sorting forgets the order of its input. */
  lemma SortForgetsOrder<T(!new)>(s: seq<T>, t: seq<T>, less: Order<T>)
    requires multiset(s) == multiset(t) && Decides(multiset(s), less)
    ensures Sort(s, less) == Sort(t, less)
  {
    SortSorts(s, less);
    SortSorts(t, less);
    SortKeeps(s, less);
    SortKeeps(t, less);
    SortedIsUnique(Sort(s, less), Sort(t, less), less);
  }

  // ---------- strings, by their code points ----------

  predicate Less(a: string, b: string) {
    b != [] && (a == [] || a[0] < b[0] || (a[0] == b[0] && Less(a[1..], b[1..])))
  }

  lemma {:induction false} LessIsTotal(a: string, b: string)
    ensures !Less(a, a)
    ensures a == b || Less(a, b) || Less(b, a)
  {
    if a != [] {
      LessIsTotal(a[1..], if b != [] then b[1..] else []);
      assert b != [] && a[0] == b[0] && a[1..] == b[1..] ==> a == [a[0]] + a[1..] == [b[0]] + b[1..] == b;
    }
  }

  lemma {:induction false} LessIsTransitive(a: string, b: string, c: string)
    requires Less(a, b) && Less(b, c)
    ensures Less(a, c)
  {
    if a != [] && a[0] == b[0] == c[0] {
      LessIsTransitive(a[1..], b[1..], c[1..]);
    }
  }

  lemma LessDecides(s: multiset<string>)
    ensures Decides(s, Less)
  {
    forall x, y ensures Compares(Less, x, y) {
      LessIsTotal(x, y);
    }
    forall x, y, z ensures Chains(Less, x, y, z) {
      if Less(x, y) && Less(y, z) { LessIsTransitive(x, y, z); }
    }
  }

  lemma {:induction false} InsertAt<T>(s: seq<T>, x: T, j: nat, less: Order<T>)
    requires j <= |s| && (forall k | j <= k < |s| :: less(x, s[k])) && (j > 0 ==> !less(x, s[j - 1]))
    ensures Insert(s, x, less) == s[..j] + [x] + s[j..]
    decreases |s|
  {
    if j < |s| {
      InsertAt(s[..|s| - 1], x, j, less);
      assert s[j..] == s[j..|s| - 1] + [s[|s| - 1]];
    }
  }

  /** The array during the inner loop: `x` at `j`, what it has passed moved one to the right. */
  ghost predicate Sinking<T>(now: seq<T>, s: seq<T>, x: T, tail: seq<T>, j: nat) {
    j <= |s| && now == s[..j] + [x] + s[j..] + tail
  }

  lemma SinkOne<T>(now: seq<T>, s: seq<T>, x: T, tail: seq<T>, j: nat)
    requires 0 < j && Sinking(now, s, x, tail, j)
    ensures now[j] == x && now[j - 1] == s[j - 1] && Sinking(now[j := s[j - 1]][j - 1 := x], s, x, tail, j - 1)
  {
    assert s[..j] == s[..j - 1] + [s[j - 1]] && s[j - 1..] == [s[j - 1]] + s[j..];
  }

  lemma SinkStart<T>(whole: seq<T>, i: nat)
    requires i < |whole|
    ensures Sinking(whole, whole[..i], whole[i], whole[i + 1..], i)
  {
    var s := whole[..i];
    assert s[..i] == s && s[i..] == [] && whole == s + [whole[i]] + [] + whole[i + 1..];
  }

  /** The inner loop: one element sinks to the left past every greater one. */
  method SinkLeft<T>(a: array<T>, i: nat, less: Order<T>)
    requires i < a.Length
    modifies a
    ensures a[..] == Insert(old(a[..i]), old(a[i]), less) + old(a[i + 1..])
  {
    ghost var s, x, tail := a[..i], a[i], a[i + 1..];
    var j := i;
    SinkStart(a[..], i);
    while j > 0 && less(a[j], a[j - 1])
      invariant 0 <= j <= i && Sinking(a[..], s, x, tail, j)
      invariant forall k | j <= k < i :: less(x, s[k])
    {
      ghost var now := a[..];
      SinkOne(now, s, x, tail, j);
      a[j], a[j - 1] := a[j - 1], a[j];
      assert a[..] == now[j := s[j - 1]][j - 1 := x];
      j := j - 1;
    }
    if j > 0 { SinkOne(a[..], s, x, tail, j); }
    InsertAt(s, x, j, less);
  }

  lemma SortNext<T>(was: seq<T>, i: nat, less: Order<T>)
    requires i < |was|
    ensures Sort(was[..i + 1], less) == Insert(Sort(was[..i], less), was[i], less) && |Sort(was[..i], less)| == i
  {
    assert was[..i + 1][..i] == was[..i];
    SortKeeps(was[..i], less);
  }

  lemma Halves<T>(whole: seq<T>, s: seq<T>, rest: seq<T>)
    requires whole == s + rest && rest != []
    ensures whole[..|s|] == s && whole[|s|] == rest[0] && whole[|s| + 1..] == rest[1..]
  {}

  /** sortStrings. */
  method SortStrings(a: array<string>)
    modifies a
    ensures a[..] == Sort(old(a[..]), Less)
  {
    ghost var was := a[..];
    if a.Length == 0 { return; }
    SortOne(was, Less);
    var i := 1;
    while i < a.Length
      invariant 1 <= i <= a.Length == |was|
      invariant a[..] == Sort(was[..i], Less) + was[i..]
    {
      SortStep(a[..], was, i, Less);
      SinkLeft(a, i, Less);
      i := i + 1;
    }
    AllSorted(was, a[..], Less);
  }

  lemma SortOne<T>(was: seq<T>, less: Order<T>)
    requires was != []
    ensures was == Sort(was[..1], less) + was[1..]
  {
    SortNext(was, 0, less);
    assert was[..0] == [] && was == [was[0]] + was[1..];
  }

  /** What the inner loop starts from, and what its result is worth. */
  lemma SortStep<T>(whole: seq<T>, was: seq<T>, i: nat, less: Order<T>)
    requires i < |was| && whole == Sort(was[..i], less) + was[i..]
    ensures |whole| == |was| && whole[..i] == Sort(was[..i], less)
    ensures Insert(whole[..i], whole[i], less) + whole[i + 1..] == Sort(was[..i + 1], less) + was[i + 1..]
  {
    SortNext(was, i, less);
    Halves(whole, Sort(was[..i], less), was[i..]);
  }

  lemma AllSorted<T>(was: seq<T>, whole: seq<T>, less: Order<T>)
    requires whole == Sort(was[..|was|], less) + was[|was|..]
    ensures whole == Sort(was, less)
  {
    assert was[..|was|] == was && was[|was|..] == [];
  }
}
