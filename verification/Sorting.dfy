/** A sort by any total order, standing in for the standard library's. */
module Sorting {
  function Insert<T>(x: T, sorted: seq<T>, before: (T, T) -> bool): seq<T> {
    if sorted == [] || before(x, sorted[0]) then [x] + sorted
    else [sorted[0]] + Insert(x, sorted[1..], before)
  }

  function SortedBy<T>(all: seq<T>, before: (T, T) -> bool): seq<T> {
    if all == [] then [] else Insert(all[0], SortedBy(all[1..], before), before)
  }

  ghost predicate TotalOrder<T(!new)>(before: (T, T) -> bool) {
    && (forall a, b :: before(a, b) || before(b, a))
    && (forall a, b, c :: before(a, b) && before(b, c) ==> before(a, c))
  }

  ghost predicate Ordered<T>(all: seq<T>, before: (T, T) -> bool) {
    forall i, j :: 0 <= i < j < |all| ==> before(all[i], all[j])
  }

  lemma {:induction false} InsertSorts<T(!new)>(x: T, sorted: seq<T>, before: (T, T) -> bool)
    requires TotalOrder(before) && Ordered(sorted, before)
    ensures Ordered(Insert(x, sorted, before), before)
    ensures multiset(Insert(x, sorted, before)) == multiset([x]) + multiset(sorted)
    decreases |sorted|
  {
    if sorted != [] && !before(x, sorted[0]) {
      InsertSorts(x, sorted[1..], before);
      Recounted(x, sorted, Insert(x, sorted[1..], before));
      AllBehind(x, sorted, Insert(x, sorted[1..], before), before);
    }
  }

  lemma Recounted<T>(x: T, sorted: seq<T>, later: seq<T>)
    requires sorted != [] && multiset(later) == multiset([x]) + multiset(sorted[1..])
    ensures multiset([sorted[0]] + later) == multiset([x]) + multiset(sorted)
  {
    assert sorted == [sorted[0]] + sorted[1..];
  }

  /** The first element, which `x` is not before, comes before all the others. */
  lemma AllBehind<T(!new)>(x: T, sorted: seq<T>, later: seq<T>, before: (T, T) -> bool)
    requires TotalOrder(before) && Ordered(sorted, before) && sorted != [] && !before(x, sorted[0])
    requires multiset(later) == multiset([x]) + multiset(sorted[1..])
    ensures forall j :: 0 <= j < |later| ==> before(sorted[0], later[j])
  {
    forall j | 0 <= j < |later|
      ensures before(sorted[0], later[j])
    {
      assert later[j] in multiset(later);
      assert later[j] == x || later[j] in multiset(sorted[1..]);
    }
  }

  /** Sorting puts the same elements in order. */
  lemma {:induction false} SortSorts<T(!new)>(all: seq<T>, before: (T, T) -> bool)
    requires TotalOrder(before)
    ensures Ordered(SortedBy(all, before), before) && multiset(SortedBy(all, before)) == multiset(all)
    decreases |all|
  {
    if all != [] {
      SortSorts(all[1..], before);
      InsertSorts(all[0], SortedBy(all[1..], before), before);
      assert all == [all[0]] + all[1..];
    }
  }

  function Map<S, T>(f: S -> T, s: seq<S>): seq<T> {
    seq(|s|, i requires 0 <= i < |s| => f(s[i]))
  }

  lemma MapPlus<S, T>(f: S -> T, a: seq<S>, b: seq<S>)
    ensures Map(f, a + b) == Map(f, a) + Map(f, b)
  {
  }

  lemma TakenOut<S>(a: seq<S>, b: seq<S>, i: nat)
    requires a != [] && i < |b| && b[i] == a[0] && multiset(a) == multiset(b)
    ensures multiset(a[1..]) == multiset(b[..i] + b[i + 1..])
  {
    assert a == [a[0]] + a[1..] && b == b[..i] + ([b[i]] + b[i + 1..]);
    assert multiset(a) == multiset([a[0]]) + multiset(a[1..]);
    assert multiset(b) == multiset(b[..i]) + (multiset([b[i]]) + multiset(b[i + 1..]));
    Cancel(multiset([a[0]]), multiset(a[1..]), multiset(b[..i]), multiset(b[i + 1..]));
  }

  lemma Cancel<S>(one: multiset<S>, a: multiset<S>, left: multiset<S>, right: multiset<S>)
    requires one + a == left + (one + right)
    ensures a == left + right
  {
    assert a == (one + a) - one;
    assert left + right == (left + (one + right)) - one;
  }

  /** Mapping the same elements in another order gives the same elements in another order. */
  lemma {:induction false} MapKeeps<S, T>(f: S -> T, a: seq<S>, b: seq<S>)
    requires multiset(a) == multiset(b)
    ensures multiset(Map(f, a)) == multiset(Map(f, b))
    decreases |a|
  {
    assert |multiset(a)| == |a| && |multiset(b)| == |b|;
    if a != [] {
      assert a[0] in multiset(b);
      var i :| 0 <= i < |b| && b[i] == a[0];
      var left, right := b[..i], b[i + 1..];
      assert a == [a[0]] + a[1..] && b == left + ([a[0]] + right);
      TakenOut(a, b, i);
      MapKeeps(f, a[1..], left + right);
      MapPlus(f, [a[0]], a[1..]);
      MapPlus(f, left, right);
      MapPlus(f, left, [a[0]] + right);
      MapPlus(f, [a[0]], right);
    }
  }
}
