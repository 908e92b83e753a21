/** Sums and filters over sequences, and how they behave under appending, updating and permuting. */
module Sums {

  function Sum<T>(f: T -> int, xs: seq<T>): int {
    if xs == [] then 0 else Sum(f, xs[..|xs| - 1]) + f(xs[|xs| - 1])
  }

  function Filter<T>(p: T -> bool, xs: seq<T>): seq<T> {
    if xs == [] then []
    else
      var rest := Filter(p, xs[..|xs| - 1]);
      if p(xs[|xs| - 1]) then rest + [xs[|xs| - 1]] else rest
  }

  function Map<A, B>(f: A -> B, xs: seq<A>): (ys: seq<B>)
    ensures |ys| == |xs|
    ensures forall i :: 0 <= i < |xs| ==> ys[i] == f(xs[i])
  {
    if xs == [] then [] else Map(f, xs[..|xs| - 1]) + [f(xs[|xs| - 1])]
  }

  /** Sums over rationals, for quantities that carry an exact average. */
  function SumReal<T>(f: T -> real, xs: seq<T>): real {
    if xs == [] then 0.0 else SumReal(f, xs[..|xs| - 1]) + f(xs[|xs| - 1])
  }

  function CountWhere<T>(p: T -> bool, xs: seq<T>): nat {
    |Filter(p, xs)|
  }

  lemma {:induction false} SumSnoc<T>(f: T -> int, xs: seq<T>, x: T)
    ensures Sum(f, xs + [x]) == Sum(f, xs) + f(x)
  {
    assert (xs + [x])[..|xs|] == xs;
  }

  lemma {:induction false} SumOne<T>(f: T -> int, x: T)
    ensures Sum(f, [x]) == f(x)
  {
    assert [x][..0] == [];
  }

  lemma {:induction false} FilterOne<T>(p: T -> bool, x: T)
    ensures Filter(p, [x]) == if p(x) then [x] else []
  {
    assert [x][..0] == [];
  }

  lemma {:induction false} SumAppend<T>(f: T -> int, xs: seq<T>, ys: seq<T>)
    ensures Sum(f, xs + ys) == Sum(f, xs) + Sum(f, ys)
  {
    if ys == [] {
      assert xs + ys == xs;
    } else {
      assert (xs + ys)[..|xs + ys| - 1] == xs + ys[..|ys| - 1];
      SumAppend(f, xs, ys[..|ys| - 1]);
    }
  }

  lemma {:induction false} SumCons<T>(f: T -> int, xs: seq<T>)
    requires xs != []
    ensures Sum(f, xs) == f(xs[0]) + Sum(f, xs[1..])
  {
    assert xs == [xs[0]] + xs[1..];
    SumAppend(f, [xs[0]], xs[1..]);
    assert [xs[0]][..0] == [];
  }

  lemma {:induction false} SumSplit<T>(f: T -> int, xs: seq<T>, i: nat)
    requires i < |xs|
    ensures Sum(f, xs) == Sum(f, xs[..i]) + f(xs[i]) + Sum(f, xs[i + 1..])
  {
    assert xs == xs[..i] + xs[i..];
    SumAppend(f, xs[..i], xs[i..]);
    SumCons(f, xs[i..]);
    assert xs[i..][1..] == xs[i + 1..];
  }

  lemma {:induction false} SumUpdate<T>(f: T -> int, xs: seq<T>, i: nat, y: T)
    requires i < |xs|
    ensures Sum(f, xs[i := y]) == Sum(f, xs) - f(xs[i]) + f(y)
  {
    var zs := xs[i := y];
    SumSplit(f, xs, i);
    SumSplit(f, zs, i);
    assert zs[..i] == xs[..i] && zs[i + 1..] == xs[i + 1..];
  }

  /** Where the last element of xs sits in a permutation ys, and ys without it. */
  lemma {:induction false} Without<T>(xs: seq<T>, ys: seq<T>) returns (j: nat, rest: seq<T>)
    requires xs != [] && multiset(xs) == multiset(ys)
    ensures j < |ys| && ys[j] == xs[|xs| - 1] && rest == ys[..j] + ys[j + 1..]
    ensures multiset(xs[..|xs| - 1]) == multiset(rest)
  {
    var n := |xs| - 1;
    var x := xs[n];
    assert xs == xs[..n] + [x];
    assert x in multiset(ys);
    j :| 0 <= j < |ys| && ys[j] == x;
    rest := ys[..j] + ys[j + 1..];
    assert ys == ys[..j] + [x] + ys[j + 1..];
    assert multiset(xs[..n]) == multiset(xs) - multiset{x};
    assert multiset(rest) == multiset(ys) - multiset{x};
  }

  lemma {:induction false} SumPermutation<T>(f: T -> int, xs: seq<T>, ys: seq<T>)
    requires multiset(xs) == multiset(ys)
    ensures Sum(f, xs) == Sum(f, ys)
    decreases |xs|
  {
    if xs == [] {
      assert |multiset(ys)| == 0;
    } else {
      var n := |xs| - 1;
      var j, rest := Without(xs, ys);
      SumPermutation(f, xs[..n], rest);
      SumSplit(f, ys, j);
      SumAppend(f, ys[..j], ys[j + 1..]);
    }
  }

  lemma {:induction false} SumLe<T>(f: T -> int, g: T -> int, xs: seq<T>)
    requires forall x :: x in xs ==> f(x) <= g(x)
    ensures Sum(f, xs) <= Sum(g, xs)
  {
    if xs != [] {
      SumLe(f, g, xs[..|xs| - 1]);
    }
  }

  lemma {:induction false} SumAdd<T>(f: T -> int, g: T -> int, h: T -> int, xs: seq<T>)
    requires forall x :: x in xs ==> h(x) == f(x) + g(x)
    ensures Sum(h, xs) == Sum(f, xs) + Sum(g, xs)
  {
    if xs != [] {
      SumAdd(f, g, h, xs[..|xs| - 1]);
    }
  }

  lemma {:induction false} SumSame<T>(f: T -> int, g: T -> int, xs: seq<T>)
    requires forall x :: x in xs ==> f(x) == g(x)
    ensures Sum(f, xs) == Sum(g, xs)
  {
    SumLe(f, g, xs);
    SumLe(g, f, xs);
  }

  lemma {:induction false} SumZero<T>(f: T -> int, xs: seq<T>)
    requires forall x :: x in xs ==> f(x) == 0
    ensures Sum(f, xs) == 0
  {
    if xs != [] {
      SumZero(f, xs[..|xs| - 1]);
    }
  }

  lemma {:induction false} SumNonNegative<T>(f: T -> int, xs: seq<T>)
    requires forall x :: x in xs ==> f(x) >= 0
    ensures Sum(f, xs) >= 0
    ensures forall x :: x in xs ==> f(x) <= Sum(f, xs)
  {
    if xs != [] {
      SumNonNegative(f, xs[..|xs| - 1]);
    }
  }

  /** Adding a term that is zero wherever the filter says no changes nothing. */
  lemma {:induction false} SumFilter<T>(f: T -> int, p: T -> bool, g: T -> int, xs: seq<T>)
    requires forall x :: x in xs ==> g(x) == if p(x) then f(x) else 0
    ensures Sum(f, Filter(p, xs)) == Sum(g, xs)
  {
    if xs != [] {
      var rest := xs[..|xs| - 1];
      SumFilter(f, p, g, rest);
      if p(xs[|xs| - 1]) {
        SumSnoc(f, Filter(p, rest), xs[|xs| - 1]);
      }
    }
  }

  lemma {:induction false} FilterSnoc<T>(p: T -> bool, xs: seq<T>, x: T)
    ensures Filter(p, xs + [x]) == Filter(p, xs) + if p(x) then [x] else []
  {
    assert (xs + [x])[..|xs|] == xs;
  }

  lemma {:induction false} FilterAppend<T>(p: T -> bool, xs: seq<T>, ys: seq<T>)
    ensures Filter(p, xs + ys) == Filter(p, xs) + Filter(p, ys)
  {
    if ys == [] {
      assert xs + ys == xs;
    } else {
      assert (xs + ys)[..|xs + ys| - 1] == xs + ys[..|ys| - 1];
      FilterAppend(p, xs, ys[..|ys| - 1]);
    }
  }

  lemma {:induction false} FilterMembers<T>(p: T -> bool, xs: seq<T>)
    ensures forall x :: x in Filter(p, xs) <==> x in xs && p(x)
    ensures |Filter(p, xs)| <= |xs|
  {
    if xs != [] {
      var n := |xs| - 1;
      FilterMembers(p, xs[..n]);
      assert xs == xs[..n] + [xs[n]];
    }
  }

  lemma {:induction false} FilterPermutation<T>(p: T -> bool, xs: seq<T>, ys: seq<T>)
    requires multiset(xs) == multiset(ys)
    ensures multiset(Filter(p, xs)) == multiset(Filter(p, ys))
    decreases |xs|
  {
    if xs == [] {
      assert |multiset(ys)| == 0;
    } else {
      var j, rest := Without(xs, ys);
      FilterPermutation(p, xs[..|xs| - 1], rest);
      FilterAppend(p, ys[..j], ys[j + 1..]);
      assert ys == ys[..j] + ([ys[j]] + ys[j + 1..]);
      FilterAppend(p, ys[..j], [ys[j]] + ys[j + 1..]);
      FilterAppend(p, [ys[j]], ys[j + 1..]);
      FilterSnoc(p, [], ys[j]);
      assert [] + [ys[j]] == [ys[j]];
    }
  }

  lemma {:induction false} FilterAll<T>(p: T -> bool, xs: seq<T>)
    requires forall x :: x in xs ==> p(x)
    ensures Filter(p, xs) == xs
  {
    if xs != [] {
      var n := |xs| - 1;
      FilterAll(p, xs[..n]);
      assert xs == xs[..n] + [xs[n]];
    }
  }

  lemma {:induction false} FilterNone<T>(p: T -> bool, xs: seq<T>)
    requires forall x :: x in xs ==> !p(x)
    ensures Filter(p, xs) == []
  {
    if xs != [] {
      FilterNone(p, xs[..|xs| - 1]);
    }
  }

  lemma {:induction false} SumRealAppend<T>(f: T -> real, xs: seq<T>, ys: seq<T>)
    ensures SumReal(f, xs + ys) == SumReal(f, xs) + SumReal(f, ys)
  {
    if ys == [] {
      assert xs + ys == xs;
    } else {
      assert (xs + ys)[..|xs + ys| - 1] == xs + ys[..|ys| - 1];
      SumRealAppend(f, xs, ys[..|ys| - 1]);
    }
  }

  lemma {:induction false} SumRealSplit<T>(f: T -> real, xs: seq<T>, i: nat)
    requires i < |xs|
    ensures SumReal(f, xs) == SumReal(f, xs[..i]) + f(xs[i]) + SumReal(f, xs[i + 1..])
  {
    assert xs == xs[..i] + ([xs[i]] + xs[i + 1..]);
    SumRealAppend(f, xs[..i], [xs[i]] + xs[i + 1..]);
    SumRealAppend(f, [xs[i]], xs[i + 1..]);
    assert [xs[i]][..0] == [];
  }

  lemma {:induction false} SumRealUpdate<T>(f: T -> real, xs: seq<T>, i: nat, y: T)
    requires i < |xs|
    ensures SumReal(f, xs[i := y]) == SumReal(f, xs) - f(xs[i]) + f(y)
  {
    var zs := xs[i := y];
    SumRealSplit(f, xs, i);
    SumRealSplit(f, zs, i);
    assert zs[..i] == xs[..i] && zs[i + 1..] == xs[i + 1..];
  }

  lemma {:induction false} SumRealNonNegative<T>(f: T -> real, xs: seq<T>)
    requires forall x :: x in xs ==> f(x) >= 0.0
    ensures SumReal(f, xs) >= 0.0
  {
    if xs != [] {
      SumRealNonNegative(f, xs[..|xs| - 1]);
    }
  }

  ghost function Places<T>(p: T -> bool, xs: seq<T>): set<nat> { set i: nat | i < |xs| && p(xs[i]) }

  /** Counting rows by a property is counting the places that have it. */
  lemma {:induction false} CountIsCardinality<T>(p: T -> bool, xs: seq<T>)
    ensures CountWhere(p, xs) == |Places(p, xs)|
  {
    if xs == [] {
      assert Places(p, xs) == {};
    } else {
      var n := |xs| - 1;
      CountIsCardinality(p, xs[..n]);
      assert Places(p, xs) == Places(p, xs[..n]) + if p(xs[n]) then {n} else {};
    }
  }
}
