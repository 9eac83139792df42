/** Sums, counts and minima used by the proofs. */
module Numbers {

  /** t is the least element of a nonempty set. */
  ghost predicate IsMin(t: real, ts: set<real>) {
    t in ts && forall u :: u in ts ==> t <= u
  }

  lemma Pick<T>(ts: set<T>) returns (t: T)
    requires ts != {}
    ensures t in ts
  {
    t :| t in ts;
  }

  /** Some element, as an iteration in an unknown order meets it. */
  method AnyOf<T(==)>(ts: set<T>) returns (t: T)
    requires ts != {}
    ensures t in ts
  {
    t :| t in ts;
  }

  lemma {:induction false} FiniteSetsHaveMinima(ts: set<real>) returns (t: real)
    requires ts != {}
    ensures IsMin(t, ts)
    decreases |ts|
  {
    var u := Pick(ts);
    var rest := ts - {u};
    assert ts == rest + {u};
    if rest == {} {
      t := u;
    } else {
      t := FiniteSetsHaveMinima(rest);
      if u <= t {
        t := u;
      }
    }
  }

  method MinOf(ts: set<real>) returns (t: real)
    requires ts != {}
    ensures IsMin(t, ts)
  {
    t := AnyOf(ts);
    var seen := {t};
    while seen != ts
      invariant seen <= ts && IsMin(t, seen)
      decreases ts - seen
    {
      assert ts == seen + (ts - seen);
      var u := AnyOf(ts - seen);
      MinOfUnion(seen, t, {u}, u);
      seen := seen + {u};
      t := if u < t then u else t;
    }
  }

  lemma MinOfUnion(a: set<real>, x: real, b: set<real>, y: real)
    requires IsMin(x, a) && IsMin(y, b)
    ensures IsMin(if y < x then y else x, a + b)
  {
  }

  /** The numbers below n. */
  function UpTo(n: nat): (r: set<nat>)
    ensures forall i: nat :: i in r <==> i < n
    ensures |r| == n
  {
    if n == 0 then {} else
      var below := UpTo(n - 1);
      assert n - 1 !in below;
      below + {n - 1}
  }

  function Elements(xs: seq<nat>): set<nat> {
    set x | x in xs
  }

  lemma {:induction false} DistinctNumbersCount(xs: seq<nat>)
    requires forall j, k :: 0 <= j < k < |xs| ==> xs[j] != xs[k]
    ensures |Elements(xs)| == |xs|
  {
    if xs == [] {
      assert Elements(xs) == {};
    } else {
      var ys, x := xs[..|xs| - 1], xs[|xs| - 1];
      DistinctNumbersCount(ys);
      assert x !in ys;
      assert xs == ys + [x];
      assert Elements(xs) == Elements(ys) + {x};
    }
  }

  function Sum(xs: seq<nat>): nat {
    if xs == [] then 0 else Sum(xs[..|xs| - 1]) + xs[|xs| - 1]
  }

  lemma {:induction false} SumSnoc(xs: seq<nat>, x: nat)
    ensures Sum(xs + [x]) == Sum(xs) + x
  {
    assert (xs + [x])[..|xs|] == xs;
  }

  /** Replacing one term changes the sum by the difference. */
  lemma {:induction false} SumUpdate(xs: seq<nat>, k: nat, x: nat)
    requires k < |xs|
    ensures Sum(xs[k := x]) == Sum(xs) - xs[k] + x
  {
    var n := |xs| - 1;
    if k < n {
      SumUpdate(xs[..n], k, x);
      assert xs[k := x][..n] == xs[..n][k := x];
    } else {
      assert xs[k := x][..n] == xs[..n];
    }
  }

  /** Term by term at least ys, and at most m times ys. */
  lemma {:induction false} SumBetween(xs: seq<nat>, ys: seq<nat>, m: nat)
    requires |xs| == |ys|
    requires forall k :: 0 <= k < |xs| ==> ys[k] <= xs[k] <= m * ys[k]
    ensures Sum(ys) <= Sum(xs) <= m * Sum(ys)
  {
    if xs != [] {
      var n := |xs| - 1;
      SumBetween(xs[..n], ys[..n], m);
      var a, b := Sum(ys[..n]), ys[n];
      assert m * (a + b) == m * a + m * b;
    } else {
      assert m * 0 == 0;
    }
  }
}
