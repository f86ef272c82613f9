/** Commanded-versus-measured reconciliation of one sweep segment: the
    measured source readback is kept while it tracks the commanded levels,
    and from the first point that leaves the tolerance (the source hit its
    current limit) the commanded level is reported instead, to the end of
    the compared range. */
module Reconciler {
  import opened PyText

  /** The consecutive commanded differences among the first n levels that are real steps. */
  function StepCandidates(e: seq<real>, n: nat): (r: seq<real>)
    requires n <= |e|
    ensures forall x :: x in r ==> x > 1e-12
    ensures forall i {:trigger IsRealStep(e, i)} :: 0 <= i < n - 1 && IsRealStep(e, i) ==> Abs(e[i + 1] - e[i]) in r
    ensures forall x :: x in r ==> RealStepOf(e, n, x)
  {
    if n <= 1 then []
    else
      var c := StepCandidates(e, n - 1);
      var last := if IsClose(e[n - 1], e[n - 2], 1e-12) then [] else [Abs(e[n - 1] - e[n - 2])];
      StepsOfWider(e, n, c);
      RealStepAt(e, n, n - 2);
      c + last
  }

  /** Levels i and i + 1 differ by more than `isclose`'s 1e-12. */
  predicate IsRealStep(e: seq<real>, i: nat)
    requires i + 1 < |e|
  {
    !IsClose(e[i + 1], e[i], 1e-12)
  }

  /** x is the size of some real commanded step among the first n levels. */
  predicate RealStepOf(e: seq<real>, n: nat, x: real)
    requires n <= |e|
  {
    exists i {:trigger IsRealStep(e, i)} :: 0 <= i < n - 1 && IsRealStep(e, i) && x == Abs(e[i + 1] - e[i])
  }

  lemma RealStepAt(e: seq<real>, n: nat, i: nat)
    requires n <= |e| && i < n - 1
    ensures IsRealStep(e, i) ==> RealStepOf(e, n, Abs(e[i + 1] - e[i]))
  {
  }

  lemma StepsOfWider(e: seq<real>, n: nat, c: seq<real>)
    requires 1 <= n <= |e| && forall x :: x in c ==> RealStepOf(e, n - 1, x)
    ensures forall x :: x in c ==> RealStepOf(e, n, x)
  {
    forall x | x in c
      ensures RealStepOf(e, n, x)
    {
      var i :| 0 <= i < n - 2 && IsRealStep(e, i) && x == Abs(e[i + 1] - e[i]);
    }
  }

  function MinOf(s: seq<real>): (m: real)
    requires s != []
    ensures m in s && forall x :: x in s ==> m <= x
  {
    if |s| == 1 then s[0]
    else
      assert forall x :: x in s ==> x == s[0] || x in s[1..];
      Min(s[0], MinOf(s[1..]))
  }

  /** 2% of the smallest commanded step in the compared range, but never below 1 uV. */
  function Tolerance(e: seq<real>, n: nat): real
    requires n <= |e|
  {
    var c := StepCandidates(e, n);
    Max((if c == [] then 0.0 else MinOf(c)) * 0.02, 1e-6)
  }

  /** The first index below n where measured leaves the tolerance, or n when there is none. */
  function FirstExceed(e: seq<real>, a: seq<real>, n: nat, tol: real): (k: nat)
    requires n <= |e| && n <= |a|
    ensures k <= n
    ensures forall j :: 0 <= j < k ==> Abs(e[j] - a[j]) <= tol
    ensures k < n ==> Abs(e[k] - a[k]) > tol
  {
    if n == 0 then 0
    else
      var k := FirstExceed(e, a, n - 1, tol);
      if k < n - 1 then k else if Abs(e[n - 1] - a[n - 1]) > tol then n - 1 else n
  }

  function CompareLength(e: seq<real>, a: seq<real>): (n: nat)
    ensures n <= |e| && n <= |a| && (n == |e| || n == |a|)
  {
    if |e| <= |a| then |e| else |a|
  }

  /** Where the replacement starts. */
  function StuckIndex(e: seq<real>, a: seq<real>): nat
  {
    var n := CompareLength(e, a);
    FirstExceed(e, a, n, Tolerance(e, n))
  }

  /** The reconciled readback: measured before the stuck index, commanded from it to the end
      of the compared range, and the measured values beyond that range. */
  function Reconcile(e: seq<real>, a: seq<real>): seq<real>
  {
    if e == [] || a == [] then a
    else
      var n := CompareLength(e, a);
      var k := StuckIndex(e, a);
      a[..k] + e[k..n] + a[n..]
  }

  /** A list that follows `a` before `k` and `e` from `k` to `n` is that splice of the two. */
  lemma SplicedAt(m: seq<real>, a: seq<real>, e: seq<real>, k: nat, n: nat)
    requires k <= n <= |a| && n <= |e| && |m| == n
    requires forall j :: 0 <= j < n ==> m[j] == if j < k then a[j] else e[j]
    ensures m == a[..k] + e[k..n]
  {
    forall j | 0 <= j < n
      ensures m[j] == (a[..k] + e[k..n])[j]
    {
      if j >= k {
        assert (a[..k] + e[k..n])[j] == e[k..n][j - k];
      }
    }
  }

  /** `_match_voltage_sequence`. */
  method MatchVoltageSequence(expected: seq<real>, actual: seq<real>) returns (matched: seq<real>)
    ensures matched == Reconcile(expected, actual)
  {
    if expected == [] || actual == [] {
      return actual;
    }
    var length := CompareLength(expected, actual);
    var tolerance := Tolerance(expected, length);
    matched := MatchPrefix(expected, actual, length, tolerance);
    if |actual| > length {
      matched := matched + actual[length..];
    } else {
      assert actual[length..] == [];
    }
  }

  /** The sticky loop over the compared range: readbacks up to the first one out of
      tolerance, commanded levels from there on. */
  method MatchPrefix(expected: seq<real>, actual: seq<real>, length: nat, tolerance: real)
    returns (matched: seq<real>)
    requires length <= |expected| && length <= |actual|
    ensures var k := FirstExceed(expected, actual, length, tolerance);
      matched == actual[..k] + expected[k..length]
  {
    ghost var k := FirstExceed(expected, actual, length, tolerance);
    matched := [];
    var stuck: bool := false;
    var idx := 0;
    while idx < length
      invariant 0 <= idx <= length
      invariant stuck <==> k < idx
      invariant |matched| == idx
      invariant forall j :: 0 <= j < idx ==> matched[j] == if j < k then actual[j] else expected[j]
    {
      if !stuck && Abs(expected[idx] - actual[idx]) > tolerance {
        stuck := true;
      }
      if !stuck {
        matched := matched + [actual[idx]];
      } else {
        matched := matched + [expected[idx]];
      }
      idx := idx + 1;
    }
    SplicedAt(matched, actual, expected, k, length);
  }

  // ------------------------------------------------------------ properties

  lemma ReconcileShape(e: seq<real>, a: seq<real>)
    ensures |Reconcile(e, a)| == |a|
    ensures e == [] || a == [] ==> Reconcile(e, a) == a
    ensures e != [] && a != [] ==>
      var r := Reconcile(e, a);
      var n := CompareLength(e, a);
      var k := StuckIndex(e, a);
      (forall j :: 0 <= j < k ==> r[j] == a[j] && Abs(e[j] - a[j]) <= Tolerance(e, n)) &&
      (k < n ==> Abs(e[k] - a[k]) > Tolerance(e, n)) &&
      (forall j :: k <= j < n ==> r[j] == e[j]) &&
      (forall j :: n <= j < |a| ==> r[j] == a[j])
  {
    if e != [] && a != [] {
      var n := CompareLength(e, a);
      var k := StuckIndex(e, a);
      var r := a[..k] + e[k..n] + a[n..];
      assert Reconcile(e, a) == r;
      assert forall j :: 0 <= j < k ==> r[j] == a[j];
      assert forall j :: k <= j < n ==> r[j] == e[j];
      assert forall j :: n <= j < |a| ==> r[j] == a[j];
    }
  }

  /** The replacement is sticky: a point back in tolerance after the stuck index still
      reports the commanded level. */
  lemma ReconcileSticky(e: seq<real>, a: seq<real>, j: nat)
    requires e != [] && a != []
    requires StuckIndex(e, a) <= j < CompareLength(e, a)
    ensures Reconcile(e, a)[j] == e[j]
  {
    ReconcileShape(e, a);
  }

  /** A readback that tracks its commands everywhere is returned unchanged. */
  lemma ReconcileTracking(e: seq<real>, a: seq<real>)
    requires forall j :: 0 <= j < CompareLength(e, a) ==> Abs(e[j] - a[j]) <= Tolerance(e, CompareLength(e, a))
    ensures Reconcile(e, a) == a
  {
    if e != [] && a != [] {
      var n := CompareLength(e, a);
      if StuckIndex(e, a) < n {
        assert false;
      }
      assert a[..n] + a[n..] == a;
    }
  }

  lemma ReconcileIdentity(x: seq<real>)
    ensures Reconcile(x, x) == x
  {
    var n := CompareLength(x, x);
    ToleranceBounds(x, n);
    forall j | 0 <= j < CompareLength(x, x)
      ensures Abs(x[j] - x[j]) <= Tolerance(x, CompareLength(x, x))
    {
      assert Abs(x[j] - x[j]) == 0.0;
    }
    ReconcileTracking(x, x);
  }

  /** The tolerance never falls below 1 uV and never exceeds 2% of a real commanded step
      (when that is above the floor). */
  lemma ToleranceBounds(e: seq<real>, n: nat)
    requires n <= |e|
    ensures Tolerance(e, n) >= 1e-6
    ensures forall i :: 0 <= i < n - 1 && IsRealStep(e, i) ==>
      Tolerance(e, n) <= Max(0.02 * Abs(e[i + 1] - e[i]), 1e-6)
  {
    var c := StepCandidates(e, n);
    forall i | 0 <= i < n - 1 && IsRealStep(e, i)
      ensures Tolerance(e, n) <= Max(0.02 * Abs(e[i + 1] - e[i]), 1e-6)
    {
      assert Abs(e[i + 1] - e[i]) in c;
      assert MinOf(c) <= Abs(e[i + 1] - e[i]);
    }
  }

  /** Step i is a real step, and no real step among the first n levels is smaller. */
  predicate SmallestStep(e: seq<real>, n: nat, i: int)
    requires n <= |e|
  {
    0 <= i < n - 1 && IsRealStep(e, i) &&
    forall j {:trigger IsRealStep(e, j)} :: 0 <= j < n - 1 && IsRealStep(e, j) ==> Abs(e[i + 1] - e[i]) <= Abs(e[j + 1] - e[j])
  }

  /** The tolerance is max(2% of the smallest real commanded step, 1 uV), and exactly
      1 uV when the compared range holds no real step. */
  lemma ToleranceOfSmallestStep(e: seq<real>, n: nat)
    requires n <= |e|
    ensures (forall i :: 0 <= i < n - 1 ==> !IsRealStep(e, i)) ==> Tolerance(e, n) == 1e-6
    ensures (exists i :: 0 <= i < n - 1 && IsRealStep(e, i)) ==>
      exists i :: SmallestStep(e, n, i) && Tolerance(e, n) == Max(0.02 * Abs(e[i + 1] - e[i]), 1e-6)
  {
    var c := StepCandidates(e, n);
    if c != [] {
      var m := MinOf(c);
      assert RealStepOf(e, n, m);
      var i :| 0 <= i < n - 1 && IsRealStep(e, i) && m == Abs(e[i + 1] - e[i]);
      forall j | 0 <= j < n - 1 && IsRealStep(e, j)
        ensures Abs(e[i + 1] - e[i]) <= Abs(e[j + 1] - e[j])
      {
        assert Abs(e[j + 1] - e[j]) in c;
      }
      assert SmallestStep(e, n, i);
    }
  }
}
