/** The 2602B trigger-model I-V sweep: one run's voltage list (0 up to the
    positive target and back, then down to the negative target and back),
    its repetition over the configured runs, and the bookkeeping that splits
    the remaining points into segments which never cross a run boundary and
    can be paused and resumed. */
module Sweep2602 {
  import opened Outcome
  import opened PyText
  import opened Channel
  import opened WriteSequence
  import opened SweepReadback

  const ZeroStep := "Step voltage must not be zero."

  /** The closeness tolerance of the single-run list. */
  function RunTolerance(stepMag: real): real
  {
    stepMag * 1e-9 + 1e-12
  }

  /** No two consecutive entries are close. */
  predicate Spread(s: seq<real>, tol: real)
  {
    forall i :: 0 < i < |s| ==> !IsClose(s[i - 1], s[i], tol)
  }

  predicate InBounds(s: seq<real>, lo: real, hi: real)
  {
    forall i :: 0 <= i < |s| ==> lo <= s[i] <= hi
  }

  /** `s` is `s0` followed by entries within `[lo, hi]`. */
  predicate Extends(s: seq<real>, s0: seq<real>, lo: real, hi: real)
  {
    |s| >= |s0| && s[..|s0|] == s0 && forall i :: |s0| <= i < |s| ==> lo <= s[i] <= hi
  }

  /** `append_unique`: append unless the last entry is already close. */
  function AppendUnique(s: seq<real>, v: real, tol: real): (r: seq<real>)
    requires tol >= 0.0
    ensures r == s || r == s + [v]
    ensures r != [] && IsClose(r[|r| - 1], v, tol)
    ensures Spread(s, tol) ==> Spread(r, tol)
  {
    if s == [] || !IsClose(s[|s| - 1], v, tol) then s + [v] else s
  }

  lemma AppendUniqueEndsNear(s: seq<real>, v: real, tol: real)
    requires tol >= 0.0
    ensures var r := AppendUnique(s, v, tol); r != [] && IsClose(r[|r| - 1], v, tol)
  {
  }

  lemma AppendUniqueBounds(s: seq<real>, v: real, tol: real, lo: real, hi: real)
    requires tol >= 0.0 && InBounds(s, lo, hi) && lo <= v <= hi
    ensures InBounds(AppendUnique(s, v, tol), lo, hi)
  {
  }

  lemma AppendUniqueExtends(s: seq<real>, s0: seq<real>, v: real, tol: real, lo: real, hi: real)
    requires tol >= 0.0 && Extends(s, s0, lo, hi) && lo <= v <= hi
    ensures Extends(AppendUnique(s, v, tol), s0, lo, hi)
  {
    var r := AppendUnique(s, v, tol);
    if r != s {
      assert r[..|s0|] == s[..|s0|];
    }
  }

  /** What `compute_single_run_voltages` promises of its list. */
  predicate SingleRunShape(s: seq<real>, pos: real, neg: real, tol: real)
  {
    s != [] && s[0] == 0.0 && IsClose(s[|s| - 1], 0.0, tol) && Spread(s, tol) && InBounds(s, neg, pos) &&
    (pos > tol ==> exists i :: 0 <= i < |s| && IsClose(s[i], pos, tol)) &&
    (neg < -tol ==> exists i :: 0 <= i < |s| && IsClose(s[i], neg, tol))
  }

  /** How many whole steps fit in `room`: the measure of the stepping loops. */
  function Room(room: real, stepMag: real): int
    requires stepMag > 0.0
  {
    (room / stepMag).Floor
  }

  lemma RoomStep(room: real, stepMag: real)
    requires stepMag > 0.0 && room > stepMag
    ensures 0 <= Room(room - stepMag, stepMag) < Room(room, stepMag)
  {
    assert stepMag / stepMag == 1.0;
    assert (room - stepMag) / stepMag == room / stepMag - stepMag / stepMag;
    assert (room - stepMag) / stepMag >= 0.0;
  }

  /** The levels `while current + step_mag < target - tol: current += step_mag` visits. */
  function UpSteps(current: real, target: real, stepMag: real, tol: real): seq<real>
    requires stepMag > 0.0 && tol >= 0.0
    decreases Room(target - current, stepMag)
  {
    if current + stepMag < target - tol then
      RoomStep(target - current, stepMag);
      [current + stepMag] + UpSteps(current + stepMag, target, stepMag, tol)
    else []
  }

  /** The levels `while current - step_mag > target + tol: current -= step_mag` visits. */
  function DownSteps(current: real, target: real, stepMag: real, tol: real): seq<real>
    requires stepMag > 0.0 && tol >= 0.0
    decreases Room(current - target, stepMag)
  {
    if current - stepMag > target + tol then
      RoomStep(current - target, stepMag);
      [current - stepMag] + DownSteps(current - stepMag, target, stepMag, tol)
    else []
  }

  /** The whole steps from `current` towards `target`, up or down. */
  lemma UpStepsNext(current: real, target: real, stepMag: real, tol: real)
    requires stepMag > 0.0 && tol >= 0.0 && current + stepMag < target - tol
    ensures UpSteps(current, target, stepMag, tol) == [current + stepMag] + UpSteps(current + stepMag, target, stepMag, tol)
  {
  }

  lemma UpStepsEnd(current: real, target: real, stepMag: real, tol: real)
    requires stepMag > 0.0 && tol >= 0.0 && !(current + stepMag < target - tol)
    ensures UpSteps(current, target, stepMag, tol) == []
  {
  }

  lemma DownStepsNext(current: real, target: real, stepMag: real, tol: real)
    requires stepMag > 0.0 && tol >= 0.0 && current - stepMag > target + tol
    ensures DownSteps(current, target, stepMag, tol) == [current - stepMag] + DownSteps(current - stepMag, target, stepMag, tol)
  {
  }

  lemma DownStepsEnd(current: real, target: real, stepMag: real, tol: real)
    requires stepMag > 0.0 && tol >= 0.0 && !(current - stepMag > target + tol)
    ensures DownSteps(current, target, stepMag, tol) == []
  {
  }

  lemma AppendAllCons(s: seq<real>, v: real, vs: seq<real>, tol: real)
    requires tol >= 0.0
    ensures AppendAll(s, [v] + vs, tol) == AppendAll(AppendUnique(s, v, tol), vs, tol)
  {
    assert ([v] + vs)[0] == v && ([v] + vs)[1..] == vs;
  }

  lemma AppendAllNone(s: seq<real>, tol: real)
    requires tol >= 0.0
    ensures AppendAll(s, [], tol) == s
  {
  }

  function LegSteps(rising: bool, current: real, target: real, stepMag: real, tol: real): seq<real>
    requires stepMag > 0.0 && tol >= 0.0
  {
    if rising then UpSteps(current, target, stepMag, tol) else DownSteps(current, target, stepMag, tol)
  }

  /** `append_unique` applied to each value in turn. */
  function AppendAll(s: seq<real>, vs: seq<real>, tol: real): seq<real>
    requires tol >= 0.0
    decreases |vs|
  {
    if vs == [] then s else AppendAll(AppendUnique(s, vs[0], tol), vs[1..], tol)
  }

  /** 0 up to the positive target in whole steps, the target, then back down to 0 in whole
      steps from the last entry. */
  function PositiveLegList(pos: real, stepMag: real, tol: real): seq<real>
    requires stepMag > 0.0 && tol >= 0.0
  {
    var up := AppendUnique(AppendAll([0.0], LegSteps(true, 0.0, pos, stepMag, tol), tol), pos, tol);
    AppendUnique(AppendAll(up, LegSteps(false, up[|up| - 1], 0.0, stepMag, tol), tol), 0.0, tol)
  }

  /** `s0` followed by 0 down to the negative target in whole steps, the target, then back up
      to 0 in whole steps from the target. */
  function NegativeLegList(s0: seq<real>, neg: real, stepMag: real, tol: real): seq<real>
    requires stepMag > 0.0 && tol >= 0.0
  {
    var down := AppendUnique(AppendAll(s0, LegSteps(false, 0.0, neg, stepMag, tol), tol), neg, tol);
    AppendUnique(AppendAll(down, LegSteps(true, neg, 0.0, stepMag, tol), tol), 0.0, tol)
  }

  /** The list before the negative leg: the positive leg when its target lies beyond the
      tolerance, else just 0. */
  function FirstHalfList(pos: real, stepMag: real, tol: real): seq<real>
    requires stepMag > 0.0 && tol >= 0.0
  {
    if pos > tol then PositiveLegList(pos, stepMag, tol) else [0.0]
  }

  /** The single-run list `compute_single_run_voltages` builds: the first half, then the
      negative leg when its target lies beyond the tolerance. */
  function Ramp(pos: real, neg: real, stepMag: real, tol: real): seq<real>
    requires stepMag > 0.0 && tol >= 0.0
  {
    var first := FirstHalfList(pos, stepMag, tol);
    if neg < -tol then NegativeLegList(first, neg, stepMag, tol) else first
  }

  /** Stepping up visits `current + step`, `current + 2 step`, ... while it stays below
      `target - tol`, and stops at the first multiple that does not. */
  lemma {:induction false} UpStepsValues(current: real, target: real, stepMag: real, tol: real)
    requires stepMag > 0.0 && tol >= 0.0
    ensures var u := UpSteps(current, target, stepMag, tol);
      (forall i :: 0 <= i < |u| ==> u[i] == current + (i + 1) as real * stepMag && u[i] < target - tol) &&
      current + (|u| + 1) as real * stepMag >= target - tol
    decreases Room(target - current, stepMag)
  {
    var u := UpSteps(current, target, stepMag, tol);
    if current + stepMag < target - tol {
      RoomStep(target - current, stepMag);
      var next := current + stepMag;
      UpStepsValues(next, target, stepMag, tol);
      var w := UpSteps(next, target, stepMag, tol);
      assert u == [next] + w;
      forall i | 1 <= i < |u|
        ensures u[i] == current + (i + 1) as real * stepMag
      {
        assert u[i] == w[i - 1] == next + i as real * stepMag;
      }
      assert next + (|w| + 1) as real * stepMag == current + (|u| + 1) as real * stepMag;
    }
  }

  /** Stepping down visits `current - step`, `current - 2 step`, ... while it stays above
      `target + tol`, and stops at the first multiple that does not. */
  lemma {:induction false} DownStepsValues(current: real, target: real, stepMag: real, tol: real)
    requires stepMag > 0.0 && tol >= 0.0
    ensures var d := DownSteps(current, target, stepMag, tol);
      (forall i :: 0 <= i < |d| ==> d[i] == current - (i + 1) as real * stepMag && d[i] > target + tol) &&
      current - (|d| + 1) as real * stepMag <= target + tol
    decreases Room(current - target, stepMag)
  {
    var d := DownSteps(current, target, stepMag, tol);
    if current - stepMag > target + tol {
      RoomStep(current - target, stepMag);
      var next := current - stepMag;
      DownStepsValues(next, target, stepMag, tol);
      var w := DownSteps(next, target, stepMag, tol);
      assert d == [next] + w;
      forall i | 1 <= i < |d|
        ensures d[i] == current - (i + 1) as real * stepMag
      {
        assert d[i] == w[i - 1] == next - i as real * stepMag;
      }
      assert next - (|w| + 1) as real * stepMag == current - (|d| + 1) as real * stepMag;
    }
  }

  /** When no two consecutive values are close, `append_unique` keeps every one of them. */
  lemma {:induction false} AppendAllSpread(s: seq<real>, vs: seq<real>, tol: real)
    requires tol >= 0.0 && Spread(s + vs, tol)
    ensures AppendAll(s, vs, tol) == s + vs
    decreases |vs|
  {
    if vs != [] {
      var s1 := s + [vs[0]];
      assert (s + vs)[|s|] == vs[0];
      if s != [] {
        assert (s + vs)[|s| - 1] == s[|s| - 1];
      }
      assert AppendUnique(s, vs[0], tol) == s1;
      assert s1 + vs[1..] == s + vs;
      AppendAllSpread(s1, vs[1..], tol);
    }
  }

  /** Appending values within `[lo, hi]` keeps the list before them and adds only such values. */
  lemma {:induction false} AppendAllExtends(s: seq<real>, vs: seq<real>, tol: real, lo: real, hi: real)
    requires tol >= 0.0 && forall i :: 0 <= i < |vs| ==> lo <= vs[i] <= hi
    ensures Extends(AppendAll(s, vs, tol), s, lo, hi)
    decreases |vs|
  {
    if vs != [] {
      var s1 := AppendUnique(s, vs[0], tol);
      assert Extends(s, s, lo, hi);
      AppendUniqueExtends(s, s, vs[0], tol, lo, hi);
      AppendAllExtends(s1, vs[1..], tol, lo, hi);
      ExtendsTrans(AppendAll(s1, vs[1..], tol), s1, s, lo, hi);
    }
  }

  /** The positive half comes first and is kept whole: everything after it lies between the
      negative target and 0. */
  lemma RampOrder(pos: real, neg: real, stepMag: real, tol: real)
    requires stepMag > 0.0 && tol >= 0.0 && neg <= 0.0
    ensures Extends(Ramp(pos, neg, stepMag, tol), FirstHalfList(pos, stepMag, tol), neg, 0.0)
  {
    var first := FirstHalfList(pos, stepMag, tol);
    if neg < -tol {
      NegativeLegExtends(first, neg, stepMag, tol);
    } else {
      assert Extends(first, first, neg, 0.0);
    }
  }

  lemma NegativeLegExtends(s0: seq<real>, neg: real, stepMag: real, tol: real)
    requires stepMag > 0.0 && tol >= 0.0 && neg <= 0.0
    ensures Extends(NegativeLegList(s0, neg, stepMag, tol), s0, neg, 0.0)
  {
    var ds := LegSteps(false, 0.0, neg, stepMag, tol);
    DownStepsValues(0.0, neg, stepMag, tol);
    AppendAllExtends(s0, ds, tol, neg, 0.0);
    var a := AppendAll(s0, ds, tol);
    AppendUniqueExtends(a, s0, neg, tol, neg, 0.0);
    var down := AppendUnique(a, neg, tol);
    var us := LegSteps(true, neg, 0.0, stepMag, tol);
    UpStepsValues(neg, 0.0, stepMag, tol);
    AppendAllExtends(down, us, tol, neg, 0.0);
    var b := AppendAll(down, us, tol);
    ExtendsTrans(b, down, s0, neg, 0.0);
    AppendUniqueExtends(b, s0, 0.0, tol, neg, 0.0);
  }

  /** A step that is not close to zero is positive, and so is its tolerance. */
  lemma StepSetup(stepMag: real)
    requires stepMag >= 0.0 && !IsClose(stepMag, 0.0, 1e-12)
    ensures stepMag > 0.0 && RunTolerance(stepMag) > 0.0
  {
  }

  /** `compute_single_run_voltages`. */
  method SingleRunVoltages(positiveInput: real, negativeInput: real, stepInput: real) returns (r: Result<seq<real>>)
    ensures r.Err? <==> IsClose(Abs(stepInput), 0.0, 1e-12)
    ensures r.Err? ==> r.msg == ZeroStep
    ensures r.Ok? ==> SingleRunShape(r.value, Abs(positiveInput), -Abs(negativeInput), RunTolerance(Abs(stepInput)))
    ensures r.Ok? ==>
      Abs(stepInput) > 0.0 &&
      r.value == Ramp(Abs(positiveInput), -Abs(negativeInput), Abs(stepInput), RunTolerance(Abs(stepInput)))
  {
    var stepMag := Abs(stepInput);
    if IsClose(stepMag, 0.0, 1e-12) {
      return Err(ZeroStep);
    }
    StepSetup(stepMag);
    var s := BothLegs(Abs(positiveInput), -Abs(negativeInput), stepMag, RunTolerance(stepMag));
    r := Ok(s);
  }

  /** 0, the positive leg when its target is beyond the tolerance, then the negative leg likewise. */
  method BothLegs(pos: real, neg: real, stepMag: real, tol: real) returns (s: seq<real>)
    requires stepMag > 0.0 && tol > 0.0 && pos >= 0.0 && neg <= 0.0
    ensures SingleRunShape(s, pos, neg, tol)
    ensures s == Ramp(pos, neg, stepMag, tol)
  {
    s := FirstHalf(pos, stepMag, tol);
    if neg < -tol {
      ghost var s0 := s;
      var s2, k := NegativeLeg(s, neg, stepMag, tol);
      ShapeAfterNegative(s0, s2, pos, neg, tol, k);
      s := s2;
    } else {
      ShapeWithoutNegative(s, pos, neg, tol);
    }
  }

  /** The list up to the end of the positive leg: just 0 when the target is within tolerance. */
  method FirstHalf(pos: real, stepMag: real, tol: real) returns (s: seq<real>)
    requires stepMag > 0.0 && tol > 0.0 && pos >= 0.0
    ensures PositivePart(s, pos, tol)
    ensures s == FirstHalfList(pos, stepMag, tol)
  {
    s := AppendUnique([], 0.0, tol);
    assert s == [0.0];
    if pos > tol {
      s := PositiveLeg(s, pos, stepMag, tol);
    } else {
      assert PositivePart(s, pos, tol);
    }
  }

  /** What the list holds once the positive leg is done (or skipped). */
  predicate PositivePart(s: seq<real>, pos: real, tol: real)
  {
    s != [] && s[0] == 0.0 && IsClose(s[|s| - 1], 0.0, tol) && Spread(s, tol) && InBounds(s, 0.0, pos) &&
    (pos > tol ==> exists i :: 0 <= i < |s| && IsClose(s[i], pos, tol))
  }

  lemma ShapeWithoutNegative(s: seq<real>, pos: real, neg: real, tol: real)
    requires PositivePart(s, pos, tol)
    requires neg <= 0.0 && neg >= -tol
    ensures SingleRunShape(s, pos, neg, tol)
  {
  }

  lemma ShapeAfterNegative(s0: seq<real>, s: seq<real>, pos: real, neg: real, tol: real, k: nat)
    requires PositivePart(s0, pos, tol)
    requires tol > 0.0 && neg < -tol
    requires pos >= 0.0 && Extends(s, s0, neg, 0.0) && Spread(s, tol)
    requires IsClose(s[|s| - 1], 0.0, tol)
    requires k < |s| && IsClose(s[k], neg, tol)
    ensures SingleRunShape(s, pos, neg, tol)
  {
    assert forall i :: 0 <= i < |s0| ==> s[i] == s0[i];
    assert InBounds(s0, 0.0, pos);
    forall i | 0 <= i < |s|
      ensures neg <= s[i] <= pos
    {
      if i < |s0| {
        assert s[i] == s0[i] && 0.0 <= s0[i] <= pos;
      } else {
        assert neg <= s[i] <= 0.0;
      }
    }
    if pos > tol {
      var j :| 0 <= j < |s0| && IsClose(s0[j], pos, tol);
      assert s[j] == s0[j];
    }
  }

  lemma ExtendsTrans(s2: seq<real>, s1: seq<real>, s0: seq<real>, lo: real, hi: real)
    requires Extends(s1, s0, lo, hi) && Extends(s2, s1, lo, hi)
    ensures Extends(s2, s0, lo, hi)
  {
    assert s2[..|s0|] == s2[..|s1|][..|s0|];
  }

  lemma ExtendsBounds(s: seq<real>, s0: seq<real>, lo: real, hi: real)
    requires Extends(s, s0, lo, hi) && InBounds(s0, lo, hi)
    ensures InBounds(s, lo, hi)
  {
    forall i | 0 <= i < |s0|
      ensures lo <= s[i] <= hi
    {
      assert s[i] == s[..|s0|][i];
    }
  }

  /** `while current + step_mag < target - tol: current += step_mag; append_unique(current)`. */
  method StepUp(s0: seq<real>, start: real, target: real, stepMag: real, tol: real, lo: real, hi: real)
    returns (s: seq<real>)
    requires stepMag > 0.0 && tol >= 0.0 && lo <= start && target <= hi && Spread(s0, tol)
    ensures Extends(s, s0, lo, hi) && Spread(s, tol)
    ensures s == AppendAll(s0, UpSteps(start, target, stepMag, tol), tol)
  {
    s := s0;
    var current := start;
    while current + stepMag < target - tol
      invariant lo <= current
      invariant Extends(s, s0, lo, hi) && Spread(s, tol)
      invariant AppendAll(s, UpSteps(current, target, stepMag, tol), tol) ==
                AppendAll(s0, UpSteps(start, target, stepMag, tol), tol)
      decreases Room(target - current, stepMag)
    {
      RoomStep(target - current, stepMag);
      UpStepsNext(current, target, stepMag, tol);
      AppendAllCons(s, current + stepMag, UpSteps(current + stepMag, target, stepMag, tol), tol);
      current := current + stepMag;
      AppendUniqueExtends(s, s0, current, tol, lo, hi);
      s := AppendUnique(s, current, tol);
    }
    UpStepsEnd(current, target, stepMag, tol);
    AppendAllNone(s, tol);
  }

  /** `while current - step_mag > target + tol: current -= step_mag; append_unique(current)`. */
  method StepDown(s0: seq<real>, start: real, target: real, stepMag: real, tol: real, lo: real, hi: real)
    returns (s: seq<real>)
    requires stepMag > 0.0 && tol >= 0.0 && start <= hi && lo <= target && Spread(s0, tol)
    ensures Extends(s, s0, lo, hi) && Spread(s, tol)
    ensures s == AppendAll(s0, DownSteps(start, target, stepMag, tol), tol)
  {
    s := s0;
    var current := start;
    while current - stepMag > target + tol
      invariant current <= hi
      invariant Extends(s, s0, lo, hi) && Spread(s, tol)
      invariant AppendAll(s, DownSteps(current, target, stepMag, tol), tol) ==
                AppendAll(s0, DownSteps(start, target, stepMag, tol), tol)
      decreases Room(current - target, stepMag)
    {
      RoomStep(current - target, stepMag);
      DownStepsNext(current, target, stepMag, tol);
      AppendAllCons(s, current - stepMag, DownSteps(current - stepMag, target, stepMag, tol), tol);
      current := current - stepMag;
      AppendUniqueExtends(s, s0, current, tol, lo, hi);
      s := AppendUnique(s, current, tol);
    }
    DownStepsEnd(current, target, stepMag, tol);
    AppendAllNone(s, tol);
  }

  /** The positive leg: up from 0 in whole steps, the target, and back down to 0. */
  method PositiveLeg(s0: seq<real>, pos: real, stepMag: real, tol: real) returns (s: seq<real>)
    requires stepMag > 0.0 && tol > 0.0 && pos > tol && s0 == [0.0]
    ensures PositivePart(s, pos, tol)
    ensures s == PositiveLegList(pos, stepMag, tol)
  {
    var up := StepToTarget(s0, true, 0.0, pos, stepMag, tol, 0.0, pos);
    s := ReturnToZero(s0, up, false, up[|up| - 1], pos, stepMag, tol, 0.0, pos);
    assert s[0] == s[..|s0|][0] == 0.0;
  }

  /** The negative leg: down from 0 in whole steps, the target, and back up to 0. */
  method NegativeLeg(s0: seq<real>, neg: real, stepMag: real, tol: real) returns (s: seq<real>, ghost k: nat)
    requires stepMag > 0.0 && tol > 0.0 && neg < -tol
    requires s0 != [] && Spread(s0, tol)
    ensures Extends(s, s0, neg, 0.0) && Spread(s, tol)
    ensures IsClose(s[|s| - 1], 0.0, tol)
    ensures k < |s| && IsClose(s[k], neg, tol)
    ensures s == NegativeLegList(s0, neg, stepMag, tol)
  {
    var down := StepToTarget(s0, false, 0.0, neg, stepMag, tol, neg, 0.0);
    k := |down| - 1;
    s := ReturnToZero(s0, down, true, neg, neg, stepMag, tol, neg, 0.0);
  }

  /** The stepping loop of one direction. */
  method Steps(s0: seq<real>, rising: bool, start: real, target: real, stepMag: real, tol: real, lo: real, hi: real)
    returns (s: seq<real>)
    requires stepMag > 0.0 && tol >= 0.0 && lo <= start <= hi && lo <= target <= hi && Spread(s0, tol)
    ensures Extends(s, s0, lo, hi) && Spread(s, tol)
    ensures s == AppendAll(s0, LegSteps(rising, start, target, stepMag, tol), tol)
  {
    if rising {
      s := StepUp(s0, start, target, stepMag, tol, lo, hi);
    } else {
      s := StepDown(s0, start, target, stepMag, tol, lo, hi);
    }
  }

  /** The first half of a leg: stepping from `start` towards `target`, then the target itself. */
  method StepToTarget(s0: seq<real>, rising: bool, start: real, target: real, stepMag: real, tol: real, lo: real, hi: real)
    returns (s: seq<real>)
    requires stepMag > 0.0 && tol >= 0.0 && lo <= start <= hi && lo <= target <= hi && Spread(s0, tol)
    ensures Extends(s, s0, lo, hi) && Spread(s, tol) && s != [] && IsClose(s[|s| - 1], target, tol)
    ensures s == AppendUnique(AppendAll(s0, LegSteps(rising, start, target, stepMag, tol), tol), target, tol)
  {
    s := Steps(s0, rising, start, target, stepMag, tol, lo, hi);
    AppendUniqueExtends(s, s0, target, tol, lo, hi);
    s := AppendUnique(s, target, tol);
  }

  /** The list after the return half of a leg: it extends `s0` within bounds, stays spread, ends close
      to 0, and the entry close to `target` that ended `s1` is still at the same index. */
  predicate ReturnedToZero(s: seq<real>, s0: seq<real>, s1: seq<real>, target: real, tol: real, lo: real, hi: real)
  {
    Extends(s, s0, lo, hi) && Spread(s, tol) && s != [] && IsClose(s[|s| - 1], 0.0, tol) &&
    s1 != [] && |s1| - 1 < |s| && IsClose(s[|s1| - 1], target, tol)
  }

  /** The second half of a leg: stepping from `from` back to 0, then 0 itself; the entry
      close to the target stays where it was. */
  method ReturnToZero(s0: seq<real>, s1: seq<real>, rising: bool, from: real, target: real, stepMag: real, tol: real,
                      lo: real, hi: real)
    returns (s: seq<real>)
    requires stepMag > 0.0 && tol >= 0.0 && lo <= from <= hi && lo <= 0.0 <= hi
    requires Extends(s1, s0, lo, hi) && Spread(s1, tol) && s1 != [] && IsClose(s1[|s1| - 1], target, tol)
    ensures ReturnedToZero(s, s0, s1, target, tol, lo, hi)
    ensures s == AppendUnique(AppendAll(s1, LegSteps(rising, from, 0.0, stepMag, tol), tol), 0.0, tol)
  {
    var s2 := Steps(s1, rising, from, 0.0, stepMag, tol, lo, hi);
    s := AppendUnique(s2, 0.0, tol);
    ReturnToZeroFacts(s0, s1, s2, rising, from, target, stepMag, tol, lo, hi);
  }

  /** What the return half of a leg keeps of the list it started from. */
  lemma ReturnToZeroFacts(s0: seq<real>, s1: seq<real>, s2: seq<real>, rising: bool, from: real, target: real,
                          stepMag: real, tol: real, lo: real, hi: real)
    requires tol >= 0.0 && lo <= 0.0 <= hi
    requires Extends(s1, s0, lo, hi) && s1 != [] && IsClose(s1[|s1| - 1], target, tol)
    requires Extends(s2, s1, lo, hi) && Spread(s2, tol)
    ensures ReturnedToZero(AppendUnique(s2, 0.0, tol), s0, s1, target, tol, lo, hi)
  {
    AppendUniqueEndsNear(s2, 0.0, tol);
    AppendUniqueExtends(s2, s1, 0.0, tol, lo, hi);
    ExtendsKeepsLast(AppendUnique(s2, 0.0, tol), s1, s0, target, tol, lo, hi);
  }

  /** Extending a list that ends close to `target` keeps that entry in place. */
  lemma ExtendsKeepsLast(s: seq<real>, s1: seq<real>, s0: seq<real>, target: real, tol: real, lo: real, hi: real)
    requires Extends(s1, s0, lo, hi) && Extends(s, s1, lo, hi) && s1 != [] && IsClose(s1[|s1| - 1], target, tol)
    ensures Extends(s, s0, lo, hi) && |s1| - 1 < |s| && IsClose(s[|s1| - 1], target, tol)
  {
    ExtendsTrans(s, s1, s0, lo, hi);
    assert s[|s1| - 1] == s[..|s1|][|s1| - 1];
  }

  /** `parse_total_runs`: as the 2450 window's runs field, except that a non-number is
      refused by `float()` itself. */
  function ParseTotalRuns(text: string): (r: Result<int>)
    ensures r.Ok? <==> ParseRuns(text).Ok?
    ensures r.Ok? ==> r == ParseRuns(text) && r.value >= 1
    ensures Strip(text) != [] && !IsReal(text) ==> r == Err(NotAFloat)
  {
    if Strip(text) != [] && !IsReal(text) then Err(NotAFloat) else ParseRuns(text)
  }

  const NotAFloat := "could not convert string to float"

  /** The list repeated: entry i is entry i mod the run length. */
  function Cycled(single: seq<real>, count: nat): (r: seq<real>)
    requires single != []
    ensures |r| == count && forall i :: 0 <= i < count ==> r[i] == single[i % |single|]
  {
    seq(count, i requires 0 <= i < count => single[i % |single|])
  }

  /** `ceil(length / n)` whole runs cover `length` entries. */
  lemma CeilCovers(length: int, n: int)
    requires n > 0 && length > 0
    ensures (length + n - 1) / n >= 1 && (length + n - 1) / n * n >= length
    ensures length <= n ==> (length + n - 1) / n == 1
  {
    var x := length + n - 1;
    assert x == x / n * n + x % n;
    if length <= n {
      DivModUnique(x, n, 1, length - 1);
    }
  }

  /** Appending one more run keeps entry i equal to entry i mod the run length. */
  lemma CycledAppend(sequence: seq<real>, single: seq<real>, k: nat)
    requires single != [] && |sequence| == k * |single|
    requires forall i :: 0 <= i < |sequence| ==> sequence[i] == single[i % |single|]
    ensures |sequence + single| == (k + 1) * |single|
    ensures forall i :: 0 <= i < |sequence + single| ==> (sequence + single)[i] == single[i % |single|]
  {
    var n := |single|;
    assert (k + 1) * n == k * n + n;
    forall i | |sequence| <= i < |sequence| + n
      ensures (sequence + single)[i] == single[i % n]
    {
      DivModUnique(i, n, k, i - |sequence|);
    }
  }

  /** The `for _ in range(repeats_needed)` loop: whole runs appended, stopping once `length`
      entries are covered. */
  method RepeatRuns(run: seq<real>, repeats: int, length: int) returns (sequence: seq<real>)
    requires run != [] && repeats >= 1 && (length > 0 ==> repeats * |run| >= length)
    requires length <= |run| ==> repeats == 1
    ensures |sequence| >= length && (length <= |run| ==> |sequence| == |run|)
    ensures forall i :: 0 <= i < |sequence| ==> sequence[i] == run[i % |run|]
  {
    sequence := [];
    var k := 0;
    while k < repeats
      invariant 0 <= k <= repeats
      invariant |sequence| == k * |run|
      invariant forall i :: 0 <= i < |sequence| ==> sequence[i] == run[i % |run|]
      invariant k > 0 && k < repeats ==> |sequence| < length
    {
      CycledAppend(sequence, run, k);
      sequence := sequence + run;
      k := k + 1;
      if |sequence| >= length {
        break;
      }
    }
  }

  /** `build_voltage_sequence`: whole runs appended until `length` entries are covered, then
      cut with Python's `[:length]` (so a negative length drops entries from the end).  The
      single run and the runs field are validated first; either error is passed on. */
  method BuildVoltageSequence(single: Result<seq<real>>, runs: Result<int>, length: int) returns (r: Result<seq<real>>)
    ensures single.Err? ==> r == Err(single.msg)
    ensures single.Ok? && runs.Err? ==> r == Err(runs.msg)
    ensures single.Ok? && runs.Ok? && single.value == [] ==> r == Ok([])
    ensures single.Ok? && runs.Ok? && single.value != [] && length >= 0 ==> r == Ok(Cycled(single.value, length))
    ensures single.Ok? && runs.Ok? && single.value != [] && length < 0 ==>
              r == Ok(single.value[..if |single.value| + length > 0 then |single.value| + length else 0])
  {
    if single.Err? {
      return Err(single.msg);
    }
    if runs.Err? {
      return Err(runs.msg);
    }
    var run := single.value;
    if run == [] {
      return Ok([]);
    }
    var repeats := if length <= 0 then 1 else (length + |run| - 1) / |run|;
    if length > 0 {
      CeilCovers(length, |run|);
    }
    var sequence := RepeatRuns(run, repeats, length);
    if length >= 0 {
      assert sequence[..length] == Cycled(run, length);
      r := Ok(sequence[..length]);
    } else {
      assert |sequence| == |run|;
      forall i | 0 <= i < |run|
        ensures sequence[i] == run[i]
      {
        DivModUnique(i, |run|, 0, i);
      }
      assert sequence == run;
      var cut := sequence[..if |run| + length > 0 then |run| + length else 0];
      r := Ok(cut);
    }
  }

  lemma {:induction false} MulAtLeast(a: int, n: int)
    requires a >= 1 && n > 0
    ensures a * n >= n
    decreases a
  {
    if a > 1 {
      MulAtLeast(a - 1, n);
      assert a * n == (a - 1) * n + n;
    }
  }

  /** Euclidean division is unique: `x == q * n + r` with `0 <= r < n` fixes quotient and remainder. */
  lemma DivModUnique(x: int, n: int, q: int, r: int)
    requires n > 0 && 0 <= r < n && x == q * n + r
    ensures x / n == q && x % n == r
  {
    var q' := x / n;
    var r' := x % n;
    assert x == q' * n + r';
    assert (q' - q) * n == r - r' by {
      assert (q' - q) * n == q' * n - q * n;
    }
    if q' > q {
      MulAtLeast(q' - q, n);
    } else if q' < q {
      MulAtLeast(q - q', n);
    }
  }

  /** A snapshot of the inputs a configuration was made for. */
  datatype Snapshot = Snapshot(voltages: seq<real>, compliance: real, totalRuns: int)

  /** The counters `sweep_state` keeps about progress and the active segment. */
  datatype Progress = Progress(currentIndex: int, totalPoints: int, pending: int, segmentPoints: int,
                               segmentStart: int, running: bool, timerStarted: bool)

  /** Every point is accounted for: done before the active segment, in it, or still pending. */
  predicate Conserved(c: Progress)
  {
    c.segmentStart + c.segmentPoints + c.pending == c.totalPoints
  }

  /** The size of the next segment: what is left of the current run, or what is pending. */
  function SegmentSize(currentIndex: int, perRun: int, pending: int): (size: int)
    requires perRun > 0
    ensures size <= pending && currentIndex % perRun + size <= perRun
    ensures pending > 0 ==> size > 0
  {
    var offset := currentIndex % perRun;
    if perRun - offset < pending then perRun - offset else pending
  }

  /** A segment is non-empty, never larger than what is pending, and stays inside one run. */
  lemma SegmentInsideRun(currentIndex: int, perRun: int, pending: int)
    requires perRun > 0 && pending > 0
    ensures var size := SegmentSize(currentIndex, perRun, pending);
      0 < size <= pending && currentIndex % perRun + size <= perRun &&
      forall j :: currentIndex <= j < currentIndex + size ==> j / perRun == currentIndex / perRun
  {
    var size := SegmentSize(currentIndex, perRun, pending);
    forall j | currentIndex <= j < currentIndex + size
      ensures j / perRun == currentIndex / perRun
    {
      var q := currentIndex / perRun;
      assert currentIndex == q * perRun + currentIndex % perRun;
      assert (q + 1) * perRun == q * perRun + perRun;
      DivModUnique(j, perRun, q, j - q * perRun);
    }
  }

  /** A segment smaller than what is pending ends exactly on a run boundary. */
  lemma SegmentEndsAtBoundary(currentIndex: int, perRun: int, pending: int)
    requires perRun > 0 && SegmentSize(currentIndex, perRun, pending) < pending
    ensures (currentIndex + SegmentSize(currentIndex, perRun, pending)) % perRun == 0
  {
    var q := currentIndex / perRun;
    assert currentIndex == q * perRun + currentIndex % perRun;
    assert (q + 1) * perRun == q * perRun + perRun;
    DivModUnique((q + 1) * perRun, perRun, q + 1, 0);
  }

  /** The counters after `launch_next_segment` starts a segment. */
  function Launched(c: Progress, perRun: int): Progress
    requires perRun > 0
  {
    var size := SegmentSize(c.currentIndex, perRun, c.pending);
    c.(segmentPoints := size, segmentStart := c.currentIndex, pending := c.pending - size,
       running := true, timerStarted := true)
  }

  /** Launching from the start of a segment keeps every point accounted for. */
  lemma LaunchConserves(c: Progress, perRun: int)
    requires perRun > 0 && Conserved(c) && c.segmentPoints == 0 && c.segmentStart == c.currentIndex
    ensures Conserved(Launched(c, perRun))
  {
  }

  /** The requeued count when a sweep is paused with `completed` points in the buffer. */
  function Requeued(c: Progress, completed: int): int
  {
    var done := if completed - c.segmentStart > 0 then completed - c.segmentStart else 0;
    c.pending + (if c.segmentPoints - done > 0 then c.segmentPoints - done else 0)
  }

  /** The counters after `stop_sweep` pauses at `completed`. */
  function Stopped(c: Progress, completed: int): Progress
  {
    c.(currentIndex := completed, pending := Requeued(c, completed), segmentPoints := 0,
       segmentStart := completed, running := false, timerStarted := false)
  }

  /** Pausing never loses pending points, and when the buffer count lies inside the active
      segment it returns exactly the unfinished part, so every point stays accounted for. */
  lemma StopConserves(c: Progress, completed: int)
    ensures Stopped(c, completed).pending >= c.pending
    ensures Stopped(c, completed).segmentPoints == 0 && !Stopped(c, completed).running
    ensures Conserved(c) && c.segmentStart <= completed <= c.segmentStart + c.segmentPoints ==>
              Conserved(Stopped(c, completed))
  {
  }

  /** The counters `start_sweep` sets before launching: everything not yet done is pending. */
  function Resumed(c: Progress): Progress
  {
    c.(pending := c.totalPoints - c.currentIndex, segmentPoints := 0, segmentStart := c.currentIndex,
       timerStarted := false)
  }

  /** Resuming, pausing and launching again keeps the books: the pending count plus the buffer
      count is the total. */
  lemma ResumeStopResume(c: Progress, perRun: int, completed: int)
    requires perRun > 0 && Resumed(c).pending > 0
    requires var l := Launched(Resumed(c), perRun); l.segmentStart <= completed <= l.segmentStart + l.segmentPoints
    ensures var s := Stopped(Launched(Resumed(c), perRun), completed);
      Conserved(s) && s.pending + completed == c.totalPoints
  {
    LaunchConserves(Resumed(c), perRun);
    StopConserves(Launched(Resumed(c), perRun), completed);
  }

  /** `parse_formatted_current`: µA, mA and A suffixes, in that order. */
  function ParseFormattedCurrent(value: string): Option<real>
  {
    if Contains(value, "µA") then Scaled(ParseReal(Replace(value, " µA", "")), 0.000001)
    else if Contains(value, "mA") then Scaled(ParseReal(Replace(value, " mA", "")), 0.001)
    else if Contains(value, "A") then ParseReal(Replace(value, " A", ""))
    else ParseReal(value)
  }

  function Scaled(x: Option<real>, factor: real): Option<real>
  {
    if x.Some? then Some(x.value * factor) else None
  }

  /** Replacing a pattern that first appears at the very end. */
  lemma {:induction false} ReplaceAtEnd(a: string, p: string, q: string)
    requires |p| > 0 && p[0] !in a
    ensures Replace(a + p, p, q) == a + q
    decreases |a|
  {
    var s := a + p;
    if a == [] {
      assert s == p && s[..|p|] == p && s[|p|..] == [];
      assert Replace(s, p, q) == q + Replace([], p, q);
    } else {
      assert s[0] == a[0] && a[0] != p[0];
      assert s[..|p|] != p by {
        assert s[..|p|][0] == s[0];
      }
      assert s[1..] == a[1..] + p;
      assert Replace(s, p, q) == [a[0]] + Replace(a[1..] + p, p, q);
      assert p[0] !in a[1..];
      ReplaceAtEnd(a[1..], p, q);
      assert [a[0]] + (a[1..] + q) == a + q;
    }
  }

  lemma {:induction false} AbsentNotContained(s: string, p: string)
    requires |p| > 0 && p[0] !in s
    ensures !Contains(s, p)
    decreases |s|
  {
    if s != [] {
      assert s[0] != p[0];
      AbsentNotContained(s[1..], p);
    }
  }

  /** `str(n)` holds none of the characters the unit suffixes are made of. */
  lemma IntTextNoUnitChars(n: int)
    ensures ' ' !in IntText(n) && 'µ' !in IntText(n) && 'm' !in IntText(n) && 'A' !in IntText(n)
  {
    IntTextChars(n);
  }

  /** A whole number of microamps reads back as its value in amps. */
  lemma MicroampsRoundTrip(n: int)
    ensures ParseFormattedCurrent(IntText(n) + " µA") == Some(n as real * 0.000001)
  {
    var v := IntText(n) + " µA";
    UnitFound(n, " µA");
    assert " µA"[1..] == "µA";
    FormattedMicro(v);
    UnitScaled(n, " µA", 0.000001);
  }

  /** Once the parser has picked the unit's branch, the number and its factor come back. */
  lemma UnitScaled(n: int, unit: string, factor: real)
    requires |unit| >= 2 && unit[0] == ' '
    requires ParseFormattedCurrent(IntText(n) + unit) == Scaled(ParseReal(Replace(IntText(n) + unit, unit, "")), factor)
    ensures ParseFormattedCurrent(IntText(n) + unit) == Scaled(Some(n as real), factor)
  {
    UnitStripped(n, unit);
    IntTextValue(n);
  }

  lemma FormattedMicro(v: string)
    requires Contains(v, "µA")
    ensures ParseFormattedCurrent(v) == Scaled(ParseReal(Replace(v, " µA", "")), 0.000001)
  {
  }

  lemma FormattedMilli(v: string)
    requires !Contains(v, "µA") && Contains(v, "mA")
    ensures ParseFormattedCurrent(v) == Scaled(ParseReal(Replace(v, " mA", "")), 0.001)
  {
  }

  /** A whole number of milliamps reads back as its value in amps. */
  lemma MilliampsRoundTrip(n: int)
    ensures ParseFormattedCurrent(IntText(n) + " mA") == Some(n as real * 0.001)
  {
    var v := IntText(n) + " mA";
    MilliNoMicro(n);
    UnitFound(n, " mA");
    assert " mA"[1..] == "mA";
    FormattedMilli(v);
    UnitScaled(n, " mA", 0.001);
  }

  lemma MilliNoMicro(n: int)
    ensures !Contains(IntText(n) + " mA", "µA")
  {
    var t := IntText(n);
    IntTextNoUnitChars(n);
    assert 'µ' !in " mA";
    assert 'µ' !in t + " mA";
    AbsentNotContained(t + " mA", "µA");
  }

  /** A whole number of amps reads back as itself. */
  lemma AmpsRoundTrip(n: int)
    ensures ParseFormattedCurrent(IntText(n) + " A") == Some(n as real)
  {
    IntTextNoUnitChars(n);
    AbsentNotContained(IntText(n) + " A", "µA");
    AbsentNotContained(IntText(n) + " A", "mA");
    UnitFound(n, " A");
    UnitStripped(n, " A");
    IntTextValue(n);
  }

  /** The unit after the blank is found in the formatted text. */
  lemma UnitFound(n: int, unit: string)
    requires |unit| >= 2 && unit[0] == ' '
    ensures Contains(IntText(n) + unit, unit[1..])
  {
    var t := IntText(n);
    var s := t + unit;
    assert s[|t| + 1..] == unit[1..];
    ContainsAt(s, unit[1..], |t| + 1);
  }

  /** Removing the blank and unit leaves the number's text. */
  lemma UnitStripped(n: int, unit: string)
    requires |unit| >= 2 && unit[0] == ' '
    ensures Replace(IntText(n) + unit, unit, "") == IntText(n)
  {
    IntTextNoUnitChars(n);
    ReplaceAtEnd(IntText(n), unit, "");
    assert IntText(n) + "" == IntText(n);
  }

  lemma {:induction false} ContainsAt(s: string, p: string, k: nat)
    requires k <= |s| && StartsWith(s[k..], p)
    ensures Contains(s, p)
    decreases k
  {
    if k > 0 {
      assert s[1..][k - 1..] == s[k..];
      ContainsAt(s[1..], p, k - 1);
    }
  }

  // ------------------------------------------------------------ the sweep state

  const SweepNoPoints := "Voltage sweep has no points."
  const NoConfiguredPoints := "Sweep has no configured points."
  const NotConnected := "Instrument is not connected."
  const WriteFailed := "VISA write failed"
  const BufferCount := Cmd("print(smua.nvbuffer1.n)")

  /** The sweep definition part of `sweep_state`: what `configure_trigger_model` installs. */
  datatype Definition = Definition(configured: bool, singleRun: seq<real>, pointsPerRun: int, totalRuns: int,
                                   compliance: Option<real>, snapshot: Option<Snapshot>)

  const Unconfigured := Definition(false, [], 0, 0, None, None)

  /** One pass of the `fetch_new_measurements` loop: query reading `idx` and parse it. A failure
      ends the fetch where `FetchFrom` ends it; a number is what `FetchFrom` keeps before moving on. */
  method ReadCurrent(inst: Instrument, idx: int, ghost values: seq<real>, ghost target: int)
    returns (v: real, failure: Option<string>)
    requires idx <= target
    modifies inst
    ensures var q := old(Lines(inst));
      inst.written == old(inst.written) + QuerySent(q, ReadingQuery(idx)) && Lines(inst) == AfterQuery(q) &&
      (failure.Some? ==>
         FetchFrom(q, values, idx, target) == Fetched(values, failure, QuerySent(q, ReadingQuery(idx)), AfterQuery(q))) &&
      (failure.None? ==>
         QuerySent(q, ReadingQuery(idx)) == [ReadingQuery(idx)] &&
         FetchFrom(q, values, idx, target) ==
         Prefix([ReadingQuery(idx)], FetchFrom(AfterQuery(q), values + [v], idx + 1, target)))
  {
    ghost var q := Lines(inst);
    var reply := inst.Query(ReadingQuery(idx));
    if !reply.Line? {
      FetchStepFails(q, values, idx, target);
      return 0.0, Some(ReadFailed);
    }
    var text := Strip(reply.text);
    var parsed := ParseReal(text);
    if parsed.None? {
      FetchStepInvalid(q, values, idx, target);
      return 0.0, Some("Invalid current value at index " + IntText(idx) + ": " + text);
    }
    FetchStepReads(q, values, idx, target, parsed.value);
    return parsed.value, None;
  }

  /** The `fetch_new_measurements` loop: read every index after the ones already held, up to
      `target`, stopping at the first failure. */
  method FetchCurrents(inst: Instrument, held: seq<real>, target: int) returns (values: seq<real>, failure: Option<string>)
    modifies inst
    ensures var f := FetchFrom(old(Lines(inst)), held, |held| + 1, target);
      failure == f.failure && values == f.values && inst.written == old(inst.written) + f.sent && Lines(inst) == f.rest
  {
    ghost var goal := FetchFrom(Lines(inst), held, |held| + 1, target);
    ghost var sent: seq<Command> := [];
    values := held;
    failure := None;
    var idx := |held| + 1;
    while idx <= target && failure.None?
      invariant inst.written == old(inst.written) + sent
      invariant failure.None? ==> Prefix(sent, FetchFrom(Lines(inst), values, idx, target)) == goal
      invariant failure.Some? ==> goal == Fetched(values, failure, sent, Lines(inst))
      decreases target - idx, if failure.None? then 1 else 0
    {
      ghost var q := Lines(inst);
      var v, fail := ReadCurrent(inst, idx, values, target);
      SentAssoc(old(inst.written), sent, QuerySent(q, ReadingQuery(idx)));
      PrefixPrefix(sent, QuerySent(q, ReadingQuery(idx)), FetchFrom(AfterQuery(q), values + [v], idx + 1, target));
      sent := sent + QuerySent(q, ReadingQuery(idx));
      if fail.Some? {
        failure := fail;
      } else {
        values := values + [v];
        idx := idx + 1;
      }
    }
    if failure.None? {
      FetchStepDone(Lines(inst), values, idx, target);
    }
  }

  /** The global `sweep_state` dictionary: the sweep definition and the progress counters. */
  class SweepState {
    var def: Definition
    var counters: Progress
    /** `measurement_values`: the numeric readings fetched so far. */
    var values: seq<real>

    /** The run length is the single-run list's length, and the total covers every run. */
    predicate Valid()
      reads this
    {
      def.pointsPerRun == |def.singleRun| && counters.totalPoints == def.pointsPerRun * def.totalRuns
    }

    /** `reset_sweep_state`. */
    constructor ()
      ensures Valid() && def == Unconfigured && counters == Progress(0, 0, 0, 0, 0, false, false) && values == []
    {
      def := Unconfigured;
      counters := Progress(0, 0, 0, 0, 0, false, false);
      values := [];
    }

    /** `compute_voltage_for_index`. */
    function VoltageFor(index: int): (v: real)
      reads this
      requires Valid()
      ensures def.singleRun == [] ==> v == 0.0
      ensures def.singleRun != [] ==> v == def.singleRun[index % |def.singleRun|]
    {
      if def.singleRun == [] || def.pointsPerRun == 0 then 0.0 else def.singleRun[index % def.pointsPerRun]
    }

    /** `generate_voltage_series`; `dynamic` is what recomputing the single run gives. */
    function VoltageSeries(count: int, dynamic: Result<seq<real>>): (r: seq<real>)
      reads this
      requires Valid()
      ensures |r| == if count <= 0 then 0 else count
    {
      if count <= 0 then []
      else if def.singleRun != [] && def.pointsPerRun != 0 then Cycled(def.singleRun, count)
      else if dynamic.Err? || dynamic.value == [] then seq(count, _ => 0.0)
      else Cycled(dynamic.value, count)
    }

    /** With a run configured, the series is the programmed voltage of every index. */
    lemma SeriesFollowsIndex(count: int, dynamic: Result<seq<real>>)
      requires Valid() && def.singleRun != []
      ensures forall i :: 0 <= i < count ==> VoltageSeries(count, dynamic)[i] == VoltageFor(i)
    {
    }

    /** Without one, the series is the recomputed run repeated, or zeros when that fails. */
    lemma SeriesWithoutRun(count: int, dynamic: Result<seq<real>>)
      requires Valid() && def.singleRun == [] && count > 0
      ensures dynamic.Ok? && dynamic.value != [] ==> VoltageSeries(count, dynamic) == Cycled(dynamic.value, count)
      ensures dynamic.Err? || dynamic.value == [] ==> forall i :: 0 <= i < count ==> VoltageSeries(count, dynamic)[i] == 0.0
    {
    }

    /** `configure_trigger_model`. */
    method ConfigureTriggerModel(inst: Instrument?, single: seq<real>, limit: real, runs: int, snap: Snapshot)
      returns (r: Result<bool>)
      modifies this, inst
      ensures inst == null ==> r == Err(NotConnected) && unchanged(this)
      ensures inst != null && single == [] ==> r == Err(SweepNoPoints) && unchanged(this) && unchanged(inst)
      ensures inst != null && single != [] ==>
                var cmds := ConfigureCommands(limit);
                (r.Ok? <==> Sent(old(inst.faults), cmds) == |cmds|) &&
                inst.written == old(inst.written) + cmds[..Sent(old(inst.faults), cmds)] &&
                (r.Err? ==> unchanged(this))
      ensures r.Ok? ==>
                Valid() && def == Definition(true, single, |single|, runs, Some(limit), Some(snap)) &&
                counters == Progress(0, |single| * runs, 0, 0, 0, false, false) && values == []
    {
      if inst == null {
        return Err(NotConnected);
      }
      if single == [] {
        return Err(SweepNoPoints);
      }
      var ok := WriteAll(inst, ConfigureCommands(limit));
      if !ok {
        return Err(WriteFailed);
      }
      def := Definition(true, single, |single|, runs, Some(limit), Some(snap));
      counters := Progress(0, |single| * runs, 0, 0, 0, false, false);
      values := [];
      r := Ok(true);
    }

    /** `launch_next_segment`. */
    method LaunchNextSegment(inst: Instrument?) returns (r: Result<bool>)
      requires Valid()
      modifies this, inst
      ensures Valid() && def == old(def) && values == old(values)
      ensures inst == null ==> r == Ok(false) && counters == old(counters)
      ensures inst != null && def.pointsPerRun <= 0 ==> r == Err(NoConfiguredPoints) && counters == old(counters)
      ensures inst != null && def.pointsPerRun > 0 && old(counters.pending) <= 0 ==>
                r == Ok(false) && counters == old(counters)
      ensures r == Ok(true) ==>
                def.pointsPerRun > 0 && counters == Launched(old(counters), def.pointsPerRun) &&
                inst.written == old(inst.written) + LaunchCommands(old(counters), def.singleRun, !old(counters.timerStarted))
      ensures r.Err? && r.msg == WriteFailed ==>
                inst != null && def.pointsPerRun > 0 && old(counters.pending) > 0 &&
                counters == old(counters).(timerStarted := counters.timerStarted) &&
                (old(counters.timerStarted) ==> counters.timerStarted)
      ensures r.Err? && r.msg == WriteFailed ==>
                inst != null &&
                var cs := LaunchCommands(old(counters), def.singleRun, !old(counters.timerStarted));
                BusOf(inst) == Put(old(BusOf(inst)), cs) && !Clean(old(inst.faults), cs) &&
                counters.timerStarted == (old(counters.timerStarted) ||
                  Clean(old(inst.faults), SegmentCommands(old(counters), def.singleRun) + [TimerReset]))
      ensures r.Ok? || r.msg == WriteFailed || r.msg == NoConfiguredPoints
    {
      if inst == null {
        return Ok(false);
      }
      var perRun := def.pointsPerRun;
      if perRun <= 0 {
        return Err(NoConfiguredPoints);
      }
      var c := counters;
      if c.pending <= 0 {
        return Ok(false);
      }
      var ok, timerSent := SendSegment(inst, SegmentCommands(c, def.singleRun), !c.timerStarted);
      if timerSent {
        counters := counters.(timerStarted := true);
      }
      if !ok {
        return Err(WriteFailed);
      }
      counters := Launched(c, perRun);
      r := Ok(true);
    }

    /** `update_progress_from_buffer`: the count query, `fetch_new_measurements` up to the
        count, then the index becomes the count capped at the total (ProgressTrace). */
    method UpdateProgressFromBuffer(inst: Instrument) returns (r: Result<int>)
      modifies this, inst
      ensures def == old(def)
      ensures var p := ProgressTrace(old(Lines(inst)), old(values), old(counters.totalPoints));
        r == p.result && values == p.values && inst.written == old(inst.written) + p.sent && Lines(inst) == p.rest
      ensures counters == if r.Ok? then old(counters).(currentIndex := r.value) else old(counters)
    {
      ghost var q := Lines(inst);
      var reply := inst.Query(BufferCount);
      if !reply.Line? {
        return Err(ReadFailed);
      }
      var text := Strip(reply.text);
      var count := ParseTruncatedInt(text);
      if count.None? {
        return Err("Unexpected buffer count: " + text);
      }
      ghost var w := inst.written;
      var failure := FetchNewMeasurements(inst, count.value);
      SentAssoc(old(inst.written), [BufferCount], FetchFrom(AfterQuery(q), old(values), |old(values)| + 1, count.value).sent);
      if failure.Some? {
        return Err(failure.value);
      }
      var index := if count.value < counters.totalPoints then count.value else counters.totalPoints;
      counters := counters.(currentIndex := index);
      r := Ok(index);
    }

    /** `fetch_new_measurements(target)`: one readings query per index from one past the
        stored readings up to `target` (FetchFrom). */
    method FetchNewMeasurements(inst: Instrument, target: int) returns (failure: Option<string>)
      modifies this, inst
      ensures def == old(def) && counters == old(counters)
      ensures var f := FetchFrom(old(Lines(inst)), old(values), |old(values)| + 1, target);
        failure == f.failure && values == f.values && inst.written == old(inst.written) + f.sent && Lines(inst) == f.rest
    {
      var vs;
      vs, failure := FetchCurrents(inst, values, target);
      values := vs;
    }

    /** The abort write of `stop_sweep` and the progress poll after it (AbortTrace). */
    method AbortAndPoll(inst: Instrument) returns (r: Result<int>)
      modifies this, inst
      ensures def == old(def)
      ensures var p := AbortTrace(old(Lines(inst)), old(values), old(counters.totalPoints));
        r == p.result && values == p.values && inst.written == old(inst.written) + p.sent && Lines(inst) == p.rest
      ensures counters == if r.Ok? then old(counters).(currentIndex := r.value) else old(counters)
    {
      ghost var q := Lines(inst);
      var _ := inst.Write(Abort);
      ghost var w := inst.written;
      assert w == old(inst.written) + WriteSent(q, Abort);
      assert Lines(inst) == AfterWrite(q);
      ghost var p := ProgressTrace(AfterWrite(q), old(values), counters.totalPoints);
      r := UpdateProgressFromBuffer(inst);
      assert inst.written == w + p.sent;
      SentAssoc(old(inst.written), WriteSent(q, Abort), p.sent);
    }

    /** `stop_sweep`: abort, read how far the buffer got, and put the unfinished part of the
        active segment back into the pending count. */
    method StopSweep(inst: Instrument?) returns (r: StopOutcome)
      requires Valid()
      modifies this, inst
      ensures Valid() && def == old(def)
      ensures inst == null || !old(def.configured) ==> r == NothingToStop && unchanged(this)
      ensures inst != null && old(def.configured) && !old(counters.running) ==> r == AlreadyPaused && unchanged(this)
      ensures r.Paused? ==>
                inst != null && old(def.configured) && old(counters.running) &&
                var p := AbortTrace(old(Lines(inst)), old(values), old(counters.totalPoints));
                r.completed == (if p.result.Ok? then p.result.value else old(counters.currentIndex)) &&
                counters == Stopped(old(counters), r.completed) && values == p.values &&
                inst.written == old(inst.written) + p.sent && Lines(inst) == p.rest
      ensures r.Paused? && r.completed != old(counters.currentIndex) ==> r.completed <= counters.totalPoints
    {
      if inst == null || !def.configured {
        return NothingToStop;
      }
      if !counters.running {
        return AlreadyPaused;
      }
      var before := counters;
      var progress := AbortAndPoll(inst);
      var completed := if progress.Ok? then progress.value else before.currentIndex;
      counters := Stopped(before, completed);
      r := Paused(completed);
    }
  }


  /** The instrument's fault and reply queues. */
  function Lines(inst: Instrument): Queues
    reads inst
  {
    Queues(inst.faults, inst.pending, [])
  }

  /** The query `fetch_new_measurements` sends for reading `idx` (counted from 1). */
  function ReadingQuery(idx: int): Command
  {
    Cmd("print(smua.nvbuffer1.readings[" + IntText(idx) + "])")
  }

  /** What `fetch_new_measurements` leaves: the stored readings, the error it raised if any,
      the commands it logged and the queues after it. */
  datatype Fetched = Fetched(values: seq<real>, failure: Option<string>, sent: seq<Command>, rest: Queues)

  function Prefix(sent: seq<Command>, f: Fetched): Fetched
  {
    Fetched(f.values, f.failure, sent + f.sent, f.rest)
  }

  /** The fetch loop from reading `idx` to `target`: each reply is stripped, read as a float and
      stored; a failed query or a reply that is not a number stops the loop with an error and
      keeps what was stored before it. */
  function FetchFrom(q: Queues, values: seq<real>, idx: int, target: int): Fetched
    decreases target - idx
  {
    if idx > target then Fetched(values, None, [], q)
    else
      var reply := Answer(q);
      var sent := QuerySent(q, ReadingQuery(idx));
      if !reply.Line? then Fetched(values, Some(ReadFailed), sent, AfterQuery(q))
      else
        var text := Strip(reply.text);
        match ParseReal(text)
        case None => Fetched(values, Some("Invalid current value at index " + IntText(idx) + ": " + text), sent, AfterQuery(q))
        case Some(v) => Prefix(sent, FetchFrom(AfterQuery(q), values + [v], idx + 1, target))
  }
  /** Past the target nothing more is read. */
  lemma FetchStepDone(q: Queues, values: seq<real>, idx: int, target: int)
    requires idx > target
    ensures FetchFrom(q, values, idx, target) == Fetched(values, None, [], q)
  {
  }

  /** A failed read ends the fetch after the one query. */
  lemma FetchStepFails(q: Queues, values: seq<real>, idx: int, target: int)
    requires idx <= target && !Answer(q).Line?
    ensures FetchFrom(q, values, idx, target) == Fetched(values, Some(ReadFailed), QuerySent(q, ReadingQuery(idx)), AfterQuery(q))
  {
  }

  /** A reading that is not a number ends the fetch with its message. */
  lemma FetchStepInvalid(q: Queues, values: seq<real>, idx: int, target: int)
    requires idx <= target && Answer(q).Line? && ParseReal(Strip(Answer(q).text)).None?
    ensures FetchFrom(q, values, idx, target) ==
            Fetched(values, Some("Invalid current value at index " + IntText(idx) + ": " + Strip(Answer(q).text)),
                    QuerySent(q, ReadingQuery(idx)), AfterQuery(q))
  {
  }

  /** A numeric reading is kept and the fetch moves on to the next index. */
  lemma FetchStepReads(q: Queues, values: seq<real>, idx: int, target: int, v: real)
    requires idx <= target && Answer(q).Line? && ParseReal(Strip(Answer(q).text)) == Some(v)
    ensures FetchFrom(q, values, idx, target) ==
            Prefix(QuerySent(q, ReadingQuery(idx)), FetchFrom(AfterQuery(q), values + [v], idx + 1, target))
  {
  }

  lemma PrefixPrefix(a: seq<Command>, b: seq<Command>, f: Fetched)
    ensures Prefix(a, Prefix(b, f)) == Prefix(a + b, f)
  {
    SentAssoc(a, b, f.sent);
  }


  /** The fetch only appends: what was stored stays. */
  lemma {:induction false} FetchFromKeeps(q: Queues, values: seq<real>, idx: int, target: int)
    ensures values <= FetchFrom(q, values, idx, target).values
    decreases target - idx
  {
    if idx <= target && Answer(q).Line? {
      match ParseReal(Strip(Answer(q).text))
      case None =>
      case Some(v) =>
        FetchFromKeeps(AfterQuery(q), values + [v], idx + 1, target);
    }
  }

  /** A fetch without error stores one reading per index. */
  lemma {:induction false} FetchFromCount(q: Queues, values: seq<real>, idx: int, target: int)
    ensures var f := FetchFrom(q, values, idx, target);
      f.failure.None? ==> |f.values| == |values| + (if idx <= target then target - idx + 1 else 0)
    decreases target - idx
  {
    if idx <= target && Answer(q).Line? {
      match ParseReal(Strip(Answer(q).text))
      case None =>
      case Some(v) =>
        FetchFromCount(AfterQuery(q), values + [v], idx + 1, target);
    }
  }

  /** What `update_progress_from_buffer` leaves: its result, the stored readings, the commands
      it logged and the queues after it. */
  datatype Progressed = Progressed(result: Result<int>, values: seq<real>, sent: seq<Command>, rest: Queues)

  /** `update_progress_from_buffer`: `int(float(...))` of the count reply, then the fetch up to
      that count; the result is the count capped at the total, or the error of either step. */
  function ProgressTrace(q: Queues, values: seq<real>, total: int): (p: Progressed)
    ensures p.result.Ok? ==> p.result.value <= total
  {
    var reply := Answer(q);
    var sent := QuerySent(q, BufferCount);
    if !reply.Line? then Progressed(Err(ReadFailed), values, sent, AfterQuery(q))
    else
      var text := Strip(reply.text);
      match ParseTruncatedInt(text)
      case None => Progressed(Err("Unexpected buffer count: " + text), values, sent, AfterQuery(q))
      case Some(count) =>
        var f := FetchFrom(AfterQuery(q), values, |values| + 1, count);
        var r := if f.failure.Some? then Err(f.failure.value) else Ok(if count < total then count else total);
        Progressed(r, f.values, sent + f.sent, f.rest)
  }

  /** A count no larger than the stored readings fetches nothing: one query, and the index is
      the count capped at the total. */
  lemma ProgressNothingNew(q: Queues, values: seq<real>, total: int, n: int)
    requires !FirstSet(q.faults) && NextRead(q.pending) == Line(IntText(n)) && n <= |values|
    ensures var p := ProgressTrace(q, values, total);
      p.result == Ok(if n < total then n else total) && p.values == values && p.sent == [BufferCount]
  {
    CountTextParses(n);
  }

  /** A reading that is not a number raises before the index moves: the count query and one
      readings query are logged, nothing is stored, and the error names the index. */
  lemma ProgressBadReading(q: Queues, values: seq<real>, total: int, n: int, t: string)
    requires !FirstSet(q.faults) && NextRead(q.pending) == Line(IntText(n)) && n > |values|
    requires !FirstSet(AfterQuery(q).faults) && NextRead(AfterQuery(q).pending) == Line(t)
    requires ParseReal(Strip(t)).None?
    ensures var p := ProgressTrace(q, values, total);
      p.result == Err("Invalid current value at index " + IntText(|values| + 1) + ": " + Strip(t)) &&
      p.values == values && p.sent == [BufferCount, ReadingQuery(|values| + 1)]
  {
    CountTextParses(n);
  }

  /** The queues after one `write`. */
  function AfterWrite(q: Queues): Queues
  {
    Queues(DropFirst(q.faults), q.pending, q.polls)
  }

  /** The command one `write` of `c` logs. */
  function WriteSent(q: Queues, c: Command): seq<Command>
  {
    if FirstSet(q.faults) then [] else [c]
  }

  /** The instrument side of `stop_sweep`: the `smua.abort()` write (its failure is only
      reported), then ProgressTrace. */
  function AbortTrace(q: Queues, values: seq<real>, total: int): Progressed
  {
    var p := ProgressTrace(AfterWrite(q), values, total);
    Progressed(p.result, p.values, WriteSent(q, Abort) + p.sent, p.rest)
  }

  const ReadFailed := "VISA read failed"

  /** The writes of one launch, stopping at the first that raises: the segment's list and
      trigger set-up, `timer.reset()` when asked for, then output on and initiate. */
  method SendSegment(inst: Instrument, arm: seq<Command>, resetTimer: bool) returns (ok: bool, timerSent: bool)
    modifies inst
    ensures var cs := arm + (if resetTimer then [TimerReset] else []) + StartCommands;
      BusOf(inst) == Put(old(BusOf(inst)), cs) && ok == Clean(old(inst.faults), cs)
    ensures timerSent == (resetTimer && Clean(old(inst.faults), arm + [TimerReset]))
    ensures inst.pending == old(inst.pending) && inst.timeout == old(inst.timeout)
    ensures inst.readTimeouts == old(inst.readTimeouts)
  {
    ghost var b0 := BusOf(inst);
    ghost var t: seq<Command> := if resetTimer then [TimerReset] else [];
    ghost var cs := arm + t + StartCommands;
    assert cs == arm + (t + StartCommands);
    ok := Send(inst, arm);
    timerSent := false;
    if !ok {
      PutStops(b0, arm, t + StartCommands);
      if resetTimer {
        PutStops(b0, arm, [TimerReset]);
      }
      return;
    }
    PutThen(b0, arm, t + StartCommands);
    if resetTimer {
      ghost var b1 := BusOf(inst);
      ok := Send(inst, [TimerReset]);
      PutThen(b0, arm, [TimerReset]);
      if !ok {
        PutStops(b1, [TimerReset], StartCommands);
        assert t + StartCommands == [TimerReset] + StartCommands;
        return;
      }
      PutThen(b1, [TimerReset], StartCommands);
      assert t + StartCommands == [TimerReset] + StartCommands;
      timerSent := true;
    }
    if !resetTimer {
      assert t + StartCommands == StartCommands;
    }
    ok := Send(inst, StartCommands);
  }

  datatype StopOutcome = NothingToStop | AlreadyPaused | Paused(completed: int)

  const Abort := Cmd("smua.abort()")
  const TimerReset := Cmd("timer.reset()")

  /** The trigger-model set-up `configure_trigger_model` writes: the reset and buffer set-up,
      the compliance limit, and the trigger actions with the 0.05 s measurement delay. */
  function ConfigureCommands(limit: real): seq<Command>
  {
    ConfigureReset + [Command("smua.source.limiti", [Num(limit)])] + ConfigureTrigger
  }

  const ConfigureReset: seq<Command> :=
    [Abort, Cmd("smua.reset()"), Cmd("smua.nvbuffer1.clear()"), Cmd("smua.nvbuffer1.appendmode = 1"),
     Cmd("smua.source.func = smua.OUTPUT_DCVOLTS")]

  /** `MEASUREMENT_DELAY_SECONDS`. */
  const MeasurementDelay: real := 0.05

  const ConfigureTrigger: seq<Command> :=
    [Cmd("smua.source.output = smua.OUTPUT_OFF"), Cmd("smua.trigger.source.action = smua.ENABLE"),
     Cmd("smua.trigger.source.stimulus = 0"), Cmd("smua.trigger.measure.action = smua.ENABLE"),
     Cmd("smua.trigger.measure.stimulus = smua.trigger.SOURCE_COMPLETE_EVENT_ID"),
     Cmd("smua.trigger.measure.i(smua.nvbuffer1)"), Command("smua.measure.delay", [Num(MeasurementDelay)]),
     Cmd("smua.trigger.arm.count = 1"), Cmd("smua.trigger.count = 1")]

  function Nums(values: seq<real>): (r: seq<Arg>)
    ensures |r| == |values| && forall i :: 0 <= i < |values| ==> r[i] == Num(values[i])
  {
    seq(|values|, i requires 0 <= i < |values| => Num(values[i]))
  }

  /** The segment's source list and trigger count, and the trigger actions. */
  function ArmCommands(values: seq<real>, size: int): seq<Command>
  {
    [Command("smua.trigger.source.listv", Nums(values)), Command("smua.trigger.count", [Whole(size)]),
     Cmd("smua.trigger.arm.count = 1"), Cmd("smua.trigger.source.action = smua.ENABLE"),
     Cmd("smua.trigger.measure.action = smua.ENABLE"),
     Cmd("smua.trigger.measure.stimulus = smua.trigger.SOURCE_COMPLETE_EVENT_ID")]
  }

  const StartCommands: seq<Command> := [Cmd("smua.source.output = smua.OUTPUT_ON"), Cmd("smua.trigger.initiate()")]

  /** The segment's part of a launch: the run's slice from the current offset (Python's
      clamping slice) and the trigger set-up. */
  function SegmentCommands(c: Progress, single: seq<real>): seq<Command>
  {
    var perRun := |single|;
    if perRun == 0 then []
    else
      var offset := c.currentIndex % perRun;
      var size := SegmentSize(c.currentIndex, perRun, c.pending);
      ArmCommands(single[offset..if size > 0 then offset + size else offset], size)
  }

  /** Everything a launch writes: the segment's part, the timer reset on the first segment
      after a (re)start, and the output-on and initiate. */
  function LaunchCommands(c: Progress, single: seq<real>, resetTimer: bool): seq<Command>
  {
    SegmentCommands(c, single) + (if resetTimer then [TimerReset] else []) + StartCommands
  }

  /** The source list of a launched segment is the slice of the run it covers. */
  lemma LaunchListsSlice(c: Progress, single: seq<real>, resetTimer: bool)
    requires single != [] && c.pending > 0
    ensures var offset := c.currentIndex % |single|;
      var size := SegmentSize(c.currentIndex, |single|, c.pending);
      LaunchCommands(c, single, resetTimer)[0] == Command("smua.trigger.source.listv", Nums(single[offset..offset + size])) &&
      |single[offset..offset + size]| == size
  {
    SegmentInsideRun(c.currentIndex, |single|, c.pending);
  }
}
