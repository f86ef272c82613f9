/** The 2450 I-V sweep path planner: start, stop and step become a list of
    segments split at 0 V, each with a ladder of source levels, and the
    commanded path is the ladders laid end to end. */
module SweepPlanner {
  import opened Outcome
  import opened PyText

  /** One `IVMultiple_run(start, stop, step, ...)` call. */
  datatype Segment = Segment(start: real, stop: real, step: real)

  datatype Plan = Plan(segments: seq<Segment>, path: seq<real>)

  /** The closeness tolerance of one sweep, derived from the step magnitude. */
  function Epsilon(stepMag: real): (e: real)
    requires stepMag >= 0.0
    ensures e > 0.0
  {
    stepMag * 1e-9 + 1e-12
  }

  /** The level after `current`: one step on, clamped to `stop` once it overshoots by more than eps. */
  function NextLevel(current: real, stop: real, segStep: real, eps: real): (r: real)
    ensures segStep > 0.0 && eps >= 0.0 ==> r <= stop + eps
    ensures segStep < 0.0 && eps >= 0.0 ==> r >= stop - eps
    ensures r == stop || r == current + segStep
  {
    var n := current + segStep;
    if segStep > 0.0 && n > stop + eps then stop
    else if segStep <= 0.0 && n < stop - eps then stop
    else n
  }

  /** `next` is the clamped level after `prev` and visibly differs from it. */
  predicate Stepped(prev: real, next: real, stop: real, segStep: real, eps: real)
  {
    next == NextLevel(prev, stop, segStep, eps) && !IsClose(next, prev, eps)
  }

  predicate Chained(l: seq<real>, stop: real, segStep: real, eps: real)
  {
    forall i :: 0 <= i < |l| - 1 ==> Stepped(l[i], l[i + 1], stop, segStep, eps)
  }

  /** No level after the first is close to stop. */
  predicate AwayFromStop(l: seq<real>, stop: real, eps: real)
  {
    forall i :: 1 <= i < |l| ==> !IsClose(l[i], stop, eps)
  }

  /** Why a ladder ends: the next level would not move, or the last level reached stop. */
  predicate Finished(l: seq<real>, stop: real, segStep: real, eps: real)
    requires |l| >= 1
  {
    IsClose(NextLevel(l[|l| - 1], stop, segStep, eps), l[|l| - 1], eps) ||
    (|l| > 1 && IsClose(l[|l| - 1], stop, eps))
  }

  /** The ladder the level generator produces, described by what each element satisfies:
      it starts at `start`; a step close to zero gives the single level; otherwise each level
      is the clamped next one and differs visibly from its predecessor, no inner level is
      already close to `stop`, and the ladder ends either because the next level would not
      move or because the last level reached `stop`. */
  predicate IsLadder(l: seq<real>, start: real, stop: real, segStep: real, eps: real)
  {
    |l| >= 1 && l[0] == start &&
    (IsClose(segStep, 0.0, eps) ==> |l| == 1) &&
    (!IsClose(segStep, 0.0, eps) ==>
      Chained(l, stop, segStep, eps) && AwayFromStop(l[..|l| - 1], stop, eps) && Finished(l, stop, segStep, eps))
  }

  lemma ChainedAppend(l: seq<real>, x: real, stop: real, segStep: real, eps: real)
    requires |l| >= 1 && Chained(l, stop, segStep, eps) && Stepped(l[|l| - 1], x, stop, segStep, eps)
    ensures Chained(l + [x], stop, segStep, eps)
  {
    var m := l + [x];
    forall i | 0 <= i < |m| - 1
      ensures Stepped(m[i], m[i + 1], stop, segStep, eps)
    {
      if i < |l| - 1 {
        assert m[i] == l[i] && m[i + 1] == l[i + 1];
      }
    }
  }

  lemma AwayAppend(l: seq<real>, x: real, stop: real, eps: real)
    requires AwayFromStop(l, stop, eps) && (|l| >= 1 ==> !IsClose(x, stop, eps))
    ensures AwayFromStop(l + [x], stop, eps)
  {
    var m := l + [x];
    forall i | 1 <= i < |m|
      ensures !IsClose(m[i], stop, eps)
    {
      if i < |l| {
        assert m[i] == l[i];
      }
    }
  }

  lemma AwayPrefix(l: seq<real>, stop: real, eps: real)
    requires |l| >= 1 && AwayFromStop(l, stop, eps)
    ensures AwayFromStop(l[..|l| - 1], stop, eps)
  {
  }

  /** The step points from start to stop. */
  predicate Toward(start: real, stop: real, segStep: real)
  {
    (segStep > 0.0 && start <= stop) || (segStep < 0.0 && start >= stop)
  }

  /** How many more unclamped steps fit before passing stop by more than eps. */
  function StepsLeft(current: real, stop: real, segStep: real, eps: real): int
  {
    if segStep > 0.0 then ((stop + eps - current) / segStep).Floor
    else if segStep < 0.0 then ((stop - eps - current) / segStep).Floor
    else 0
  }

  lemma StepsLeftDecrease(current: real, stop: real, segStep: real, eps: real)
    requires segStep != 0.0 && eps >= 0.0
    requires segStep > 0.0 ==> current + segStep <= stop + eps
    requires segStep < 0.0 ==> current + segStep >= stop - eps
    ensures 0 <= StepsLeft(current + segStep, stop, segStep, eps) < StepsLeft(current, stop, segStep, eps)
  {
    var a := if segStep > 0.0 then stop + eps - current else stop - eps - current;
    assert segStep / segStep == 1.0;
    assert (a - segStep) / segStep == a / segStep - segStep / segStep;
    assert (a - segStep) / segStep >= 0.0 by {
      if segStep > 0.0 {
        assert a - segStep >= 0.0;
      } else {
        assert a - segStep <= 0.0;
      }
    }
  }

  /** `generate_segment_levels`: the level ladder of one segment. */
  method GenerateSegmentLevels(start: real, stop: real, segStep: real, eps: real) returns (levels: seq<real>)
    requires eps >= 0.0
    ensures IsLadder(levels, start, stop, segStep, eps)
  {
    levels := [start];
    if IsClose(segStep, 0.0, eps) {
      return;
    }
    var current := start;
    while true
      invariant |levels| >= 1 && levels[0] == start && current == levels[|levels| - 1]
      invariant Chained(levels, stop, segStep, eps)
      invariant AwayFromStop(levels, stop, eps)
      decreases StepsLeft(current, stop, segStep, eps)
    {
      var next := NextLevel(current, stop, segStep, eps);
      if IsClose(next, current, eps) {
        AwayPrefix(levels, stop, eps);
        break;
      }
      var previous := current;
      ChainedAppend(levels, next, stop, segStep, eps);
      ghost var before := levels;
      levels := levels + [next];
      current := next;
      if IsClose(current, stop, eps) {
        assert levels[..|levels| - 1] == before;
        break;
      }
      AwayAppend(before, next, stop, eps);
      IsCloseReflexive(stop, eps);
      StepsLeftDecrease(previous, stop, segStep, eps);
    }
  }

  // ------------------------------------------------------------ ladder facts

  lemma {:induction false} LadderPrefixAgree(a: seq<real>, b: seq<real>, start: real, stop: real, segStep: real, eps: real, i: nat)
    requires IsLadder(a, start, stop, segStep, eps) && IsLadder(b, start, stop, segStep, eps)
    requires i < |a| && i < |b|
    ensures a[i] == b[i]
    decreases i
  {
    if i > 0 {
      LadderPrefixAgree(a, b, start, stop, segStep, eps, i - 1);
      assert Stepped(a[i - 1], a[i], stop, segStep, eps);
      assert Stepped(b[i - 1], b[i], stop, segStep, eps);
    }
  }

  /** An inner element of a ladder: stepped from, and (after the first) not yet close to stop. */
  lemma LadderInner(l: seq<real>, start: real, stop: real, segStep: real, eps: real, i: nat)
    requires IsLadder(l, start, stop, segStep, eps) && i < |l| - 1
    ensures !IsClose(segStep, 0.0, eps)
    ensures Stepped(l[i], l[i + 1], stop, segStep, eps)
    ensures i >= 1 ==> !IsClose(l[i], stop, eps)
  {
    if i >= 1 {
      assert l[..|l| - 1][i] == l[i];
    }
  }

  /** The ladder is determined by its segment: the generator's contract pins down one result. */
  lemma LadderUnique(a: seq<real>, b: seq<real>, start: real, stop: real, segStep: real, eps: real)
    requires IsLadder(a, start, stop, segStep, eps) && IsLadder(b, start, stop, segStep, eps)
    ensures a == b
  {
    if |a| < |b| {
      LadderPrefixAgree(a, b, start, stop, segStep, eps, |a| - 1);
      LadderInner(b, start, stop, segStep, eps, |a| - 1);
      assert false;
    } else if |b| < |a| {
      LadderPrefixAgree(b, a, start, stop, segStep, eps, |b| - 1);
      LadderInner(a, start, stop, segStep, eps, |b| - 1);
      assert false;
    } else {
      forall i | 0 <= i < |a|
        ensures a[i] == b[i]
      {
        LadderPrefixAgree(a, b, start, stop, segStep, eps, i);
      }
    }
  }

  /** With the step pointing at stop, no level passes stop by more than eps. */
  lemma LadderWithinStop(l: seq<real>, start: real, stop: real, segStep: real, eps: real)
    requires IsLadder(l, start, stop, segStep, eps) && Toward(start, stop, segStep) && eps >= 0.0
    ensures forall i :: 0 <= i < |l| ==>
      (segStep > 0.0 ==> l[i] <= stop + eps) && (segStep < 0.0 ==> l[i] >= stop - eps)
  {
    forall i | 1 <= i < |l|
      ensures (segStep > 0.0 ==> l[i] <= stop + eps) && (segStep < 0.0 ==> l[i] >= stop - eps)
    {
      assert Stepped(l[i - 1], l[i], stop, segStep, eps);
    }
  }

  /** With the step pointing at stop, the ladder moves strictly in the step direction. */
  lemma LadderMonotone(l: seq<real>, start: real, stop: real, segStep: real, eps: real)
    requires IsLadder(l, start, stop, segStep, eps) && Toward(start, stop, segStep) && eps >= 0.0
    ensures forall i :: 0 <= i < |l| - 1 ==>
      (segStep > 0.0 ==> l[i] < l[i + 1]) && (segStep < 0.0 ==> l[i] > l[i + 1])
  {
    LadderWithinStop(l, start, stop, segStep, eps);
    forall i | 0 <= i < |l| - 1
      ensures (segStep > 0.0 ==> l[i] < l[i + 1]) && (segStep < 0.0 ==> l[i] > l[i + 1])
    {
      assert Stepped(l[i], l[i + 1], stop, segStep, eps);
      if i >= 1 {
        assert l[..|l| - 1][i] == l[i];
        assert !IsClose(l[i], stop, eps);
      }
    }
  }

  lemma {:induction false} LadderFromStart(l: seq<real>, start: real, stop: real, segStep: real, eps: real, i: nat)
    requires IsLadder(l, start, stop, segStep, eps) && Toward(start, stop, segStep) && eps >= 0.0
    requires i < |l|
    ensures segStep > 0.0 ==> start <= l[i]
    ensures segStep < 0.0 ==> start >= l[i]
    decreases i
  {
    if i > 0 {
      LadderFromStart(l, start, stop, segStep, eps, i - 1);
      LadderMonotone(l, start, stop, segStep, eps);
    }
  }

  /** When start and stop are within 1e8 steps of 0 V (so the relative part of the closeness
      test stays below one step), the ladder's last level is close to stop. */
  lemma LadderReachesStop(l: seq<real>, start: real, stop: real, segStep: real, eps: real)
    requires IsLadder(l, start, stop, segStep, eps) && Toward(start, stop, segStep) && eps >= 0.0
    requires !IsClose(segStep, 0.0, eps)
    requires Abs(start) <= 1e8 * Abs(segStep) && Abs(stop) <= 1e8 * Abs(segStep)
    ensures IsClose(l[|l| - 1], stop, eps)
  {
    var last := l[|l| - 1];
    var next := NextLevel(last, stop, segStep, eps);
    if !(|l| > 1 && IsClose(last, stop, eps)) {
      assert IsClose(next, last, eps);
      if next == stop {
        IsCloseSymmetric(next, last, eps);
      } else {
        LadderWithinStop(l, start, stop, segStep, eps);
        LadderFromStart(l, start, stop, segStep, eps, |l| - 1);
        assert false;
      }
    }
  }

  // ------------------------------------------------------------ segments

  /** `append_segment`'s effect on the segment list: skipped when start is close to stop,
      otherwise stepping by the magnitude toward stop. */
  function AddSegment(segs: seq<Segment>, a: real, b: real, stepMag: real, eps: real): seq<Segment>
  {
    if IsClose(a, b, eps) then segs else segs + [Segment(a, b, if b >= a then stepMag else -stepMag)]
  }

  /** The segment list `_build_segments` returns for a non-zero step. */
  function SegmentList(startV: real, stopV: real, stepV: real): seq<Segment>
  {
    var mag := Abs(stepV);
    var eps := Epsilon(mag);
    var pos := Max(Max(startV, stopV), 0.0);
    var neg := Min(Min(startV, stopV), 0.0);
    var s1 := if pos > eps then AddSegment(AddSegment([], 0.0, pos, mag, eps), pos, 0.0, mag, eps) else [];
    var s2 := if neg < -eps then AddSegment(AddSegment(s1, 0.0, neg, mag, eps), neg, 0.0, mag, eps) else s1;
    if s2 == [] then [Segment(startV, stopV, stepV)] else s2
  }

  lemma FarFromZero(x: real, eps: real)
    requires eps > 0.0 && Abs(x) > eps
    ensures !IsClose(0.0, x, eps) && !IsClose(x, 0.0, eps)
  {
  }

  /** The shape of the sweep: with P = max(start, stop, 0) and N = min(start, stop, 0),
      0 -> P -> 0 when P exceeds eps, then 0 -> N -> 0 when N is below -eps, and the
      single segment (start, stop, step) when neither holds. */
  lemma SegmentListShape(startV: real, stopV: real, stepV: real)
    ensures
      var mag := Abs(stepV);
      var eps := Epsilon(mag);
      var pos := Max(Max(startV, stopV), 0.0);
      var neg := Min(Min(startV, stopV), 0.0);
      SegmentList(startV, stopV, stepV) ==
        (if pos > eps then [Segment(0.0, pos, mag), Segment(pos, 0.0, -mag)] else []) +
        (if neg < -eps then [Segment(0.0, neg, -mag), Segment(neg, 0.0, mag)] else []) +
        (if pos <= eps && neg >= -eps then [Segment(startV, stopV, stepV)] else [])
  {
    var mag := Abs(stepV);
    var eps := Epsilon(mag);
    var pos := Max(Max(startV, stopV), 0.0);
    var neg := Min(Min(startV, stopV), 0.0);
    if pos > eps {
      FarFromZero(pos, eps);
    }
    if neg < -eps {
      FarFromZero(neg, eps);
    }
  }

  /** A -4 V .. 4 V sweep in 0.5 V steps runs 0 -> 4 -> 0 -> -4 -> 0. */
  lemma SegmentListSymmetricExample()
    ensures SegmentList(-4.0, 4.0, 0.5) ==
      [Segment(0.0, 4.0, 0.5), Segment(4.0, 0.0, -0.5), Segment(0.0, -4.0, -0.5), Segment(-4.0, 0.0, 0.5)]
  {
    SegmentListShape(-4.0, 4.0, 0.5);
  }

  /** Unless the sweep collapses to the single fallback segment, every segment starts or ends at
      0 V, steps by the magnitude toward its stop, and does not cross 0 V. */
  lemma SegmentsSplitAtZero(startV: real, stopV: real, stepV: real)
    requires Max(Max(startV, stopV), 0.0) > Epsilon(Abs(stepV)) || Min(Min(startV, stopV), 0.0) < -Epsilon(Abs(stepV))
    requires Abs(stepV) > 0.0
    ensures forall g :: g in SegmentList(startV, stopV, stepV) ==>
      (g.start == 0.0 || g.stop == 0.0) && Abs(g.step) == Abs(stepV) && Toward(g.start, g.stop, g.step) &&
      ((0.0 <= g.start && 0.0 <= g.stop) || (g.start <= 0.0 && g.stop <= 0.0)) &&
      Abs(g.start) <= Max(Abs(startV), Abs(stopV)) && Abs(g.stop) <= Max(Abs(startV), Abs(stopV))
  {
    SegmentListShape(startV, stopV, stepV);
  }

  lemma SegmentListNonEmpty(startV: real, stopV: real, stepV: real)
    ensures |SegmentList(startV, stopV, stepV)| >= 1
  {
  }

  // ------------------------------------------------------------ the planner

  function Concat(ls: seq<seq<real>>): seq<real>
  {
    if ls == [] then [] else Concat(ls[..|ls| - 1]) + ls[|ls| - 1]
  }

  /** The ladders that go with a segment list. */
  ghost predicate LaddersFor(segs: seq<Segment>, ladders: seq<seq<real>>, eps: real)
  {
    |ladders| == |segs| &&
    forall i :: 0 <= i < |segs| ==> IsLadder(ladders[i], segs[i].start, segs[i].stop, segs[i].step, eps)
  }

  lemma ConcatNonEmpty(ls: seq<seq<real>>)
    requires |ls| >= 1 && |ls[|ls| - 1]| >= 1
    ensures Concat(ls) != []
  {
  }

  method AppendSegment(segs: seq<Segment>, ghost ladders: seq<seq<real>>, path: seq<real>,
                       a: real, b: real, stepMag: real, eps: real)
    returns (segs': seq<Segment>, ghost ladders': seq<seq<real>>, path': seq<real>)
    requires eps >= 0.0
    requires LaddersFor(segs, ladders, eps) && path == Concat(ladders)
    ensures segs' == AddSegment(segs, a, b, stepMag, eps)
    ensures LaddersFor(segs', ladders', eps) && path' == Concat(ladders')
  {
    if IsClose(a, b, eps) {
      return segs, ladders, path;
    }
    var segStep := if b >= a then stepMag else -stepMag;
    segs' := segs + [Segment(a, b, segStep)];
    var levels := GenerateSegmentLevels(a, b, segStep, eps);
    ladders' := ladders + [levels];
    assert ladders'[..|ladders'| - 1] == ladders;
    path' := path + levels;
  }

  /** `_build_segments`: the segment list and the commanded path, or the zero-step error. */
  method BuildSegments(startV: real, stopV: real, stepV: real) returns (r: Result<Plan>, ghost ladders: seq<seq<real>>)
    ensures r.Err? <==> IsClose(Abs(stepV), 0.0, 1e-15)
    ensures r.Err? ==> r.msg == "Step voltage must not be zero."
    ensures r.Ok? ==> r.value.segments == SegmentList(startV, stopV, stepV)
    ensures r.Ok? ==> LaddersFor(r.value.segments, ladders, Epsilon(Abs(stepV)))
    ensures r.Ok? ==> r.value.path == Concat(ladders) && r.value.path != []
  {
    var mag := Abs(stepV);
    if IsClose(mag, 0.0, 1e-15) {
      return Err("Step voltage must not be zero."), [];
    }
    var eps := Epsilon(mag);
    var segs: seq<Segment> := [];
    var path: seq<real> := [];
    ladders := [];
    var pos := Max(Max(startV, stopV), 0.0);
    var neg := Min(Min(startV, stopV), 0.0);
    if pos > eps {
      segs, ladders, path := AppendSegment(segs, ladders, path, 0.0, pos, mag, eps);
      segs, ladders, path := AppendSegment(segs, ladders, path, pos, 0.0, mag, eps);
    }
    if neg < -eps {
      segs, ladders, path := AppendSegment(segs, ladders, path, 0.0, neg, mag, eps);
      segs, ladders, path := AppendSegment(segs, ladders, path, neg, 0.0, mag, eps);
    }
    if segs == [] {
      segs := [Segment(startV, stopV, stepV)];
      var levels := GenerateSegmentLevels(startV, stopV, stepV, eps);
      ladders := [levels];
      path := levels;
    }
    if path == [] {
      path := [0.0];
    }
    r := Ok(Plan(segs, path));
  }

  /** What the planner promises about one ladder of a sweep split at zero. */
  predicate ReachesTarget(l: seq<real>, g: Segment, eps: real)
  {
    |l| >= 1 && l[0] == g.start && IsClose(l[|l| - 1], g.stop, eps) &&
    (forall j :: 0 <= j < |l| - 1 ==> (g.step > 0.0 ==> l[j] < l[j + 1]) && (g.step < 0.0 ==> l[j] > l[j + 1])) &&
    (forall j :: 0 <= j < |l| ==> (g.step > 0.0 ==> l[j] <= g.stop + eps) && (g.step < 0.0 ==> l[j] >= g.stop - eps))
  }

  lemma SegmentLadderReachesTarget(l: seq<real>, g: Segment, eps: real)
    requires IsLadder(l, g.start, g.stop, g.step, eps) && Toward(g.start, g.stop, g.step) && eps >= 0.0
    requires !IsClose(g.step, 0.0, eps)
    requires Abs(g.start) <= 1e8 * Abs(g.step) && Abs(g.stop) <= 1e8 * Abs(g.step)
    ensures ReachesTarget(l, g, eps)
  {
    LadderReachesStop(l, g.start, g.stop, g.step, eps);
    LadderMonotone(l, g.start, g.stop, g.step, eps);
    LadderWithinStop(l, g.start, g.stop, g.step, eps);
  }

  /** Every ladder of a sweep that is split at zero starts at its segment's start, moves strictly
      toward its stop, never passes it by more than eps, and ends close to it -- provided the
      step is not itself within eps of zero and the end points lie within 1e8 steps of 0 V. */
  lemma PlanLaddersReachTargets(startV: real, stopV: real, stepV: real, segs: seq<Segment>, ladders: seq<seq<real>>)
    requires segs == SegmentList(startV, stopV, stepV) && LaddersFor(segs, ladders, Epsilon(Abs(stepV)))
    requires Max(Max(startV, stopV), 0.0) > Epsilon(Abs(stepV)) || Min(Min(startV, stopV), 0.0) < -Epsilon(Abs(stepV))
    requires !IsClose(Abs(stepV), 0.0, Epsilon(Abs(stepV)))
    requires Abs(startV) <= 1e8 * Abs(stepV) && Abs(stopV) <= 1e8 * Abs(stepV)
    ensures forall i :: 0 <= i < |segs| ==> ReachesTarget(ladders[i], segs[i], Epsilon(Abs(stepV)))
  {
    var eps := Epsilon(Abs(stepV));
    SegmentsSplitAtZero(startV, stopV, stepV);
    forall i | 0 <= i < |segs|
      ensures ReachesTarget(ladders[i], segs[i], eps)
    {
      var g := segs[i];
      assert g in segs;
      assert Abs(g.step) == Abs(stepV);
      SegmentLadderReachesTarget(ladders[i], g, eps);
    }
  }
}
