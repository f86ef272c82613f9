/** The per-run bookkeeping of the 2450 I-V sweep worker: the live rows are
    recorded as they arrive, each with the commanded level it answers; when
    a segment finishes, its final readings replace its live rows and its
    commanded levels are reconciled against them. */
module RunBookkeeping {
  import opened Outcome
  import opened PyText
  import opened Channel
  import opened DrainQuery
  import opened WriteSequence
  import opened SweepPlanner
  import opened SweepReadback
  import opened Reconciler

  /** The lists one run keeps: measured volts, amps, the commanded level of each point, and
      the index of the next commanded level. */
  datatype RunLists = RunLists(voltages: seq<real>, currents: seq<real>, commanded: seq<real>, commandIndex: nat)

  const EmptyRun := RunLists([], [], [], 0)

  /** One entry per point in each list, and the command index counts the points. */
  predicate Aligned(r: RunLists)
  {
    |r.voltages| == r.commandIndex && |r.currents| == r.commandIndex && |r.commanded| == r.commandIndex
  }

  /** The commanded level of the point with this index; past the path, the reading itself. */
  function CommandedFor(levels: seq<real>, index: nat, v: real): real
  {
    if index < |levels| then levels[index] else v
  }

  /** `handle_point`: record one live row. */
  function PointStep(r: RunLists, levels: seq<real>, v: real, c: real): RunLists
  {
    RunLists(r.voltages + [v], r.currents + [c], r.commanded + [CommandedFor(levels, r.commandIndex, v)], r.commandIndex + 1)
  }

  /** The live rows of a segment, recorded in order. */
  function LivePoints(r: RunLists, levels: seq<real>, pts: seq<(real, real)>): RunLists
    decreases |pts|
  {
    if pts == [] then r else LivePoints(PointStep(r, levels, pts[0].0, pts[0].1), levels, pts[1..])
  }

  lemma LivePointsCons(r: RunLists, levels: seq<real>, pts: seq<(real, real)>)
    requires pts != []
    ensures LivePoints(r, levels, pts) == LivePoints(PointStep(r, levels, pts[0].0, pts[0].1), levels, pts[1..])
  {
  }

  /** The commanded levels of live rows recorded from command index `i` on. */
  function LiveCommanded(levels: seq<real>, i: nat, pts: seq<(real, real)>): (c: seq<real>)
    ensures |c| == |pts|
    decreases |pts|
  {
    if pts == [] then [] else [CommandedFor(levels, i, pts[0].0)] + LiveCommanded(levels, i + 1, pts[1..])
  }

  /** Live rows that fall on the path answer the path's levels in order. */
  lemma {:induction false} LiveCommandedFollowsPath(levels: seq<real>, i: nat, pts: seq<(real, real)>, k: nat)
    requires k < |pts| && i + k < |levels|
    ensures LiveCommanded(levels, i, pts)[k] == levels[i + k]
    decreases k
  {
    if k > 0 {
      LiveCommandedFollowsPath(levels, i + 1, pts[1..], k - 1);
    }
  }

  lemma ReadingsCons(pts: seq<(real, real)>)
    requires pts != []
    ensures Voltages(pts) == [pts[0].0] + Voltages(pts[1..])
    ensures Currents(pts) == [pts[0].1] + Currents(pts[1..])
  {
    var vs, cs := Voltages(pts[1..]), Currents(pts[1..]);
    forall i | 0 <= i < |pts| ensures Voltages(pts)[i] == ([pts[0].0] + vs)[i] {
      if i > 0 {
        assert ([pts[0].0] + vs)[i] == vs[i - 1] == pts[1..][i - 1].0;
      }
    }
    forall i | 0 <= i < |pts| ensures Currents(pts)[i] == ([pts[0].1] + cs)[i] {
      if i > 0 {
        assert ([pts[0].1] + cs)[i] == cs[i - 1] == pts[1..][i - 1].1;
      }
    }
  }

  lemma {:induction false} LiveVoltages(r: RunLists, levels: seq<real>, pts: seq<(real, real)>)
    ensures LivePoints(r, levels, pts).voltages == r.voltages + Voltages(pts)
    decreases |pts|
  {
    if pts == [] {
      assert r.voltages + Voltages(pts) == r.voltages;
    } else {
      var s := PointStep(r, levels, pts[0].0, pts[0].1);
      LiveVoltages(s, levels, pts[1..]);
      ReadingsCons(pts);
      AppendAssoc(r.voltages, [pts[0].0], Voltages(pts[1..]));
    }
  }

  lemma {:induction false} LiveCurrents(r: RunLists, levels: seq<real>, pts: seq<(real, real)>)
    ensures LivePoints(r, levels, pts).currents == r.currents + Currents(pts)
    decreases |pts|
  {
    if pts == [] {
      assert r.currents + Currents(pts) == r.currents;
    } else {
      var s := PointStep(r, levels, pts[0].0, pts[0].1);
      LiveCurrents(s, levels, pts[1..]);
      ReadingsCons(pts);
      AppendAssoc(r.currents, [pts[0].1], Currents(pts[1..]));
    }
  }

  lemma AppendAssoc(a: seq<real>, b: seq<real>, c: seq<real>)
    ensures a + (b + c) == (a + b) + c
  {
  }

  lemma {:induction false} LiveCommands(r: RunLists, levels: seq<real>, pts: seq<(real, real)>)
    ensures LivePoints(r, levels, pts).commanded == r.commanded + LiveCommanded(levels, r.commandIndex, pts)
    ensures LivePoints(r, levels, pts).commandIndex == r.commandIndex + |pts|
    decreases |pts|
  {
    if pts != [] {
      var s := PointStep(r, levels, pts[0].0, pts[0].1);
      LiveCommands(s, levels, pts[1..]);
      assert r.commanded + LiveCommanded(levels, r.commandIndex, pts) ==
             s.commanded + LiveCommanded(levels, s.commandIndex, pts[1..]);
    }
  }

  /** Recording live rows appends them, with their commanded levels, to the run's lists. */
  lemma LivePointsShape(r: RunLists, levels: seq<real>, pts: seq<(real, real)>)
    requires Aligned(r)
    ensures var r' := LivePoints(r, levels, pts);
      Aligned(r') && r'.commandIndex == r.commandIndex + |pts| &&
      r'.voltages == r.voltages + Voltages(pts) && r'.currents == r.currents + Currents(pts) &&
      r'.commanded == r.commanded + LiveCommanded(levels, r.commandIndex, pts)
  {
    LiveVoltages(r, levels, pts);
    LiveCurrents(r, levels, pts);
    LiveCommands(r, levels, pts);
  }

  // ------------------------------------------------------------ Python slice semantics

  function Clamp(x: nat, n: nat): nat { if x < n then x else n }

  /** `s[a:b]` for non-negative bounds. */
  function PySlice(s: seq<real>, a: nat, b: nat): seq<real>
  {
    var lo := Clamp(a, |s|);
    var hi := Clamp(b, |s|);
    if lo <= hi then s[lo..hi] else []
  }

  /** `s[a:b] = y` for non-negative bounds: the slice is replaced, and the length may change. */
  function SliceAssign(s: seq<real>, a: nat, b: nat, y: seq<real>): seq<real>
  {
    var lo := Clamp(a, |s|);
    var hi := if Clamp(b, |s|) < lo then lo else Clamp(b, |s|);
    s[..lo] + y + s[hi..]
  }

  /** `s[-n:] = y` for n > 0: the last n entries (all of them when there are fewer) are replaced. */
  function TailAssign(s: seq<real>, n: nat, y: seq<real>): seq<real>
    requires n > 0
  {
    var lo := if n >= |s| then 0 else |s| - n;
    s[..lo] + y
  }

  // ------------------------------------------------------------ finishing a segment

  /** The segment's commanded levels reconciled against its final readings. */
  function SegmentCommanded(levels: seq<real>, segStart: nat, segV: seq<real>): seq<real>
  {
    Reconcile(PySlice(levels, segStart, segStart + |segV|), segV)
  }

  /** The end-of-segment update as `_sweep_worker` writes it: the commanded slice runs from the
      segment's first command index to the live count, and the final readings replace the last
      `len(segment_voltages)` entries of the measured lists. */
  function FinishAsWritten(r: RunLists, levels: seq<real>, segStart: nat, segV: seq<real>, segI: seq<real>): RunLists
  {
    if segV == [] then r
    else
      var corrected := Reconcile(PySlice(levels, segStart, r.commandIndex), segV);
      RunLists(TailAssign(r.voltages, |segV|, segV), TailAssign(r.currents, |segV|, segI),
               if corrected != [] then SliceAssign(r.commanded, segStart, r.commandIndex, corrected) else r.commanded,
               r.commandIndex)
  }

  /** The end-of-segment update the worker evidently intends: the segment's entries, from its
      first command index on, are replaced by its final readings and their reconciled commanded
      levels, and the command index moves past the segment. */
  function Finish(r: RunLists, levels: seq<real>, segStart: nat, segV: seq<real>, segI: seq<real>): RunLists
  {
    if segV == [] then r
    else
      RunLists(r.voltages[..Clamp(segStart, |r.voltages|)] + segV, r.currents[..Clamp(segStart, |r.currents|)] + segI,
               r.commanded[..Clamp(segStart, |r.commanded|)] + SegmentCommanded(levels, segStart, segV),
               segStart + |segV|)
  }

  lemma SegmentCommandedLength(levels: seq<real>, segStart: nat, segV: seq<real>)
    ensures |SegmentCommanded(levels, segStart, segV)| == |segV|
  {
    ReconcileShape(PySlice(levels, segStart, segStart + |segV|), segV);
  }

  /** One segment: its live rows, then its final readings. */
  function SegmentStep(r: RunLists, levels: seq<real>, d: SegmentData): (r': RunLists)
    requires Aligned(r) && |d.voltages| == |d.currents|
    ensures Aligned(r')
  {
    var live := LivePoints(r, levels, PrintedPoints(d.lines));
    LivePointsShape(r, levels, PrintedPoints(d.lines));
    SegmentCommandedLength(levels, r.commandIndex, d.voltages);
    Finish(live, levels, r.commandIndex, d.voltages, d.currents)
  }

  predicate Balanced(ds: seq<SegmentData>)
  {
    forall k :: 0 <= k < |ds| ==> |ds[k].voltages| == |ds[k].currents|
  }

  /** The lists of a run after the given segments. */
  function RunFold(levels: seq<real>, ds: seq<SegmentData>): (r: RunLists)
    requires Balanced(ds)
    ensures Aligned(r)
  {
    if ds == [] then EmptyRun else SegmentStep(RunFold(levels, ds[..|ds| - 1]), levels, ds[|ds| - 1])
  }

  /** What a segment contributes to the run's measured lists: its final readings, or its live
      rows when it has none. */
  function SegmentVoltages(d: SegmentData): seq<real>
  {
    if d.voltages == [] then Voltages(PrintedPoints(d.lines)) else d.voltages
  }

  function SegmentCurrents(d: SegmentData): seq<real>
  {
    if d.voltages == [] then Currents(PrintedPoints(d.lines)) else d.currents
  }

  function RunVoltages(ds: seq<SegmentData>): seq<real>
  {
    if ds == [] then [] else RunVoltages(ds[..|ds| - 1]) + SegmentVoltages(ds[|ds| - 1])
  }

  function RunCurrents(ds: seq<SegmentData>): seq<real>
  {
    if ds == [] then [] else RunCurrents(ds[..|ds| - 1]) + SegmentCurrents(ds[|ds| - 1])
  }

  /** One segment's step appends its contribution. */
  lemma SegmentStepAppends(r: RunLists, levels: seq<real>, d: SegmentData)
    requires Aligned(r) && |d.voltages| == |d.currents|
    ensures SegmentStep(r, levels, d).voltages == r.voltages + SegmentVoltages(d)
    ensures SegmentStep(r, levels, d).currents == r.currents + SegmentCurrents(d)
    ensures SegmentStep(r, levels, d).commanded[..|r.commanded|] == r.commanded
  {
    var pts := PrintedPoints(d.lines);
    LivePointsShape(r, levels, pts);
    var live := LivePoints(r, levels, pts);
    if d.voltages != [] {
      assert live.voltages[..r.commandIndex] == r.voltages;
      assert live.currents[..r.commandIndex] == r.currents;
      assert live.commanded[..r.commandIndex] == r.commanded;
    }
  }

  /** The run's measured lists are its segments' contributions laid end to end, in order. */
  lemma {:induction false} RunFoldConcat(levels: seq<real>, ds: seq<SegmentData>)
    requires Balanced(ds)
    ensures RunFold(levels, ds).voltages == RunVoltages(ds)
    ensures RunFold(levels, ds).currents == RunCurrents(ds)
    decreases |ds|
  {
    if ds != [] {
      var init := ds[..|ds| - 1];
      assert Balanced(init);
      RunFoldConcat(levels, init);
      SegmentStepAppends(RunFold(levels, init), levels, ds[|ds| - 1]);
    }
  }

  /** When the live rows and the final readings agree in number, the source's update and the
      intended one coincide. */
  lemma FinishAgrees(r: RunLists, levels: seq<real>, pts: seq<(real, real)>, segV: seq<real>, segI: seq<real>)
    requires Aligned(r) && |pts| == |segV| && |segI| == |segV|
    ensures var live := LivePoints(r, levels, pts);
      FinishAsWritten(live, levels, r.commandIndex, segV, segI) == Finish(live, levels, r.commandIndex, segV, segI)
  {
    LivePointsShape(r, levels, pts);
    FinishAgreesAligned(LivePoints(r, levels, pts), levels, r.commandIndex, segV, segI);
  }

  /** The same, for any aligned lists whose segment since `segStart` has as many entries as
      the final readings. */
  lemma FinishAgreesAligned(live: RunLists, levels: seq<real>, segStart: nat, segV: seq<real>, segI: seq<real>)
    requires Aligned(live) && live.commandIndex == segStart + |segV| && |segI| == |segV|
    ensures FinishAsWritten(live, levels, segStart, segV, segI) == Finish(live, levels, segStart, segV, segI)
  {
    if segV != [] {
      var corrected := SegmentCommanded(levels, segStart, segV);
      SegmentCommandedLength(levels, segStart, segV);
      assert TailAssign(live.voltages, |segV|, segV) == live.voltages[..segStart] + segV;
      assert TailAssign(live.currents, |segI|, segI) == live.currents[..segStart] + segI;
      assert SliceAssign(live.commanded, segStart, live.commandIndex, corrected) == live.commanded[..segStart] + corrected by {
        assert live.commanded[live.commandIndex..] == [];
      }
    }
  }

  /** Two segments whose printed rows do not parse but whose buffers hold two points each: the
      source's update overwrites the first segment's readings and puts the second segment's
      commanded levels before the first's. */
  lemma FinishAsWrittenMisplaces()
    ensures var levels := [1.0, 2.0, 3.0, 4.0];
      var r1 := FinishAsWritten(LivePoints(EmptyRun, levels, []), levels, 0, [1.0, 2.0], [5.0, 6.0]);
      var r2 := FinishAsWritten(LivePoints(r1, levels, []), levels, r1.commandIndex, [3.0, 4.0], [7.0, 8.0]);
      r2.voltages == [3.0, 4.0] && r2.currents == [7.0, 8.0] && r2.commanded == [3.0, 4.0, 1.0, 2.0]
  {
    var levels := [1.0, 2.0, 3.0, 4.0];
    var r1 := FinishAsWritten(EmptyRun, levels, 0, [1.0, 2.0], [5.0, 6.0]);
    assert PySlice(levels, 0, 0) == [];
    assert r1 == RunLists([1.0, 2.0], [5.0, 6.0], [1.0, 2.0], 0);
    var r2 := FinishAsWritten(r1, levels, 0, [3.0, 4.0], [7.0, 8.0]);
    assert TailAssign([1.0, 2.0], 2, [3.0, 4.0]) == [3.0, 4.0];
    assert SliceAssign([1.0, 2.0], 0, 0, [3.0, 4.0]) == [3.0, 4.0, 1.0, 2.0];
  }

  /** The same two segments under the intended update: both survive, in order. */
  lemma FinishKeepsSegments()
    ensures var levels := [1.0, 2.0, 3.0, 4.0];
      var d1 := SegmentData([1.0, 2.0], [5.0, 6.0], []);
      var d2 := SegmentData([3.0, 4.0], [7.0, 8.0], []);
      RunFold(levels, [d1, d2]) == RunLists([1.0, 2.0, 3.0, 4.0], [5.0, 6.0, 7.0, 8.0], [1.0, 2.0, 3.0, 4.0], 4)
  {
    var levels := [1.0, 2.0, 3.0, 4.0];
    var d1 := SegmentData([1.0, 2.0], [5.0, 6.0], []);
    var d2 := SegmentData([3.0, 4.0], [7.0, 8.0], []);
    assert [d1, d2][..1] == [d1];
    assert [d1][..0] == [];
    assert PrintedPoints([]) == [];
    assert PySlice(levels, 0, 2) == [1.0, 2.0];
    assert PySlice(levels, 2, 4) == [3.0, 4.0];
    ReconcileIdentity([1.0, 2.0]);
    ReconcileIdentity([3.0, 4.0]);
    var f1 := SegmentStep(EmptyRun, levels, d1);
    assert f1 == RunLists([1.0, 2.0], [5.0, 6.0], [1.0, 2.0], 2);
    assert RunFold(levels, [d1]) == f1;
    var f2 := SegmentStep(f1, levels, d2);
    assert f2 == RunLists([1.0, 2.0, 3.0, 4.0], [5.0, 6.0, 7.0, 8.0], [1.0, 2.0, 3.0, 4.0], 4);
  }

  // ------------------------------------------------------------ the adjusted flag

  /** `max(abs(step) * 0.02, 1e-6)`: how far a reading may sit from its commanded level before
      the run counts as adjusted. */
  function AdjustTolerance(step: real): (t: real)
    ensures t >= 0.000001 && t >= Abs(step) * 0.02
  {
    Max(Abs(step) * 0.02, 0.000001)
  }

  /** Some live row recorded from command index `i` on sits more than `tol` from its level. */
  predicate LiveDiverges(levels: seq<real>, i: nat, pts: seq<(real, real)>, tol: real)
  {
    exists k :: 0 <= k < |pts| && Abs(pts[k].0 - CommandedFor(levels, i + k, pts[k].0)) > tol
  }

  /** `any(abs(m - c) > tol for m, c in zip(a, b))`. */
  predicate Diverges(a: seq<real>, b: seq<real>, tol: real)
  {
    exists k :: 0 <= k < |a| && k < |b| && Abs(a[k] - b[k]) > tol
  }

  /** A segment that starts at command index `start` sets its run's flag: a live row off its
      level, or a final reading off its reconciled level. */
  predicate SegmentAdjusts(start: nat, levels: seq<real>, tol: real, d: SegmentData)
  {
    LiveDiverges(levels, start, PrintedPoints(d.lines), tol) ||
    (d.voltages != [] && Diverges(d.voltages, SegmentCommanded(levels, start, d.voltages), tol))
  }

  /** The command index after the given segments: each moves it past its contribution. */
  function RunLength(ds: seq<SegmentData>): nat
  {
    if ds == [] then 0 else RunLength(ds[..|ds| - 1]) + |SegmentVoltages(ds[|ds| - 1])|
  }

  /** The run's `adjusted` flag after the given segments; once set it stays set. */
  predicate RunAdjusted(levels: seq<real>, tol: real, ds: seq<SegmentData>)
  {
    ds != [] &&
    (RunAdjusted(levels, tol, ds[..|ds| - 1]) || SegmentAdjusts(RunLength(ds[..|ds| - 1]), levels, tol, ds[|ds| - 1]))
  }

  /** Segment `k` of the run set the flag. */
  predicate AdjustsAt(levels: seq<real>, tol: real, ds: seq<SegmentData>, k: int)
  {
    0 <= k < |ds| && SegmentAdjusts(RunLength(ds[..k]), levels, tol, ds[k])
  }

  /** A run is flagged exactly when one of its segments set the flag. */
  lemma RunAdjustedIff(levels: seq<real>, tol: real, ds: seq<SegmentData>)
    ensures RunAdjusted(levels, tol, ds) <==> exists k :: AdjustsAt(levels, tol, ds, k)
  {
    if RunAdjusted(levels, tol, ds) {
      var k := FlaggingSegment(levels, tol, ds);
    }
    if exists k :: AdjustsAt(levels, tol, ds, k) {
      var k :| AdjustsAt(levels, tol, ds, k);
      FlagStays(levels, tol, ds, k);
    }
  }

  /** A flagged run has a segment that set the flag. */
  lemma {:induction false} FlaggingSegment(levels: seq<real>, tol: real, ds: seq<SegmentData>) returns (k: nat)
    requires RunAdjusted(levels, tol, ds)
    ensures AdjustsAt(levels, tol, ds, k)
    decreases |ds|
  {
    var n := |ds| - 1;
    if SegmentAdjusts(RunLength(ds[..n]), levels, tol, ds[n]) {
      k := n;
    } else {
      k := FlaggingSegment(levels, tol, ds[..n]);
      AdjustsPrefix(levels, tol, ds, n, k);
    }
  }

  /** A segment that sets the flag leaves the run flagged. */
  lemma {:induction false} FlagStays(levels: seq<real>, tol: real, ds: seq<SegmentData>, k: nat)
    requires AdjustsAt(levels, tol, ds, k)
    ensures RunAdjusted(levels, tol, ds)
    decreases |ds|
  {
    var n := |ds| - 1;
    if k < n {
      AdjustsPrefix(levels, tol, ds, n, k);
      FlagStays(levels, tol, ds[..n], k);
      FlagKept(levels, tol, ds);
    } else {
      FlagSetLast(levels, tol, ds);
    }
  }

  lemma FlagKept(levels: seq<real>, tol: real, ds: seq<SegmentData>)
    requires ds != [] && RunAdjusted(levels, tol, ds[..|ds| - 1])
    ensures RunAdjusted(levels, tol, ds)
  {
  }

  lemma FlagSetLast(levels: seq<real>, tol: real, ds: seq<SegmentData>)
    requires ds != [] && SegmentAdjusts(RunLength(ds[..|ds| - 1]), levels, tol, ds[|ds| - 1])
    ensures RunAdjusted(levels, tol, ds)
  {
  }

  /** Whether an earlier segment set the flag does not depend on the later ones. */
  lemma AdjustsPrefix(levels: seq<real>, tol: real, ds: seq<SegmentData>, n: nat, k: nat)
    requires k < n <= |ds|
    ensures AdjustsAt(levels, tol, ds, k) == AdjustsAt(levels, tol, ds[..n], k)
  {
    assert ds[..n][..k] == ds[..k];
  }

  /** The folded lists' command index is the run length. */
  lemma {:induction false} RunFoldLength(levels: seq<real>, ds: seq<SegmentData>)
    requires Balanced(ds)
    ensures RunFold(levels, ds).commandIndex == RunLength(ds)
    decreases |ds|
  {
    if ds != [] {
      var init := ds[..|ds| - 1];
      assert Balanced(init);
      RunFoldLength(levels, init);
      SegmentStepAppends(RunFold(levels, init), levels, ds[|ds| - 1]);
    }
  }

  /** A segment whose live rows and final readings sit exactly on the path does not set the
      flag. */
  lemma SegmentOnPathKeepsFlag(start: nat, levels: seq<real>, tol: real, d: SegmentData)
    requires tol >= 0.0
    requires forall k :: 0 <= k < |PrintedPoints(d.lines)| ==>
      start + k < |levels| && PrintedPoints(d.lines)[k].0 == levels[start + k]
    requires d.voltages == PySlice(levels, start, start + |d.voltages|)
    ensures !SegmentAdjusts(start, levels, tol, d)
  {
    var pts := PrintedPoints(d.lines);
    ReconcileIdentity(d.voltages);
    assert SegmentCommanded(levels, start, d.voltages) == d.voltages;
    NoSelfDivergence(d.voltages, tol);
  }

  lemma NoSelfDivergence(a: seq<real>, tol: real)
    requires tol >= 0.0
    ensures !Diverges(a, a, tol)
  {
    if Diverges(a, a, tol) {
      var k :| 0 <= k < |a| && k < |a| && Abs(a[k] - a[k]) > tol;
      ZeroDistance(a[k]);
    }
  }

  lemma ZeroDistance(x: real)
    ensures Abs(x - x) == 0.0
  { }

  /** A live row more than the tolerance from its commanded level sets the flag. */
  lemma OffPathRowSetsFlag(start: nat, levels: seq<real>, tol: real, d: SegmentData, k: nat)
    requires k < |PrintedPoints(d.lines)| && start + k < |levels|
    requires Abs(PrintedPoints(d.lines)[k].0 - levels[start + k]) > tol
    ensures SegmentAdjusts(start, levels, tol, d)
  {
  }

  /** One more live row: the flag is the old flag or that row's divergence. */
  lemma LiveDivergesSnoc(levels: seq<real>, i: nat, pts: seq<(real, real)>, j: nat, tol: real)
    requires j < |pts|
    ensures LiveDiverges(levels, i, pts[..j + 1], tol) <==>
      LiveDiverges(levels, i, pts[..j], tol) || Abs(pts[j].0 - CommandedFor(levels, i + j, pts[j].0)) > tol
  {
    var a := pts[..j + 1];
    var b := pts[..j];
    if LiveDiverges(levels, i, a, tol) {
      var k :| 0 <= k < |a| && Abs(a[k].0 - CommandedFor(levels, i + k, a[k].0)) > tol;
      if k < j {
        assert b[k] == a[k];
      }
    }
    if LiveDiverges(levels, i, b, tol) {
      var k :| 0 <= k < |b| && Abs(b[k].0 - CommandedFor(levels, i + k, b[k].0)) > tol;
      assert a[k] == b[k];
    }
    if Abs(pts[j].0 - CommandedFor(levels, i + j, pts[j].0)) > tol {
      assert a[j] == pts[j];
    }
  }

  /** The `_on_sweep_complete` log of one run entry: its point count, the adjusted line when
      the flag is set, then its printed lines. */
  function EntryLog(run: nat, points: nat, adjusted: bool, lines: seq<string>): (log: seq<string>)
    ensures |log| == 1 + (if adjusted then 1 else 0) + |lines|
  {
    [RunPrefix(run) + "Received " + NatText(points) + " points."] +
    (if adjusted then [AdjustedLine(run)] else []) + lines
  }

  /** `Run <run>: `, the head of both lines. */
  function RunPrefix(run: nat): string
  {
    "Run " + NatText(run + 1) + ": "
  }

  function AdjustedLine(run: nat): string
  {
    RunPrefix(run) + "Applied commanded voltage levels after current limit."
  }

  /** The adjusted line is logged exactly for flagged runs (whose printed lines never spell it). */
  lemma EntryLogAdjusted(run: nat, points: nat, adjusted: bool, lines: seq<string>)
    requires AdjustedLine(run) !in lines
    ensures AdjustedLine(run) in EntryLog(run, points, adjusted, lines) <==> adjusted
    ensures EntryLog(run, points, adjusted, lines)[1 + (if adjusted then 1 else 0)..] == lines
  {
    var pre := RunPrefix(run);
    var head := pre + "Received " + NatText(points) + " points.";
    assert head != AdjustedLine(run) by {
      assert head[|head| - 2] == 's';
      assert AdjustedLine(run)[|AdjustedLine(run)| - 2] == 't';
    }
  }

  // ------------------------------------------------------------ the run entry

  /** `# Run <run> segment <segment>`; the segment's end points are not rendered. */
  function SegmentHeader(run: nat, segment: nat): string
  {
    "# Run " + NatText(run + 1) + " segment " + NatText(segment + 1)
  }

  /** The live-plot entry of one run (`current_entry` and the worker's run lists). */
  class RunEntry {
    const runIndex: nat
    var voltages: seq<real>
    var currents: seq<real>
    var commanded: seq<real>
    var commandIndex: nat
    var printedLines: seq<string>
    var adjusted: bool

    function Lists(): RunLists
      reads this
    {
      RunLists(voltages, currents, commanded, commandIndex)
    }

    constructor (run: nat)
      ensures runIndex == run && Lists() == EmptyRun && printedLines == [] && !adjusted
    {
      runIndex := run;
      voltages, currents, commanded, commandIndex := [], [], [], 0;
      printedLines := [];
      adjusted := false;
    }

    /** `handle_point`: the row is recorded with its commanded level, and a row more than
        `tol` from that level sets the flag. */
    method HandlePoint(levels: seq<real>, tol: real, v: real, c: real)
      modifies this
      ensures Lists() == PointStep(old(Lists()), levels, v, c)
      ensures adjusted == (old(adjusted) || Abs(v - CommandedFor(levels, old(commandIndex), v)) > tol)
      ensures printedLines == old(printedLines)
    {
      var level := if commandIndex < |levels| then levels[commandIndex] else v;
      commandIndex := commandIndex + 1;
      voltages := voltages + [v];
      currents := currents + [c];
      commanded := commanded + [level];
      if Abs(v - level) > tol {
        adjusted := true;
      }
    }

    /** `handle_point` for each printed row of a segment, in order. */
    method HandlePoints(levels: seq<real>, tol: real, pts: seq<(real, real)>)
      modifies this
      ensures Lists() == LivePoints(old(Lists()), levels, pts)
      ensures adjusted == (old(adjusted) || LiveDiverges(levels, old(commandIndex), pts, tol))
      ensures printedLines == old(printedLines)
    {
      ghost var before := Lists();
      var segStart := commandIndex;
      for i := 0 to |pts|
        invariant LivePoints(before, levels, pts) == LivePoints(Lists(), levels, pts[i..])
        invariant commandIndex == segStart + i
        invariant adjusted == (old(adjusted) || LiveDiverges(levels, segStart, pts[..i], tol))
        invariant printedLines == old(printedLines)
      {
        LivePointsCons(Lists(), levels, pts[i..]);
        assert pts[i..][0] == pts[i] && pts[i..][1..] == pts[i + 1..];
        LiveDivergesSnoc(levels, segStart, pts, i, tol);
        HandlePoint(levels, tol, pts[i].0, pts[i].1);
      }
      assert pts[|pts|..] == [] && pts[..|pts|] == pts;
    }

    /** The end of a segment, with the corrected slice bounds. */
    method FinishSegment(levels: seq<real>, tol: real, segStart: nat, segV: seq<real>, segI: seq<real>)
      modifies this
      ensures Lists() == Finish(old(Lists()), levels, segStart, segV, segI)
      ensures adjusted == (old(adjusted) || (segV != [] && Diverges(segV, SegmentCommanded(levels, segStart, segV), tol)))
      ensures printedLines == old(printedLines)
    {
      if segV != [] {
        var slice := PySlice(levels, segStart, segStart + |segV|);
        var corrected := MatchVoltageSequence(slice, segV);
        if Diverges(segV, corrected, tol) {
          adjusted := true;
        }
        Splice(segStart, segV, segI, corrected);
      }
    }

    /** Replaces everything from `segStart` on with the segment's own lists. */
    method Splice(segStart: nat, segV: seq<real>, segI: seq<real>, corrected: seq<real>)
      modifies this
      ensures Lists() == RunLists(old(voltages)[..Clamp(segStart, |old(voltages)|)] + segV,
                                  old(currents)[..Clamp(segStart, |old(currents)|)] + segI,
                                  old(commanded)[..Clamp(segStart, |old(commanded)|)] + corrected,
                                  segStart + |segV|)
      ensures adjusted == old(adjusted) && printedLines == old(printedLines)
    {
      commanded := commanded[..Clamp(segStart, |commanded|)] + corrected;
      voltages := voltages[..Clamp(segStart, |voltages|)] + segV;
      currents := currents[..Clamp(segStart, |currents|)] + segI;
      commandIndex := segStart + |segV|;
    }

    /** The printed lines of a segment: once from `_perform_sweep`, then under the header. */
    method LogSegment(segment: nat, lines: seq<string>)
      modifies this
      ensures printedLines == old(printedLines) + lines + [SegmentHeader(runIndex, segment)] + lines
      ensures Lists() == old(Lists()) && adjusted == old(adjusted)
    {
      printedLines := printedLines + lines;
      printedLines := printedLines + [SegmentHeader(runIndex, segment)] + lines;
    }
  }

  /** The printed-line log of a run as written: each segment's lines twice, around its header. */
  function RunLogAsWritten(run: nat, ds: seq<SegmentData>): seq<string>
  {
    if ds == [] then []
    else
      var k := |ds| - 1;
      RunLogAsWritten(run, ds[..k]) + ds[k].lines + [SegmentHeader(run, k)] + ds[k].lines
  }

  /** The printed-line log as intended: each segment's header followed by its lines. */
  function RunLog(run: nat, ds: seq<SegmentData>): seq<string>
  {
    if ds == [] then []
    else
      var k := |ds| - 1;
      RunLog(run, ds[..k]) + [SegmentHeader(run, k)] + ds[k].lines
  }

  /** A segment with one printed row logs it twice in the source's log and once in the intended one. */
  lemma RunLogDuplicates(run: nat, line: string)
    ensures var d := SegmentData([], [], [line]);
      RunLogAsWritten(run, [d]) == [line, SegmentHeader(run, 0), line] &&
      RunLog(run, [d]) == [SegmentHeader(run, 0), line]
  {
    var d := SegmentData([], [], [line]);
    assert [d][..0] == [];
  }

  /** Every header of the intended log is followed by exactly its segment's lines. */
  lemma {:induction false} RunLogLength(run: nat, ds: seq<SegmentData>)
    ensures |RunLog(run, ds)| == |ds| + LineCount(ds)
    ensures |RunLogAsWritten(run, ds)| == |ds| + 2 * LineCount(ds)
    decreases |ds|
  {
    if ds != [] {
      RunLogLength(run, ds[..|ds| - 1]);
    }
  }

  function LineCount(ds: seq<SegmentData>): nat
  {
    if ds == [] then 0 else LineCount(ds[..|ds| - 1]) + |ds[|ds| - 1].lines|
  }

  // ------------------------------------------------------------ the session and the worker

  /** The sweep window's session state. */
  class SweepSession {
    var inst: Instrument?
    var scriptLoaded: bool
    const stop: StopEvent

    constructor (stopEvent: StopEvent)
      ensures inst == null && !scriptLoaded && stop == stopEvent
    {
      inst := null;
      scriptLoaded := false;
      stop := stopEvent;
    }

      /** `ensure_script_loaded`: upload the script once per connection. */
    method EnsureScriptLoaded(script: Option<seq<string>>) returns (r: Result<bool>)
      modifies this, inst
      ensures inst == old(inst)
      ensures old(inst) == null ==> r == Err(NotConnected) && scriptLoaded == old(scriptLoaded)
      ensures inst != null && old(scriptLoaded) ==>
                r == Ok(true) && scriptLoaded && inst.written == old(inst.written) && inst.faults == old(inst.faults)
      ensures inst != null && !old(scriptLoaded) && script.None? ==>
                r == Err(ScriptMissing) && !scriptLoaded && inst.written == old(inst.written) && inst.faults == old(inst.faults)
      ensures inst != null && !old(scriptLoaded) && script.Some? ==>
                UploadOutcome(old(inst.faults), old(inst.written), script.value, r, scriptLoaded, inst.written) &&
                inst.faults == DropN(old(inst.faults), Attempted(old(inst.faults), LoadCommands(script.value)))
      ensures inst != null ==> inst.pending == old(inst.pending)
    {
      if inst == null {
        return Err(NotConnected);
      }
      if scriptLoaded {
        return Ok(true);
      }
      if script.None? {
        return Err(ScriptMissing);
      }
      var cmds := LoadCommands(script.value);
      var ok := WriteAll(inst, cmds);
      scriptLoaded := ok;
      r := if ok then Ok(true) else Err(LoadFailed);
    }

    /** `_apply_wiring_mode`: front terminals, then 4-wire sense when the chosen mode starts
        with "4" and 2-wire otherwise. */
    method ApplyWiringMode(wiring: string) returns (r: Result<bool>)
      modifies inst
      ensures old(inst) == null ==> r == Ok(true)
      ensures inst != null ==>
                var cmds := WiringCommands(wiring);
                (r.Ok? <==> Sent(old(inst.faults), cmds) == |cmds|) &&
                (r.Err? ==> r.msg == "Failed to set " + wiring + " mode") &&
                inst.written == old(inst.written) + cmds[..Sent(old(inst.faults), cmds)] &&
                inst.faults == DropN(old(inst.faults), Attempted(old(inst.faults), cmds)) &&
                inst.pending == old(inst.pending)
    {
      if inst == null {
        return Ok(true);
      }
      var ok := WriteAll(inst, WiringCommands(wiring));
      r := if ok then Ok(true) else Err("Failed to set " + wiring + " mode");
    }
  }

  const NotConnected := "Instrument not connected."
  const ScriptMissing := "Cannot locate TSP script"
  const LoadFailed := "Failed to load TSP script"

  /** After an upload attempt: success exactly when every line went out, the loaded flag
      follows it, and the lines sent are a prefix of the upload. */
  predicate UploadOutcome(f: seq<bool>, w0: seq<Command>, script: seq<string>, r: Result<bool>, loaded: bool, w: seq<Command>)
  {
    var cmds := LoadCommands(script);
    (r.Ok? <==> Sent(f, cmds) == |cmds|) && (r.Err? ==> r.msg == LoadFailed) && loaded == r.Ok? &&
    w == w0 + cmds[..Sent(f, cmds)]
  }

  const LoadHeader: Command := Cmd("loadscript IVMultiple")

  /** The entry-point helper, the end of the upload, and the call that runs the script. */
  const LoadTrailer: seq<Command> :=
    [Cmd("function IVMultiple_run(start_v, stop_v, step_v, ilimit, nplc, settle_s)"),
     Cmd("    return iv_sweep_linear(start_v, stop_v, step_v, ilimit, nplc, settle_s)"),
     Cmd("end"), Cmd("endscript"), Cmd("IVMultiple()")]

  /** The upload: the script's lines wrapped in `loadscript` / `endscript`. */
  function LoadCommands(script: seq<string>): (cmds: seq<Command>)
    ensures |cmds| == |script| + 6 && cmds[0] == LoadHeader && cmds[|script| + 1..] == LoadTrailer
    ensures forall k :: 0 <= k < |script| ==> cmds[k + 1] == Cmd(script[k])
  {
    [LoadHeader] + ScriptLines(script) + LoadTrailer
  }

  function ScriptLines(script: seq<string>): (r: seq<Command>)
    ensures |r| == |script| && forall k :: 0 <= k < |script| ==> r[k] == Cmd(script[k])
  {
    seq(|script|, k requires 0 <= k < |script| => Cmd(script[k]))
  }

  function WiringCommands(wiring: string): (cmds: seq<Command>)
    ensures |cmds| == 3
    ensures cmds[2] == (if StartsWith(Lower(wiring), "4") then FourWire else TwoWire)
  {
    [Cmd("pcall(function() smu.measure.terminals = smu.TERMINALS_FRONT end)"),
     Cmd("pcall(function() smu.source.terminals = smu.TERMINALS_FRONT end)"),
     if StartsWith(Lower(wiring), "4") then FourWire else TwoWire]
  }

  const FourWire := Cmd("pcall(function() smu.measure.sense = smu.SENSE_4WIRE end)")
  const TwoWire := Cmd("pcall(function() smu.measure.sense = smu.SENSE_2WIRE end)")

  /** The bookkeeping of one finished segment: its live rows through `handle_point`, its final
      readings, and its printed lines. */
  method RecordSegment(entry: RunEntry, levels: seq<real>, tol: real, segment: nat, d: SegmentData)
    requires Aligned(entry.Lists()) && |d.voltages| == |d.currents|
    modifies entry
    ensures entry.Lists() == SegmentStep(old(entry.Lists()), levels, d)
    ensures entry.adjusted == (old(entry.adjusted) || SegmentAdjusts(old(entry.commandIndex), levels, tol, d))
    ensures entry.printedLines == old(entry.printedLines) + d.lines + [SegmentHeader(entry.runIndex, segment)] + d.lines
  {
    var segStart := entry.commandIndex;
    entry.HandlePoints(levels, tol, PrintedPoints(d.lines));
    entry.FinishSegment(levels, tol, segStart, d.voltages, d.currents);
    entry.LogSegment(segment, d.lines);
  }

  /** The queues after one poll of the stop flag. */
  function AfterPoll(q: Queues): Queues
  {
    Queues(q.faults, q.pending, DropFirst(q.polls))
  }

  /** A trace whose results follow `done` and whose commands follow `sent`. */
  function Prefixed<T>(done: seq<T>, sent: seq<Command>, t: Trace<seq<T>>): Trace<seq<T>>
  {
    Trace(if t.result.Ok? then Ok(done + t.result.value) else Err(t.result.msg), sent + t.sent, t.rest)
  }

  lemma PrefixedEmpty<T>(t: Trace<seq<T>>)
    ensures Prefixed([], [], t) == t
  {
    if t.result.Ok? {
      assert [] + t.result.value == t.result.value;
    }
    assert [] + t.sent == t.sent;
  }

  lemma PrefixedThen<T>(a: seq<T>, sa: seq<Command>, b: seq<T>, sb: seq<Command>, t: Trace<seq<T>>)
    ensures Prefixed(a, sa, Prefixed(b, sb, t)) == Prefixed(a + b, sa + sb, t)
  {
    SentAssoc(sa, sb, t.sent);
    if t.result.Ok? {
      assert a + (b + t.result.value) == (a + b) + t.result.value;
    }
  }

  /** Segments `k..` of one run of `_sweep_worker` on an open session: the stop flag is polled
      before each, and the first cancellation or failure ends the run. */
  function SegmentsTrace(q: Queues, run: nat, segments: seq<Segment>, k: nat, p: SweepParams): Trace<seq<SegmentData>>
    decreases |segments| - k
  {
    if k >= |segments| then Trace(Ok([]), [], q)
    else if FirstSet(q.polls) then Trace(Err(Cancelled), [], AfterPoll(q))
    else
      var t := SegmentTrace(AfterPoll(q), run, k, segments[k], p.ilimit, p.nplc, p.settle);
      if t.result.Err? then Trace(Err(t.result.msg), t.sent, t.rest)
      else Prefixed([t.result.value], t.sent, SegmentsTrace(t.rest, run, segments, k + 1, p))
  }

  /** One run of `_sweep_worker`: every segment in order, polling the stop flag before each. The
      worker reaches its runs only once the script is loaded, so the instrument is connected. */
  method SweepRun(s: SweepSession, run: nat, segments: seq<Segment>, levels: seq<real>, tol: real, p: SweepParams)
    returns (r: Result<RunEntry>)
    requires s.inst != null
    modifies s.inst, s.stop
    ensures var t := SegmentsTrace(old(QueuesOf(s.inst, s.stop)), run, segments, 0, p);
      (r.Ok? <==> t.result.Ok?) && (r.Err? ==> r.msg == t.result.msg) &&
      s.inst.written == old(s.inst.written) + t.sent && QueuesOf(s.inst, s.stop) == t.rest &&
      (r.Ok? ==> fresh(r.value) && Recorded(r.value, run, t.result.value, segments, levels, tol))
  {
    var entry := new RunEntry(run);
    ghost var ds: seq<SegmentData> := [];
    ghost var sent: seq<Command> := [];
    ghost var total := SegmentsTrace(QueuesOf(s.inst, s.stop), run, segments, 0, p);
    PrefixedEmpty(total);
    for k := 0 to |segments|
      invariant fresh(entry) && entry.runIndex == run
      invariant |ds| == k && Balanced(ds)
      invariant entry.Lists() == RunFold(levels, ds)
      invariant entry.printedLines == RunLogAsWritten(run, ds)
      invariant entry.adjusted == RunAdjusted(levels, tol, ds)
      invariant s.inst.written == old(s.inst.written) + sent
      invariant Prefixed(ds, sent, SegmentsTrace(QueuesOf(s.inst, s.stop), run, segments, k, p)) == total
    {
      ghost var q := QueuesOf(s.inst, s.stop);
      ghost var u := SegmentOrCancel(q, run, segments, k, p);
      var data := SweepSegment(s, entry, run, segments, k, levels, tol, p, ds);
      SegmentsStep(q, run, segments, k, p);
      SentAssoc(old(s.inst.written), sent, u.sent);
      if data.Err? {
        return Err(data.msg);
      }
      PrefixedThen(ds, sent, [data.value], u.sent, SegmentsTrace(u.rest, run, segments, k + 1, p));
      ds := ds + [data.value];
      sent := sent + u.sent;
    }
    SegmentsDone(QueuesOf(s.inst, s.stop), run, segments, |segments|, p);
    assert ds + [] == ds && sent + [] == sent;
    r := Ok(entry);
  }

  lemma SegmentsDone(q: Queues, run: nat, segments: seq<Segment>, k: nat, p: SweepParams)
    requires k >= |segments|
    ensures SegmentsTrace(q, run, segments, k, p) == Trace(Ok([]), [], q)
  {
  }

  /** One pass of the run loop on its own: the stop flag is polled, then the segment is swept. */
  function SegmentOrCancel(q: Queues, run: nat, segments: seq<Segment>, k: nat, p: SweepParams): Trace<SegmentData>
    requires k < |segments|
  {
    if FirstSet(q.polls) then Trace(Err(Cancelled), [], AfterPoll(q))
    else SegmentTrace(AfterPoll(q), run, k, segments[k], p.ilimit, p.nplc, p.settle)
  }

  /** A run is its first pass followed, when that pass succeeds, by the rest of the run. */
  lemma SegmentsStep(q: Queues, run: nat, segments: seq<Segment>, k: nat, p: SweepParams)
    requires k < |segments|
    ensures var u := SegmentOrCancel(q, run, segments, k, p);
      SegmentsTrace(q, run, segments, k, p) ==
      if u.result.Err? then Trace(Err(u.result.msg), u.sent, u.rest)
      else Prefixed([u.result.value], u.sent, SegmentsTrace(u.rest, run, segments, k + 1, p))
  {
  }

  /** The body of the `run_sweep` loop for segment `k`: poll the stop flag, sweep the segment and
      record it in the run's entry. */
  method SweepSegment(s: SweepSession, entry: RunEntry, run: nat, segments: seq<Segment>, k: nat, levels: seq<real>,
                      tol: real, p: SweepParams, ghost ds: seq<SegmentData>)
    returns (r: Result<SegmentData>)
    requires s.inst != null && k < |segments| && Balanced(ds) && |ds| == k && entry.runIndex == run
    requires entry.Lists() == RunFold(levels, ds) && entry.printedLines == RunLogAsWritten(run, ds) &&
             entry.adjusted == RunAdjusted(levels, tol, ds)
    modifies s.inst, s.stop, entry
    ensures var u := SegmentOrCancel(old(QueuesOf(s.inst, s.stop)), run, segments, k, p);
      r == u.result && s.inst.written == old(s.inst.written) + u.sent && QueuesOf(s.inst, s.stop) == u.rest
    ensures r.Ok? ==>
      Balanced(ds + [r.value]) && entry.runIndex == run && entry.Lists() == RunFold(levels, ds + [r.value]) &&
      entry.printedLines == RunLogAsWritten(run, ds + [r.value]) && entry.adjusted == RunAdjusted(levels, tol, ds + [r.value])
  {
    ghost var q := QueuesOf(s.inst, s.stop);
    var cancelled := s.stop.IsSet();
    if cancelled {
      return Err(Cancelled);
    }
    r := PerformSweep(s.inst, s.stop, run, k, segments[k], p.ilimit, p.nplc, p.settle);
    if r.Err? {
      return;
    }
    SegmentTraceFacts(AfterPoll(q), run, k, segments[k], p.ilimit, p.nplc, p.settle);
    RunFoldLength(levels, ds);
    RunSnoc(run, levels, tol, ds, r.value);
    RecordSegment(entry, levels, tol, k, r.value);
  }

  /** One more segment in the run's fold, log and adjusted flag. */
  lemma RunSnoc(run: nat, levels: seq<real>, tol: real, ds: seq<SegmentData>, d: SegmentData)
    requires Balanced(ds) && |d.voltages| == |d.currents|
    ensures Balanced(ds + [d]) && (ds + [d])[..|ds|] == ds
    ensures RunFold(levels, ds + [d]) == SegmentStep(RunFold(levels, ds), levels, d)
    ensures RunLogAsWritten(run, ds + [d]) == RunLogAsWritten(run, ds) + d.lines + [SegmentHeader(run, |ds|)] + d.lines
    ensures RunAdjusted(levels, tol, ds + [d]) == (RunAdjusted(levels, tol, ds) || SegmentAdjusts(RunLength(ds), levels, tol, d))
  {
    assert (ds + [d])[..|ds|] == ds;
  }

  /** A finished run: one segment record per planned segment, and the entry holds the lists,
      the log and the flag they produce. */
  ghost predicate Recorded(entry: RunEntry, run: nat, ds: seq<SegmentData>, segments: seq<Segment>, levels: seq<real>, tol: real)
    reads entry
  {
    Balanced(ds) && |ds| == |segments| && entry.runIndex == run &&
    entry.Lists() == RunFold(levels, ds) && entry.printedLines == RunLogAsWritten(run, ds) &&
    entry.adjusted == RunAdjusted(levels, tol, ds)
  }

  /** Run j of `entries` records `runs[j]`, for every j. */
  ghost predicate AllRecorded(entries: seq<RunEntry>, runs: seq<seq<SegmentData>>, segments: seq<Segment>,
                              levels: seq<real>, tol: real)
    reads entries
  {
    |entries| == |runs| && forall j :: 0 <= j < |entries| ==> Recorded(entries[j], j, runs[j], segments, levels, tol)
  }

  lemma AllRecordedSnoc(entries: seq<RunEntry>, runs: seq<seq<SegmentData>>, e: RunEntry, d: seq<SegmentData>,
                        segments: seq<Segment>, levels: seq<real>, tol: real)
    requires AllRecorded(entries, runs, segments, levels, tol)
    requires Recorded(e, |entries|, d, segments, levels, tol)
    ensures AllRecorded(entries + [e], runs + [d], segments, levels, tol)
  {
  }

  /** How the worker ends: the runs, a failure, a silent stop, or an exception raised before
      the worker's handler is in place (it reaches no callback). */
  datatype WorkerEnd = Completed(runs: seq<RunEntry>) | Failed(message: string) | Quit | Unhandled(message: string)

  /** `range(total_runs)` for any integer. */
  function RunCount(runs: int): nat
  {
    if runs < 0 then 0 else runs
  }

  /** Runs `k..` of `_sweep_worker`: the stop flag is polled before each run. */
  function RunsTrace(q: Queues, segments: seq<Segment>, p: SweepParams, k: nat): Trace<seq<seq<SegmentData>>>
    decreases RunCount(p.runs) - k
  {
    if k >= RunCount(p.runs) then Trace(Ok([]), [], q)
    else if FirstSet(q.polls) then Trace(Err(Cancelled), [], AfterPoll(q))
    else
      var t := SegmentsTrace(AfterPoll(q), k, segments, 0, p);
      if t.result.Err? then Trace(Err(t.result.msg), t.sent, t.rest)
      else Prefixed([t.result.value], t.sent, RunsTrace(t.rest, segments, p, k + 1))
  }

  /** One pass of the worker's run loop on its own: the stop flag is polled, then run k is swept. */
  function RunOrCancel(q: Queues, segments: seq<Segment>, p: SweepParams, k: nat): Trace<seq<SegmentData>>
  {
    if FirstSet(q.polls) then Trace(Err(Cancelled), [], AfterPoll(q))
    else SegmentsTrace(AfterPoll(q), k, segments, 0, p)
  }

  /** The runs from k on are run k's pass followed, when it succeeds, by the later runs. */
  lemma RunsStep(q: Queues, segments: seq<Segment>, p: SweepParams, k: nat)
    requires k < RunCount(p.runs)
    ensures var o := RunOrCancel(q, segments, p, k);
      RunsTrace(q, segments, p, k) ==
      if o.result.Err? then Trace(Err(o.result.msg), o.sent, o.rest)
      else Prefixed([o.result.value], o.sent, RunsTrace(o.rest, segments, p, k + 1))
  {
  }

  /** The body of the `_sweep_worker` run loop for run k: poll the stop flag, then sweep the run. */
  method RunOnce(s: SweepSession, k: nat, segments: seq<Segment>, levels: seq<real>, tol: real, p: SweepParams)
    returns (r: Result<RunEntry>)
    requires s.inst != null
    modifies s.inst, s.stop
    ensures var o := RunOrCancel(old(QueuesOf(s.inst, s.stop)), segments, p, k);
      (r.Ok? <==> o.result.Ok?) && (r.Err? ==> r.msg == o.result.msg) &&
      s.inst.written == old(s.inst.written) + o.sent && QueuesOf(s.inst, s.stop) == o.rest &&
      (r.Ok? ==> fresh(r.value) && Recorded(r.value, k, o.result.value, segments, levels, tol))
  {
    var cancelled := s.stop.IsSet();
    if cancelled {
      assert s.inst.written + [] == s.inst.written;
      return Err(Cancelled);
    }
    r := SweepRun(s, k, segments, levels, tol, p);
  }

  /** How the worker's opening ends, what it wrote, what it left, and the loaded flag. */
  datatype Opening = Opening(halt: Option<WorkerEnd>, sent: seq<Command>, rest: Queues, loaded: bool)

  /** The start of `_sweep_worker`'s handler on a connected session: UploadTrace, then
      WiringTrace unless the upload step halted. */
  function OpeningTrace(q: Queues, loaded: bool, script: Option<seq<string>>, wiring: string): Opening
  {
    var u := UploadTrace(q, loaded, script);
    if u.halt.Some? then u
    else
      var o := WiringTrace(u.rest, wiring);
      Opening(o.halt, u.sent + o.sent, o.rest, true)
  }

  /** `_ensure_script_loaded` on a connected session (the upload unless the script is loaded),
      then a poll of the stop flag. */
  function UploadTrace(q: Queues, loaded: bool, script: Option<seq<string>>): Opening
  {
    if !loaded && script.None? then Opening(Some(Failed(ScriptMissing)), [], q, false)
    else
      var up := if loaded then [] else LoadCommands(script.value);
      var n := Sent(q.faults, up);
      var q1 := Queues(DropN(q.faults, Attempted(q.faults, up)), q.pending, q.polls);
      if n < |up| then Opening(Some(Failed(LoadFailed)), up[..n], q1, false)
      else if FirstSet(q1.polls) then Opening(Some(Quit), up, AfterPoll(q1), true)
      else Opening(None, up, AfterPoll(q1), true)
  }

  /** `_apply_wiring_mode` on a connected session, then a poll of the stop flag. */
  function WiringTrace(q: Queues, wiring: string): Opening
  {
    var wc := WiringCommands(wiring);
    var m := Sent(q.faults, wc);
    var q1 := Queues(DropN(q.faults, Attempted(q.faults, wc)), q.pending, q.polls);
    if m < |wc| then Opening(Some(Failed("Failed to set " + wiring + " mode")), wc[..m], q1, true)
    else if FirstSet(q1.polls) then Opening(Some(Quit), wc, AfterPoll(q1), true)
    else Opening(None, wc, AfterPoll(q1), true)
  }

  /** `_sweep_worker`: plan the segments, then the opening, then `total_runs` runs over the
      planned segments with the tolerance `max(abs(step) * 0.02, 1e-6)`. */
  method SweepWorker(s: SweepSession, script: Option<seq<string>>, wiring: string, p: SweepParams)
    returns (e: WorkerEnd, ghost plan: Result<Plan>)
    modifies s, s.inst, s.stop
    ensures s.inst == old(s.inst)
    ensures plan.Err? <==> e.Unhandled?
    ensures plan.Err? ==> e.message == plan.msg && s.inst == old(s.inst) && s.stop.polls == old(s.stop.polls)
    ensures plan.Ok? ==> plan.value.segments == SegmentList(p.start, p.stop, p.step)
    ensures plan.Ok? && s.inst == null ==> e == Failed(NotConnected)
    ensures plan.Ok? && s.inst != null ==>
      var o := OpeningTrace(old(QueuesOf(s.inst, s.stop)), old(s.scriptLoaded), script, wiring);
      s.scriptLoaded == o.loaded &&
      (o.halt.Some? ==> e == o.halt.value && s.inst.written == old(s.inst.written) + o.sent && QueuesOf(s.inst, s.stop) == o.rest) &&
      (o.halt.None? ==>
         var t := RunsTrace(o.rest, plan.value.segments, p, 0);
         (e.Completed? <==> t.result.Ok?) && (e.Failed? <==> t.result.Err?) && (e.Failed? ==> e.message == t.result.msg) &&
         s.inst.written == old(s.inst.written) + (o.sent + t.sent) && QueuesOf(s.inst, s.stop) == t.rest &&
         (e.Completed? ==> Completes(e.runs, t.result.value, plan.value, AdjustTolerance(p.step))))
  {
    var planned := PlanSegments(p);
    plan := planned;
    if planned.Err? {
      return Unhandled(planned.msg), plan;
    }
    e := PrepareAndRun(s, script, wiring, planned.value, p);
  }

  /** The plan `_sweep_worker` asks for, with only the facts about it the worker needs. */
  method PlanSegments(p: SweepParams) returns (r: Result<Plan>)
    ensures r.Err? ==> r.msg == "Step voltage must not be zero."
    ensures r.Ok? ==> r.value.segments == SegmentList(p.start, p.stop, p.step)
  {
    ghost var ladders;
    r, ladders := BuildSegments(p.start, p.stop, p.step);
  }

  /** `_sweep_worker` after the plan: the opening, then the runs when it did not halt. */
  method PrepareAndRun(s: SweepSession, script: Option<seq<string>>, wiring: string, plan: Plan, p: SweepParams)
    returns (e: WorkerEnd)
    modifies s, s.inst, s.stop
    ensures s.inst == old(s.inst) && !e.Unhandled?
    ensures s.inst == null ==> e == Failed(NotConnected)
    ensures s.inst != null ==>
      var o := OpeningTrace(old(QueuesOf(s.inst, s.stop)), old(s.scriptLoaded), script, wiring);
      s.scriptLoaded == o.loaded &&
      (o.halt.Some? ==> e == o.halt.value && s.inst.written == old(s.inst.written) + o.sent && QueuesOf(s.inst, s.stop) == o.rest) &&
      (o.halt.None? ==>
         var t := RunsTrace(o.rest, plan.segments, p, 0);
         (e.Completed? <==> t.result.Ok?) && (e.Failed? <==> t.result.Err?) && (e.Failed? ==> e.message == t.result.msg) &&
         s.inst.written == old(s.inst.written) + (o.sent + t.sent) && QueuesOf(s.inst, s.stop) == t.rest &&
         (e.Completed? ==> Completes(e.runs, t.result.value, plan, AdjustTolerance(p.step))))
  {
    var halt := Prepare(s, script, wiring);
    if halt.Some? {
      return halt.value;
    }
    ghost var o := OpeningTrace(old(QueuesOf(s.inst, s.stop)), old(s.scriptLoaded), script, wiring);
    e := SweepRuns(s, plan.segments, plan.path, AdjustTolerance(p.step), p);
    SentAssoc(old(s.inst.written), o.sent, RunsTrace(o.rest, plan.segments, p, 0).sent);
  }

  /** The completed runs: one entry per run, each recording its segments over the plan. */
  ghost predicate Completes(entries: seq<RunEntry>, runs: seq<seq<SegmentData>>, plan: Plan, tol: real)
    reads set k | 0 <= k < |entries| :: entries[k]
  {
    |entries| == |runs| &&
    forall k :: 0 <= k < |entries| ==> Recorded(entries[k], k, runs[k], plan.segments, plan.path, tol)
  }

  /** The start of `_sweep_worker`'s handler: OpeningTrace on a connected session. */
  method Prepare(s: SweepSession, script: Option<seq<string>>, wiring: string) returns (halt: Option<WorkerEnd>)
    modifies s, s.inst, s.stop
    ensures s.inst == old(s.inst) && (halt.Some? ==> !halt.value.Unhandled?)
    ensures s.inst == null ==> halt == Some(Failed(NotConnected)) && s.stop.polls == old(s.stop.polls)
    ensures s.inst != null ==>
      var o := OpeningTrace(old(QueuesOf(s.inst, s.stop)), old(s.scriptLoaded), script, wiring);
      halt == o.halt && s.scriptLoaded == o.loaded &&
      s.inst.written == old(s.inst.written) + o.sent && QueuesOf(s.inst, s.stop) == o.rest
  {
    if s.inst == null {
      return Some(Failed(NotConnected));
    }
    halt := LoadAndPoll(s, script);
    if halt.Some? {
      return;
    }
    ghost var w := s.inst.written;
    ghost var o := WiringTrace(QueuesOf(s.inst, s.stop), wiring);
    halt := WireAndPoll(s, wiring);
    SentAssoc(old(s.inst.written), w[|old(s.inst.written)|..], o.sent);
  }

  /** The upload step of the opening and the poll after it. */
  method LoadAndPoll(s: SweepSession, script: Option<seq<string>>) returns (halt: Option<WorkerEnd>)
    requires s.inst != null
    modifies s, s.inst, s.stop
    ensures s.inst == old(s.inst) && (halt.Some? ==> !halt.value.Unhandled?)
    ensures var u := UploadTrace(old(QueuesOf(s.inst, s.stop)), old(s.scriptLoaded), script);
      halt == u.halt && s.scriptLoaded == u.loaded &&
      s.inst.written == old(s.inst.written) + u.sent && QueuesOf(s.inst, s.stop) == u.rest
  {
    var loaded := s.EnsureScriptLoaded(script);
    if loaded.Err? {
      return Some(Failed(loaded.msg));
    }
    var stopped := s.stop.IsSet();
    halt := if stopped then Some(Quit) else None;
  }

  /** The wiring step of the opening and the poll after it. */
  method WireAndPoll(s: SweepSession, wiring: string) returns (halt: Option<WorkerEnd>)
    requires s.inst != null
    modifies s.inst, s.stop
    ensures halt.Some? ==> !halt.value.Unhandled?
    ensures var o := WiringTrace(old(QueuesOf(s.inst, s.stop)), wiring);
      halt == o.halt && s.inst.written == old(s.inst.written) + o.sent && QueuesOf(s.inst, s.stop) == o.rest
  {
    var wired := s.ApplyWiringMode(wiring);
    if wired.Err? {
      return Some(Failed(wired.msg));
    }
    var stopped := s.stop.IsSet();
    halt := if stopped then Some(Quit) else None;
  }

  /** The run loop of `_sweep_worker`, polling the stop flag before each run. */
  method SweepRuns(s: SweepSession, segments: seq<Segment>, levels: seq<real>, tol: real, p: SweepParams)
    returns (e: WorkerEnd)
    requires s.inst != null
    modifies s.inst, s.stop
    ensures var t := RunsTrace(old(QueuesOf(s.inst, s.stop)), segments, p, 0);
      (e.Completed? <==> t.result.Ok?) && (e.Failed? <==> t.result.Err?) && (e.Failed? ==> e.message == t.result.msg) &&
      s.inst.written == old(s.inst.written) + t.sent && QueuesOf(s.inst, s.stop) == t.rest &&
      (e.Completed? ==>
         |e.runs| == |t.result.value| == RunCount(p.runs) &&
         forall k :: 0 <= k < |e.runs| ==> Recorded(e.runs[k], k, t.result.value[k], segments, levels, tol))
  {
    ghost var runs: seq<seq<SegmentData>> := [];
    ghost var sent: seq<Command> := [];
    ghost var total := RunsTrace(QueuesOf(s.inst, s.stop), segments, p, 0);
    PrefixedEmpty(total);
    var entries: seq<RunEntry> := [];
    for k := 0 to RunCount(p.runs)
      invariant |entries| == |runs| == k
      invariant AllRecorded(entries, runs, segments, levels, tol)
      invariant s.inst.written == old(s.inst.written) + sent
      invariant Prefixed(runs, sent, RunsTrace(QueuesOf(s.inst, s.stop), segments, p, k)) == total
    {
      ghost var q := QueuesOf(s.inst, s.stop);
      RunsStep(q, segments, p, k);
      ghost var t := RunOrCancel(q, segments, p, k);
      var one := RunOnce(s, k, segments, levels, tol, p);
      SentAssoc(old(s.inst.written), sent, t.sent);
      if one.Err? {
        return Failed(one.msg);
      }
      PrefixedThen(runs, sent, [t.result.value], t.sent, RunsTrace(t.rest, segments, p, k + 1));
      AllRecordedSnoc(entries, runs, one.value, t.result.value, segments, levels, tol);
      entries := entries + [one.value];
      runs := runs + [t.result.value];
      sent := sent + t.sent;
    }
    assert runs + [] == runs && sent + [] == sent;
    e := Completed(entries);
  }
}
