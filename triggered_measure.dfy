/** The single-shot triggered voltmeter (2450 triggered-measure panel): the
    script prints progress lines, an optional plain result line and a
    `$MEAS:DONE$<value>` or `$MEAS:TIMEOUT$` sentinel; the worker sorts the
    response into progress, a measurement and a status hint, and the panel
    may force the source output on for the measurement and puts it back
    afterwards. */
module TriggeredMeasure {
  import opened Outcome
  import opened PyText
  import opened Channel
  import opened DrainQuery
  import opened ResponseParsers

  const DonePrefix: string := "$MEAS:DONE$"
  const TimeoutSentinel: string := "$MEAS:TIMEOUT$"
  /** `READ_DRAIN_TIMEOUT_MS`. */
  const DrainCap: int := 750

  // ------------------------------------------------------------ sentinel lines

  datatype Hint = Done | TimedOut

  datatype Sentinel = Sentinel(hint: Hint, value: Option<real>)

  /** No line starts with both sentinels (they differ at their seventh character). */
  lemma SentinelsExclusive(line: string)
    ensures StartsWith(line, DonePrefix) ==> !StartsWith(line, TimeoutSentinel)
  {
    if StartsWith(line, DonePrefix) {
      assert line[6] == 'D';
    }
  }

  /** `_parse_measurement_sentinel`. */
  function ParseSentinel(line: string): (r: Option<Sentinel>)
    ensures r.Some? <==> IsSentinel(line)
    ensures r.Some? ==> (r.value.hint == Done <==> StartsWith(line, DonePrefix))
    ensures r.Some? && r.value.hint == TimedOut ==> r.value.value.None?
  {
    SentinelsExclusive(line);
    if StartsWith(line, DonePrefix) then
      Some(Sentinel(Done, ParseReal(Strip(line[|DonePrefix|..]))))
    else if StartsWith(line, TimeoutSentinel) then Some(Sentinel(TimedOut, None))
    else None
  }

  /** The value of a done sentinel is whatever `float()` makes of the rest of the line. */
  lemma DoneSentinelValue(line: string)
    requires StartsWith(line, DonePrefix)
    ensures ParseSentinel(line) == Some(Sentinel(Done, ParseReal(line[|DonePrefix|..])))
  {
    ParseRealOfStrip(line[|DonePrefix|..]);
  }

  predicate IsSentinel(line: string) { StartsWith(line, DonePrefix) || StartsWith(line, TimeoutSentinel) }

  lemma DoneSentinelRoundTrip(n: int)
    ensures ParseSentinel(DonePrefix + IntText(n)) == Some(Sentinel(Done, Some(n as real)))
  {
    var line := DonePrefix + IntText(n);
    assert line[..|DonePrefix|] == DonePrefix;
    assert line[|DonePrefix|..] == IntText(n);
    DoneSentinelValue(line);
    IntTextRoundTrip(n);
    IntTextIsReal(IntText(n));
  }

  // ------------------------------------------------------------ worker classification

  /** `[line.rstrip() for line in lines if line.strip()]`. */
  function KeptLines(lines: seq<string>): seq<string>
  {
    if lines == [] then []
    else
      var last := lines[|lines| - 1];
      KeptLines(lines[..|lines| - 1]) + (if IsBlank(last) then [] else [RStrip(last)])
  }

  /** The value of the last `$MEAS:DONE$` sentinel that carries one. */
  function SentinelValue(ls: seq<string>): Option<real>
  {
    if ls == [] then None
    else
      var s := ParseSentinel(ls[|ls| - 1]);
      if s.Some? && s.value.value.Some? then s.value.value else SentinelValue(ls[..|ls| - 1])
  }

  /** The hint of the last sentinel line. */
  function LastHint(ls: seq<string>): Option<Hint>
  {
    if ls == [] then None
    else
      var s := ParseSentinel(ls[|ls| - 1]);
      if s.Some? then Some(s.value.hint) else LastHint(ls[..|ls| - 1])
  }

  /** The index of the last non-sentinel line among the first n. */
  function LastPlain(ls: seq<string>, n: nat): (r: Option<nat>)
    requires n <= |ls|
    ensures r.Some? ==> r.value < n && !IsSentinel(ls[r.value])
  {
    if n == 0 then None else if !IsSentinel(ls[n - 1]) then Some(n - 1) else LastPlain(ls, n - 1)
  }

  /** The lines with the one at `ri` (if any) removed, order kept. */
  function Without(ls: seq<string>, ri: Option<nat>): seq<string>
  {
    if ri.Some? && ri.value < |ls| then ls[..ri.value] + ls[ri.value + 1..] else ls
  }

  datatype WorkerOutcome =
    | Failed(error: string)
    | Finished(progress: seq<string>, measurement: Option<real>, hint: Option<Hint>)

  /** What `_measurement_worker` makes of the response lines. */
  function Classify(lines: seq<string>): WorkerOutcome
  {
    var kept := KeptLines(lines);
    if kept == [] then Failed("Instrument returned no data.")
    else
      var ri := LastPlain(kept, |kept|);
      var progress := Without(kept, ri);
      var resultLine := if ri.Some? then kept[ri.value] else "";
      var fromResult: Option<real> :=
        if resultLine != [] && Lower(resultLine) != "nil" then ParseReal(resultLine) else None;
      var progress' :=
        if resultLine != [] && Lower(resultLine) != "nil" && fromResult.None? then progress + [resultLine] else progress;
      Finished(progress', if fromResult.Some? then fromResult else SentinelValue(kept), LastHint(kept))
  }

  /** The first loop of `_measurement_worker`: drop blank lines, right-strip the rest. */
  method KeepNonBlank(lines: seq<string>) returns (kept: seq<string>)
    ensures kept == KeptLines(lines)
  {
    kept := [];
    for i := 0 to |lines|
      invariant kept == KeptLines(lines[..i])
    {
      assert lines[..i + 1][..i] == lines[..i];
      if !IsBlank(lines[i]) {
        kept := kept + [RStrip(lines[i])];
      }
    }
    assert lines[..|lines|] == lines;
  }

  /** The sentinel loop: the last hint, the last sentinel value, and which lines are sentinels. */
  method ScanSentinels(kept: seq<string>) returns (value: Option<real>, hint: Option<Hint>, isSentinel: seq<bool>)
    ensures value == SentinelValue(kept) && hint == LastHint(kept)
    ensures |isSentinel| == |kept| && forall j :: 0 <= j < |kept| ==> isSentinel[j] == IsSentinel(kept[j])
  {
    value := None;
    hint := None;
    isSentinel := [];
    for i := 0 to |kept|
      invariant value == SentinelValue(kept[..i])
      invariant hint == LastHint(kept[..i])
      invariant |isSentinel| == i && forall j :: 0 <= j < i ==> isSentinel[j] == IsSentinel(kept[j])
    {
      assert kept[..i + 1][..i] == kept[..i];
      var sentinel := ParseSentinel(kept[i]);
      if sentinel.Some? {
        hint := Some(sentinel.value.hint);
        if sentinel.value.value.Some? {
          value := sentinel.value.value;
        }
      }
      isSentinel := isSentinel + [sentinel.Some?];
    }
    assert kept[..|kept|] == kept;
  }

  /** The backward scan for the last non-sentinel line. */
  method FindResultIndex(kept: seq<string>, isSentinel: seq<bool>) returns (resultIndex: Option<nat>)
    requires |isSentinel| == |kept| && forall j :: 0 <= j < |kept| ==> isSentinel[j] == IsSentinel(kept[j])
    ensures resultIndex == LastPlain(kept, |kept|)
  {
    resultIndex := None;
    var idx := |kept|;
    while idx > 0
      invariant 0 <= idx <= |kept|
      invariant LastPlain(kept, |kept|) == LastPlain(kept, idx)
      decreases idx
    {
      if !isSentinel[idx - 1] {
        return Some(idx - 1);
      }
      idx := idx - 1;
    }
  }

  /** The progress loop: every line but the result line, in order. */
  method CollectProgress(kept: seq<string>, resultIndex: Option<nat>) returns (progress: seq<string>)
    requires resultIndex.Some? ==> resultIndex.value < |kept|
    ensures progress == Without(kept, resultIndex)
  {
    progress := [];
    for i := 0 to |kept|
      invariant progress ==
        if resultIndex.Some? && resultIndex.value < i then kept[..resultIndex.value] + kept[resultIndex.value + 1..i]
        else kept[..i]
    {
      if resultIndex.Some? && i == resultIndex.value {
        continue;
      }
      progress := progress + [kept[i]];
    }
    assert kept[..|kept|] == kept;
  }

  /** `_measurement_worker`, from the response lines to the report. */
  method ClassifyResponse(lines: seq<string>) returns (outcome: WorkerOutcome)
    ensures outcome == Classify(lines)
  {
    var kept := KeepNonBlank(lines);
    if kept == [] {
      return Failed("Instrument returned no data.");
    }
    var sentinelMeasurement, statusHint, isSentinel := ScanSentinels(kept);
    var resultIndex := FindResultIndex(kept, isSentinel);
    var resultLine := if resultIndex.Some? then kept[resultIndex.value] else "";
    var progress := CollectProgress(kept, resultIndex);
    var measurement: Option<real> := None;
    if resultLine != [] {
      if Lower(resultLine) != "nil" {
        measurement := ParseReal(resultLine);
        if measurement.None? {
          progress := progress + [resultLine];
        }
      }
    }
    if measurement.None? && sentinelMeasurement.Some? {
      measurement := sentinelMeasurement;
    }
    outcome := Finished(progress, measurement, statusHint);
  }

  // ------------------------------------------------------------ classification properties

  lemma {:induction false} KeptLinesEmpty(lines: seq<string>)
    ensures KeptLines(lines) == [] <==> forall i :: 0 <= i < |lines| ==> IsBlank(lines[i])
    decreases |lines|
  {
    if lines != [] {
      var init := lines[..|lines| - 1];
      KeptLinesEmpty(init);
      assert forall i :: 0 <= i < |init| ==> init[i] == lines[i];
    }
  }

  predicate NoneEmpty(ls: seq<string>) { forall i :: 0 <= i < |ls| ==> ls[i] != [] }

  lemma {:induction false} KeptLinesNonEmpty(lines: seq<string>)
    ensures NoneEmpty(KeptLines(lines))
    decreases |lines|
  {
    if lines != [] {
      var last := lines[|lines| - 1];
      KeptLinesNonEmpty(lines[..|lines| - 1]);
      if !IsBlank(last) {
        RStripOfNonBlank(last);
      }
      var a := KeptLines(lines[..|lines| - 1]);
      var b: seq<string> := if IsBlank(last) then [] else [RStrip(last)];
      assert forall i :: |a| <= i < |a + b| ==> (a + b)[i] == b[i - |a|];
    }
  }

  lemma RStripOfNonBlank(s: string)
    requires !IsBlank(s)
    ensures RStrip(s) != []
  {
    var l := LeadingSpaces(s);
    assert LStrip(s) != [];
    assert l < |s| && !IsSpace(s[l]);
    TrailingSpacesAll(s);
    assert TrailingStart(s) > l;
  }

  /** The worker reports a failure exactly when every line is blank. */
  lemma ClassifyNoData(lines: seq<string>)
    ensures Classify(lines).Failed? <==> forall i :: 0 <= i < |lines| ==> IsBlank(lines[i])
  {
    KeptLinesEmpty(lines);
  }

  lemma {:induction false} LastPlainIsLast(ls: seq<string>, n: nat)
    requires n <= |ls|
    ensures LastPlain(ls, n).None? ==> forall j :: 0 <= j < n ==> IsSentinel(ls[j])
    ensures LastPlain(ls, n).Some? ==> forall j :: LastPlain(ls, n).value < j < n ==> IsSentinel(ls[j])
    decreases n
  {
    if n > 0 && IsSentinel(ls[n - 1]) {
      LastPlainIsLast(ls, n - 1);
    }
  }

  /** The result line is the last non-sentinel line: everything after it is a sentinel, and
      without one every line is a sentinel. */
  lemma ResultLineIsLastPlain(lines: seq<string>)
    ensures var kept := KeptLines(lines);
      var ri := LastPlain(kept, |kept|);
      (ri.None? ==> forall j :: 0 <= j < |kept| ==> IsSentinel(kept[j])) &&
      (ri.Some? ==> !IsSentinel(kept[ri.value]) && forall j :: ri.value < j < |kept| ==> IsSentinel(kept[j]))
  {
    var kept := KeptLines(lines);
    LastPlainIsLast(kept, |kept|);
  }

  /** No kept line is lost: each is reported as progress, unless it is the result line and
      gives the measurement or says `nil`. */
  lemma ClassifyKeepsLines(lines: seq<string>)
    requires Classify(lines).Finished?
    ensures var kept := KeptLines(lines);
      var ri := LastPlain(kept, |kept|);
      var p := Classify(lines).progress;
      (ri.None? ==> p == kept) &&
      (ri.Some? ==>
        multiset(p) + (if p == Without(kept, ri) then multiset{kept[ri.value]} else multiset{}) == multiset(kept))
  {
    var kept := KeptLines(lines);
    var ri := LastPlain(kept, |kept|);
    if ri.Some? {
      var i := ri.value;
      assert kept == kept[..i] + [kept[i]] + kept[i + 1..];
      var p := Classify(lines).progress;
      assert p == Without(kept, ri) || p == Without(kept, ri) + [kept[i]];
    }
  }

  /** A numeric result line gives the measurement; the sentinel value is only a fallback. */
  lemma ResultLineWins(lines: seq<string>)
    requires Classify(lines).Finished?
    ensures var kept := KeptLines(lines);
      var ri := LastPlain(kept, |kept|);
      var o := Classify(lines);
      (ri.Some? && IsReal(kept[ri.value]) ==> o.measurement == ParseReal(kept[ri.value])) &&
      ((ri.None? || !IsReal(kept[ri.value])) ==> o.measurement == SentinelValue(kept))
  {
    var kept := KeptLines(lines);
    KeptLinesNonEmpty(lines);
    var ri := LastPlain(kept, |kept|);
    if ri.Some? && Lower(kept[ri.value]) == "nil" {
      assert kept[ri.value][0] == 'n' || kept[ri.value][0] == 'N' by {
        assert Lower(kept[ri.value])[0] == LowerChar(kept[ri.value][0]);
      }
      NilNotReal(kept[ri.value]);
    }
  }

  lemma NilNotReal(s: string)
    requires s != [] && (s[0] == 'n' || s[0] == 'N')
    ensures !IsReal(s)
  {
    assert LeadingSpaces(s) == 0;
    TrailingSpacesAll(s);
    assert Strip(s)[0] == s[0];
    NotRealLead(s);
  }

  lemma KeptSingle(line: string)
    requires line != [] && !IsSpace(line[0]) && !IsSpace(line[|line| - 1])
    ensures KeptLines([line]) == [line]
  {
    NoEdgeSpaceStripFixed(line);
    assert TrailingStart(line) == |line|;
    var one: seq<string> := [line];
    assert one[..0] == [];
  }

  /** A response that is one sentinel line: the line is logged as progress, and the
      sentinel gives the value and the hint. */
  lemma ClassifySentinelOnly(line: string)
    requires IsSentinel(line) && !IsSpace(line[|line| - 1])
    ensures Classify([line]) == Finished([line], ParseSentinel(line).value.value, Some(ParseSentinel(line).value.hint))
  {
    assert line[0] == '$';
    KeptSingle(line);
    var one: seq<string> := [line];
    assert LastPlain(one, 1) == None;
    assert one[..0] == [];
    assert SentinelValue(one) == ParseSentinel(line).value.value;
  }

  lemma ClassifyDoneOnly(n: int)
    ensures Classify([DonePrefix + IntText(n)]) == Finished([DonePrefix + IntText(n)], Some(n as real), Some(Done))
  {
    var line := DonePrefix + IntText(n);
    DoneSentinelRoundTrip(n);
    IntTextChars(n);
    assert line[|line| - 1] == IntText(n)[|IntText(n)| - 1];
    ClassifySentinelOnly(line);
  }

  lemma ClassifyTimeoutOnly()
    ensures Classify([TimeoutSentinel]) == Finished([TimeoutSentinel], None, Some(TimedOut))
  {
    assert StartsWith(TimeoutSentinel, TimeoutSentinel);
    assert !StartsWith(TimeoutSentinel, DonePrefix) by {
      assert TimeoutSentinel[..|DonePrefix|][6] != DonePrefix[6];
    }
    assert ParseSentinel(TimeoutSentinel) == Some(Sentinel(TimedOut, None));
    ClassifySentinelOnly(TimeoutSentinel);
  }

  // ------------------------------------------------------------ buffer and float queries

  /** `_read_latest_from_buffer` on the lines of a successful query. */
  function LatestValue(lines: seq<string>): (r: Option<real>)
    ensures r.Some? ==>
      var values := BufferValues(Join(lines, '\n'));
      lines != [] && values != [] && r.value == values[|values| - 1]
  {
    if lines == [] then None
    else
      var values := BufferValues(Join(lines, '\n'));
      if values == [] then None else Some(values[|values| - 1])
  }

  /** A buffer printed as one line of integers yields its last reading. */
  lemma LatestValueOfDump(ns: seq<int>)
    requires ns != []
    ensures LatestValue([Join(IntFields(ns), ',')]) == Some(ns[|ns| - 1] as real)
  {
    BufferRoundTrip(ns);
    LatestOfOneLine(Join(IntFields(ns), ','), ns);
  }

  /** A one-line reply whose values are those of `ns` yields the last of them. */
  lemma LatestOfOneLine(d: string, ns: seq<int>)
    requires ns != [] && BufferValues(d) == seq(|ns|, i requires 0 <= i < |ns| => ns[i] as real)
    ensures LatestValue([d]) == Some(ns[|ns| - 1] as real)
  {
    assert Join([d], '\n') == d;
  }

  /** `_query_float` on the reply text. */
  function FloatState(reply: string): (r: Result<real>)
    ensures Strip(reply) == [] ==> r.Err?
    ensures Contains(Lower(Strip(reply)), "off") ==> r == Ok(0.0)
    ensures !Contains(Lower(Strip(reply)), "off") && Contains(Lower(Strip(reply)), "on") ==> r == Ok(1.0)
    ensures !Contains(Lower(Strip(reply)), "off") && !Contains(Lower(Strip(reply)), "on") ==>
      (r.Ok? <==> Strip(reply) != [] && IsReal(reply)) && (r.Ok? ==> Some(r.value) == ParseReal(reply))
  {
    var response := Strip(reply);
    ParseRealOfStrip(reply);
    if response == [] then Err("Instrument returned no data.")
    else
      var normalized := Lower(response);
      if Contains(normalized, "off") then Ok(0.0)
      else if Contains(normalized, "on") then Ok(1.0)
      else
        match ParseReal(response)
        case None => Err("Unexpected response")
        case Some(v) => Ok(v)
  }

  /** A numeric readback has no letters, so it is taken as the number. */
  lemma FloatStateNumeric(n: int)
    ensures FloatState(IntText(n)) == Ok(n as real)
  {
    var s := IntText(n);
    IntTextRoundTrip(n);
    IntTextIsReal(s);
    IntTextChars(n);
    NoEdgeSpaceStripFixed(s);
    LowerIntText(n);
    if Contains(Lower(s), "on") {
      ContainsHead(Lower(s), "on");
      assert false;
    }
    if Contains(Lower(s), "off") {
      ContainsHead(Lower(s), "off");
      assert false;
    }
  }

  lemma LowerIntText(n: int)
    ensures 'o' !in Lower(IntText(n))
  {
    var s := IntText(n);
    IntTextChars(n);
    forall k | 0 <= k < |s|
      ensures Lower(s)[k] != 'o'
    {
      assert Lower(s)[k] == LowerChar(s[k]);
    }
  }

  /** The source reports its state as text: "OFF" is 0 and "ON" is 1. */
  lemma FloatStateWords()
    ensures FloatState("OFF") == Ok(0.0)
    ensures FloatState("ON") == Ok(1.0)
  {
    assert Strip("OFF") == "OFF" by { NoEdgeSpaceStripFixed("OFF"); }
    assert Strip("ON") == "ON" by { NoEdgeSpaceStripFixed("ON"); }
    assert Lower("OFF") == "off";
    assert Lower("ON") == "on";
    assert StartsWith("off", "off");
    assert !StartsWith("on", "off") && !StartsWith("n", "off") && !StartsWith("", "off");
    assert Contains("on", "on");
  }

  /** The reply to a query: a VISA error if the write or the read failed. */
  function QueryFloatReply(o: ReadOutcome): Result<real>
  {
    match o
    case Line(t) => FloatState(t)
    case _ => Err("VISA error")
  }

  // ------------------------------------------------------------ the panel

  datatype Status = MeasurementFailed | Cancelled | TriggerTimeout | NoMeasurement | MeasurementComplete

  /** `latest_value`: the buffer reading when there is one, else the script's measurement. */
  function DisplayValue(buffer: Option<real>, measurement: Option<real>): (r: Option<real>)
    ensures buffer.Some? ==> r == buffer
    ensures buffer.None? ==> r == measurement
  {
    if buffer.Some? then buffer else measurement
  }

  /** The status `finalize` shows. */
  function FinishStatus(error: bool, latest: Option<real>, cancelRequested: bool, hint: Option<Hint>): (s: Status)
    ensures s == MeasurementComplete <==> !error && latest.Some?
    ensures s == MeasurementFailed <==> error
    ensures s == TriggerTimeout <==> !error && latest.None? && !cancelRequested && hint == Some(TimedOut)
  {
    if error then MeasurementFailed
    else if latest.Some? then MeasurementComplete
    else if cancelRequested then Cancelled
    else if hint == Some(TimedOut) then TriggerTimeout
    else NoMeasurement
  }

  const QueryOutput: Command := Cmd("print(smu.source.output)")
  const OutputOn: Command := Cmd("smu.source.output = smu.ON")
  const OutputOff: Command := Cmd("smu.source.output = smu.OFF")
  const BufferQuery: Command := Cmd("printbuffer(1, defbuffer1.n, defbuffer1)")

  /** The command a `write` or `query` of `c` logs: none when the write fails. */
  function Logged(faults: seq<bool>, c: Command): seq<Command>
  {
    if FirstSet(faults) then [] else [c]
  }

  class TriggeredPanel {
    var inst: Instrument?
    /** The "force output on" check box. */
    var forceOutput: bool
    /** `_output_restore`: the output state seen before it was switched on, if it was. */
    var outputRestore: Option<real>
    var running: bool
    var cancelRequested: bool
    var measurements: seq<real>
    var status: Status

    /** A restore marker is only ever left by switching an OFF output on. */
    predicate Valid()
      reads this
    {
      outputRestore.Some? ==> outputRestore.value <= 0.5
    }

    constructor (inst0: Instrument?, force: bool)
      ensures inst == inst0 && forceOutput == force && outputRestore == None && !running && !cancelRequested
      ensures measurements == [] && status == NoMeasurement && Valid()
    {
      inst := inst0;
      forceOutput := force;
      outputRestore := None;
      running := false;
      cancelRequested := false;
      measurements := [];
      status := NoMeasurement;
    }

    /** `_query_float`. */
    method QueryFloat(c: Command) returns (r: Result<real>)
      modifies inst
      ensures inst == null ==> r.Err?
      ensures inst != null ==>
        r == QueryFloatReply(if FirstSet(old(inst.faults)) then OtherError else NextRead(old(inst.pending))) &&
        inst.written == (if FirstSet(old(inst.faults)) then old(inst.written) else old(inst.written) + [c]) &&
        inst.faults == DropFirst(old(inst.faults)) && inst.timeout == old(inst.timeout)
    {
      if inst == null {
        return Err("Instrument not connected.");
      }
      var reply := inst.Query(c);
      r := QueryFloatReply(reply);
    }

    /** `_ensure_output_ready`: with the box ticked and an instrument, an output reading OFF
        (at most 0.5) is switched on and its state kept for the restore. */
    method EnsureOutputReady() returns (error: Option<string>)
      modifies this, inst
      ensures inst == old(inst) && forceOutput == old(forceOutput) && running == old(running)
      ensures cancelRequested == old(cancelRequested) && measurements == old(measurements) && status == old(status)
      ensures Valid()
      ensures !forceOutput || inst == null ==> outputRestore == None && error.None?
      ensures forceOutput && inst != null ==>
        var state := QueryFloatReply(if FirstSet(old(inst.faults)) then OtherError else NextRead(old(inst.pending)));
        (state.Ok? && state.value > 0.5 ==>
           outputRestore == None && error.None? && inst.written == old(inst.written) + [QueryOutput]) &&
        (state.Err? ==> outputRestore == None && error.Some?) &&
        (outputRestore.Some? <==> state.Ok? && state.value <= 0.5 && error.None?) &&
        (outputRestore.Some? ==>
           outputRestore == Some(state.value) && inst.written == old(inst.written) + [QueryOutput, OutputOn])
    {
      outputRestore := None;
      if !forceOutput || inst == null {
        return None;
      }
      var state := QueryFloat(QueryOutput);
      if state.Err? {
        return Some(state.msg);
      }
      if state.value <= 0.5 {
        var ok := inst.Write(OutputOn);
        if !ok {
          return Some("VISA write failed");
        }
        outputRestore := Some(state.value);
      }
      error := None;
    }

    /** `_restore_output_state`: switches the output back off when it was switched on, and
        clears the marker; without an instrument the marker stays. */
    method RestoreOutputState()
      modifies this, inst
      requires Valid()
      ensures inst == old(inst) && forceOutput == old(forceOutput) && running == old(running)
      ensures cancelRequested == old(cancelRequested) && measurements == old(measurements) && status == old(status)
      ensures Valid()
      ensures old(outputRestore).None? || inst == null ==>
        outputRestore == old(outputRestore) && (inst != null ==> inst.written == old(inst.written))
      ensures old(outputRestore).Some? && inst != null ==>
        outputRestore == None && inst.written == old(inst.written) + Logged(old(inst.faults), OutputOff)
    {
      if outputRestore.None? || inst == null {
        return;
      }
      if outputRestore.value <= 0.5 {
        var _ := inst.Write(OutputOff);
      }
      outputRestore := None;
    }

    /** `_read_latest_from_buffer`: any query failure gives no value. */
    method ReadLatestFromBuffer() returns (value: Option<real>)
      modifies inst
      ensures inst == null ==> value.None?
      ensures inst != null ==>
        var reply := QueryReply(old(inst.pending), old(inst.faults));
        value == (if reply.result.Ok? then LatestValue(reply.result.value) else None) &&
        inst.pending == reply.rest && inst.faults == DropFirst(old(inst.faults)) &&
        inst.written == old(inst.written) + Logged(old(inst.faults), BufferQuery)
    {
      var r := QueryLines(inst, BufferQuery, DrainCap, Err("Instrument not connected."));
      if r.Err? || r.value == [] {
        return None;
      }
      value := LatestValue(r.value);
    }

    /** `_measurement_worker`: run the measurement command, classify its response, then
        read the latest buffer value. */
    method MeasurementWorker(command: Command) returns (outcome: WorkerOutcome, bufferValue: Option<real>)
      modifies inst
      ensures inst == null ==> outcome == Failed("Instrument disconnected.") && bufferValue.None?
      ensures inst != null ==>
        var reply := QueryReply(old(inst.pending), old(inst.faults));
        (reply.result.Err? ==> outcome == Failed(reply.result.msg) && bufferValue.None?) &&
        (reply.result.Ok? ==> outcome == Classify(reply.result.value)) &&
        (reply.result.Ok? && outcome.Finished? ==>
          var second := QueryReply(reply.rest, DropFirst(old(inst.faults)));
          bufferValue == (if second.result.Ok? then LatestValue(second.result.value) else None) &&
          inst.written == old(inst.written) + [command] + Logged(DropFirst(old(inst.faults)), BufferQuery) &&
          inst.pending == second.rest && inst.faults == DropFirst(DropFirst(old(inst.faults)))) &&
        (!(reply.result.Ok? && outcome.Finished?) ==>
          inst.written == old(inst.written) + Logged(old(inst.faults), command) &&
          inst.pending == reply.rest && inst.faults == DropFirst(old(inst.faults)))
    {
      if inst == null {
        return Failed("Instrument disconnected."), None;
      }
      var lines := QueryLines(inst, command, DrainCap, Err("Instrument not connected."));
      if lines.Err? {
        return Failed(lines.msg), None;
      }
      outcome := ClassifyResponse(lines.value);
      if outcome.Failed? {
        return outcome, None;
      }
      bufferValue := ReadLatestFromBuffer();
    }

    /** The `finalize` step of `_async_finish`. */
    method Finish(outcome: WorkerOutcome, bufferValue: Option<real>)
      modifies this, inst
      requires Valid()
      ensures inst == old(inst) && !running && Valid() && forceOutput == old(forceOutput)
      ensures old(outputRestore).None? || inst == null ==>
        outputRestore == old(outputRestore) && (inst != null ==> inst.written == old(inst.written))
      ensures old(outputRestore).Some? && inst != null ==>
        outputRestore == None && inst.written == old(inst.written) + Logged(old(inst.faults), OutputOff)
      ensures var measurement := if outcome.Finished? then outcome.measurement else None;
        var latest := if outcome.Failed? then None else DisplayValue(bufferValue, measurement);
        status == FinishStatus(outcome.Failed?, latest, cancelRequested,
                               if outcome.Finished? then outcome.hint else None) &&
        measurements == old(measurements) + (if latest.Some? then [latest.value] else [])
      ensures cancelRequested == old(cancelRequested)
    {
      running := false;
      RestoreOutputState();
      if outcome.Failed? {
        status := MeasurementFailed;
        return;
      }
      var latest := DisplayValue(bufferValue, outcome.measurement);
      status := FinishStatus(false, latest, cancelRequested, outcome.hint);
      if latest.Some? {
        measurements := measurements + [latest.value];
      }
    }
  }
}
