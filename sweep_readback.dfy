/** One segment of the 2450 I-V sweep as the instrument reports it: the
    script prints `index, volts, amps` rows and then a marker line; the
    worker collects the rows until the marker, then reads both buffers back
    and falls back to the printed rows when the buffers are short. */
module SweepReadback {
  import opened Outcome
  import opened PyText
  import opened Channel
  import opened DrainQuery
  import opened ResponseParsers
  import opened SweepPlanner

  // ------------------------------------------------------------ printed rows

  /** The whitespace tokens of a printed row, commas counting as blanks. */
  function RowTokens(line: string): seq<string>
  {
    SplitWs(Replace(line, ",", " "))
  }

  /** `_parse_measurement_line`: at least three tokens, the first three numeric; the
      second and third are the voltage and the current. */
  function PointOf(line: string): (r: Option<(real, real)>)
  {
    var parts := RowTokens(line);
    if |parts| < 3 || !IsReal(parts[0]) || !IsReal(parts[1]) || !IsReal(parts[2]) then None
    else Some((ParseReal(parts[1]).value, ParseReal(parts[2]).value))
  }

  /** `_parse_printed_lines`: the rows that parse, in order. */
  function PrintedPoints(lines: seq<string>): (r: seq<(real, real)>)
    ensures |r| <= |lines|
  {
    if lines == [] then []
    else (match PointOf(lines[0]) case Some(p) => [p] case None => []) + PrintedPoints(lines[1..])
  }

  function Voltages(pts: seq<(real, real)>): (r: seq<real>)
    ensures |r| == |pts| && forall i :: 0 <= i < |pts| ==> r[i] == pts[i].0
  {
    seq(|pts|, i requires 0 <= i < |pts| => pts[i].0)
  }

  function Currents(pts: seq<(real, real)>): (r: seq<real>)
    ensures |r| == |pts| && forall i :: 0 <= i < |pts| ==> r[i] == pts[i].1
  {
    seq(|pts|, i requires 0 <= i < |pts| => pts[i].1)
  }

  /** The row the sweep script prints for a point of integer volts and amps. */
  function RowText(i: int, v: int, c: int): string
  {
    IntText(i) + ", " + IntText(v) + ", " + IntText(c)
  }

  lemma CommaField(a: string, rest: string)
    requires IsWord(a) && ',' !in a
    ensures RowTokens(a + ", " + rest) == [a] + RowTokens(rest)
  {
    var r := Replace(rest, ",", " ");
    assert a + ", " + rest == (a + ",") + (" " + rest);
    ReplaceCharConcat(a + ",", " " + rest, ',', " ");
    ReplaceCharConcat(a, ",", ',', " ");
    ReplaceCharConcat(" ", rest, ',', " ");
    ReplaceCharAbsent(a, ',', " ");
    ReplaceCharAbsent(" ", ',', " ");
    assert Replace(",", ",", " ") == " ";
    assert Replace(a + ", " + rest, ",", " ") == a + (" " + " " + r);
    SplitWsWord(a, " " + " " + r);
    assert (" " + " " + r)[1..] == " " + r;
    assert (" " + r)[1..] == r;
  }

  lemma RowTokensOfRow(i: int, v: int, c: int)
    ensures RowTokens(RowText(i, v, c)) == [IntText(i), IntText(v), IntText(c)]
  {
    var a := IntText(i);
    var b := IntText(v);
    var d := IntText(c);
    IntTextWord(i);
    IntTextWord(v);
    IntTextWord(c);
    assert RowText(i, v, c) == a + ", " + (b + ", " + d);
    CommaField(a, b + ", " + d);
    CommaField(b, d);
    ReplaceCharAbsent(d, ',', " ");
    assert d + [] == d;
    SplitWsWord(d, []);
  }

  /** A printed row reads back as its voltage and current. */
  lemma PointRoundTrip(i: int, v: int, c: int)
    ensures PointOf(RowText(i, v, c)) == Some((v as real, c as real))
  {
    RowTokensOfRow(i, v, c);
    IntTextValue(i);
    IntTextValue(v);
    IntTextValue(c);
  }

  /** A row with fewer than three columns is not a point. */
  lemma TwoColumnsSkipped(i: int, v: int)
    ensures PointOf(IntText(i) + ", " + IntText(v)) == None
  {
    SampleLineTokens(i, v);
  }

  lemma {:induction false} PrintedPointsAppend(a: seq<string>, b: seq<string>)
    ensures PrintedPoints(a + b) == PrintedPoints(a) + PrintedPoints(b)
    decreases |a|
  {
    if a != [] {
      assert (a + b)[1..] == a[1..] + b;
      PrintedPointsAppend(a[1..], b);
    } else {
      assert a + b == b;
    }
  }

  /** One printed row per reading. */
  function Rows(rows: seq<(int, int, int)>): (r: seq<string>)
    ensures |r| == |rows|
  {
    if rows == [] then [] else [RowText(rows[0].0, rows[0].1, rows[0].2)] + Rows(rows[1..])
  }

  /** The voltage and current of each reading. */
  function Readings(rows: seq<(int, int, int)>): (r: seq<(real, real)>)
    ensures |r| == |rows|
  {
    if rows == [] then [] else [(rows[0].1 as real, rows[0].2 as real)] + Readings(rows[1..])
  }

  /** Rows of integer readings, printed and parsed back, give the readings in order. */
  lemma {:induction false} PrintedRowsRoundTrip(rows: seq<(int, int, int)>)
    ensures PrintedPoints(Rows(rows)) == Readings(rows)
    decreases |rows|
  {
    if rows != [] {
      PointRoundTrip(rows[0].0, rows[0].1, rows[0].2);
      PrintedRowsRoundTrip(rows[1..]);
      assert Rows(rows)[1..] == Rows(rows[1..]);
    }
  }

  // ------------------------------------------------------------ reading until the marker

  /** `SWEEP_DONE_<run+1>_<segment+1>`. */
  function Marker(run: nat, segment: nat): string
  {
    "SWEEP_DONE_" + NatText(run + 1) + "_" + NatText(segment + 1)
  }

  /** The outcome of reading until the marker: the lines, and how many reads and stop polls it took. */
  datatype Scan = Scan(result: Result<seq<string>>, readCount: nat, pollCount: nat)

  const Cancelled := "Sweep cancelled."
  const WaitFailed := "Failed while waiting for sweep output"

  /** `_read_until_marker` on the read outcomes `p` and stop polls `stop`: the stop flag is
      polled before every read, any read error (a timeout too) fails, and the stripped,
      non-blank lines before the marker are collected. */
  function MarkerScan(p: seq<ReadOutcome>, stop: seq<bool>, marker: string): (s: Scan)
    ensures FirstSet(stop) ==> s == Scan(Err(Cancelled), 0, 1)
    ensures !FirstSet(stop) && !NextRead(p).Line? ==> s == Scan(Err(WaitFailed), 1, 1)
    ensures s.readCount <= |p| + 1
    ensures s.pollCount == s.readCount || (s.pollCount == s.readCount + 1 && s.result == Err(Cancelled))
    decreases |p|
  {
    if FirstSet(stop) then Scan(Err(Cancelled), 0, 1)
    else
      match NextRead(p)
      case Line(t) =>
        var line := Strip(t);
        if line == marker then Scan(Ok([]), 1, 1)
        else
          var rest := MarkerScan(AfterRead(p), DropFirst(stop), marker);
          Scan(if rest.result.Ok? then Ok(Keep(t) + rest.result.value) else rest.result, rest.readCount + 1, rest.pollCount + 1)
      case _ => Scan(Err(WaitFailed), 1, 1)
  }

  /** The scan of lines already read, `n` reads so far, and what the rest gives. */
  function ScanAfter(lines: seq<string>, n: nat, s: Scan): Scan
  {
    Scan(if s.result.Ok? then Ok(lines + s.result.value) else s.result, s.readCount + n, s.pollCount + n)
  }

  lemma ScanLineStep(lines: seq<string>, n: nat, p: seq<ReadOutcome>, stop: seq<bool>, marker: string)
    requires !FirstSet(stop) && NextRead(p).Line? && Strip(NextRead(p).text) != marker
    ensures ScanAfter(lines, n, MarkerScan(p, stop, marker)) ==
            ScanAfter(lines + Keep(NextRead(p).text), n + 1, MarkerScan(AfterRead(p), DropFirst(stop), marker))
  {
    var k := Keep(NextRead(p).text);
    var rest := MarkerScan(AfterRead(p), DropFirst(stop), marker);
    if rest.result.Ok? {
      assert lines + (k + rest.result.value) == (lines + k) + rest.result.value;
    }
  }

  /** The three ways a scan ends after `n` lines' worth of reads. */
  lemma ScanEnds(lines: seq<string>, n: nat, q: seq<ReadOutcome>, f: seq<bool>, marker: string)
    ensures FirstSet(f) ==> ScanAfter(lines, n, MarkerScan(q, f, marker)) == Scan(Err(Cancelled), n, n + 1)
    ensures !FirstSet(f) && !NextRead(q).Line? ==>
              ScanAfter(lines, n, MarkerScan(q, f, marker)) == Scan(Err(WaitFailed), n + 1, n + 1)
    ensures !FirstSet(f) && NextRead(q).Line? && Strip(NextRead(q).text) == marker ==>
              ScanAfter(lines, n, MarkerScan(q, f, marker)) == Scan(Ok(lines), n + 1, n + 1)
  {
    assert lines + [] == lines;
  }

  /** A read that returns a line consumes exactly one scripted outcome. */
  lemma PendingStep(p0: seq<ReadOutcome>, n: nat)
    requires n <= |p0| && NextRead(p0[n..]).Line?
    ensures n + 1 <= |p0| && AfterRead(p0[n..]) == p0[n + 1..]
  {
  }

  lemma ConsumedStep(p: seq<ReadOutcome>, n: nat)
    requires n <= |p|
    ensures Consumed(p, n) == p[n..] && Consumed(p, n + 1) == AfterRead(p[n..])
  {
  }

  /** `_read_until_marker`; without an instrument nothing is read. */
  method ReadUntilMarker(inst: Instrument?, stop: StopEvent, marker: string) returns (r: Result<seq<string>>)
    modifies inst, stop
    ensures inst == null ==> r == Ok([]) && stop.polls == old(stop.polls)
    ensures inst != null ==>
      var s := MarkerScan(old(inst.pending), old(stop.polls), marker);
      r == s.result && inst.pending == Consumed(old(inst.pending), s.readCount) &&
      stop.polls == DropN(old(stop.polls), s.pollCount) &&
      inst.readTimeouts == old(inst.readTimeouts) + Repeat(old(inst.timeout), s.readCount)
    ensures inst != null ==>
      inst.written == old(inst.written) && inst.faults == old(inst.faults) && inst.timeout == old(inst.timeout)
  {
    if inst == null {
      return Ok([]);
    }
    r := ScanToMarker(inst, stop, marker);
  }

  /** The read loop of `_read_until_marker` on an open session. */
  method ScanToMarker(inst: Instrument, stop: StopEvent, marker: string) returns (r: Result<seq<string>>)
    modifies inst, stop
    ensures var s := MarkerScan(old(inst.pending), old(stop.polls), marker);
      r == s.result && inst.pending == Consumed(old(inst.pending), s.readCount) &&
      stop.polls == DropN(old(stop.polls), s.pollCount) &&
      inst.readTimeouts == old(inst.readTimeouts) + Repeat(old(inst.timeout), s.readCount)
    ensures inst.written == old(inst.written) && inst.faults == old(inst.faults) && inst.timeout == old(inst.timeout)
  {
    ghost var p0 := inst.pending;
    ghost var s0 := stop.polls;
    ghost var log := inst.readTimeouts;
    ghost var t := inst.timeout;
    ghost var n: nat := 0;
    ghost var readCount: nat, pollCount: nat := 0, 0;
    var lines: seq<string> := [];
    ScanStart(p0, s0, marker);
    while true
      invariant n <= |p0| && inst.pending == p0[n..] && stop.polls == DropN(s0, n)
      invariant inst.timeout == t && inst.written == old(inst.written) && inst.faults == old(inst.faults)
      invariant inst.readTimeouts == log + Repeat(t, n)
      invariant MarkerScan(p0, s0, marker) == ScanAfter(lines, n, MarkerScan(p0[n..], DropN(s0, n), marker))
      decreases |p0| - n
    {
      ghost var q := p0[n..];
      ghost var f := DropN(s0, n);
      ScanEnds(lines, n, q, f, marker);
      ConsumedStep(p0, n);
      DropNStep(s0, n);
      RepeatSnoc(t, n);
      var cancelled, outcome := PollThenRead(inst, stop);
      if cancelled {
        r, readCount, pollCount := Err(Cancelled), n, n + 1;
        break;
      }
      if !outcome.Line? {
        r, readCount, pollCount := Err(WaitFailed), n + 1, n + 1;
        break;
      }
      var line := Strip(outcome.text);
      if line == marker {
        r, readCount, pollCount := Ok(lines), n + 1, n + 1;
        break;
      }
      ScanLineStep(lines, n, q, f, marker);
      PendingStep(p0, n);
      n := n + 1;
      lines := lines + Keep(outcome.text);
    }
    assert MarkerScan(p0, s0, marker) == Scan(r, readCount, pollCount);
  }

  /** One turn of the loop: the stop flag is polled, and only when it is clear is a line read. */
  method PollThenRead(inst: Instrument, stop: StopEvent) returns (cancelled: bool, outcome: ReadOutcome)
    modifies inst, stop
    ensures cancelled == FirstSet(old(stop.polls)) && stop.polls == DropFirst(old(stop.polls))
    ensures cancelled ==> inst.pending == old(inst.pending) && inst.readTimeouts == old(inst.readTimeouts)
    ensures !cancelled ==> outcome == NextRead(old(inst.pending)) && inst.pending == AfterRead(old(inst.pending))
    ensures !cancelled ==> inst.readTimeouts == old(inst.readTimeouts) + [old(inst.timeout)]
    ensures inst.written == old(inst.written) && inst.faults == old(inst.faults) && inst.timeout == old(inst.timeout)
  {
    cancelled := stop.IsSet();
    outcome := Timeout;
    if !cancelled {
      outcome := inst.Read();
    }
  }

  /** Before any read, the scan still to come is the whole scan. */
  lemma ScanStart(p0: seq<ReadOutcome>, s0: seq<bool>, marker: string)
    ensures MarkerScan(p0, s0, marker) == ScanAfter([], 0, MarkerScan(p0[0..], DropN(s0, 0), marker))
  {
    assert p0[0..] == p0;
    var s := MarkerScan(p0, s0, marker);
    if s.result.Ok? {
      assert [] + s.result.value == s.result.value;
    }
  }

  // ------------------------------------------------------------ properties of the scan

  /** The collected lines are stripped, non-blank, and never the marker. */
  lemma {:induction false} ScanLinesClean(p: seq<ReadOutcome>, stop: seq<bool>, marker: string)
    ensures var s := MarkerScan(p, stop, marker);
      s.result.Ok? ==> Clean(s.result.value) && marker !in s.result.value
    decreases |p|
  {
    if !FirstSet(stop) && NextRead(p).Line? && Strip(NextRead(p).text) != marker {
      var t := NextRead(p).text;
      ScanLinesClean(AfterRead(p), DropFirst(stop), marker);
      StripIdempotent(t);
      var rest := MarkerScan(AfterRead(p), DropFirst(stop), marker);
      if rest.result.Ok? {
        CleanAppend(Keep(t), rest.result.value);
      }
    }
  }

  /** Reference description: lines then the marker, with the stop flag never set, give exactly
      the kept lines, whatever the instrument sends after the marker. */
  lemma {:induction false} ScanUntilMarker(ls: seq<string>, rest: seq<ReadOutcome>, marker: string)
    requires forall i :: 0 <= i < |ls| ==> Strip(ls[i]) != marker
    requires Strip(marker) == marker
    ensures MarkerScan(AsLines(ls) + [Line(marker)] + rest, [], marker) == Scan(Ok(KeepAll(ls)), |ls| + 1, |ls| + 1)
    decreases |ls|
  {
    var p := AsLines(ls) + [Line(marker)] + rest;
    if ls != [] {
      assert p[0] == Line(ls[0]);
      assert p[1..] == AsLines(ls[1..]) + [Line(marker)] + rest;
      ScanUntilMarker(ls[1..], rest, marker);
    } else {
      assert p[0] == Line(marker);
    }
  }

  /** A timeout before the marker is an error, not a retry. */
  lemma {:induction false} ScanTimeoutFails(ls: seq<string>, rest: seq<ReadOutcome>, marker: string)
    requires forall i :: 0 <= i < |ls| ==> Strip(ls[i]) != marker
    ensures MarkerScan(AsLines(ls) + [Timeout] + rest, [], marker).result == Err(WaitFailed)
    decreases |ls|
  {
    var p := AsLines(ls) + [Timeout] + rest;
    if ls != [] {
      assert p[0] == Line(ls[0]);
      assert p[1..] == AsLines(ls[1..]) + [Timeout] + rest;
      ScanTimeoutFails(ls[1..], rest, marker);
    } else {
      assert p[0] == Timeout;
    }
  }

  /** A stop request seen at the k-th poll cancels the read, whatever the instrument sends. */
  lemma {:induction false} ScanStopCancels(ls: seq<string>, rest: seq<ReadOutcome>, marker: string)
    requires forall i :: 0 <= i < |ls| ==> Strip(ls[i]) != marker
    ensures MarkerScan(AsLines(ls) + rest, seq(|ls|, _ => false) + [true], marker).result == Err(Cancelled)
    decreases |ls|
  {
    var p := AsLines(ls) + rest;
    var f := seq(|ls|, _ => false) + [true];
    if ls != [] {
      assert p[0] == Line(ls[0]);
      assert p[1..] == AsLines(ls[1..]) + rest;
      assert DropFirst(f) == seq(|ls[1..]|, _ => false) + [true];
      ScanStopCancels(ls[1..], rest, marker);
    }
  }

  // ------------------------------------------------------------ the segment's readings

  /** The voltages and currents a segment reports: the buffers, unless either has the wrong
      length and the printed rows parse; then both truncated to the shorter. */
  function ChooseReadings(pointCount: int, bufV: seq<real>, bufI: seq<real>, printed: seq<string>): (r: (seq<real>, seq<real>))
    ensures |r.0| == |r.1|
    ensures |bufV| == pointCount && |bufI| == pointCount ==> r == (bufV, bufI)
    ensures (|bufV| != pointCount || |bufI| != pointCount) && PrintedPoints(printed) != [] ==>
      r == (Voltages(PrintedPoints(printed)), Currents(PrintedPoints(printed)))
    ensures (|bufV| != pointCount || |bufI| != pointCount) && PrintedPoints(printed) == [] ==>
      var m := if |bufV| <= |bufI| then |bufV| else |bufI|;
      r == (bufV[..m], bufI[..m])
  {
    var pts := PrintedPoints(printed);
    var useRows := (|bufV| != pointCount || |bufI| != pointCount) && pts != [];
    var vs := if useRows then Voltages(pts) else bufV;
    var cs := if useRows then Currents(pts) else bufI;
    var m := if |vs| <= |cs| then |vs| else |cs|;
    assert vs[..|vs|] == vs && cs[..|cs|] == cs;
    (vs[..m], cs[..m])
  }

  /** `printbuffer(1, count, accessor)`. */
  function BufferCommand(accessor: string, count: int): Command
  {
    Command("printbuffer", [Whole(1), Whole(count), Text(accessor)])
  }

  const SourceValues := "defbuffer1.sourcevalues"
  const Readings1 := "defbuffer1"

  // ------------------------------------------------------------ the queues a segment consumes

  /** The instrument's scripted write faults and read outcomes, and the stop flag's poll answers. */
  datatype Queues = Queues(faults: seq<bool>, pending: seq<ReadOutcome>, polls: seq<bool>)

  function QueuesOf(inst: Instrument, stop: StopEvent): Queues
    reads inst, stop
  {
    Queues(inst.faults, inst.pending, stop.polls)
  }

  /** What a step of the worker returns, the commands it logs, and the queues it leaves. */
  datatype Trace<T> = Trace(result: Result<T>, sent: seq<Command>, rest: Queues)

  /** The reply of one `query`: a failed write reads nothing. */
  function Answer(q: Queues): ReadOutcome
  {
    if FirstSet(q.faults) then OtherError else NextRead(q.pending)
  }

  /** The queues after one `query`. */
  function AfterQuery(q: Queues): Queues
  {
    Queues(DropFirst(q.faults), if FirstSet(q.faults) then q.pending else AfterRead(q.pending), q.polls)
  }

  /** The command one `query` of `c` logs. */
  function QuerySent(q: Queues, c: Command): seq<Command>
  {
    if FirstSet(q.faults) then [] else [c]
  }

  /** `_fetch_buffer` on an open session: no query for no points; otherwise the numeric fields
      of the stripped reply, and a failed query is an error naming the buffer. */
  function FetchTrace(q: Queues, accessor: string, count: int): (t: Trace<seq<real>>)
    ensures t.rest.polls == q.polls
  {
    if count == 0 then Trace(Ok([]), [], q)
    else
      var sent := QuerySent(q, BufferCommand(accessor, count));
      match Answer(q)
      case Line(t) => Trace(Ok(BufferValues(Strip(t))), sent, AfterQuery(q))
      case _ => Trace(Err("Failed to fetch buffer data for " + accessor), sent, AfterQuery(q))
  }

  /** `_fetch_buffer`: nothing is asked for without an instrument; otherwise FetchTrace. */
  method FetchBuffer(inst: Instrument?, accessor: string, count: int) returns (r: Result<seq<real>>)
    modifies inst
    ensures inst == null ==> r == Ok([])
    ensures inst != null ==>
      var t := FetchTrace(Queues(old(inst.faults), old(inst.pending), []), accessor, count);
      r == t.result && inst.written == old(inst.written) + t.sent &&
      inst.faults == t.rest.faults && inst.pending == t.rest.pending
    ensures inst != null ==> inst.timeout == old(inst.timeout)
  {
    if inst == null || count == 0 {
      return Ok([]);
    }
    var reply := inst.Query(BufferCommand(accessor, count));
    if !reply.Line? {
      return Err("Failed to fetch buffer data for " + accessor);
    }
    var response := Strip(reply.text);
    var values := ParseBuffer(response);
    r := Ok(values);
  }

  /** The poll queue plays no part in a buffer fetch. */
  lemma FetchPolls(q: Queues, accessor: string, count: int)
    ensures var t := FetchTrace(q, accessor, count);
      var u := FetchTrace(Queues(q.faults, q.pending, []), accessor, count);
      t.result == u.result && t.sent == u.sent && t.rest == Queues(u.rest.faults, u.rest.pending, q.polls)
  {
  }

  /** A trace whose commands follow `sent`. */
  function After<T>(sent: seq<Command>, t: Trace<T>): Trace<T>
  {
    Trace(t.result, sent + t.sent, t.rest)
  }

  /** The read-back half of `_perform_sweep`: `int(float(...))` of the point-count reply, then
      both buffers for that many points (BuffersTrace). */
  function ReadBackTrace(q: Queues, printed: seq<string>): Trace<(seq<real>, seq<real>)>
  {
    var sent := QuerySent(q, CountQuery);
    match Answer(q)
    case Line(t) =>
      (match ParseTruncatedInt(Strip(t))
       case None => Trace(Err(CountNotFloat), sent, AfterQuery(q))
       case Some(n) => After(sent, BuffersTrace(AfterQuery(q), n, printed)))
    case _ => Trace(Err(VisaReadFailed), sent, AfterQuery(q))
  }

  /** The source-value buffer, then the readings buffer (CurrentsTrace); the first failed
      fetch ends the read-back. */
  function BuffersTrace(q: Queues, n: int, printed: seq<string>): Trace<(seq<real>, seq<real>)>
  {
    var v := FetchTrace(q, SourceValues, n);
    if v.result.Err? then Trace(Err(v.result.msg), v.sent, v.rest)
    else After(v.sent, CurrentsTrace(v.rest, n, v.result.value, printed))
  }

  /** The readings buffer, then ChooseReadings of both buffers against the printed rows. */
  function CurrentsTrace(q: Queues, n: int, bufV: seq<real>, printed: seq<string>): Trace<(seq<real>, seq<real>)>
  {
    var c := FetchTrace(q, Readings1, n);
    if c.result.Err? then Trace(Err(c.result.msg), c.sent, c.rest)
    else Trace(Ok(ChooseReadings(n, bufV, c.result.value, printed)), c.sent, c.rest)
  }

  const CountNotFloat := "could not convert string to float"
  const VisaReadFailed := "VISA read failed"
  const VisaWriteFailed := "VISA write failed"

  /** What `_perform_sweep` hands back: the segment's readings and its printed lines. */
  datatype SegmentData = SegmentData(voltages: seq<real>, currents: seq<real>, lines: seq<string>)

  /** `IVMultiple_run(start, stop, step, ilimit, nplc, settle)`. */
  function SweepCall(g: Segment, ilimit: real, nplc: real, settle: real): Command
  {
    Command("IVMultiple_run", [Num(g.start), Num(g.stop), Num(g.step), Num(ilimit), Num(nplc), Num(settle)])
  }

  function PrintMarker(run: nat, segment: nat): Command
  {
    Cmd("print('" + Marker(run, segment) + "')")
  }

  const CountQuery: Command := Cmd("print(defbuffer1.n)")

  /** The queues after the two writes and the marker scan of a segment. */
  function AfterScan(q: Queues, s: Scan): Queues
  {
    Queues(DropFirst(DropFirst(q.faults)), Consumed(q.pending, s.readCount), DropN(q.polls, s.pollCount))
  }

  /** The scan of a segment's printed lines, once both writes went out. */
  function SegmentScan(q: Queues, run: nat, segment: nat): Scan
  {
    MarkerScan(q.pending, q.polls, Marker(run, segment))
  }

  /** `_perform_sweep` on an open session: the sweep call and the marker print are written,
      the printed rows are read up to the marker, and the buffers are read back. */
  function SegmentTrace(q: Queues, run: nat, segment: nat, g: Segment, ilimit: real, nplc: real, settle: real): Trace<SegmentData>
  {
    var call := SweepCall(g, ilimit, nplc, settle);
    if FirstSet(q.faults) then Trace(Err(VisaWriteFailed), [], Queues(DropFirst(q.faults), q.pending, q.polls))
    else if FirstSet(DropFirst(q.faults)) then
      Trace(Err(VisaWriteFailed), [call], Queues(DropFirst(DropFirst(q.faults)), q.pending, q.polls))
    else
      var s := SegmentScan(q, run, segment);
      After([call, PrintMarker(run, segment)], ReadBackOfScan(AfterScan(q, s), s.result))
  }

  /** The read-back of a scan's lines, paired with them; a failed scan ends the segment. */
  function ReadBackOfScan(q: Queues, lines: Result<seq<string>>): Trace<SegmentData>
  {
    match lines
    case Err(e) => Trace(Err(e), [], q)
    case Ok(ls) =>
      var b := ReadBackTrace(q, ls);
      Trace(if b.result.Ok? then Ok(SegmentData(b.result.value.0, b.result.value.1, ls)) else Err(b.result.msg),
            b.sent, b.rest)
  }

  /** One `query` on the instrument, in terms of the queues. */
  method QueryStep(inst: Instrument, stop: StopEvent, c: Command) returns (reply: ReadOutcome)
    modifies inst
    ensures var q := old(QueuesOf(inst, stop));
      reply == Answer(q) && QueuesOf(inst, stop) == AfterQuery(q) && inst.written == old(inst.written) + QuerySent(q, c)
  {
    reply := inst.Query(c);
  }

  /** The writes and the printed lines of one segment. */
  method StartSegment(inst: Instrument, stop: StopEvent, run: nat, segment: nat, g: Segment,
                      ilimit: real, nplc: real, settle: real)
    returns (r: Result<seq<string>>)
    modifies inst, stop
    ensures var q := old(QueuesOf(inst, stop));
      var s := SegmentScan(q, run, segment);
      (FirstSet(q.faults) ==> r == Err(VisaWriteFailed) && inst.written == old(inst.written) &&
                              QueuesOf(inst, stop) == Queues(DropFirst(q.faults), q.pending, q.polls)) &&
      (!FirstSet(q.faults) && FirstSet(DropFirst(q.faults)) ==>
         r == Err(VisaWriteFailed) && inst.written == old(inst.written) + [SweepCall(g, ilimit, nplc, settle)] &&
         QueuesOf(inst, stop) == Queues(DropFirst(DropFirst(q.faults)), q.pending, q.polls)) &&
      (!FirstSet(q.faults) && !FirstSet(DropFirst(q.faults)) ==>
         r == s.result && QueuesOf(inst, stop) == AfterScan(q, s) &&
         inst.written == old(inst.written) + [SweepCall(g, ilimit, nplc, settle), PrintMarker(run, segment)])
  {
    var ok := inst.Write(SweepCall(g, ilimit, nplc, settle));
    if !ok {
      return Err(VisaWriteFailed);
    }
    ok := inst.Write(PrintMarker(run, segment));
    if !ok {
      return Err(VisaWriteFailed);
    }
    r := ReadUntilMarker(inst, stop, Marker(run, segment));
  }

  /** Both buffer fetches of a read-back. */
  method ReadBuffers(inst: Instrument, stop: StopEvent, n: int, printed: seq<string>)
    returns (r: Result<(seq<real>, seq<real>)>, ghost t: Trace<(seq<real>, seq<real>)>)
    modifies inst
    ensures t == BuffersTrace(old(QueuesOf(inst, stop)), n, printed)
    ensures r == t.result && inst.written == old(inst.written) + t.sent && QueuesOf(inst, stop) == t.rest
  {
    ghost var q := QueuesOf(inst, stop);
    t := BuffersTrace(q, n, printed);
    FetchPolls(q, SourceValues, n);
    var voltages := FetchBuffer(inst, SourceValues, n);
    if voltages.Err? {
      return Err(voltages.msg), t;
    }
    ghost var v := FetchTrace(q, SourceValues, n);
    ghost var w := inst.written;
    r := ReadCurrents(inst, stop, n, voltages.value, printed);
    ghost var c := CurrentsTrace(v.rest, n, v.result.value, printed);
    SentAssoc(old(inst.written), v.sent, c.sent);
  }

  /** The second buffer fetch of a read-back, and the choice of readings. */
  method ReadCurrents(inst: Instrument, stop: StopEvent, n: int, bufV: seq<real>, printed: seq<string>)
    returns (r: Result<(seq<real>, seq<real>)>)
    modifies inst
    ensures var t := CurrentsTrace(old(QueuesOf(inst, stop)), n, bufV, printed);
      r == t.result && inst.written == old(inst.written) + t.sent && QueuesOf(inst, stop) == t.rest
  {
    FetchPolls(QueuesOf(inst, stop), Readings1, n);
    var currents := FetchBuffer(inst, Readings1, n);
    if currents.Err? {
      return Err(currents.msg);
    }
    r := Ok(ChooseReadings(n, bufV, currents.value, printed));
  }

  /** The read-back half of `_perform_sweep`. */
  method ReadBack(inst: Instrument, stop: StopEvent, printed: seq<string>) returns (r: Result<(seq<real>, seq<real>)>)
    modifies inst
    ensures var t := ReadBackTrace(old(QueuesOf(inst, stop)), printed);
      r == t.result && inst.written == old(inst.written) + t.sent && QueuesOf(inst, stop) == t.rest
  {
    ghost var q0 := QueuesOf(inst, stop);
    var reply := QueryStep(inst, stop, CountQuery);
    if !reply.Line? {
      return Err(VisaReadFailed);
    }
    var count := ParseTruncatedInt(Strip(reply.text));
    if count.None? {
      return Err(CountNotFloat);
    }
    ghost var w := inst.written;
    ghost var b;
    r, b := ReadBuffers(inst, stop, count.value, printed);
    SentAssoc(old(inst.written), QuerySent(q0, CountQuery), b.sent);
  }

  /** `_perform_sweep`: without an instrument nothing happens; otherwise SegmentTrace. */
  method PerformSweep(inst: Instrument?, stop: StopEvent, run: nat, segment: nat, g: Segment,
                      ilimit: real, nplc: real, settle: real)
    returns (r: Result<SegmentData>)
    modifies inst, stop
    ensures inst == null ==> r == Err("Instrument not connected.") && stop.polls == old(stop.polls)
    ensures inst != null ==>
      var t := SegmentTrace(old(QueuesOf(inst, stop)), run, segment, g, ilimit, nplc, settle);
      r == t.result && inst.written == old(inst.written) + t.sent && QueuesOf(inst, stop) == t.rest
  {
    if inst == null {
      return Err("Instrument not connected.");
    }
    ghost var q0 := QueuesOf(inst, stop);
    ghost var s := SegmentScan(q0, run, segment);
    ghost var open := !FirstSet(q0.faults) && !FirstSet(DropFirst(q0.faults));
    if open {
      SegmentTraceOpen(q0, run, segment, g, ilimit, nplc, settle);
    }
    var printed := StartSegment(inst, stop, run, segment, g, ilimit, nplc, settle);
    if printed.Err? {
      return Err(printed.msg);
    }
    assert open && QueuesOf(inst, stop) == AfterScan(q0, s) && s.result == printed;
    r := ReadBackSegment(inst, stop, printed.value);
    SentAssoc(old(inst.written), [SweepCall(g, ilimit, nplc, settle), PrintMarker(run, segment)],
              ReadBackOfScan(AfterScan(q0, s), printed).sent);
  }

  /** With both writes accepted, a segment is the two writes followed by the read-back of what the scan printed. */
  lemma SegmentTraceOpen(q: Queues, run: nat, segment: nat, g: Segment, ilimit: real, nplc: real, settle: real)
    requires !FirstSet(q.faults) && !FirstSet(DropFirst(q.faults))
    ensures var s := SegmentScan(q, run, segment);
      SegmentTrace(q, run, segment, g, ilimit, nplc, settle) ==
      After([SweepCall(g, ilimit, nplc, settle), PrintMarker(run, segment)], ReadBackOfScan(AfterScan(q, s), s.result))
  {
  }

  /** The read-back after a completed scan, paired with the scanned lines. */
  method ReadBackSegment(inst: Instrument, stop: StopEvent, lines: seq<string>) returns (r: Result<SegmentData>)
    modifies inst
    ensures var t := ReadBackOfScan(old(QueuesOf(inst, stop)), Ok(lines));
      r == t.result && inst.written == old(inst.written) + t.sent && QueuesOf(inst, stop) == t.rest
  {
    var readings := ReadBack(inst, stop, lines);
    if readings.Err? {
      return Err(readings.msg);
    }
    r := Ok(SegmentData(readings.value.0, readings.value.1, lines));
  }

  // ------------------------------------------------------------ properties of the read-back

  /** A segment's readings are voltage and current pairs, its lines clean and never the marker. */
  lemma SegmentTraceFacts(q: Queues, run: nat, segment: nat, g: Segment, ilimit: real, nplc: real, settle: real)
    ensures var t := SegmentTrace(q, run, segment, g, ilimit, nplc, settle);
      t.result.Ok? ==> |t.result.value.voltages| == |t.result.value.currents| &&
                       Clean(t.result.value.lines) && Marker(run, segment) !in t.result.value.lines
  {
    ScanLinesClean(q.pending, q.polls, Marker(run, segment));
  }

  /** The integers of a dump as reals. */
  function Reals(ns: seq<int>): (r: seq<real>)
    ensures |r| == |ns| && forall i :: 0 <= i < |ns| ==> r[i] == ns[i] as real
  {
    seq(|ns|, i requires 0 <= i < |ns| => ns[i] as real)
  }

  /** A clean fetch of a dumped buffer sends one printbuffer query and returns the dump. */
  lemma FetchClean(q: Queues, accessor: string, ns: seq<int>)
    requires ns != [] && !FirstSet(q.faults) && NextRead(q.pending) == Line(Join(IntFields(ns), ','))
    ensures FetchTrace(q, accessor, |ns|) == Trace(Ok(Reals(ns)), [BufferCommand(accessor, |ns|)], AfterQuery(q))
  {
    DumpStripped(ns);
    BufferRoundTrip(ns);
  }

  /** A clean read-back sends the count query and one printbuffer query per buffer, and returns
      the dumped buffers when they hold the counted points. */
  lemma ReadBackClean(q: Queues, vs: seq<int>, cs: seq<int>, printed: seq<string>)
    requires !FirstSet(q.faults) && !FirstSet(DropFirst(q.faults)) && !FirstSet(DropFirst(DropFirst(q.faults)))
    requires vs != [] && |cs| == |vs| && |q.pending| >= 3
    requires q.pending[0] == Line(IntText(|vs|))
    requires q.pending[1] == Line(Join(IntFields(vs), ',')) && q.pending[2] == Line(Join(IntFields(cs), ','))
    ensures var t := ReadBackTrace(q, printed);
      t.sent == [CountQuery, BufferCommand(SourceValues, |vs|), BufferCommand(Readings1, |vs|)] &&
      t.result == Ok((Reals(vs), Reals(cs)))
  {
    ReadBackOfCount(q, |vs|, printed);
    var q1 := AfterQuery(q);
    assert q1.pending == q.pending[1..];
    BuffersClean(q1, vs, cs, printed);
  }

  /** A printed count is read back as that count, and both buffers are then fetched for it. */
  lemma ReadBackOfCount(q: Queues, n: int, printed: seq<string>)
    requires Answer(q) == Line(IntText(n))
    ensures ReadBackTrace(q, printed) == After(QuerySent(q, CountQuery), BuffersTrace(AfterQuery(q), n, printed))
  {
    CountTextParses(n);
  }

  /** Two clean dumps of the counted points are fetched by one query each and used as they are. */
  lemma BuffersClean(q: Queues, vs: seq<int>, cs: seq<int>, printed: seq<string>)
    requires !FirstSet(q.faults) && !FirstSet(DropFirst(q.faults))
    requires vs != [] && |cs| == |vs| && |q.pending| >= 2
    requires q.pending[0] == Line(Join(IntFields(vs), ',')) && q.pending[1] == Line(Join(IntFields(cs), ','))
    ensures var t := BuffersTrace(q, |vs|, printed);
      t.sent == [BufferCommand(SourceValues, |vs|), BufferCommand(Readings1, |vs|)] &&
      t.result == Ok((Reals(vs), Reals(cs)))
  {
    FetchClean(q, SourceValues, vs);
    var q2 := AfterQuery(q);
    assert NextRead(q2.pending) == q.pending[1];
    FetchClean(q2, Readings1, cs);
  }

  /** `int(float(str(n)))` of the printed count is the count. */
  lemma CountTextParses(n: int)
    ensures ParseTruncatedInt(Strip(IntText(n))) == Some(n)
  {
    var t := IntText(n);
    IntTextValue(n);
    IntTextWord(n);
    assert !IsSpace(t[0]) && !IsSpace(t[|t| - 1]);
    NoEdgeSpaceStripFixed(t);
    assert Strip(t) == t;
    assert TruncToInt(n as real) == n;
  }

  /** A comma-joined dump of integers has no blank to strip. */
  lemma DumpStripped(ns: seq<int>)
    requires ns != []
    ensures Strip(Join(IntFields(ns), ',')) == Join(IntFields(ns), ',')
  {
    var fields := IntFields(ns);
    forall i | 0 <= i < |fields|
      ensures IsWord(fields[i])
    {
      IntTextWord(ns[i]);
    }
    JoinWord(fields, ',');
    NoEdgeSpaceStripFixed(Join(fields, ','));
  }

  /** Joining blank-free parts with a non-blank separator leaves no blank. */
  lemma {:induction false} JoinWord(parts: seq<string>, sep: char)
    requires parts != [] && !IsSpace(sep)
    requires forall i :: 0 <= i < |parts| ==> IsWord(parts[i])
    ensures IsWord(Join(parts, sep))
    decreases |parts|
  {
    if |parts| > 1 {
      JoinWord(parts[1..], sep);
      var j := Join(parts[1..], sep);
      var s := parts[0] + [sep] + j;
      forall k | 0 <= k < |s|
        ensures !IsSpace(s[k])
      {
        if k < |parts[0]| {
          assert s[k] == parts[0][k];
        } else if k == |parts[0]| {
          assert s[k] == sep;
        } else {
          assert s[k] == j[k - |parts[0]| - 1];
        }
      }
    }
  }

  /** A count of zero asks for no buffer, and the segment then reports no readings: the
      printed rows are not consulted, since both empty buffers hold the counted points. */
  lemma ReadBackZeroCount(q: Queues, printed: seq<string>)
    requires Answer(q) == Line("0")
    ensures ReadBackTrace(q, printed) == Trace(Ok(([], [])), [CountQuery], AfterQuery(q))
  {
    CountTextParses(0);
    assert IntText(0) == "0";
  }

  /** A count reply that is not a number ends the read-back before any buffer query. */
  lemma ReadBackCountNotNumber(q: Queues, printed: seq<string>)
    requires Answer(q).Line? && !IsReal(Strip(Answer(q).text))
    ensures ReadBackTrace(q, printed) == Trace(Err(CountNotFloat), [CountQuery], AfterQuery(q))
  {
  }

  // ------------------------------------------------------------ parameters

  /** The validated sweep parameters. */
  datatype SweepParams = SweepParams(start: real, stop: real, step: real, ilimit: real, nplc: real, settle: real, runs: int)

  /** The run count: a non-blank integral number of at least 1. */
  function ParseRuns(text: string): (r: Result<int>)
    ensures r.Ok? <==>
              IsReal(text) && ParseReal(text).value == ParseReal(text).value.Floor as real &&
              ParseReal(text).value >= 1.0
    ensures r.Ok? ==> r.value >= 1 && r.value as real == ParseReal(text).value
  {
    ParseRealOfStrip(text);
    var t := Strip(text);
    if t == [] then Err("Total runs must be provided.")
    else if ParseReal(t).None? then Err("Total runs must be an integer.")
    else
      var x := ParseReal(t).value;
      if x != x.Floor as real then Err("Total runs must be an integer.")
      else if TruncToInt(x) < 1 then Err("Total runs must be at least 1.")
      else Ok(TruncToInt(x))
  }

  /** A whole run count is accepted exactly when it is at least 1. */
  lemma ParseRunsRoundTrip(n: int)
    ensures ParseRuns(IntText(n)).Ok? <==> n >= 1
    ensures n >= 1 ==> ParseRuns(IntText(n)) == Ok(n)
  {
    IntTextValue(n);
    assert (n as real).Floor == n;
  }

  /** The error `parse_float` raises for a labelled field. */
  function FieldNotNumber<T>(field: string): Result<T> { Err(field + " must be a number.") }

  /** `_collect_parameters`. */
  function CollectParameters(start: string, stop: string, step: string, ilimit: string, nplc: string,
                             settle: string, runs: string): (r: Result<SweepParams>)
    ensures r.Ok? <==>
              IsReal(start) && IsReal(stop) && IsReal(step) && ParseReal(step).value != 0.0 &&
              IsReal(ilimit) && IsReal(nplc) && IsReal(settle) && ParseRuns(runs).Ok?
    ensures r.Ok? ==>
              Some(r.value.start) == ParseReal(start) && Some(r.value.stop) == ParseReal(stop) &&
              Some(r.value.step) == ParseReal(step) && r.value.step != 0.0 &&
              r.value.ilimit == Abs(ParseReal(ilimit).value) &&
              r.value.nplc == Max(ParseReal(nplc).value, 0.001) && r.value.settle == Max(ParseReal(settle).value, 0.0) &&
              Ok(r.value.runs) == ParseRuns(runs)
    ensures !IsReal(start) ==> r == FieldNotNumber("Start voltage")
    ensures IsReal(start) && !IsReal(stop) ==> r == FieldNotNumber("Stop voltage")
    ensures IsReal(start) && IsReal(stop) && !IsReal(step) ==> r == FieldNotNumber("Step voltage")
    ensures IsReal(start) && IsReal(stop) && IsReal(step) && ParseReal(step).value == 0.0 ==>
              r == Err("Step voltage must not be zero.")
    ensures IsReal(start) && IsReal(stop) && IsReal(step) && ParseReal(step).value != 0.0 ==>
              (!IsReal(ilimit) ==> r == FieldNotNumber("Compliance current")) &&
              (IsReal(ilimit) && !IsReal(nplc) ==> r == FieldNotNumber("NPLC")) &&
              (IsReal(ilimit) && IsReal(nplc) && !IsReal(settle) ==> r == FieldNotNumber("Settle time"))
  {
    if !IsReal(start) then FieldNotNumber("Start voltage")
    else if !IsReal(stop) then FieldNotNumber("Stop voltage")
    else if !IsReal(step) then FieldNotNumber("Step voltage")
    else if ParseReal(step).value == 0.0 then Err("Step voltage must not be zero.")
    else if !IsReal(ilimit) then FieldNotNumber("Compliance current")
    else if !IsReal(nplc) then FieldNotNumber("NPLC")
    else if !IsReal(settle) then FieldNotNumber("Settle time")
    else
      match ParseRuns(runs)
      case Err(e) => Err(e)
      case Ok(k) =>
        Ok(SweepParams(ParseReal(start).value, ParseReal(stop).value, ParseReal(step).value,
                       Abs(ParseReal(ilimit).value), Max(ParseReal(nplc).value, 0.001),
                       Max(ParseReal(settle).value, 0.0), k))
  }

  /** Whole-number entries are read back as typed, the run count included. */
  lemma CollectParametersRoundTrip(a: int, b: int, s: int, i: int, n: nat, w: nat, k: int)
    requires s != 0 && n >= 1 && k >= 1
    ensures CollectParameters(IntText(a), IntText(b), IntText(s), IntText(i), IntText(n), IntText(w), IntText(k))
         == Ok(SweepParams(a as real, b as real, s as real, Abs(i as real), n as real, w as real, k))
  {
    IntTextValue(a);
    IntTextValue(b);
    IntTextValue(s);
    IntTextValue(i);
    IntTextValue(n);
    IntTextValue(w);
    ParseRunsRoundTrip(k);
  }

  lemma IntTextValue(n: int)
    ensures ParseReal(IntText(n)) == Some(n as real)
  {
    IntTextRoundTrip(n);
    IntTextIsReal(IntText(n));
  }
}
