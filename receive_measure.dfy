/** The wait-for-trigger voltmeter (2450 receive-measure panel): the script
    prints progress lines and then one result word or a sample count; the
    worker classifies the last line and reads the buffer back only after a
    completed capture. */
module ReceiveMeasure {
  import opened Outcome
  import opened PyText
  import opened Channel
  import opened DrainQuery
  import opened ResponseParsers

  /** `DRAIN_TIMEOUT_MS`. */
  const DrainCap: int := 750

  const BufferQuery: Command := Cmd("printbuffer(1, defbuffer1.n, defbuffer1)")

  /** The result words the script may print instead of a count. */
  predicate IsResultWord(w: string)
  {
    w == "TIMEOUT" || w == "INVALID_MODE" || w == "CANCEL"
  }

  /** The worker's reading of a response: progress lines, status, captured count. */
  datatype Verdict = Verdict(progress: seq<string>, status: string, captured: int)

  /** The status of the result line. */
  function ResultStatus(resultLine: string): (v: (string, int))
    ensures IsResultWord(Upper(Strip(resultLine))) ==> v == (Upper(Strip(resultLine)), 0)
    ensures !IsResultWord(Upper(Strip(resultLine))) && IsReal(resultLine) ==>
      v == ("COMPLETE", RoundHalfEven(ParseReal(resultLine).value))
    ensures !IsResultWord(Upper(Strip(resultLine))) && !IsReal(resultLine) ==>
      v.1 == 0 && v.0 == (if Strip(resultLine) == [] then "UNKNOWN" else Strip(resultLine))
  {
    var normalized := Upper(Strip(resultLine));
    if IsResultWord(normalized) then (normalized, 0)
    else
      match ParseReal(resultLine)
      case Some(x) => ("COMPLETE", RoundHalfEven(x))
      case None => (if Strip(resultLine) == [] then "UNKNOWN" else Strip(resultLine), 0)
  }

  /** `_measurement_worker`'s classification: the last line is the result, the rest progress. */
  function Classify(lines: seq<string>): (v: Verdict)
    ensures lines == [] <==> v.status == "NO_RESULT" && v.progress == [] && v.captured == 0 && lines == []
    ensures lines != [] ==> v.progress == lines[..|lines| - 1]
  {
    if lines == [] then Verdict([], "NO_RESULT", 0)
    else
      var r := ResultStatus(lines[|lines| - 1]);
      Verdict(lines[..|lines| - 1], r.0, r.1)
  }

  /** The buffer is read back only after a completed capture of at least one sample. */
  predicate ReadsBuffer(v: Verdict)
  {
    v.status == "COMPLETE" && v.captured > 0
  }

  // ------------------------------------------------------------ properties

  /** A printed sample count completes the capture with that count. */
  lemma CountLineCompletes(progress: seq<string>, n: int)
    ensures Classify(progress + [IntText(n)]) == Verdict(progress, "COMPLETE", n)
    ensures ReadsBuffer(Classify(progress + [IntText(n)])) <==> n > 0
  {
    var lines := progress + [IntText(n)];
    assert lines[|lines| - 1] == IntText(n);
    assert lines[..|lines| - 1] == progress;
    IntTextRoundTrip(n);
    IntTextIsReal(IntText(n));
    IntTextChars(n);
    NoEdgeSpaceStripFixed(IntText(n));
    var t := IntText(n);
    assert Upper(t)[0] == UpperChar(t[0]) == t[0];
    assert !IsResultWord(Upper(t));
    assert RoundHalfEven(n as real) == n;
  }

  /** A result word, in any case and with surrounding blanks, is passed through upper-cased,
      and never reads the buffer. */
  lemma ResultWordPassesThrough(progress: seq<string>, line: string)
    requires IsResultWord(Upper(Strip(line)))
    ensures Classify(progress + [line]) == Verdict(progress, Upper(Strip(line)), 0)
    ensures !ReadsBuffer(Classify(progress + [line]))
  {
    var lines := progress + [line];
    assert lines[|lines| - 1] == line;
    assert lines[..|lines| - 1] == progress;
  }

  /** A result word is not a number, so the order of the two checks does not matter. */
  lemma ResultWordNotReal(line: string)
    requires IsResultWord(Upper(Strip(line)))
    ensures !IsReal(line)
  {
    var t := Strip(line);
    assert Upper(t)[0] == UpperChar(t[0]);
    NotRealLead(line);
  }

  /** Anything else is reported as its stripped text (or UNKNOWN when blank). */
  lemma OtherLineReported(progress: seq<string>, line: string)
    requires !IsResultWord(Upper(Strip(line))) && !IsReal(line)
    ensures Classify(progress + [line]).status == (if Strip(line) == [] then "UNKNOWN" else Strip(line))
    ensures !ReadsBuffer(Classify(progress + [line])) || Strip(line) == "COMPLETE"
  {
    var lines := progress + [line];
    assert lines[|lines| - 1] == line;
  }

  // ------------------------------------------------------------ the worker

  /** `_measurement_worker`: run the command, classify the reply, and fetch the buffer after a
      completed capture. */
  method MeasurementWorker(inst: Instrument?, command: Command)
    returns (verdict: Result<Verdict>, voltages: Option<seq<real>>, bufferError: Option<string>)
    modifies inst
    ensures inst == null ==> verdict == Err("Instrument disconnected.") && voltages.None? && bufferError.None?
    ensures inst != null ==>
      var reply := QueryReply(old(inst.pending), old(inst.faults));
      (reply.result.Err? ==> verdict == Err(reply.result.msg) && voltages.None? && bufferError.None?) &&
      (reply.result.Ok? ==> verdict == Ok(Classify(reply.result.value))) &&
      (reply.result.Ok? && !ReadsBuffer(Classify(reply.result.value)) ==>
         voltages.None? && bufferError.None? && inst.pending == reply.rest) &&
      (reply.result.Ok? && ReadsBuffer(Classify(reply.result.value)) ==>
         var second := QueryReply(reply.rest, DropFirst(old(inst.faults)));
         (second.result.Ok? ==> voltages == Some(BufferValues(Join(second.result.value, '\n'))) && bufferError.None?) &&
         (second.result.Err? ==> voltages.None? && bufferError == Some(second.result.msg)))
  {
    if inst == null {
      return Err("Instrument disconnected."), None, None;
    }
    var lines := QueryLines(inst, command, DrainCap, Err("Instrument not connected."));
    if lines.Err? {
      return Err(lines.msg), None, None;
    }
    var v := Classify(lines.value);
    verdict := Ok(v);
    voltages := None;
    bufferError := None;
    if ReadsBuffer(v) {
      var buffer := QueryLines(inst, BufferQuery, DrainCap, Err("Instrument not connected."));
      if buffer.Err? {
        bufferError := Some(buffer.msg);
      } else {
        var vs := ParseBuffer(Join(buffer.value, '\n'));
        voltages := Some(vs);
      }
    }
  }

  // ------------------------------------------------------------ buttons

  /** `_update_button_state`: which buttons are enabled. */
  datatype Buttons = Buttons(start: bool, cancel: bool, clear: bool, errors: bool)

  function ButtonState(connected: bool, running: bool): (b: Buttons)
    ensures b.start <==> connected && !running
    ensures b.cancel <==> connected && running
    ensures b.clear == b.start && b.errors == b.start
    ensures !(b.start && b.cancel)
  {
    var canRun := connected && !running;
    Buttons(canRun, connected && running, canRun, canRun)
  }
}
