/** The 2602B buffer readers: a TSP function prints the buffer between a
    "DataStart" line and a "DataEnd" line, and the GUI collects the lines in
    between, splits them into numbers and reports what it found.  The two
    ammeter panels first poll the buffer count until the burst is complete
    and can be cancelled through a stop flag; the two voltmeter panels read
    straight away and never poll a flag. */
module FramedFetch {
  import opened Outcome
  import opened PyText
  import opened Channel
  import opened ResponseParsers

  const DataStart: string := "DataStart"
  const DataEnd: string := "DataEnd"
  const ErrorTag: string := "Error"

  /** A line that is neither a marker nor an instrument error. */
  predicate Plain(l: string)
  {
    !Contains(l, DataStart) && !Contains(l, DataEnd) && !Contains(l, ErrorTag)
  }

  /** What the read loop ends with: the collected text, the error line that stopped it,
      or a cancellation seen at a poll of the stop flag. */
  datatype Frame = Content(text: string) | ErrorLine(line: string) | Cancelled

  function Prepend(s: string, f: Frame): Frame
  {
    if f.Content? then Content(s + f.text) else f
  }

  /** The read loop of `_retrieve_currents` and of the voltmeter `fetch_data`, over the
      answers the stop flag and the instrument are going to give (`polls` is empty for
      the panels without a flag).  Each round polls the flag, then reads one line. */
  function Collect(polls: seq<bool>, p: seq<ReadOutcome>, started: bool): Frame
    decreases |p|
  {
    if FirstSet(polls) then Cancelled
    else if p == [] || !p[0].Line? then Content("")
    else
      var l := p[0].text;
      if Contains(l, DataStart) then Collect(DropFirst(polls), p[1..], true)
      else if Contains(l, DataEnd) then Content("")
      else if Contains(l, ErrorTag) then ErrorLine(l)
      else Prepend(if started then l else "", Collect(DropFirst(polls), p[1..], started))
  }

  /** How many rounds that loop runs, and so how many times it polls the flag. */
  function Rounds(polls: seq<bool>, p: seq<ReadOutcome>, started: bool): nat
    decreases |p|
  {
    if FirstSet(polls) || p == [] || !p[0].Line? then 1
    else
      var l := p[0].text;
      if Contains(l, DataStart) then 1 + Rounds(DropFirst(polls), p[1..], true)
      else if Contains(l, DataEnd) || Contains(l, ErrorTag) then 1
      else 1 + Rounds(DropFirst(polls), p[1..], started)
  }

  /** The flag is set at one of the next `n` polls. */
  predicate SetWithin(polls: seq<bool>, n: nat)
    decreases n
  {
    n > 0 && (FirstSet(polls) || SetWithin(DropFirst(polls), n - 1))
  }

  /** A flag without answers is never set. */
  lemma {:induction false} NeverSetWithin(n: nat)
    ensures !SetWithin([], n)
  {
    if n > 0 {
      NeverSetWithin(n - 1);
    }
  }

  lemma SetWithinStep(polls: seq<bool>, n: nat)
    requires n > 0
    ensures SetWithin(polls, n) == (FirstSet(polls) || SetWithin(DropFirst(polls), n - 1))
  {
  }

  lemma PrependPrepend(a: string, b: string, f: Frame)
    ensures Prepend(a, Prepend(b, f)) == Prepend(a + b, f)
  {
    if f.Content? {
      assert a + (b + f.text) == (a + b) + f.text;
    }
  }

  /** The poll answers of an optional flag. */
  function PollsOf(stop: StopEvent?): seq<bool>
    reads stop
  {
    if stop == null then [] else stop.polls
  }

  /** The read loop. */
  method ReadFrame(inst: Instrument, stop: StopEvent?) returns (f: Frame)
    modifies inst, stop
    ensures f == Collect(old(PollsOf(stop)), old(inst.pending), false)
    ensures PollsOf(stop) == DropN(old(PollsOf(stop)), Rounds(old(PollsOf(stop)), old(inst.pending), false))
    ensures inst.written == old(inst.written) && inst.faults == old(inst.faults) && inst.timeout == old(inst.timeout)
  {
    ghost var polls0 := PollsOf(stop);
    ghost var p0 := inst.pending;
    ghost var used: nat := 0;
    var raw := "";
    var started := false;
    while true
      invariant PollsOf(stop) == DropN(polls0, used)
      invariant Collect(polls0, p0, false) == Prepend(raw, Collect(PollsOf(stop), inst.pending, started))
      invariant Rounds(polls0, p0, false) == used + Rounds(PollsOf(stop), inst.pending, started)
      invariant inst.written == old(inst.written) && inst.faults == old(inst.faults) && inst.timeout == old(inst.timeout)
      decreases |inst.pending|
    {
      ghost var polls := PollsOf(stop);
      var cancelled := false;
      if stop != null {
        cancelled := stop.IsSet();
      } else {
        DropNEmpty(used + 1);
      }
      DropNStep(polls0, used);
      used := used + 1;
      if cancelled {
        return Cancelled;
      }
      ghost var p := inst.pending;
      var r := inst.Read();
      if !r.Line? {
        assert raw + "" == raw;
        return Content(raw);
      }
      var l := r.text;
      if Contains(l, DataStart) {
        started := true;
      } else if Contains(l, DataEnd) {
        assert raw + "" == raw;
        return Content(raw);
      } else if Contains(l, ErrorTag) {
        return ErrorLine(l);
      } else {
        PrependPrepend(raw, if started then l else "", Collect(DropFirst(polls), p[1..], started));
        if started {
          raw := raw + l;
        } else {
          assert raw + "" == raw;
        }
      }
    }
  }

  /** The token loop: a flag answer per field, before the field is looked at. */
  method ParseFields(stop: StopEvent?, fields: seq<string>) returns (values: Option<seq<real>>)
    modifies stop
    ensures values.None? <==> SetWithin(old(PollsOf(stop)), |fields|)
    ensures values.Some? ==> values.value == FieldValues(fields)
  {
    ghost var n := |fields|;
    ghost var polls := PollsOf(stop);
    ghost var cancel := SetWithin(polls, n);
    var vs: seq<real> := [];
    for i := 0 to |fields|
      invariant vs == FieldValues(fields[..i])
      invariant polls == PollsOf(stop)
      invariant cancel == SetWithin(polls, n - i)
    {
      ghost var k: nat := n - i;
      SetWithinStep(polls, k);
      var cancelled := false;
      if stop != null {
        cancelled := stop.IsSet();
      }
      if cancelled {
        return None;
      }
      polls := DropFirst(polls);
      assert cancel == SetWithin(polls, k - 1);
      FieldValuesSnoc(fields, i);
      vs := vs + FieldValue(fields[i]);
    }
    assert fields[..|fields|] == fields;
    assert !cancel;
    return Some(vs);
  }

  lemma FieldValuesSnoc(fields: seq<string>, i: nat)
    requires i < |fields|
    ensures FieldValues(fields[..i + 1]) == FieldValues(fields[..i]) + FieldValue(fields[i])
  {
    assert fields[..i + 1] == fields[..i] + [fields[i]];
    FieldValuesAppend(fields[..i], [fields[i]]);
    assert [fields[i]][1..] == [];
  }

  // ---------------------------------------------------------------- the whole fetch

  /** How one fetch ends, before a panel turns it into a message. */
  datatype FetchVerdict = Values(vs: seq<real>) | WriteFailed | FetchCancelled | InstrumentError(line: string) | NoData | NoValues

  /** The fetch of a panel: the data request is written, the frame is read and its
      fields are parsed, and the first outcome that applies decides the verdict. */
  function FetchSpec(faults: seq<bool>, polls: seq<bool>, pending: seq<ReadOutcome>): FetchVerdict
  {
    if FirstSet(faults) then WriteFailed
    else
      match Collect(polls, pending, false)
      case Cancelled => FetchCancelled
      case ErrorLine(l) => InstrumentError(l)
      case Content(t) =>
        if t == [] then NoData
        else if SetWithin(DropN(polls, Rounds(polls, pending, false)), |BufferFields(t)|) then FetchCancelled
        else if BufferValues(t) == [] then NoValues
        else Values(BufferValues(t))
  }

  const GetAmmeterData: Command := Cmd("GetAmmeterData()")
  const GetVoltmeterData: Command := Cmd("GetVoltmeterData()")

  /** Write the request, read the frame, parse the fields. */
  method FetchFramed(inst: Instrument, stop: StopEvent?, request: Command) returns (v: FetchVerdict)
    modifies inst, stop
    ensures v == FetchSpec(old(inst.faults), old(PollsOf(stop)), old(inst.pending))
    ensures inst.written == old(inst.written) + (if FirstSet(old(inst.faults)) then [] else [request])
  {
    var ok := inst.Write(request);
    if !ok {
      return WriteFailed;
    }
    var f := ReadFrame(inst, stop);
    match f
    case Cancelled =>
      v := FetchCancelled;
    case ErrorLine(l) =>
      v := InstrumentError(l);
    case Content(t) =>
      if t == [] {
        v := NoData;
      } else {
        var parsed := ParseFields(stop, BufferFields(t));
        if parsed.None? {
          v := FetchCancelled;
        } else if parsed.value == [] {
          v := NoValues;
        } else {
          v := Values(parsed.value);
        }
      }
  }

  // ---------------------------------------------------------------- framing properties

  /** Every outcome is a line and none of them is a marker or an error. */
  predicate PlainLines(q: seq<ReadOutcome>)
  {
    forall i :: 0 <= i < |q| ==> q[i].Line? && Plain(q[i].text)
  }

  /** The text of a run of lines, concatenated as `raw_content += line` does. */
  function Texts(q: seq<ReadOutcome>): string
    requires forall i :: 0 <= i < |q| ==> q[i].Line?
  {
    if q == [] then "" else q[0].text + Texts(q[1..])
  }

  /** What ends a frame: a read error or a "DataEnd" line (that does not also say "DataStart"). */
  predicate Closes(o: ReadOutcome)
  {
    !o.Line? || (Contains(o.text, DataEnd) && !Contains(o.text, DataStart))
  }

  /** Lines before the first "DataStart" are dropped. */
  lemma {:induction false} SkipBeforeStart(q: seq<ReadOutcome>, rest: seq<ReadOutcome>)
    requires PlainLines(q)
    ensures Collect([], q + rest, false) == Collect([], rest, false)
  {
    if q != [] {
      assert (q + rest)[0] == q[0];
      assert (q + rest)[1..] == q[1..] + rest;
      SkipBeforeStart(q[1..], rest);
      assert Prepend("", Collect([], rest, false)) == Collect([], rest, false);
    } else {
      assert q + rest == rest;
    }
  }

  /** Lines after it are collected, in order. */
  lemma {:induction false} GatherAfterStart(q: seq<ReadOutcome>, rest: seq<ReadOutcome>)
    requires PlainLines(q)
    ensures Collect([], q + rest, true) == Prepend(Texts(q), Collect([], rest, true))
  {
    if q != [] {
      assert (q + rest)[0] == q[0];
      assert (q + rest)[1..] == q[1..] + rest;
      GatherAfterStart(q[1..], rest);
      PrependPrepend(q[0].text, Texts(q[1..]), Collect([], rest, true));
    } else {
      assert q + rest == rest;
      assert Prepend("", Collect([], rest, true)) == Collect([], rest, true);
    }
  }

  /** The collected text is exactly what lies strictly between the first "DataStart"
      line and the read error or "DataEnd" line that follows: neither marker is kept,
      and whatever comes after the end is never read. */
  lemma FramedBetween(pre: seq<ReadOutcome>, start: string, body: seq<ReadOutcome>, end: ReadOutcome, post: seq<ReadOutcome>)
    requires PlainLines(pre) && PlainLines(body)
    requires Contains(start, DataStart) && Closes(end)
    ensures Collect([], pre + ([Line(start)] + (body + ([end] + post))), false) == Content(Texts(body))
  {
    var tail := [end] + post;
    var afterStart := body + tail;
    SkipBeforeStart(pre, [Line(start)] + afterStart);
    assert ([Line(start)] + afterStart)[1..] == afterStart;
    GatherAfterStart(body, tail);
    assert Texts(body) + "" == Texts(body);
  }

  /** The frame may also run to the end of what the instrument sends. */
  lemma FramedToEnd(pre: seq<ReadOutcome>, start: string, body: seq<ReadOutcome>)
    requires PlainLines(pre) && PlainLines(body)
    requires Contains(start, DataStart)
    ensures Collect([], pre + ([Line(start)] + body), false) == Content(Texts(body))
  {
    SkipBeforeStart(pre, [Line(start)] + body);
    assert ([Line(start)] + body)[1..] == body;
    GatherAfterStart(body, []);
    assert body + [] == body;
    assert Texts(body) + "" == Texts(body);
  }

  /** Without a "DataStart" line nothing is collected. */
  lemma NoStartNoData(q: seq<ReadOutcome>, end: ReadOutcome, post: seq<ReadOutcome>)
    requires PlainLines(q) && Closes(end)
    ensures Collect([], q + ([end] + post), false) == Content("")
    ensures FetchSpec([], [], q + ([end] + post)) == NoData
  {
    SkipBeforeStart(q, [end] + post);
  }

  /** An "Error" line stops the fetch, even one that comes before "DataStart". */
  lemma ErrorStops(pre: seq<ReadOutcome>, l: string, post: seq<ReadOutcome>)
    requires PlainLines(pre)
    requires Contains(l, ErrorTag) && !Contains(l, DataStart) && !Contains(l, DataEnd)
    ensures Collect([], pre + ([Line(l)] + post), false) == ErrorLine(l)
    ensures FetchSpec([], [], pre + ([Line(l)] + post)) == InstrumentError(l)
  {
    SkipBeforeStart(pre, [Line(l)] + post);
  }

  /** A fault-free fetch of a frame whose fields hold numbers yields those numbers. */
  lemma FetchFramedValues(pre: seq<ReadOutcome>, start: string, body: seq<ReadOutcome>, end: ReadOutcome, post: seq<ReadOutcome>)
    requires PlainLines(pre) && PlainLines(body)
    requires Contains(start, DataStart) && Closes(end)
    requires BufferValues(Texts(body)) != []
    ensures FetchSpec([], [], pre + ([Line(start)] + (body + ([end] + post)))) == Values(BufferValues(Texts(body)))
  {
    FramedBetween(pre, start, body, end, post);
    DropNEmpty(Rounds([], pre + ([Line(start)] + (body + ([end] + post))), false));
    NeverSetWithin(|BufferFields(Texts(body))|);
    BufferValuesEmpty();
  }

  /** A flag raised before the first read cancels the fetch, whatever the instrument sends. */
  lemma CancelFirst(polls: seq<bool>, pending: seq<ReadOutcome>)
    requires FirstSet(polls)
    ensures FetchSpec([], polls, pending) == FetchCancelled
  {
  }

  /** A frame of numbers cancelled while its fields are being parsed. */
  lemma CancelDuringParse(polls: seq<bool>, pending: seq<ReadOutcome>)
    requires Collect(polls, pending, false).Content? && Collect(polls, pending, false).text != []
    requires FirstSet(DropN(polls, Rounds(polls, pending, false)))
    ensures FetchSpec([], polls, pending) == FetchCancelled
  {
    var t := Collect(polls, pending, false).text;
    assert |BufferFields(t)| > 0;
  }

  // ---------------------------------------------------------------- waiting for the buffer

  const CountQuery: Command := Cmd("print(smua.nvbuffer1.n)")

  /** The buffer count a reply stands for: `int(float(reply.strip()))`, or 0 when it is not a number. */
  function CountOf(reply: string): (n: int)
    ensures !IsReal(reply) ==> n == 0
    ensures IsReal(reply) ==> n == TruncToInt(ParseReal(reply).value)
  {
    match ParseTruncatedInt(reply)
    case Some(c) => c
    case None => 0
  }

  /** The wait is over once the expected count is reached, or once anything arrived when
      no count is expected. */
  predicate IsReady(count: int, expected: int)
  {
    if expected > 0 then count >= expected else count > 0
  }

  /** How long `_wait_for_buffer_ready` keeps polling, in seconds. */
  function DeadlineSeconds(expected: int): (t: real)
    ensures t >= 5.0 && t >= expected as real * 0.01 + 2.0
  {
    Max(5.0, expected as real * 0.01 + 2.0)
  }

  datatype WaitResult = Ready | WaitCancelled | QueryFailed | StillEmpty(last: int)

  /** The polling loop, given the stop flag's and the instrument's answers and the number
      of rounds that start before the deadline (`budget`); `last` is the count seen so far. */
  function WaitSpec(polls: seq<bool>, faults: seq<bool>, pending: seq<ReadOutcome>, expected: int, budget: nat, last: int): WaitResult
    decreases budget
  {
    if budget == 0 then StillEmpty(last)
    else if FirstSet(polls) then WaitCancelled
    else if FirstSet(faults) || !NextRead(pending).Line? then QueryFailed
    else
      var c := CountOf(NextRead(pending).text);
      if IsReady(c, expected) then Ready
      else WaitSpec(DropFirst(polls), DropFirst(faults), AfterRead(pending), expected, budget - 1, c)
  }

  /** How many queries a successful wait makes. */
  function WaitRounds(polls: seq<bool>, faults: seq<bool>, pending: seq<ReadOutcome>, expected: int, budget: nat): nat
    decreases budget
  {
    if budget == 0 || FirstSet(polls) || FirstSet(faults) || !NextRead(pending).Line? then 0
    else if IsReady(CountOf(NextRead(pending).text), expected) then 1
    else 1 + WaitRounds(DropFirst(polls), DropFirst(faults), AfterRead(pending), expected, budget - 1)
  }

  /** The read outcomes left after `n` reads. */
  function ReadsAfter(p: seq<ReadOutcome>, n: nat): seq<ReadOutcome>
  {
    if n == 0 then p else ReadsAfter(AfterRead(p), n - 1)
  }

  lemma ReadsAfterStep(p: seq<ReadOutcome>, n: nat)
    ensures ReadsAfter(p, n + 1) == AfterRead(ReadsAfter(p, n))
    decreases n
  {
    if n > 0 {
      ReadsAfterStep(AfterRead(p), n - 1);
    }
  }

  /** `_wait_for_buffer_ready`. */
  method WaitForBufferReady(inst: Instrument, stop: StopEvent, expected: int, budget: nat) returns (w: WaitResult)
    modifies inst, stop
    ensures w == WaitSpec(old(stop.polls), old(inst.faults), old(inst.pending), expected, budget, 0)
    ensures w == Ready ==>
      var k := WaitRounds(old(stop.polls), old(inst.faults), old(inst.pending), expected, budget);
      stop.polls == DropN(old(stop.polls), k) && inst.faults == DropN(old(inst.faults), k) &&
      inst.pending == ReadsAfter(old(inst.pending), k)
    ensures |old(inst.written)| <= |inst.written|
    ensures forall i :: |old(inst.written)| <= i < |inst.written| ==> inst.written[i] == CountQuery
    ensures inst.timeout == old(inst.timeout)
  {
    ghost var polls0, faults0, pending0 := stop.polls, inst.faults, inst.pending;
    ghost var k: nat := 0;
    var last := 0;
    var left := budget;
    while left > 0
      invariant WaitSpec(polls0, faults0, pending0, expected, budget, 0) == WaitSpec(stop.polls, inst.faults, inst.pending, expected, left, last)
      invariant WaitRounds(polls0, faults0, pending0, expected, budget) == k + WaitRounds(stop.polls, inst.faults, inst.pending, expected, left)
      invariant stop.polls == DropN(polls0, k) && inst.faults == DropN(faults0, k) && inst.pending == ReadsAfter(pending0, k)
      invariant |old(inst.written)| <= |inst.written|
      invariant forall i :: |old(inst.written)| <= i < |inst.written| ==> inst.written[i] == CountQuery
      invariant inst.timeout == old(inst.timeout)
    {
      var cancelled := stop.IsSet();
      if cancelled {
        return WaitCancelled;
      }
      var r := inst.Query(CountQuery);
      if !r.Line? {
        return QueryFailed;
      }
      DropNStep(polls0, k);
      DropNStep(faults0, k);
      ReadsAfterStep(pending0, k);
      k := k + 1;
      last := CountOf(r.text);
      if IsReady(last, expected) {
        return Ready;
      }
      left := left - 1;
    }
    return StillEmpty(last);
  }

  // ---------------------------------------------------------------- the ammeter panels

  const FetchCancelledMsg: string := "Fetch cancelled."
  const NoDataBetweenTags: string := "No data found between tags."
  const ParsedZero: string := "Parsed 0 values from instrument output."
  const TriggerTail: string := "Did you send the trigger?"
  const MeasureTail: string := "Did the measurement complete?"

  function WaitError(w: WaitResult, tail: string): (msg: string)
  {
    match w
    case Ready => ""
    case WaitCancelled => FetchCancelledMsg
    case QueryFailed => VisaFailure
    case StillEmpty(n) => "Buffer still empty (last count=" + IntText(n) + "). " + tail
  }

  /** What `_retrieve_currents` returns or raises after the fetch proper. */
  function AmmeterResult(v: FetchVerdict): (r: Result<seq<real>>)
    ensures r.Ok? <==> v.Values?
    ensures r.Ok? ==> r.value == v.vs
  {
    match v
    case Values(vs) => Ok(vs)
    case WriteFailed => Err(VisaFailure)
    case FetchCancelled => Err(FetchCancelledMsg)
    case InstrumentError(l) => Err(Strip(l))
    case NoData => Err(NoDataBetweenTags)
    case NoValues => Err(ParsedZero)
  }

  /** `_retrieve_currents` as a whole: the wait, then the fetch on what is left of the answers. */
  function RetrieveSpec(polls: seq<bool>, faults: seq<bool>, pending: seq<ReadOutcome>, expected: int, budget: nat, tail: string): Result<seq<real>>
  {
    var w := WaitSpec(polls, faults, pending, expected, budget, 0);
    if w != Ready then Err(WaitError(w, tail))
    else
      var k := WaitRounds(polls, faults, pending, expected, budget);
      AmmeterResult(FetchSpec(DropN(faults, k), DropN(polls, k), ReadsAfter(pending, k)))
  }

  method RetrieveCurrents(inst: Instrument, stop: StopEvent, expected: int, budget: nat, tail: string) returns (r: Result<seq<real>>)
    modifies inst, stop
    ensures r == RetrieveSpec(old(stop.polls), old(inst.faults), old(inst.pending), expected, budget, tail)
  {
    var w := WaitForBufferReady(inst, stop, expected, budget);
    if w != Ready {
      return Err(WaitError(w, tail));
    }
    var v := FetchFramed(inst, stop, GetAmmeterData);
    r := AmmeterResult(v);
  }

  const FetchingStatus: string := "Fetching data..."
  const FetchErrorStatus: string := "Error fetching data"

  function PlottedStatus(n: nat): string
  {
    "Successfully plotted " + NatText(n) + " points."
  }

  const CountNotInteger: string := "Count must be an integer."
  const CountAndLineNotIntegers: string := "Count and Trigger Line must be integers."

  /** How a start request ends: ignored without a connection, refused input, the burst
      armed for `count` points, or a write that raised. */
  datatype StartOutcome = Ignored | InputError(msg: string) | Started(count: int) | WriteError

  /** The window state of an ammeter panel that the fetch touches. */
  class AmmeterPanel {
    var inst: Instrument?
    var workerAlive: bool
    var closing: bool
    var startEnabled: bool
    var fetchEnabled: bool
    var status: string
    var plot: seq<real>
    /** `_expected_count or 0`. */
    var expectedCount: int
    /** The hint that ends the "Buffer still empty" message of this panel. */
    const tail: string

    constructor (tail0: string)
      ensures inst == null && !workerAlive && !closing && !startEnabled && !fetchEnabled
      ensures status == "Not Connected" && plot == [] && expectedCount == 0 && tail == tail0
    {
      inst := null;
      workerAlive := false;
      closing := false;
      startEnabled := false;
      fetchEnabled := false;
      status := "Not Connected";
      plot := [];
      expectedCount := 0;
      tail := tail0;
    }

    /** The guard of `fetch_data`: nothing happens without a connection or while a worker runs. */
    method RequestFetch() returns (go: bool)
      modifies this
      ensures go <==> old(inst) != null && !old(workerAlive)
      ensures !go ==> unchanged(this)
      ensures go ==> workerAlive && !startEnabled && !fetchEnabled && status == FetchingStatus
      ensures inst == old(inst) && closing == old(closing) && plot == old(plot) && expectedCount == old(expectedCount)
    {
      if inst == null || workerAlive {
        return false;
      }
      status := FetchingStatus;
      fetchEnabled := false;
      startEnabled := false;
      workerAlive := true;
      return true;
    }

    /** `_restore_controls`: both buttons follow the connection, unless the window is closing. */
    method RestoreControls()
      modifies this
      ensures old(closing) ==> unchanged(this)
      ensures !old(closing) ==> startEnabled == (inst != null) && fetchEnabled == (inst != null)
      ensures inst == old(inst) && workerAlive == old(workerAlive) && closing == old(closing)
      ensures status == old(status) && plot == old(plot) && expectedCount == old(expectedCount)
    {
      if closing {
        return;
      }
      startEnabled := inst != null;
      fetchEnabled := inst != null;
    }

    /** `_fetch_succeeded` and `_fetch_failed`. */
    method FetchDone(r: Result<seq<real>>)
      modifies this
      ensures !workerAlive && inst == old(inst) && closing == old(closing) && expectedCount == old(expectedCount)
      ensures r.Err? ==> status == FetchErrorStatus && plot == old(plot)
      ensures r.Ok? && !closing ==> status == PlottedStatus(|r.value|) && plot == r.value
      ensures r.Ok? && closing ==> status == old(status) && plot == old(plot)
      ensures !closing ==> startEnabled == (inst != null) && fetchEnabled == (inst != null)
      ensures closing ==> startEnabled == old(startEnabled) && fetchEnabled == old(fetchEnabled)
    {
      if r.Err? {
        status := FetchErrorStatus;
      }
      workerAlive := false;
      if r.Ok? && !closing {
        plot := r.value;
        status := PlottedStatus(|r.value|);
      }
      RestoreControls();
    }

    /** `start_measurement` of the plain ammeter panel: the count must be an integer, and it
        becomes the expected count only once the burst command is written. */
    method StartMeasurement(countText: string) returns (r: StartOutcome)
      modifies this, inst
      ensures old(inst) == null ==> r == Ignored && unchanged(this)
      ensures old(inst) != null && ParseInt(countText).None? ==>
        r == InputError(CountNotInteger) && unchanged(this) && unchanged(old(inst))
      ensures old(inst) != null && ParseInt(countText).Some? ==>
        var n := ParseInt(countText).value;
        var ok := !FirstSet(old(inst.faults));
        old(inst).written == old(inst.written) + (if ok then [Command("StartAmmeterBurst", [Whole(n)])] else []) &&
        r == (if ok then Started(n) else WriteError) &&
        expectedCount == (if ok then n else old(expectedCount)) &&
        status == (if ok then "Measurement of " + IntText(n) + " points started..." else old(status))
      ensures inst == old(inst) && workerAlive == old(workerAlive) && plot == old(plot)
      ensures startEnabled == old(startEnabled) && fetchEnabled == old(fetchEnabled)
    {
      if inst == null {
        return Ignored;
      }
      var count := ParseInt(countText);
      if count.None? {
        return InputError(CountNotInteger);
      }
      var ok := inst.Write(Command("StartAmmeterBurst", [Whole(count.value)]));
      if !ok {
        return WriteError;
      }
      status := "Measurement of " + IntText(count.value) + " points started...";
      expectedCount := count.value;
      return Started(count.value);
    }

    /** `start_measurement` of the triggered ammeter panel: count and trigger line. */
    method StartTriggered(countText: string, lineText: string) returns (r: StartOutcome)
      modifies this, inst
      ensures old(inst) == null ==> r == Ignored && unchanged(this)
      ensures old(inst) != null && (ParseInt(countText).None? || ParseInt(lineText).None?) ==>
        r == InputError(CountAndLineNotIntegers) && unchanged(this) && unchanged(old(inst))
      ensures old(inst) != null && ParseInt(countText).Some? && ParseInt(lineText).Some? ==>
        var n, line := ParseInt(countText).value, ParseInt(lineText).value;
        var ok := !FirstSet(old(inst.faults));
        old(inst).written == old(inst.written) + (if ok then [Command("StartTriggeredAmmeter", [Whole(n), Whole(line)])] else []) &&
        r == (if ok then Started(n) else WriteError) &&
        expectedCount == (if ok then n else old(expectedCount)) &&
        status == (if ok then "ARMED on Digio " + IntText(line) + ". Waiting for trigger..." else old(status))
      ensures inst == old(inst) && workerAlive == old(workerAlive) && plot == old(plot)
      ensures startEnabled == old(startEnabled) && fetchEnabled == old(fetchEnabled)
    {
      if inst == null {
        return Ignored;
      }
      var count := ParseInt(countText);
      var line := ParseInt(lineText);
      if count.None? || line.None? {
        return InputError(CountAndLineNotIntegers);
      }
      var ok := inst.Write(Command("StartTriggeredAmmeter", [Whole(count.value), Whole(line.value)]));
      if !ok {
        return WriteError;
      }
      status := "ARMED on Digio " + IntText(line.value) + ". Waiting for trigger...";
      expectedCount := count.value;
      return Started(count.value);
    }

    /** `fetch_data` with its worker run to the end: the guard, `_retrieve_currents`,
        then the completion handler on the GUI thread. */
    method FetchData(stop: StopEvent, budget: nat) returns (started: bool)
      modifies this, inst, stop
      ensures started <==> old(inst) != null && !old(workerAlive)
      ensures !started ==> unchanged(this) && unchanged(stop)
      ensures started ==>
        var r := RetrieveSpec(old(stop.polls), old(inst.faults), old(inst.pending), old(expectedCount), budget, tail);
        !workerAlive && inst == old(inst) &&
        (r.Err? ==> status == FetchErrorStatus && plot == old(plot)) &&
        (r.Ok? && !closing ==> status == PlottedStatus(|r.value|) && plot == r.value) &&
        (!closing ==> startEnabled == (inst != null) && fetchEnabled == (inst != null))
    {
      started := RequestFetch();
      if !started {
        return;
      }
      var r := RetrieveCurrents(inst, stop, expectedCount, budget, tail);
      FetchDone(r);
    }
  }

  // ---------------------------------------------------------------- the voltmeter panels

  /** The status a voltmeter panel leaves after a fetch; `reported` selects the
      trigger voltmeter's wording over that of the combined 2602B/33522B tool. */
  function VoltmeterStatus(v: FetchVerdict, reported: bool): (status: string)
  {
    match v
    case Values(vs) => PlottedStatus(|vs|)
    case WriteFailed => FetchErrorStatus
    case FetchCancelled => FetchErrorStatus
    case InstrumentError(l) => if reported then "Instrument reported: " + Strip(l) else Strip(l)
    case NoData => if reported then "No data found. Did you trigger the device?" else "No data received. Did the trigger fire?"
    case NoValues => if reported then "Parsed 0 values." else ParsedZero
  }

  /** Without a stop flag a fetch is never cancelled. */
  lemma {:induction false} NoFlagNoCancel(p: seq<ReadOutcome>, started: bool)
    ensures !Collect([], p, started).Cancelled?
    decreases |p|
  {
    if p != [] && p[0].Line? {
      NoFlagNoCancel(p[1..], started);
      NoFlagNoCancel(p[1..], true);
    }
  }

  /** The voltmeter `fetch_data`: the status it sets and the values it plots. */
  method VoltmeterFetch(inst: Instrument?, reported: bool) returns (status: Option<string>, plotted: seq<real>)
    modifies inst
    ensures inst == null ==> status.None? && plotted == []
    ensures inst != null ==>
      var v := FetchSpec(old(inst.faults), [], old(inst.pending));
      status == Some(VoltmeterStatus(v, reported)) && plotted == (if v.Values? then v.vs else [])
  {
    if inst == null {
      return None, [];
    }
    var v := FetchFramed(inst, null, GetVoltmeterData);
    status := Some(VoltmeterStatus(v, reported));
    plotted := if v.Values? then v.vs else [];
  }

  /** A voltmeter fetch never reports a cancellation, and it plots only when values were parsed. */
  lemma VoltmeterOutcomes(faults: seq<bool>, pending: seq<ReadOutcome>)
    ensures FetchSpec(faults, [], pending) != FetchCancelled
  {
    NoFlagNoCancel(pending, false);
    var f := Collect([], pending, false);
    if f.Content? && f.text != [] {
      DropNEmpty(Rounds([], pending, false));
      NeverSetWithin(|BufferFields(f.text)|);
    }
  }

  /** `start_measurement` of the voltmeter panels: both entries must be integers, then the
      burst is armed on the given digital line. */
  method VoltmeterStart(inst: Instrument?, countText: string, lineText: string, reported: bool) returns (r: StartOutcome, status: Option<string>)
    modifies inst
    ensures inst == null ==> r == Ignored && status.None?
    ensures inst != null && (ParseInt(countText).None? || ParseInt(lineText).None?) ==>
      r == InputError(if reported then CountAndLineNotIntegers else "Count and trigger line must be integers.") &&
      status.None? && unchanged(inst)
    ensures inst != null && ParseInt(countText).Some? && ParseInt(lineText).Some? ==>
      var n, line := ParseInt(countText).value, ParseInt(lineText).value;
      var ok := !FirstSet(old(inst.faults));
      inst.written == old(inst.written) + (if ok then [Command("StartVoltmeterBurst", [Whole(n), Whole(line)])] else []) &&
      r == (if ok then Started(n) else WriteError) &&
      status == (if !ok then None
        else if reported then Some("Armed on Digio " + IntText(line) + ". Waiting for trigger to measure " + IntText(n) + " points...")
        else Some("Armed on Digio " + IntText(line) + ". Waiting for trigger to capture " + IntText(n) + " readings..."))
  {
    if inst == null {
      return Ignored, None;
    }
    var count := ParseInt(countText);
    var line := ParseInt(lineText);
    if count.None? || line.None? {
      return InputError(if reported then CountAndLineNotIntegers else "Count and trigger line must be integers."), None;
    }
    var ok := inst.Write(Command("StartVoltmeterBurst", [Whole(count.value), Whole(line.value)]));
    if !ok {
      return WriteError, None;
    }
    r := Started(count.value);
    if reported {
      status := Some("Armed on Digio " + IntText(line.value) + ". Waiting for trigger to measure " + IntText(count.value) + " points...");
    } else {
      status := Some("Armed on Digio " + IntText(line.value) + ". Waiting for trigger to capture " + IntText(count.value) + " readings...");
    }
  }

  // ---------------------------------------------------------------- waiting properties

  /** Replies that are all counts short of the target. */
  predicate ShortCounts(q: seq<ReadOutcome>, expected: int)
  {
    forall i :: 0 <= i < |q| ==> q[i].Line? && !IsReady(CountOf(q[i].text), expected)
  }

  /** A reply that is not a number never ends the wait. */
  lemma NonNumericNotReady(reply: string, expected: int)
    requires !IsReal(reply)
    ensures !IsReady(CountOf(reply), expected)
  {
  }

  /** The five-second floor covers bursts of up to 300 points; longer bursts get 10 ms per point and two seconds more. */
  lemma DeadlineShape(expected: int)
    ensures expected <= 300 ==> DeadlineSeconds(expected) == 5.0
    ensures expected >= 300 ==> DeadlineSeconds(expected) == expected as real * 0.01 + 2.0
  {
  }

  /** When every reply before the deadline falls short, the wait gives up and reports the last count. */
  lemma {:induction false} WaitTimesOut(q: seq<ReadOutcome>, rest: seq<ReadOutcome>, expected: int, last: int)
    requires q != [] && ShortCounts(q, expected)
    ensures WaitSpec([], [], q + rest, expected, |q|, last) == StillEmpty(CountOf(q[|q| - 1].text))
    decreases |q|
  {
    var p := q + rest;
    assert NextRead(p) == q[0];
    assert AfterRead(p) == q[1..] + rest;
    if |q| > 1 {
      WaitTimesOut(q[1..], rest, expected, CountOf(q[0].text));
    }
  }

  /** The first reply that reaches the target ends the wait, after one query per reply. */
  lemma {:induction false} WaitReadyAt(q: seq<ReadOutcome>, reply: string, rest: seq<ReadOutcome>, expected: int, budget: nat, last: int)
    requires ShortCounts(q, expected) && IsReady(CountOf(reply), expected) && |q| < budget
    ensures WaitSpec([], [], q + ([Line(reply)] + rest), expected, budget, last) == Ready
    ensures WaitRounds([], [], q + ([Line(reply)] + rest), expected, budget) == |q| + 1
    decreases |q|
  {
    var p := q + ([Line(reply)] + rest);
    if q != [] {
      assert NextRead(p) == q[0];
      assert AfterRead(p) == q[1..] + ([Line(reply)] + rest);
      WaitReadyAt(q[1..], reply, rest, expected, budget - 1, CountOf(q[0].text));
    } else {
      assert p == [Line(reply)] + rest;
    }
  }

  lemma {:induction false} ReadsAfterPrefix(a: seq<ReadOutcome>, b: seq<ReadOutcome>)
    ensures ReadsAfter(a + b, |a|) == b
    decreases |a|
  {
    if a != [] {
      assert AfterRead(a + b) == a[1..] + b;
      ReadsAfterPrefix(a[1..], b);
    } else {
      assert a + b == b;
    }
  }

  /** A fault-free fetch end to end: the counts climb to the target, then the frame's
      numbers come back. */
  lemma RetrieveClean(q: seq<ReadOutcome>, reply: string, frame: seq<ReadOutcome>, expected: int, budget: nat, tail: string)
    requires ShortCounts(q, expected) && IsReady(CountOf(reply), expected) && |q| < budget
    requires FetchSpec([], [], frame).Values?
    ensures RetrieveSpec([], [], q + ([Line(reply)] + frame), expected, budget, tail) == Ok(FetchSpec([], [], frame).vs)
  {
    var p := q + ([Line(reply)] + frame);
    WaitReadyAt(q, reply, frame, expected, budget, 0);
    DropNEmpty(|q| + 1);
    assert p == (q + [Line(reply)]) + frame;
    ReadsAfterPrefix(q + [Line(reply)], frame);
  }
}
