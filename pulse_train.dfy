/** The 2602B timer-driven pulse train: the entry checks, the derived source range
    and timer count, and the run, whose `finally` switches the output off only when
    the output-on write went out. */
module PulseTrain {
  import opened Outcome
  import opened PyText
  import opened Channel
  import opened WriteSequence

  /** The panel's entries, as typed. */
  datatype TrainEntries = TrainEntries(level: string, widthUs: string, periodUs: string, bias: string,
                                       limit: string, count: string, periodTimer: string, pulseTimer: string)

  datatype TrainParams = TrainParams(level: real, widthUs: real, periodUs: real, bias: real,
                                     limit: real, count: int, periodTimer: int, pulseTimer: int)

  const NotNumeric: string := "All numeric fields must contain valid numbers."
  const CountNotPositive: string := "Pulse count must be greater than zero."
  const WidthNotPositive: string := "Pulse width (us) must be greater than zero."
  const PeriodNotPositive: string := "Pulse period (us) must be greater than zero."
  const PeriodBelowWidth: string := "Pulse period must be greater than or equal to pulse width."
  const TimerNotPositive: string := "Timer indexes must be positive integers."

  /** The `float(...)` and `int(float(...))` conversions at the top of `validate_inputs`. */
  function Parsed(e: TrainEntries): (r: Option<TrainParams>)
    ensures r.Some? <==> (IsReal(e.level) && IsReal(e.widthUs) && IsReal(e.periodUs) && IsReal(e.bias) &&
                          IsReal(e.limit) && IsReal(e.count) && IsReal(e.periodTimer) && IsReal(e.pulseTimer))
    ensures r.Some? ==> r.value.widthUs == ParseReal(e.widthUs).value && r.value.periodUs == ParseReal(e.periodUs).value
    ensures r.Some? ==> r.value.count == ParseTruncatedInt(e.count).value
  {
    match (ParseReal(e.level), ParseReal(e.widthUs), ParseReal(e.periodUs), ParseReal(e.bias), ParseReal(e.limit))
    case (Some(l), Some(w), Some(p), Some(b), Some(c)) =>
      (match (ParseTruncatedInt(e.count), ParseTruncatedInt(e.periodTimer), ParseTruncatedInt(e.pulseTimer))
       case (Some(n), Some(t1), Some(t2)) => Some(TrainParams(l, w, p, b, c, n, t1, t2))
       case _ => None)
    case _ => None
  }

  /** The conditions `validate_inputs` demands of the numbers. */
  predicate Acceptable(p: TrainParams)
  {
    p.count > 0 && p.widthUs > 0.0 && p.periodUs > 0.0 && p.periodUs >= p.widthUs &&
    p.periodTimer > 0 && p.pulseTimer > 0
  }

  /** `validate_inputs`: the first failing check names the error. */
  function ValidateInputs(e: TrainEntries): (r: Result<TrainParams>)
    ensures Parsed(e).None? ==> r == Err(NotNumeric)
    ensures Parsed(e).Some? ==> (r.Ok? <==> Acceptable(Parsed(e).value))
    ensures r.Ok? ==> r.value == Parsed(e).value
    ensures Parsed(e).Some? && Parsed(e).value.count <= 0 ==> r == Err(CountNotPositive)
    ensures Parsed(e).Some? ==> var p := Parsed(e).value;
      p.count > 0 && p.widthUs > 0.0 && p.periodUs > 0.0 && p.periodUs < p.widthUs ==> r == Err(PeriodBelowWidth)
  {
    match Parsed(e)
    case None => Err(NotNumeric)
    case Some(p) =>
      if p.count <= 0 then Err(CountNotPositive)
      else if p.widthUs <= 0.0 then Err(WidthNotPositive)
      else if p.periodUs <= 0.0 then Err(PeriodNotPositive)
      else if p.periodUs < p.widthUs then Err(PeriodBelowWidth)
      else if p.periodTimer <= 0 || p.pulseTimer <= 0 then Err(TimerNotPositive)
      else Ok(p)
  }

  /** `compute_source_range`: the larger magnitude of the two levels, or 0.2 V when both are zero. */
  function SourceRange(level: real, bias: real): (r: real)
    ensures r > 0.0
    ensures r >= Abs(level) && r >= Abs(bias)
    ensures level != 0.0 || bias != 0.0 ==> r == Abs(level) || r == Abs(bias)
    ensures level == 0.0 && bias == 0.0 ==> r == 0.2
  {
    var m := Max(Abs(bias), Abs(level));
    if m == 0.0 then 0.2 else m
  }

  /** The range is the smallest that covers both levels, unless both are zero. */
  lemma SourceRangeTight(level: real, bias: real, range: real)
    requires level != 0.0 || bias != 0.0
    requires range >= Abs(level) && range >= Abs(bias)
    ensures SourceRange(level, bias) <= range
  {
  }

  /** The period timer fires `count - 1` more times after the arm event starts the first pulse. */
  function PeriodTimerCount(count: int): (n: nat)
    ensures count >= 1 ==> n + 1 == count
    ensures count < 1 ==> n == 0
  {
    if count - 1 > 0 then count - 1 else 0
  }

  /** Microseconds to seconds. */
  function Micro(us: real): (s: real)
    ensures s * 1000000.0 == us
    ensures us > 0.0 ==> s > 0.0
  {
    us / 1000000.0
  }

  // ---------------------------------------------------------------- commands

  const OutputOn: Command := Cmd("smua.source.output = smua.OUTPUT_ON")
  const OutputOff: Command := Cmd("smua.source.output = smua.OUTPUT_OFF")

  /** Source function, range, bias level and compliance. */
  function SourceSetup(p: TrainParams): (cs: seq<Command>)
    ensures |cs| == 5 && OutputOn !in cs && OutputOff !in cs
  {
    [Cmd("reset()"),
     Cmd("smua.source.func = smua.OUTPUT_DCVOLTS"),
     Command("smua.source.rangev", [Num(SourceRange(p.level, p.bias))]),
     Command("smua.source.levelv", [Num(p.bias)]),
     Command("smua.source.limiti", [Num(p.limit)])]
  }

  /** One timer: delay, count, pass-through and stimulus. */
  function TimerSetup(timer: int, delay: real, count: int, passthrough: bool, stimulus: seq<Arg>): (cs: seq<Command>)
    ensures |cs| == 4 && OutputOn !in cs && OutputOff !in cs
  {
    [Command("trigger.timer.delay", [Whole(timer), Num(delay)]),
     Command("trigger.timer.count", [Whole(timer), Whole(count)]),
     Command(if passthrough then "trigger.timer.passthrough = true" else "trigger.timer.passthrough = false", [Whole(timer)]),
     Command("trigger.timer.stimulus", [Whole(timer)] + stimulus)]
  }

  /** The period timer starts on the arm event and repeats `count - 1` times; the pulse
      timer starts on each period event and ends the pulse after its width. */
  function TimersSetup(p: TrainParams): (cs: seq<Command>)
    ensures |cs| == 8 && OutputOn !in cs && OutputOff !in cs
  {
    TimerSetup(p.periodTimer, Micro(p.periodUs), PeriodTimerCount(p.count), true, [Text("smua.trigger.ARMED_EVENT_ID")]) +
    TimerSetup(p.pulseTimer, Micro(p.widthUs), 1, false, [Text("trigger.timer.EVENT_ID"), Whole(p.periodTimer)])
  }

  /** The source-measure unit's trigger model. */
  function ModelSetup(p: TrainParams): (cs: seq<Command>)
    ensures |cs| == 10 && OutputOn !in cs && OutputOff !in cs
  {
    [Command("smua.trigger.source.listv", [Num(p.level)]),
     Cmd("smua.trigger.source.action = smua.ENABLE"),
     Command("smua.trigger.source.stimulus = trigger.timer.EVENT_ID", [Whole(p.periodTimer)]),
     Cmd("smua.trigger.measure.action = smua.DISABLE"),
     Command("smua.trigger.source.limiti", [Num(p.limit)]),
     Command("smua.measure.rangei", [Num(p.limit)]),
     Cmd("smua.trigger.endpulse.action = smua.SOURCE_IDLE"),
     Command("smua.trigger.endpulse.stimulus = trigger.timer.EVENT_ID", [Whole(p.pulseTimer)]),
     Cmd("smua.trigger.arm.count = 1"),
     Command("smua.trigger.count", [Whole(p.count)])]
  }

  /** The configuration writes of `run_pulse_train`, up to and including output on. */
  function SetupCommands(p: TrainParams): (cs: seq<Command>)
    ensures |cs| == 24 && cs[|cs| - 1] == OutputOn
    ensures OutputOff !in cs && OutputOn !in cs[..|cs| - 1]
  {
    var body := SourceSetup(p) + TimersSetup(p) + ModelSetup(p);
    assert OutputOn !in body && OutputOff !in body;
    assert (body + [OutputOn])[..|body|] == body;
    body + [OutputOn]
  }

  const RunCommands: seq<Command> := [Cmd("smua.trigger.initiate()"), Cmd("waitcomplete()")]

  /** What `run_pulse_train` writes once the entries are valid, for a given fault script and
      set-up list: the set-up up to the first fault, and, when its last write (output on)
      went out, the run commands up to the first fault followed by the `finally` block's
      output off. */
  function TrainWrites(f: seq<bool>, pre: seq<Command>): seq<Command>
  {
    var k := Sent(f, pre);
    if k < |pre| then pre[..k]
    else
      var f1 := DropN(f, |pre|);
      var m := Sent(f1, RunCommands);
      var f2 := DropN(f1, Attempted(f1, RunCommands));
      pre + RunCommands[..m] + (if FirstSet(f2) then [] else [OutputOff])
  }

  /** The `finally` guard: output off is written only after output on went out. */
  lemma OffOnlyAfterOn(f: seq<bool>, p: TrainParams)
    ensures OutputOff in TrainWrites(f, SetupCommands(p)) ==> SetupCommands(p) <= TrainWrites(f, SetupCommands(p))
  {
    var pre := SetupCommands(p);
    if Sent(f, pre) < |pre| {
      SetupFailureWritesNoOff(f, pre);
    }
  }

  /** A failure in the set-up writes a prefix of it and nothing else: no output off. */
  lemma SetupFailureWritesNoOff(f: seq<bool>, pre: seq<Command>)
    requires Sent(f, pre) < |pre| && OutputOff !in pre
    ensures OutputOff !in TrainWrites(f, pre)
    ensures TrainWrites(f, pre) < pre
  {
    var k := Sent(f, pre);
    assert TrainWrites(f, pre) == pre[..k];
    assert forall i :: 0 <= i < k ==> pre[..k][i] == pre[i];
  }

  /** So when the set-up fails the output-on command is not among the writes. */
  lemma SetupFailureLeavesOutputOff(f: seq<bool>, p: TrainParams)
    requires Sent(f, SetupCommands(p)) < |SetupCommands(p)|
    ensures OutputOn !in TrainWrites(f, SetupCommands(p)) && OutputOff !in TrainWrites(f, SetupCommands(p))
  {
    var pre := SetupCommands(p);
    var k := Sent(f, pre);
    SetupFailureWritesNoOff(f, pre);
    assert TrainWrites(f, pre) == pre[..|pre| - 1][..k];
  }

  lemma {:induction false} NoFaultsSendAll(f: seq<bool>, cs: seq<Command>)
    requires f == []
    ensures Sent(f, cs) == |cs| && Attempted(f, cs) == |cs|
    decreases |cs|
  {
    if cs != [] {
      NoFaultsSendAll(DropFirst(f), cs[1..]);
    }
  }

  /** With no faults the whole train runs and the output is switched off at the end. */
  lemma CleanRun(pre: seq<Command>)
    ensures TrainWrites([], pre) == pre + RunCommands + [OutputOff]
  {
    NoFaultsSendAll([], pre);
    DropNEmpty(|pre|);
    NoFaultsSendAll([], RunCommands);
    DropNEmpty(|RunCommands|);
    assert RunCommands[..|RunCommands|] == RunCommands;
  }

  datatype TrainRun = InputError(msg: string) | NotConnected | Completed(params: TrainParams) | Failed

  /** `run_pulse_train`; the message boxes and status text are left out. */
  method RunPulseTrain(inst: Instrument?, e: TrainEntries) returns (r: TrainRun)
    modifies inst
    ensures ValidateInputs(e).Err? ==> r == InputError(ValidateInputs(e).msg)
    ensures ValidateInputs(e).Err? && inst != null ==> inst.written == old(inst.written)
    ensures ValidateInputs(e).Ok? && inst == null ==> r == NotConnected
    ensures ValidateInputs(e).Ok? && inst != null ==>
      inst.written == old(inst.written) + TrainWrites(old(inst.faults), SetupCommands(ValidateInputs(e).value))
    ensures r.Completed? ==> inst != null && r.params == ValidateInputs(e).value
    ensures r.Completed? ==> old(inst.written) + SetupCommands(r.params) + RunCommands <= inst.written
  {
    var v := ValidateInputs(e);
    if v.Err? {
      return InputError(v.msg);
    }
    if inst == null {
      return NotConnected;
    }
    var ran := RunTrain(inst, SetupCommands(v.value));
    r := if ran then Completed(v.value) else Failed;
  }

  /** The body of the `try` and its `finally`, for the set-up list `pre` (which ends with output on). */
  method RunTrain(inst: Instrument, pre: seq<Command>) returns (ran: bool)
    modifies inst
    ensures inst.written == old(inst.written) + TrainWrites(old(inst.faults), pre)
    ensures ran ==> old(inst.written) + pre + RunCommands <= inst.written
  {
    ghost var f0 := inst.faults;
    ghost var w0 := inst.written;
    var on := WriteAll(inst, pre);
    if !on {
      return false;
    }
    ghost var f1 := inst.faults;
    assert f1 == DropN(f0, |pre|);
    assert pre[..Sent(f0, pre)] == pre;
    ran := WriteAll(inst, RunCommands);
    ghost var w2 := inst.written;
    var _ := inst.Write(OutputOff);
    if ran {
      assert RunCommands[..Sent(f1, RunCommands)] == RunCommands;
      assert inst.written[..|w2|] == w2;
    }
  }
}
