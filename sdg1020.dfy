/** The Siglent SDG1020 panels: a pulse on channel 1 with an optional N-cycle burst, a
    continuous pulse sent as one combined command, a two-channel manual-trigger setup, and a
    software-timed burst.  An SDG1020 command's text is its header followed by its arguments
    in order: `Text` arguments are literal, `Num` and `Whole` ones are formatted values. */
module Sdg1020 {
  import opened Outcome
  import opened PyText
  import opened Channel
  import opened WriteSequence
  import opened TimeUnits
  import opened KeysightFields
  import Afg3021BPulse

  const NotConnected: string := "Instrument not connected"

  /** What a plan raises once its writes have gone out: the first failed write stops it with a
      VISA error, and otherwise its own error (if any) is raised after its writes. */
  function Verdict(plan: Steps, b: Bus): (r: Option<string>)
    ensures r.None? <==> Clean(b.faults, plan.cmds) && plan.error.None?
    ensures !Clean(b.faults, plan.cmds) ==> r == Some(VisaFailure)
    ensures Clean(b.faults, plan.cmds) ==> r == plan.error
  {
    if !Clean(b.faults, plan.cmds) then Some(VisaFailure) else plan.error
  }

  /** Writes a plan's commands one by one (each `write_inst`), then raises its error. */
  method Perform(inst: Instrument, plan: Steps) returns (err: Option<string>)
    modifies inst
    ensures err == Verdict(plan, old(BusOf(inst)))
    ensures BusOf(inst) == Put(old(BusOf(inst)), plan.cmds)
    ensures inst.pending == old(inst.pending) && inst.timeout == old(inst.timeout)
  {
    var ok := Send(inst, plan.cmds);
    err := if ok then plan.error else Some(VisaFailure);
  }

  /** `(width / period) * 100.0`. */
  function Duty(period: real, width: real): real
    requires period != 0.0
  {
    width / period * 100.0
  }

  /** A width strictly inside the period is a duty strictly between 0 and 100 percent. */
  lemma DutyBetween(period: real, width: real)
    requires 0.0 < width < period
    ensures 0.0 < Duty(period, width) < 100.0
  {
    var q := width / period;
    assert q * period == width;
    Afg3021BPulse.MulLessCancel(q, 1.0, period);
  }

  /** The six channel-1 pulse writes shared by the burst panels. */
  function PulseCommands(period: real, amplitude: real, offset: real, duty: real, delay: real): seq<Command>
  {
    [Cmd("C1:BSWV WVTP,PULSE"), Command("C1:BSWV PERI,", [Num(period)]), Command("C1:BSWV AMP,", [Num(amplitude)]),
     Command("C1:BSWV OFST,", [Num(offset)]), Command("C1:BSWV DUTY,", [Num(duty)]), Command("C1:BSWV DLY,", [Num(delay)])]
  }

  // ---------------------------------------------------------------- the burst panel

  const PeriodNotPositive: string := "Period must be > 0"
  const WidthOutsidePeriod: string := "Width must be > 0 and < Period"
  const BurstPeriodEmpty: string := "Burst Period Empty"
  const BurstDelayEmpty: string := "Burst Delay Empty"
  const BurstOff: Command := Cmd("C1:BTWV STATE,OFF")

  datatype PulseForm = PulseForm(period: string, amplitude: string, width: string, offset: string, delay: string)
  datatype Pulse = Pulse(period: real, amplitude: real, width: real, offset: real, delay: real)

  /** `apply_pulse`'s checks, in order: the period must parse and be positive, the amplitude be
      a number, the width parse and lie strictly inside the period, the offset be a number and
      the pulse delay parse. */
  function ReadBurstPulse(f: PulseForm): (r: Result<Pulse>)
    ensures r.Ok? ==> 0.0 < r.value.width < r.value.period
    ensures r.Ok? ==>
      ParseBurstTime(f.period) == Ok(r.value.period) && FloatOf(f.amplitude) == Ok(r.value.amplitude) &&
      ParseBurstTime(f.width) == Ok(r.value.width) && FloatOf(f.offset) == Ok(r.value.offset) &&
      ParseBurstTime(f.delay) == Ok(r.value.delay)
    ensures ParseBurstTime(f.period).Err? ==> r == Err(ParseBurstTime(f.period).msg)
    ensures ParseBurstTime(f.period).Ok? && ParseBurstTime(f.period).value <= 0.0 ==> r == Err(PeriodNotPositive)
  {
    match ParseBurstTime(f.period)
    case Err(m) => Err(m)
    case Ok(period) =>
      if period <= 0.0 then Err(PeriodNotPositive)
      else match FloatOf(f.amplitude)
      case Err(m) => Err(m)
      case Ok(amplitude) =>
      match ParseBurstTime(f.width)
      case Err(m) => Err(m)
      case Ok(width) =>
        if width <= 0.0 || width >= period then Err(WidthOutsidePeriod)
        else match FloatOf(f.offset)
        case Err(m) => Err(m)
        case Ok(offset) =>
        match ParseBurstTime(f.delay)
        case Err(m) => Err(m)
        case Ok(delay) => Ok(Pulse(period, amplitude, width, offset, delay))
  }

  /** Entries that all parse, with the width inside the period, are accepted. */
  lemma BurstPulseAccepted(f: PulseForm)
    requires ParseBurstTime(f.period).Ok? && FloatOf(f.amplitude).Ok? && ParseBurstTime(f.width).Ok?
    requires FloatOf(f.offset).Ok? && ParseBurstTime(f.delay).Ok?
    requires 0.0 < ParseBurstTime(f.width).value < ParseBurstTime(f.period).value
    ensures ReadBurstPulse(f).Ok?
  {
  }

  datatype BurstForm = BurstForm(enabled: bool, source: string, cycles: string, period: string, delay: string)
  datatype Burst = Burst(source: string, cycles: int, period: real, delay: real)

  /** `_configure_burst`'s entries: a blank source is `INT`, blank cycles one cycle (others are
      truncated from a float), a blank burst period the pulse period and a blank delay zero. */
  function ReadBurst(f: BurstForm, basePeriod: real): (r: Result<Burst>)
    ensures Strip(f.source) == [] && Strip(f.cycles) == [] && Strip(f.period) == [] && Strip(f.delay) == [] ==>
      r == Ok(Burst("INT", 1, basePeriod, 0.0))
    ensures r.Ok? && Strip(f.source) != [] ==> r.value.source == Upper(Strip(f.source))
    ensures r.Ok? && Strip(f.cycles) != [] ==> ParseTruncatedInt(Strip(f.cycles)) == Some(r.value.cycles)
    ensures r.Ok? && Strip(f.period) != [] ==> ParseBurstTime(Strip(f.period)) == Ok(r.value.period)
    ensures Strip(f.cycles) != [] && !IsReal(Strip(f.cycles)) ==> r == Err(TimeUnits.NotANumber)
  {
    var source := if Upper(Strip(f.source)) == [] then "INT" else Upper(Strip(f.source));
    var cycles := if Strip(f.cycles) == [] then Some(1) else ParseTruncatedInt(Strip(f.cycles));
    if cycles.None? then Err(TimeUnits.NotANumber)
    else
      var period := if Strip(f.period) == [] then Ok(basePeriod) else ParseBurstTime(Strip(f.period));
      if period.Err? then Err(period.msg)
      else
        var delay := if Strip(f.delay) == [] then Ok(0.0) else ParseBurstTime(Strip(f.delay));
        if delay.Err? then Err(delay.msg)
        else Ok(Burst(source, cycles.value, period.value, delay.value))
  }

  function BurstCommands(b: Burst): seq<Command>
  {
    [Cmd("C1:BTWV STATE,ON"), Cmd("C1:BTWV GATE_NCYC,NCYC"), Command("C1:BTWV TRSR,", [Text(b.source)]),
     Command("C1:BTWV TIME,", [Whole(b.cycles)]), Command("C1:BTWV PRD,", [Num(b.period)]), Command("C1:BTWV DLAY,", [Num(b.delay)])]
  }

  /** `_configure_burst`: with the burst disabled only `STATE,OFF` is written. */
  function BurstPlan(f: BurstForm, basePeriod: real): (r: Steps)
    ensures !f.enabled ==> r == Writes([BurstOff])
    ensures f.enabled && ReadBurst(f, basePeriod).Ok? ==> r == Writes(BurstCommands(ReadBurst(f, basePeriod).value))
    ensures f.enabled && ReadBurst(f, basePeriod).Err? ==> r.cmds == [] && r.error.Some?
  {
    if !f.enabled then Writes([BurstOff])
    else match ReadBurst(f, basePeriod)
      case Err(m) => Raise(m)
      case Ok(b) => Writes(BurstCommands(b))
  }

  /** `apply_pulse` of the burst panel: the pulse writes, then the burst. */
  function BurstApplyPlan(pf: PulseForm, bf: BurstForm): Steps
  {
    match ReadBurstPulse(pf)
    case Err(m) => Raise(m)
    case Ok(p) =>
      Then(Writes(PulseCommands(p.period, p.amplitude, p.offset, Duty(p.period, p.width), p.delay)), BurstPlan(bf, p.period))
  }

  /** A refused pulse writes nothing; an accepted one always writes all six pulse commands,
      with a duty strictly between 0 and 100, before the burst entries are even read, so bad
      burst entries leave the new pulse programmed. */
  lemma BurstApplyOrder(pf: PulseForm, bf: BurstForm)
    ensures ReadBurstPulse(pf).Err? ==> BurstApplyPlan(pf, bf) == Raise(ReadBurstPulse(pf).msg)
    ensures ReadBurstPulse(pf).Ok? ==>
      var p := ReadBurstPulse(pf).value;
      BurstApplyPlan(pf, bf).cmds[..6] == PulseCommands(p.period, p.amplitude, p.offset, Duty(p.period, p.width), p.delay) &&
      BurstApplyPlan(pf, bf).cmds[6..] == BurstPlan(bf, p.period).cmds &&
      BurstApplyPlan(pf, bf).error == BurstPlan(bf, p.period).error && 0.0 < Duty(p.period, p.width) < 100.0
  {
    if ReadBurstPulse(pf).Ok? {
      var p := ReadBurstPulse(pf).value;
      DutyBetween(p.period, p.width);
    }
  }

  /** A disabled burst ends the configuration with `STATE,OFF`. */
  lemma BurstDisabledEndsOff(pf: PulseForm, bf: BurstForm)
    requires !bf.enabled && ReadBurstPulse(pf).Ok?
    ensures BurstApplyPlan(pf, bf) == Writes(BurstApplyPlan(pf, bf).cmds) && |BurstApplyPlan(pf, bf).cmds| == 7
    ensures BurstApplyPlan(pf, bf).cmds[6] == BurstOff
  {
  }

  /** `update_burst_period_only` / `update_burst_delay_only`: an empty entry raises before
      anything is written, and otherwise exactly one command goes out. */
  function UpdateOnly(text: string, empty: string, header: string): (r: Steps)
    ensures Strip(text) == [] ==> r == Raise(empty)
    ensures r.error.None? <==> Strip(text) != [] && ParseBurstTime(Strip(text)).Ok?
    ensures r.error.None? ==> r.cmds == [Command(header, [Num(ParseBurstTime(Strip(text)).value)])]
    ensures r.error.Some? ==> r.cmds == []
  {
    if Strip(text) == [] then Raise(empty)
    else match ParseBurstTime(Strip(text))
      case Err(m) => Raise(m)
      case Ok(v) => Writes([Command(header, [Num(v)])])
  }

  class BurstGui {
    var inst: Instrument?

    constructor (i: Instrument?)
      ensures inst == i
    {
      inst := i;
    }

    function Wire(): Bus
      reads this, inst
      requires inst != null
    {
      BusOf(inst)
    }

    method ApplyPulse(pf: PulseForm, bf: BurstForm) returns (err: Option<string>)
      modifies inst
      ensures old(inst) == null ==> err == Some(NotConnected)
      ensures old(inst) != null ==>
        err == Verdict(BurstApplyPlan(pf, bf), old(Wire())) && Wire() == Put(old(Wire()), BurstApplyPlan(pf, bf).cmds)
    {
      if inst == null {
        return Some(NotConnected);
      }
      err := Perform(inst, BurstApplyPlan(pf, bf));
    }

    method UpdateBurstPeriodOnly(text: string) returns (err: Option<string>)
      modifies inst
      ensures old(inst) == null ==> err == Some(NotConnected)
      ensures old(inst) != null ==>
        var plan := UpdateOnly(text, BurstPeriodEmpty, "C1:BTWV PRD,");
        err == Verdict(plan, old(Wire())) && Wire() == Put(old(Wire()), plan.cmds)
    {
      if inst == null {
        return Some(NotConnected);
      }
      err := Perform(inst, UpdateOnly(text, BurstPeriodEmpty, "C1:BTWV PRD,"));
    }

    method UpdateBurstDelayOnly(text: string) returns (err: Option<string>)
      modifies inst
      ensures old(inst) == null ==> err == Some(NotConnected)
      ensures old(inst) != null ==>
        var plan := UpdateOnly(text, BurstDelayEmpty, "C1:BTWV DLAY,");
        err == Verdict(plan, old(Wire())) && Wire() == Put(old(Wire()), plan.cmds)
    {
      if inst == null {
        return Some(NotConnected);
      }
      err := Perform(inst, UpdateOnly(text, BurstDelayEmpty, "C1:BTWV DLAY,"));
    }
  }

  // ---------------------------------------------------------------- the continuous panel

  const AddressEmpty: string := "VISA address cannot be empty"
  const PeriodNotPositiveCont: string := "Period must be positive"
  const AmplitudeNotPositive: string := "Amplitude must be positive"
  const WidthOutsideCont: string := "Pulse width must be positive and less than period"

  /** `connect`'s address check: a blank address raises before anything is opened. */
  function ContAddress(address: string): (r: Result<string>)
    ensures r.Err? <==> Strip(address) == []
    ensures r.Ok? ==> r.value == Strip(address) && r.value != []
  {
    if Strip(address) == [] then Err(AddressEmpty) else Ok(Strip(address))
  }

  datatype ContForm = ContForm(period: string, amplitude: string, width: string, offset: string)

  /** The one combined command, fields in the order PERI, AMP, OFST, DUTY. */
  function ContCommand(period: real, amplitude: real, offset: real, duty: real): Command
  {
    Command("C1:BSWV WVTP,PULSE,PERI,", [Num(period), Text(",AMP,"), Num(amplitude), Text(",OFST,"), Num(offset), Text(",DUTY,"), Num(duty)])
  }

  /** `apply_pulse` of the continuous panel: the command it writes, or the message it raises. */
  function ContApply(connected: bool, f: ContForm): (r: Result<Command>)
    ensures !connected ==> r == Err(NotConnected)
    ensures r.Ok? ==> exists p, a, w, o ::
      ParseContTime(f.period) == Ok(p) && FloatOf(f.amplitude) == Ok(a) && ParseContTime(f.width) == Ok(w) &&
      FloatOf(f.offset) == Ok(o) && p > 0.0 && a > 0.0 && 0.0 < w < p && r.value == ContCommand(p, a, o, Duty(p, w))
  {
    if !connected then Err(NotConnected)
    else match ParseContTime(f.period)
      case Err(m) => Err(m)
      case Ok(period) =>
        if period <= 0.0 then Err(PeriodNotPositiveCont)
        else match FloatOf(f.amplitude)
        case Err(m) => Err(m)
        case Ok(amplitude) =>
          if amplitude <= 0.0 then Err(AmplitudeNotPositive)
          else match ParseContTime(f.width)
          case Err(m) => Err(m)
          case Ok(width) =>
            if width <= 0.0 || width >= period then Err(WidthOutsideCont)
            else match FloatOf(f.offset)
            case Err(m) => Err(m)
            case Ok(offset) => Ok(ContCommand(period, amplitude, offset, Duty(period, width)))
  }

  /** Whole-number entries, the period and width in one of the panel's units, come back as
      the command for those values. */
  lemma ContApplyRoundTrip(p: nat, a: nat, w: nat, o: int, i: nat)
    requires i < |SecondUnits| && 0 < w < p && a > 0
    ensures var f := ContForm(IntText(p) + SecondUnits[i].suffix, IntText(a), IntText(w) + SecondUnits[i].suffix, IntText(o));
      var pr := InUnit(p as real, SecondUnits[i]);
      var wr := InUnit(w as real, SecondUnits[i]);
      pr > 0.0 && 0.0 < wr < pr &&
      ContApply(true, f) == Ok(ContCommand(pr, a as real, o as real, Duty(pr, wr)))
  {
    var u := SecondUnits[i];
    ContEntriesParse(p, a, w, o, i);
    ContAccepted(ContForm(IntText(p) + u.suffix, IntText(a), IntText(w) + u.suffix, IntText(o)),
      InUnit(p as real, u), a as real, InUnit(w as real, u), o as real);
  }

  lemma ContEntriesParse(p: nat, a: nat, w: nat, o: int, i: nat)
    requires i < |SecondUnits| && 0 < w < p && a > 0
    ensures ParseContTime(IntText(p) + SecondUnits[i].suffix) == Ok(InUnit(p as real, SecondUnits[i]))
    ensures ParseContTime(IntText(w) + SecondUnits[i].suffix) == Ok(InUnit(w as real, SecondUnits[i]))
    ensures FloatOf(IntText(a)) == Ok(a as real) && FloatOf(IntText(o)) == Ok(o as real)
    ensures 0.0 < InUnit(w as real, SecondUnits[i]) < InUnit(p as real, SecondUnits[i])
  {
    ParseContTimeRoundTrip(p, i);
    ParseContTimeRoundTrip(w, i);
    IntTextFloat(a);
    IntTextFloat(o);
    SecondScalePositive(i);
    InUnitOrder(w as real, p as real, SecondUnits[i]);
  }

  lemma SecondScalePositive(i: nat)
    requires i < |SecondUnits|
    ensures SecondUnits[i].scale > 0.0
  {
  }

  /** Entries that parse, positive and with the width inside the period, are accepted. */
  lemma ContAccepted(f: ContForm, p: real, a: real, w: real, o: real)
    requires ParseContTime(f.period) == Ok(p) && FloatOf(f.amplitude) == Ok(a) && ParseContTime(f.width) == Ok(w)
    requires FloatOf(f.offset) == Ok(o) && p > 0.0 && a > 0.0 && 0.0 < w < p
    ensures ContApply(true, f) == Ok(ContCommand(p, a, o, Duty(p, w)))
  {
  }

  lemma IntTextFloat(n: int)
    ensures FloatOf(IntText(n)) == Ok(n as real)
  {
    IntTextRoundTrip(n);
    IntTextIsReal(IntText(n));
  }

  lemma InUnitOrder(x: real, y: real, u: Unit)
    requires 0.0 < x < y && u.scale > 0.0
    ensures 0.0 < InUnit(x, u) < InUnit(y, u)
  {
  }

  // ---------------------------------------------------------------- the two-channel panel

  datatype Out = One | Two

  function Tag(o: Out): string
  {
    match o
    case One => "C1"
    case Two => "C2"
  }

  datatype ChannelForm = ChannelForm(period: string, width: string, amplitude: string, cycles: string, burstDelay: string)

  /** The nine writes of `_configure_channel`, the amplitude and cycle count sent as typed. */
  function ChannelCommands(o: Out, period: real, amplitude: string, duty: real, cycles: string, burstDelay: real): seq<Command>
  {
    var t := Tag(o);
    [Cmd(t + ":OUTP OFF"),
     Command(t + ":BSWV WVTP,PULSE,PERI,", [Num(period), Text(",AMP,"), Text(amplitude), Text(",DUTY,"), Num(duty), Text(",OFST,0")]),
     Cmd(t + ":BTWV STATE,ON"), Cmd(t + ":BTWV GATE_NCYC,NCYC"), Command(t + ":BTWV TIME,", [Text(cycles)]), Cmd("*WAI"),
     Command(t + ":BTWV DLAY,", [Num(burstDelay)]), Cmd(t + ":BTWV TRSR,MAN"), Cmd(t + ":OUTP ON")]
  }

  /** `_configure_channel`: period, width and burst delay are read with the exponent rewrite,
      and a zero period fails in the duty division, all before any write. */
  function ChannelPlan(o: Out, f: ChannelForm): (r: Steps)
    ensures r.error.Some? ==> r.cmds == []
    ensures ParseExponentText(f.period).Err? ==> r == Raise(TimeUnits.NotANumber)
    ensures r.error.None? ==> |r.cmds| == 9 && r.cmds[0] == Cmd(Tag(o) + ":OUTP OFF") && r.cmds[8] == Cmd(Tag(o) + ":OUTP ON")
  {
    match ParseExponentText(f.period)
    case Err(m) => Raise(m)
    case Ok(p) =>
    match ParseExponentText(f.width)
    case Err(m) => Raise(m)
    case Ok(w) =>
    match ParseExponentText(f.burstDelay)
    case Err(m) => Raise(m)
    case Ok(bd) =>
      if p == 0.0 then Raise(DivisionByZero)
      else Writes(ChannelCommands(o, p, f.amplitude, Duty(p, w), f.cycles, bd))
  }

  /** Configuring one channel addresses only that channel: every command but `*WAI` carries its
      tag, and none carries the other channel's. */
  lemma ChannelStaysOnItsChannel(o: Out, f: ChannelForm, i: nat)
    requires ChannelPlan(o, f).error.None? && i < |ChannelPlan(o, f).cmds| && i != 5
    ensures StartsWith(ChannelPlan(o, f).cmds[i].header, Tag(o))
  {
    var p := ParseExponentText(f.period).value;
    var w := ParseExponentText(f.width).value;
    var bd := ParseExponentText(f.burstDelay).value;
    assert ChannelPlan(o, f).cmds == ChannelCommands(o, p, f.amplitude, Duty(p, w), f.cycles, bd);
    ChannelCommandsTagged(o, p, f.amplitude, Duty(p, w), f.cycles, bd, i);
  }

  lemma ChannelCommandsTagged(o: Out, period: real, amplitude: string, duty: real, cycles: string, burstDelay: real, i: nat)
    requires i < 9 && i != 5
    ensures StartsWith(ChannelCommands(o, period, amplitude, duty, cycles, burstDelay)[i].header, Tag(o))
  {
    var h := ChannelCommands(o, period, amplitude, duty, cycles, burstDelay)[i].header;
    assert h == Tag(o) + h[2..];
  }

  /** A time typed with a plain `s` suffix is refused and nothing is written. */
  lemma ChannelRejectsSeconds(o: Out, f: ChannelForm, n: nat)
    requires f.period == NatText(n) + "s"
    ensures ChannelPlan(o, f).error.Some? && ChannelPlan(o, f).cmds == []
  {
    ExponentTextRejectsSeconds(n);
  }

  const FireCommands: seq<Command> := [Cmd("C1:BTWV MTRIG"), Cmd("C2:BTWV MTRIG")]
  const AllOffCommands: seq<Command> := [Cmd("C1:OUTP OFF"), Cmd("C2:OUTP OFF")]

  /** The two-channel panel: without an instrument every action returns without a word. */
  class DualGui {
    var inst: Instrument?

    constructor (i: Instrument?)
      ensures inst == i
    {
      inst := i;
    }

    function Wire(): Bus
      reads this, inst
      requires inst != null
    {
      BusOf(inst)
    }

    /** `apply_ch1` / `apply_ch2`. */
    method ApplyChannel(o: Out, f: ChannelForm) returns (err: Option<string>)
      modifies inst
      ensures old(inst) == null ==> err == None
      ensures old(inst) != null ==>
        err == Verdict(ChannelPlan(o, f), old(Wire())) && Wire() == Put(old(Wire()), ChannelPlan(o, f).cmds)
    {
      err := None;
      if inst == null {
        return;
      }
      err := Perform(inst, ChannelPlan(o, f));
    }

    /** `fire_sequence`: channel 1's manual trigger, then channel 2's. */
    method FireSequence() returns (err: Option<string>)
      modifies inst
      ensures old(inst) == null ==> err == None
      ensures old(inst) != null ==>
        err == Verdict(Writes(FireCommands), old(Wire())) && Wire() == Put(old(Wire()), FireCommands)
    {
      err := None;
      if inst == null {
        return;
      }
      err := Perform(inst, Writes(FireCommands));
    }

    method AllOff() returns (err: Option<string>)
      modifies inst
      ensures old(inst) == null ==> err == None
      ensures old(inst) != null ==>
        err == Verdict(Writes(AllOffCommands), old(Wire())) && Wire() == Put(old(Wire()), AllOffCommands)
    {
      err := None;
      if inst == null {
        return;
      }
      err := Perform(inst, Writes(AllOffCommands));
    }
  }

  // ---------------------------------------------------------------- the software-burst panel

  const ManualNotConnected: string := "Not Connected"
  const IntLiteral: string := "invalid literal for int() with base 10"

  datatype ManualForm = ManualForm(period: string, width: string, amplitude: string, offset: string, delay: string,
                                   cycles: string, burstDelay: string)

  /** The burst writes of the manual panel's `apply_pulse`: no burst period among them. */
  function ManualBurstCommands(cycles: int, burstDelay: real): seq<Command>
  {
    [Cmd("C1:BTWV STATE,ON"), Cmd("C1:BTWV GATE_NCYC,NCYC"), Command("C1:BTWV TIME,", [Whole(cycles)]), Command("C1:BTWV DLAY,", [Num(burstDelay)])]
  }

  /** `apply_pulse` of the manual panel: every entry is read (times with the exponent rewrite,
      the cycle count with `int()`) before its ten writes; nothing checks that the period is
      positive, only the duty division refuses zero. */
  function ManualPlan(f: ManualForm): (r: Steps)
    ensures r.error.Some? ==> r.cmds == []
    ensures r.error.None? ==> ParseInt(f.cycles).Some? && ParseExponentText(f.burstDelay).Ok?
    ensures r.error.None? ==> |r.cmds| == 10
    ensures r.error.None? && ParseInt(f.cycles).Some? && ParseExponentText(f.burstDelay).Ok? ==>
      r.cmds[6..] == ManualBurstCommands(ParseInt(f.cycles).value, ParseExponentText(f.burstDelay).value)
    ensures ParseInt(f.cycles).None? ==> r.error.Some?
  {
    match ParseExponentText(f.period)
    case Err(m) => Raise(m)
    case Ok(period) =>
    match ParseExponentText(f.width)
    case Err(m) => Raise(m)
    case Ok(width) =>
    match FloatOf(f.amplitude)
    case Err(m) => Raise(m)
    case Ok(amplitude) =>
    match FloatOf(f.offset)
    case Err(m) => Raise(m)
    case Ok(offset) =>
    match ParseExponentText(f.delay)
    case Err(m) => Raise(m)
    case Ok(delay) =>
      if period == 0.0 then Raise(DivisionByZero)
      else match ParseInt(f.cycles)
      case None => Raise(IntLiteral)
      case Some(cycles) =>
      match ParseExponentText(f.burstDelay)
      case Err(m) => Raise(m)
      case Ok(burstDelay) =>
        Writes(PulseCommands(period, amplitude, offset, Duty(period, width), delay) + ManualBurstCommands(cycles, burstDelay))
  }

  /** The manual panel never sets a burst period: the software burst's long period stays. */
  lemma ManualKeepsBurstPeriod(f: ManualForm, i: nat)
    requires i < |ManualPlan(f).cmds|
    ensures ManualPlan(f).cmds[i].header != "C1:BTWV PRD,"
  {
  }

  /** `fire_software_burst`: internal trigger with a 10 s burst period, sync and output on,
      and after the pause output and sync off again. */
  const SoftwareBurstOn: seq<Command> :=
    [Cmd("C1:BTWV TRSR,INT"), Command("C1:BTWV PRD,", [Num(10.0)]), Cmd("C1:SYNC ON"), Cmd("C1:OUTP ON")]
  const SoftwareBurstOff: seq<Command> := [Cmd("C1:OUTP OFF"), Cmd("C1:SYNC OFF")]

  class ManualGui {
    var inst: Instrument?

    constructor (i: Instrument?)
      ensures inst == i
    {
      inst := i;
    }

    function Wire(): Bus
      reads this, inst
      requires inst != null
    {
      BusOf(inst)
    }

    method ApplyPulse(f: ManualForm) returns (err: Option<string>)
      modifies inst
      ensures old(inst) == null ==> err == Some(ManualNotConnected)
      ensures old(inst) != null ==>
        err == Verdict(ManualPlan(f), old(Wire())) && Wire() == Put(old(Wire()), ManualPlan(f).cmds)
    {
      if inst == null {
        return Some(ManualNotConnected);
      }
      err := Perform(inst, ManualPlan(f));
    }

    /** The pause between switching on and off is not modelled; a write that fails after the
        output went on leaves it on. */
    method FireSoftwareBurst() returns (err: Option<string>)
      modifies inst
      ensures old(inst) == null ==> err == Some(ManualNotConnected)
      ensures old(inst) != null ==>
        err == Verdict(Writes(SoftwareBurstOn + SoftwareBurstOff), old(Wire())) &&
        Wire() == Put(old(Wire()), SoftwareBurstOn + SoftwareBurstOff)
    {
      if inst == null {
        return Some(ManualNotConnected);
      }
      var on := Perform(inst, Writes(SoftwareBurstOn));
      if on.Some? {
        PutStops(old(Wire()), SoftwareBurstOn, SoftwareBurstOff);
        return on;
      }
      PutThen(old(Wire()), SoftwareBurstOn, SoftwareBurstOff);
      err := Perform(inst, Writes(SoftwareBurstOff));
    }
  }
}
