/** Pulse programming of the Tektronix AFG3021B from its GUIs: the hold
    selection (which of width and duty cycle the user fixes), the derivation
    of the other one from the frequency, the write-back of the derived value
    into its entry, and the ordered SCPI writes that follow.  Four GUIs share
    the arithmetic and differ in how they read the hold and the entries. */
module Afg3021BPulse {
  import opened Outcome
  import opened PyText
  import opened Channel
  import opened LoadChoice
  import opened WriteSequence
  import TimeUnits

  // ---------------------------------------------------------------- hold selection

  /** Which quantity the generator keeps when the period changes. */
  datatype Hold = WidthHold | DutyHold

  /** The 3021B test panel and the combined 2450/3021B GUI: "DUTY" (any case,
      surrounding blanks ignored) holds the duty cycle, anything else the width. */
  function HoldOrWidth(text: string): Hold
  {
    if Upper(Strip(text)) == "DUTY" then DutyHold else WidthHold
  }

  /** The 3021B single-pulse and burst GUIs: "WIDTH" holds the width, anything else the duty cycle. */
  function HoldOrDuty(text: string): Hold
  {
    if Upper(Strip(text)) == "WIDTH" then WidthHold else DutyHold
  }

  /** The canonical spelling of a hold; the test panel writes "WIDTh" back when it normalises. */
  function HoldWord(h: Hold): string
  {
    match h
    case WidthHold => "WIDTH"
    case DutyHold => "DUTY"
  }

  /** The text the normalising panels put back into the hold entry. */
  const NormalizedHold: string := "WIDTh"

  /** Whether the normalising panels rewrite the hold entry: its text is neither word. */
  predicate UnknownHold(text: string)
  {
    Upper(Strip(text)) != "WIDTH" && Upper(Strip(text)) != "DUTY"
  }

  lemma WordUpperStrip(w: string)
    requires w == "WIDTH" || w == "DUTY"
    ensures Upper(Strip(w)) == w
  {
    assert !IsSpace(w[0]) && !IsSpace(w[|w| - 1]);
    NoEdgeSpaceStripFixed(w);
  }

  /** Both readings understand the canonical words. */
  lemma HoldWordRead(h: Hold)
    ensures HoldOrWidth(HoldWord(h)) == h && HoldOrDuty(HoldWord(h)) == h
  {
    WordUpperStrip(HoldWord(h));
  }

  /** The text written back by the normalising panels reads as a width hold in every GUI. */
  lemma NormalizedHoldIsWidth()
    ensures HoldOrWidth(NormalizedHold) == WidthHold && HoldOrDuty(NormalizedHold) == WidthHold
    ensures !UnknownHold(NormalizedHold)
  {
    var w := NormalizedHold;
    assert !IsSpace(w[0]) && !IsSpace(w[|w| - 1]);
    NoEdgeSpaceStripFixed(w);
    assert Upper(w) == "WIDTH";
  }

  /** On any other text (a blank entry included) the two readings disagree. */
  lemma HoldReadingsDisagree(text: string)
    requires UnknownHold(text)
    ensures HoldOrWidth(text) == WidthHold && HoldOrDuty(text) == DutyHold
  {
  }

  // ---------------------------------------------------------------- hold arithmetic

  /** Period, width and duty cycle (in percent) as programmed. */
  datatype Pulse = Pulse(period: real, width: real, duty: real)

  /** The reasons a pulse is refused before or while it is written. */
  datatype PulseError =
    | NotNumeric
    | FrequencyNotPositive
    | WidthOutsidePeriod
    | DutyOutOfRange
    | WidthFromDutyInvalid
    | LoadRefused(msg: string)
    | CyclesBelowOne
    | DelayNegative
    | BadTime(msg: string)
    | BadBurstMode
    | BadTriggerSource
    | TimerPeriodNotPositive

  datatype Checked<T> = Accepted(value: T) | Rejected(error: PulseError)

  /** The duty cycle, in percent, of a width within a period. */
  function DutyOf(period: real, width: real): real
    requires period > 0.0
  {
    100.0 * width / period
  }

  /** The width a duty cycle gives within a period. */
  function WidthOf(period: real, duty: real): real
  {
    period * duty / 100.0
  }

  /** A width hold: the width must lie strictly inside the period. */
  function FromWidth(period: real, width: real): Checked<Pulse>
    requires period > 0.0
  {
    if width <= 0.0 || width >= period then Rejected(WidthOutsidePeriod)
    else Accepted(Pulse(period, width, DutyOf(period, width)))
  }

  /** A duty hold: the duty cycle must lie strictly between 0 and 100, and with `recheck`
      the derived width is compared with the period once more. */
  function FromDuty(period: real, duty: real, recheck: bool): Checked<Pulse>
  {
    if !(0.0 < duty < 100.0) then Rejected(DutyOutOfRange)
    else if recheck && (WidthOf(period, duty) <= 0.0 || WidthOf(period, duty) >= period) then Rejected(WidthFromDutyInvalid)
    else Accepted(Pulse(period, WidthOf(period, duty), duty))
  }

  /** The hold arithmetic: `entry` is the width under a width hold and the duty
      cycle under a duty hold.  `recheck` is the width test after a duty hold that
      three of the four GUIs repeat. */
  function ShapePulse(freq: real, hold: Hold, entry: real, recheck: bool): Checked<Pulse>
    requires freq > 0.0
  {
    match hold
    case WidthHold => FromWidth(1.0 / freq, entry)
    case DutyHold => FromDuty(1.0 / freq, entry, recheck)
  }

  /** A consistent pulse: inside its period, duty in (0, 100), the two related by width·100 = duty·period. */
  predicate Consistent(p: Pulse)
  {
    0.0 < p.width < p.period && 0.0 < p.duty < 100.0 && p.width * 100.0 == p.duty * p.period
  }

  lemma PeriodOf(freq: real)
    requires freq > 0.0
    ensures 1.0 / freq > 0.0 && (1.0 / freq) * freq == 1.0
  {
  }

  lemma MulLessCancel(a: real, b: real, c: real)
    requires c > 0.0 && a * c < b * c
    ensures a < b
  {
  }

  lemma MulLess(c: real, a: real, b: real)
    requires c > 0.0 && a < b
    ensures c * a < c * b
  {
  }

  lemma DutyFromWidth(period: real, w: real)
    requires 0.0 < w < period
    ensures 0.0 < DutyOf(period, w) < 100.0
    ensures DutyOf(period, w) * period == w * 100.0
    ensures WidthOf(period, DutyOf(period, w)) == w
  {
    var d := 100.0 * w / period;
    assert d * period == 100.0 * w;
    MulLessCancel(d, 100.0, period);
  }

  lemma WidthFromDuty(period: real, d: real)
    requires period > 0.0 && 0.0 < d < 100.0
    ensures 0.0 < WidthOf(period, d) < period
    ensures WidthOf(period, d) * 100.0 == d * period
    ensures DutyOf(period, WidthOf(period, d)) == d
  {
    var w := period * d / 100.0;
    assert w * 100.0 == period * d;
    MulLess(period, d, 100.0);
    assert w * 100.0 < period * 100.0;
  }

  /** What an accepted pulse satisfies: its period is the reciprocal of the frequency, it
      is consistent, and it keeps the held value as entered. */
  lemma ShapeAccepted(freq: real, hold: Hold, entry: real, recheck: bool)
    requires freq > 0.0 && ShapePulse(freq, hold, entry, recheck).Accepted?
    ensures var p := ShapePulse(freq, hold, entry, recheck).value;
      p.period * freq == 1.0 && Consistent(p) &&
      (if hold == WidthHold then p.width == entry else p.duty == entry)
  {
    PeriodOf(freq);
    var period := 1.0 / freq;
    if hold == WidthHold {
      DutyFromWidth(period, entry);
    } else {
      WidthFromDuty(period, entry);
    }
  }

  /** Acceptance exactly when the held value is in range, with the error naming the failed range. */
  lemma ShapeAcceptance(freq: real, hold: Hold, entry: real, recheck: bool)
    requires freq > 0.0
    ensures var r := ShapePulse(freq, hold, entry, recheck);
      (hold == WidthHold ==> (r.Accepted? <==> 0.0 < entry < 1.0 / freq) && (r.Rejected? ==> r.error == WidthOutsidePeriod)) &&
      (hold == DutyHold ==> (r.Accepted? <==> 0.0 < entry < 100.0) && (r.Rejected? ==> r.error == DutyOutOfRange))
  {
    PeriodOf(freq);
    if hold == DutyHold && 0.0 < entry < 100.0 {
      WidthFromDuty(1.0 / freq, entry);
    }
  }

  /** The width recheck after a duty hold never fires: the burst GUI, which lacks it, behaves the same. */
  lemma RecheckRedundant(freq: real, hold: Hold, entry: real)
    requires freq > 0.0
    ensures ShapePulse(freq, hold, entry, true) == ShapePulse(freq, hold, entry, false)
  {
    PeriodOf(freq);
    if hold == DutyHold && 0.0 < entry < 100.0 {
      WidthFromDuty(1.0 / freq, entry);
    }
  }

  /** Switching to a duty hold and entering the derived duty cycle reproduces the same pulse. */
  lemma WidthThenDuty(freq: real, entry: real, recheck: bool)
    requires freq > 0.0 && ShapePulse(freq, WidthHold, entry, recheck).Accepted?
    ensures var r := ShapePulse(freq, WidthHold, entry, recheck);
      ShapePulse(freq, DutyHold, r.value.duty, recheck) == r
  {
    var period := 1.0 / freq;
    PeriodOf(freq);
    DutyFromWidth(period, entry);
  }

  /** Switching to a width hold and entering the derived width reproduces the same pulse. */
  lemma DutyThenWidth(freq: real, entry: real, recheck: bool)
    requires freq > 0.0 && ShapePulse(freq, DutyHold, entry, recheck).Accepted?
    ensures var r := ShapePulse(freq, DutyHold, entry, recheck);
      ShapePulse(freq, WidthHold, r.value.width, recheck) == r
  {
    var period := 1.0 / freq;
    PeriodOf(freq);
    WidthFromDuty(period, entry);
  }

  // ---------------------------------------------------------------- reading the form

  /** A Tk entry: what the user typed, or a value the GUI wrote back (its `%.6g`
      rendering is not modelled, so reading it back gives the value itself). */
  datatype Entry = Typed(text: string) | Shown(value: real)

  /** `float(var.get())`. */
  function EntryValue(e: Entry): Option<real>
  {
    match e
    case Typed(t) => ParseReal(t)
    case Shown(v) => Some(v)
  }

  /** The pulse entries of a 3021B GUI. */
  datatype Form = Form(freq: Entry, width: Entry, duty: Entry, high: Entry, low: Entry,
                       hold: string, load: string, lead: string, trail: string, phase: string)

  /** What is programmed: the hold, the pulse and the high and low levels. */
  datatype Settings = Settings(hold: Hold, pulse: Pulse, high: real, low: real)

  /** The entry a hold reads: the width or the duty cycle. */
  function HeldEntry(f: Form, hold: Hold): Entry
  {
    if hold == WidthHold then f.width else f.duty
  }

  predicate AllNumeric(f: Form)
  {
    EntryValue(f.freq).Some? && EntryValue(f.width).Some? && EntryValue(f.duty).Some? &&
    EntryValue(f.high).Some? && EntryValue(f.low).Some?
  }

  /** The test panel and the combined GUI: all five numbers are read first, then the
      frequency is checked, then the hold arithmetic with its width recheck. */
  function ReadEager(f: Form, hold: Hold): Checked<Settings>
  {
    if !AllNumeric(f) then Rejected(NotNumeric)
    else if EntryValue(f.freq).value <= 0.0 then Rejected(FrequencyNotPositive)
    else match ShapePulse(EntryValue(f.freq).value, hold, EntryValue(HeldEntry(f, hold)).value, true)
      case Rejected(e) => Rejected(e)
      case Accepted(p) => Accepted(Settings(hold, p, EntryValue(f.high).value, EntryValue(f.low).value))
  }

  /** The single-pulse and burst GUIs: the frequency is read and checked, then only the
      held entry is read, and the levels are read after the hold arithmetic. */
  function ShapeLazy(f: Form, hold: Hold, recheck: bool): Checked<Pulse>
  {
    match EntryValue(f.freq)
    case None => Rejected(NotNumeric)
    case Some(fr) =>
      if fr <= 0.0 then Rejected(FrequencyNotPositive)
      else match EntryValue(HeldEntry(f, hold))
        case None => Rejected(NotNumeric)
        case Some(x) => ShapePulse(fr, hold, x, recheck)
  }

  function ReadLazy(f: Form, hold: Hold, recheck: bool): Checked<Settings>
  {
    match ShapeLazy(f, hold, recheck)
    case Rejected(e) => Rejected(e)
    case Accepted(p) =>
      if EntryValue(f.high).None? || EntryValue(f.low).None? then Rejected(NotNumeric)
      else Accepted(Settings(hold, p, EntryValue(f.high).value, EntryValue(f.low).value))
  }

  /** The derived quantity written back into its entry once the hold arithmetic succeeds. */
  function Settle(f: Form, hold: Hold, p: Pulse): Form
  {
    if hold == WidthHold then f.(duty := Shown(p.duty)) else f.(width := Shown(p.width))
  }

  /** An accepted form is programmed with a consistent pulse at the entered frequency that keeps the held value. */
  lemma ReadEagerAccepted(f: Form, hold: Hold)
    requires ReadEager(f, hold).Accepted?
    ensures var s := ReadEager(f, hold).value;
      s.hold == hold && Consistent(s.pulse) && s.pulse.period * EntryValue(f.freq).value == 1.0 &&
      EntryValue(HeldEntry(f, hold)) == Some(if hold == WidthHold then s.pulse.width else s.pulse.duty) &&
      EntryValue(f.high) == Some(s.high) && EntryValue(f.low) == Some(s.low)
  {
    ShapeAccepted(EntryValue(f.freq).value, hold, EntryValue(HeldEntry(f, hold)).value, true);
  }

  /** With every entry a number the two reading orders agree. */
  lemma EagerLazyAgree(f: Form, hold: Hold)
    requires AllNumeric(f)
    ensures ReadEager(f, hold) == ReadLazy(f, hold, true)
  {
  }

  /** The lazy GUIs never look at the entry the hold does not use; the eager ones refuse
      the form when that entry is not a number. */
  lemma UnheldEntryIgnored(f: Form, x: Entry, recheck: bool)
    ensures ReadLazy(f.(duty := x), WidthHold, recheck) == ReadLazy(f, WidthHold, recheck)
    ensures ReadLazy(f.(width := x), DutyHold, recheck) == ReadLazy(f, DutyHold, recheck)
    ensures EntryValue(x).None? ==> ReadEager(f.(duty := x), WidthHold) == Rejected(NotNumeric)
  {
  }

  /** Applying again after the write-back programs the same settings. */
  lemma SettleStable(f: Form, hold: Hold)
    requires ReadEager(f, hold).Accepted?
    ensures var s := ReadEager(f, hold).value;
      ReadEager(Settle(f, hold, s.pulse), hold) == Accepted(s)
  {
    var s := ReadEager(f, hold).value;
    var g := Settle(f, hold, s.pulse);
    assert HeldEntry(g, hold) == HeldEntry(f, hold);
  }

  /** After the write-back, switching the hold programs the same pulse. */
  lemma SettleSwitchHold(f: Form, hold: Hold)
    requires ReadEager(f, hold).Accepted?
    ensures var s := ReadEager(f, hold).value;
      var other := if hold == WidthHold then DutyHold else WidthHold;
      ReadEager(Settle(f, hold, s.pulse), other) == Accepted(s.(hold := other))
  {
    var s := ReadEager(f, hold).value;
    var fr := EntryValue(f.freq).value;
    var x := EntryValue(HeldEntry(f, hold)).value;
    if hold == WidthHold {
      WidthThenDuty(fr, x, true);
    } else {
      DutyThenWidth(fr, x, true);
    }
  }

  // ---------------------------------------------------------------- the write sequence

  /** The commands to send, and the error raised after the last of them, if any. */
  datatype Plan = Plan(cmds: seq<Command>, error: Option<PulseError>)

  function LoadCommands(l: Option<Load>): seq<Command>
  {
    match l
    case None => []
    case Some(HighZ) => [Cmd("OUTPut1:IMPedance INF")]
    case Some(Ohms(v)) => [Command("OUTPut1:IMPedance", [Num(v)])]
  }

  function HoldCommand(h: Hold): Command
  {
    if h == WidthHold then Cmd("SOURce1:PULSe:HOLD WIDTh") else Cmd("SOURce1:PULSe:HOLD DUTY")
  }

  /** The held quantity is the one programmed: WIDTh under a width hold, DCYCle under a duty hold. */
  function HeldCommand(s: Settings): Command
  {
    if s.hold == WidthHold then Command("SOURce1:PULSe:WIDTh", [Num(s.pulse.width)])
    else Command("SOURce1:PULSe:DCYCle", [Num(s.pulse.duty)])
  }

  function ShapeCommands(s: Settings): seq<Command>
  {
    [Cmd("*CLS"), Cmd("SOURce1:FUNCtion:SHAPe PULSe"), Command("SOURce1:PULSe:PERiod", [Num(s.pulse.period)]),
     HoldCommand(s.hold), HeldCommand(s),
     Command("SOURce1:VOLTage:LEVel:IMMediate:HIGH", [Num(s.high)]),
     Command("SOURce1:VOLTage:LEVel:IMMediate:LOW", [Num(s.low)])]
  }

  /** Edge times are passed through as typed, and only when given. */
  function EdgeCommands(f: Form): seq<Command>
  {
    (if Strip(f.lead) == [] then [] else [Command("SOURce1:PULSe:TRANsition:LEADing", [Text(Strip(f.lead))])]) +
    (if Strip(f.trail) == [] then [] else [Command("SOURce1:PULSe:TRANsition:TRAiling", [Text(Strip(f.trail))])])
  }

  const OutputOff: Command := Cmd("OUTPut1:STATe OFF")

  /** The pulse writes: output off, the load, the shape, the edges and the phase.  A bad
      load is found after the output-off write, and a bad phase after the edges. */
  function PulsePlan(f: Form, s: Settings): Plan
  {
    match ReadLoad(f.load)
    case Err(m) => Plan([OutputOff], Some(LoadRefused(m)))
    case Ok(l) =>
      var body := [OutputOff] + LoadCommands(l) + ShapeCommands(s) + EdgeCommands(f);
      if Strip(f.phase) == [] then Plan(body, None)
      else match ParseReal(Strip(f.phase))
        case None => Plan(body, Some(NotNumeric))
        case Some(x) => Plan(body + [Command("SOURce1:PHASe", [Num(x)])], None)
  }

  /** Whatever happens, the output is switched off first, and a plan that raises no error
      programs the hold and exactly the held quantity. */
  lemma PulsePlanShape(f: Form, s: Settings)
    ensures var plan := PulsePlan(f, s);
      |plan.cmds| >= 1 && plan.cmds[0] == OutputOff &&
      (plan.error.None? ==> HoldCommand(s.hold) in plan.cmds && HeldCommand(s) in plan.cmds) &&
      (ReadLoad(f.load).Err? <==> plan.cmds == [OutputOff] && plan.error.Some? && plan.error.value.LoadRefused?)
  {
    var plan := PulsePlan(f, s);
    if ReadLoad(f.load).Ok? {
      var body := [OutputOff] + LoadCommands(ReadLoad(f.load).value) + ShapeCommands(s) + EdgeCommands(f);
      var k := 1 + |LoadCommands(ReadLoad(f.load).value)|;
      assert body[k + 3] == HoldCommand(s.hold) && body[k + 4] == HeldCommand(s);
      assert |body| > 1;
      assert plan.cmds[..|body|] == body;
    }
  }

  // ---------------------------------------------------------------- the burst GUI's extra entries

  datatype BurstEntries = BurstEntries(cycles: string, delay: string, mode: string, source: string, timerPeriod: string)

  datatype Burst = Burst(cycles: int, delay: real, mode: string, source: string, timerPeriod: real)

  const EmptyTime: string := "Empty time value."

  /** The burst GUI's `_parse_time_to_seconds`: the common unit table, blanks removed. */
  function BurstGuiTime(text: string): Result<real>
  {
    TimeUnits.ParseTime(text, TimeUnits.SecondUnits, true, EmptyTime)
  }

  predicate BurstModeKnown(m: string) { m == "TRIGgered" || m == "GATed" }

  predicate TriggerSourceKnown(t: string) { t == "TIMer" || t == "EXTernal" }

  /** `apply_burst`'s checks after the pulse entries, in source order.  Both times are
      read whatever the source; only a TIMer source needs a positive period. */
  function ReadBurst(b: BurstEntries): Checked<Burst>
  {
    match ParseTruncatedInt(b.cycles)
    case None => Rejected(NotNumeric)
    case Some(n) =>
      if n < 1 then Rejected(CyclesBelowOne)
      else match BurstGuiTime(b.delay)
        case Err(m) => Rejected(BadTime(m))
        case Ok(d) =>
          if d < 0.0 then Rejected(DelayNegative)
          else if !BurstModeKnown(Strip(b.mode)) then Rejected(BadBurstMode)
          else if !TriggerSourceKnown(Strip(b.source)) then Rejected(BadTriggerSource)
          else match BurstGuiTime(b.timerPeriod)
            case Err(m) => Rejected(BadTime(m))
            case Ok(tp) =>
              if Strip(b.source) == "TIMer" && tp <= 0.0 then Rejected(TimerPeriodNotPositive)
              else Accepted(Burst(n, d, Strip(b.mode), Strip(b.source), tp))
  }

  /** What an accepted burst satisfies. */
  lemma ReadBurstAccepted(b: BurstEntries)
    requires ReadBurst(b).Accepted?
    ensures var u := ReadBurst(b).value;
      u.cycles >= 1 && u.delay >= 0.0 && BurstModeKnown(u.mode) && TriggerSourceKnown(u.source) &&
      (u.source == "TIMer" ==> u.timerPeriod > 0.0) &&
      ParseTruncatedInt(b.cycles) == Some(u.cycles) && BurstGuiTime(b.delay) == Ok(u.delay)
  {
  }

  function BurstCommands(u: Burst): seq<Command>
  {
    [Command("SOURce1:BURSt:MODE", [Text(u.mode)]), Command("SOURce1:BURSt:NCYCles", [Whole(u.cycles)])] +
    (if StartsWith(Upper(u.mode), "TRIG") then [Command("SOURce1:BURSt:TDELay", [Num(u.delay)])] else []) +
    [Cmd("SOURce1:BURSt:STATe ON"), Command("TRIGger:SEQuence:SOURce", [Text(u.source)])] +
    (if u.source == "TIMer" then [Command("TRIGger:SEQuence:TIMer", [Num(u.timerPeriod)])] else [])
  }

  lemma TriggeredStartsWithTrig()
    ensures StartsWith(Upper("TRIGgered"), "TRIG") && !StartsWith(Upper("GATed"), "TRIG")
  {
    assert Upper("TRIGgered")[..4] == "TRIG";
    assert Upper("GATed")[0] == 'G';
  }

  /** The trigger delay is written exactly in triggered mode, and the timer period exactly for a TIMer source. */
  lemma BurstCommandsConditional(u: Burst)
    requires BurstModeKnown(u.mode) && TriggerSourceKnown(u.source)
    ensures var cs := BurstCommands(u);
      (Command("SOURce1:BURSt:TDELay", [Num(u.delay)]) in cs <==> u.mode == "TRIGgered") &&
      (Command("TRIGger:SEQuence:TIMer", [Num(u.timerPeriod)]) in cs <==> u.source == "TIMer")
  {
    TriggeredStartsWithTrig();
    var cs := BurstCommands(u);
    var tdelay := Command("SOURce1:BURSt:TDELay", [Num(u.delay)]);
    var timer := Command("TRIGger:SEQuence:TIMer", [Num(u.timerPeriod)]);
    if u.mode == "TRIGgered" {
      assert cs[2] == tdelay;
    } else {
      assert forall i :: 0 <= i < |cs| ==> cs[i].header != tdelay.header;
    }
    if u.source == "TIMer" {
      assert cs[|cs| - 1] == timer;
    } else {
      assert forall i :: 0 <= i < |cs| ==> cs[i].header != timer.header;
    }
  }

  /** The burst plan: the pulse plan, then, when that raised nothing, the burst commands. */
  function BurstPlan(f: Form, s: Settings, u: Burst): Plan
  {
    var plan := PulsePlan(f, s);
    if plan.error.Some? then plan else Plan(plan.cmds + BurstCommands(u), None)
  }

  // ---------------------------------------------------------------- the GUIs

  /** How an apply ends. */
  datatype Applied = NotConnected | Refused(error: PulseError) | WriteFailed | Programmed(settings: Settings)

  /** The outcome of writing a plan when `f` is the write-fault queue. */
  function PlanOutcome(f: seq<bool>, plan: Plan, s: Settings): Applied
  {
    if Sent(f, plan.cmds) < |plan.cmds| then WriteFailed
    else if plan.error.Some? then Refused(plan.error.value)
    else Programmed(s)
  }

  /** Whether the hold entry is rewritten to "WIDTh": the numbers read and the frequency
      is positive, and the hold is unknown; the combined GUI keeps a blank hold as it is. */
  function NormalizedHoldText(f: Form, keepBlank: bool): string
  {
    if AllNumeric(f) && EntryValue(f.freq).value > 0.0 && UnknownHold(f.hold) && !(keepBlank && Strip(f.hold) == [])
    then NormalizedHold else f.hold
  }

  /** The hold normalisation changes nothing about what is programmed. */
  lemma NormalizedHoldSameReading(f: Form, keepBlank: bool)
    ensures HoldOrWidth(NormalizedHoldText(f, keepBlank)) == HoldOrWidth(f.hold)
  {
    NormalizedHoldIsWidth();
  }

  /** One 3021B GUI window: the state its apply reads and writes back. */
  class PulseGui {
    var form: Form

    constructor (f: Form)
      ensures form == f
    {
      form := f;
    }

    /** Send a plan and report how it ended. */
    method Send(inst: Instrument, plan: Plan, s: Settings) returns (r: Applied)
      modifies inst
      ensures r == PlanOutcome(old(inst.faults), plan, s)
      ensures inst.written == old(inst.written) + plan.cmds[..Sent(old(inst.faults), plan.cmds)]
      ensures inst.pending == old(inst.pending)
    {
      var ok := WriteAll(inst, plan.cmds);
      if !ok {
        r := WriteFailed;
      } else if plan.error.Some? {
        r := Refused(plan.error.value);
      } else {
        r := Programmed(s);
      }
    }

    /** `apply_pulse` of the 3021B test panel (`keepBlank` false) and `_program_pulse_from_gui`
        of the combined 2450/3021B GUI (`keepBlank` true): every number is read first, an
        unknown hold is rewritten to "WIDTh", and the derived quantity is written back
        before any command goes out. */
    method ApplyNormalizing(inst: Instrument?, keepBlank: bool) returns (r: Applied)
      modifies this, inst
      ensures inst == null ==> r == NotConnected && form == old(form)
      ensures inst != null ==>
        var h := HoldOrWidth(old(form).hold);
        var f1 := old(form).(hold := NormalizedHoldText(old(form), keepBlank));
        var c := ReadEager(old(form), h);
        (c.Rejected? ==> r == Refused(c.error) && form == f1 && inst.written == old(inst.written)) &&
        (c.Accepted? ==>
          var plan := PulsePlan(f1, c.value);
          form == Settle(f1, h, c.value.pulse) && r == PlanOutcome(old(inst.faults), plan, c.value) &&
          inst.written == old(inst.written) + plan.cmds[..Sent(old(inst.faults), plan.cmds)])
    {
      if inst == null {
        return NotConnected;
      }
      var h := HoldOrWidth(form.hold);
      var c := ReadEager(form, h);
      form := form.(hold := NormalizedHoldText(form, keepBlank));
      if c.Rejected? {
        return Refused(c.error);
      }
      var plan := PulsePlan(form, c.value);
      form := Settle(form, h, c.value.pulse);
      r := Send(inst, plan, c.value);
    }

    /** `apply_pulse` of the single-pulse GUI (`burst` None, with the width recheck) and
        `apply_burst` of the burst GUI (without it): the derived quantity is written back
        as soon as the hold arithmetic succeeds, even if a later entry is refused. */
    method ApplyLazy(inst: Instrument?, burst: Option<BurstEntries>) returns (r: Applied)
      modifies this, inst
      ensures inst == null ==> r == NotConnected && form == old(form)
      ensures inst != null ==>
        var h := HoldOrDuty(old(form).hold);
        var recheck := burst.None?;
        var p := ShapeLazy(old(form), h, recheck);
        var c := ReadLazy(old(form), h, recheck);
        (p.Rejected? ==> form == old(form)) &&
        (p.Accepted? ==> form == Settle(old(form), h, p.value)) &&
        (c.Rejected? ==> r == Refused(c.error) && inst.written == old(inst.written)) &&
        (c.Accepted? && burst.Some? && ReadBurst(burst.value).Rejected? ==>
          r == Refused(ReadBurst(burst.value).error) && inst.written == old(inst.written)) &&
        (c.Accepted? && (burst.None? || ReadBurst(burst.value).Accepted?) ==>
          var plan := if burst.None? then PulsePlan(old(form), c.value)
                      else BurstPlan(old(form), c.value, ReadBurst(burst.value).value);
          r == PlanOutcome(old(inst.faults), plan, c.value) &&
          inst.written == old(inst.written) + plan.cmds[..Sent(old(inst.faults), plan.cmds)])
    {
      if inst == null {
        return NotConnected;
      }
      var f0 := form;
      var h := HoldOrDuty(form.hold);
      var p := ShapeLazy(form, h, burst.None?);
      if p.Rejected? {
        return Refused(p.error);
      }
      form := Settle(form, h, p.value);
      var c := ReadLazy(f0, h, burst.None?);
      if c.Rejected? {
        return Refused(c.error);
      }
      var plan;
      if burst.None? {
        plan := PulsePlan(f0, c.value);
      } else {
        var u := ReadBurst(burst.value);
        if u.Rejected? {
          return Refused(u.error);
        }
        plan := BurstPlan(f0, c.value, u.value);
      }
      r := Send(inst, plan, c.value);
    }
  }

  // ---------------------------------------------------------------- the test panel's timeout and recipes

  const DefaultTimeout: int := 5000
  const MinTimeout: int := 100

  /** `_parse_timeout`: the entry's integer part, 5000 when it is not a number, never below 100 ms. */
  function TimeoutFor(text: string): (t: int)
    ensures t >= MinTimeout
    ensures !IsReal(text) ==> t == DefaultTimeout
    ensures IsReal(text) ==> t == (if TruncToInt(ParseReal(text).value) >= MinTimeout then TruncToInt(ParseReal(text).value) else MinTimeout)
  {
    match ParseTruncatedInt(Strip(text))
    case None => ParseRealOfStrip(text); DefaultTimeout
    case Some(v) => ParseRealOfStrip(text); if v >= MinTimeout then v else MinTimeout
  }

  /** A whole number of milliseconds typed into the entry is the timeout, raised to at least 100. */
  lemma TimeoutOfNat(n: nat)
    ensures TimeoutFor(NatText(n)) == if n >= MinTimeout then n else MinTimeout
  {
    TimeUnits.NatTextFacts(n);
  }

  lemma NatText5000()
    ensures NatText(5000) == "5000"
  {
    assert NatText(5) == "5";
    assert NatText(50) == NatText(5) + "0";
    assert NatText(500) == NatText(50) + "0";
    assert NatText(5000) == NatText(500) + "0";
  }

  /** The text written back on a bad entry reads as the default. */
  lemma TimeoutResetReads()
    ensures IsReal("5000") && TimeoutFor("5000") == DefaultTimeout
  {
    NatText5000();
    TimeoutOfNat(5000);
    TimeUnits.NatTextFacts(5000);
  }

  /** The timeout entry of the test panel and the combined GUI. */
  class TimeoutEntry {
    var text: string

    constructor (t: string)
      ensures text == t
    {
      text := t;
    }

    /** Read the timeout; a bad entry is replaced by "5000". */
    method ParseTimeout() returns (t: int)
      modifies this
      ensures t == TimeoutFor(old(text))
      ensures text == (if IsReal(old(text)) then old(text) else "5000")
    {
      var v := ParseTruncatedInt(Strip(text));
      ParseRealOfStrip(text);
      if v.None? {
        t := DefaultTimeout;
        text := "5000";
      } else {
        t := v.value;
      }
      if t < MinTimeout {
        t := MinTimeout;
      }
    }
  }

  /** How `run_selected_recipe` ends. */
  datatype RecipeRun = RecipeNotConnected | RecipeUndefined | RecipeAborted(at: nat) | RecipeCompleted

  function RecipeCommands(steps: seq<string>): (cs: seq<Command>)
    ensures |cs| == |steps| && forall i :: 0 <= i < |steps| ==> cs[i] == Cmd(steps[i])
  {
    seq(|steps|, i requires 0 <= i < |steps| => Cmd(steps[i]))
  }

  /** `run_selected_recipe`: an unknown or empty recipe writes nothing; otherwise its
      steps go out in order until the first write that raises. */
  method RunRecipe(inst: Instrument?, recipes: map<string, seq<string>>, name: string) returns (r: RecipeRun)
    modifies inst
    ensures inst == null ==> r == RecipeNotConnected
    ensures inst != null && (name !in recipes || recipes[name] == []) ==>
      r == RecipeUndefined && inst.written == old(inst.written)
    ensures inst != null && name in recipes && recipes[name] != [] ==>
      var cs := RecipeCommands(recipes[name]);
      var n := Sent(old(inst.faults), cs);
      inst.written == old(inst.written) + cs[..n] &&
      (r == RecipeCompleted <==> n == |cs|) && (r != RecipeCompleted ==> r == RecipeAborted(n))
  {
    if inst == null {
      return RecipeNotConnected;
    }
    if name !in recipes || recipes[name] == [] {
      return RecipeUndefined;
    }
    var cs := RecipeCommands(recipes[name]);
    var n := Sent(inst.faults, cs);
    var ok := WriteAll(inst, cs);
    r := if ok then RecipeCompleted else RecipeAborted(n);
  }
}
