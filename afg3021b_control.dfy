/** The AFG3021B trigger-and-pulse controller: a zero-volt "latch" that holds
    the sync line low, arming, firing a burst with an optional automatic
    output-off, and disconnecting, all tracked by two flags; and the state
    controller's output toggle. */
module Afg3021BControl {
  import opened Outcome
  import opened PyText
  import opened Channel
  import opened LoadChoice
  import opened WriteSequence
  import TimeUnits

  /** The controller's entries as typed. */
  datatype LatchEntries = LatchEntries(freq: string, width: string, amp: string, offset: string,
                                       lead: string, trail: string, delay: string, load: string,
                                       cycles: string, mode: string, autoOff: bool)

  const DefaultLead: string := "10e-9"
  const DefaultTrail: string := "10e-9"
  const DefaultDelay: string := "0"

  /** Python's `text or default`: only the empty string is replaced. */
  function OrDefault(text: string, default: string): string
  {
    if text == [] then default else text
  }

  /** The controller's `_parse_float` (its unit-aware, corrected form). */
  function Field(text: string, name: string): Result<real>
  {
    TimeUnits.ParseMultiplied(text, name)
  }

  /** The frequency entry, read as every handler of the controller reads it. */
  function FreqOf(e: LatchEntries): Result<real>
  {
    Field(e.freq, "Frequency")
  }

  /** Auto-off applies only to a burst. */
  predicate AutoOffBurst(e: LatchEntries) { e.autoOff && e.mode == "Burst" }

  // ---------------------------------------------------------------- latch

  datatype LatchProfile = LatchProfile(freq: real, width: real, lead: real, trail: real)

  /** `latch_zero`'s entries, read in order; the first bad one is reported. */
  function ReadLatch(e: LatchEntries): Result<LatchProfile>
  {
    match Field(e.freq, "Frequency")
    case Err(m) => Err(m)
    case Ok(f) =>
      match Field(e.width, "Width")
      case Err(m) => Err(m)
      case Ok(w) =>
        match Field(OrDefault(e.lead, DefaultLead), "Rise Time")
        case Err(m) => Err(m)
        case Ok(l) =>
          match Field(OrDefault(e.trail, DefaultTrail), "Fall Time")
          case Err(m) => Err(m)
          case Ok(t) => Ok(LatchProfile(f, w, l, t))
  }

  const OutputOff: Command := Cmd("OUTPut1:STATe OFF")
  const OutputOn: Command := Cmd("OUTPut1:STATe ON")
  const Trigger: Command := Cmd("*TRG")

  /** A zero-amplitude, infinitely long bus-triggered burst with the sync output in SYNC mode. */
  function LatchCommands(p: LatchProfile): seq<Command>
  {
    [OutputOff, Cmd("*CLS"), Cmd("SOURce1:FUNCtion:SHAPe PULSe"),
     Command("SOURce1:FREQuency:FIXed", [Num(p.freq)]), Command("SOURce1:PULSe:WIDTh", [Num(p.width)]),
     Command("SOURce1:PULSe:TRANsition:LEADing", [Num(p.lead)]), Command("SOURce1:PULSe:TRANsition:TRAiling", [Num(p.trail)]),
     Cmd("SOURce1:VOLTage:LEVel:IMMediate:AMPLitude 0"), Cmd("SOURce1:VOLTage:LEVel:IMMediate:OFFSet 0"),
     Cmd("SOURce1:BURSt:STATe ON"), Cmd("SOURce1:BURSt:MODE TRIGgered"), Cmd("SOURce1:BURSt:NCYCles INFinity"),
     Cmd("TRIGger:SEQuence:SOURce BUS"), Cmd("OUTPut:TRIGger:MODE SYNC")]
  }

  // ---------------------------------------------------------------- post-latch burst

  /** `max(1, int(float(text)))`, and 1 when the text is not a number. */
  function BurstCycles(text: string): (n: int)
    ensures n >= 1
    ensures !IsReal(text) ==> n == 1
  {
    match ParseTruncatedInt(text)
    case None => 1
    case Some(k) => if k >= 1 then k else 1
  }

  /** The post-latch load: an alias is high impedance, a positive number is written, and
      anything else (blank, non-positive, not a number) keeps the previous setting. */
  function PostLatchLoad(text: string): (l: Option<Load>)
    ensures l == Some(HighZ) <==> IsInfAlias(Upper(Strip(text)))
    ensures l.Some? && l.value.Ohms? ==> l.value.r > 0.0
  {
    var t := Upper(Strip(text));
    if t == [] then None
    else if IsInfAlias(t) then Some(HighZ)
    else match ParseReal(t)
      case Some(v) => if v > 0.0 then Some(Ohms(v)) else None
      case None => None
  }

  datatype BurstProfile = BurstProfile(freq: real, width: real, amp: real, offset: real, lead: real, trail: real,
                                       delay: real, cycles: int, load: Option<Load>)

  function ReadPostLatch(e: LatchEntries): Result<BurstProfile>
  {
    match ReadLatch(e)
    case Err(m) => Err(m)
    case Ok(p) =>
      match Field(e.amp, "Amplitude")
      case Err(m) => Err(m)
      case Ok(a) =>
        match Field(e.offset, "Offset")
        case Err(m) => Err(m)
        case Ok(o) =>
          match Field(OrDefault(e.delay, DefaultDelay), "Delay")
          case Err(m) => Err(m)
          case Ok(d) => Ok(BurstProfile(p.freq, p.width, a, o, p.lead, p.trail, d, BurstCycles(e.cycles), PostLatchLoad(e.load)))
  }

  /** The finite burst that replaces the latch, with the programmed amplitude. */
  function PostLatchCommands(b: BurstProfile): seq<Command>
  {
    [OutputOff, Cmd("*CLS"), Cmd("SOURce1:FUNCtion:SHAPe PULSe"),
     Command("SOURce1:FREQuency:FIXed", [Num(b.freq)]), Command("SOURce1:PULSe:WIDTh", [Num(b.width)]),
     Command("SOURce1:PULSe:DELay", [Num(b.delay)]),
     Command("SOURce1:PULSe:TRANsition:LEADing", [Num(b.lead)]), Command("SOURce1:PULSe:TRANsition:TRAiling", [Num(b.trail)])] +
    (match b.load
     case None => []
     case Some(HighZ) => [Cmd("OUTPut1:IMPedance INF")]
     case Some(Ohms(v)) => [Command("OUTPut1:IMPedance", [Num(v)])]) +
    [Command("SOURce1:VOLTage:LEVel:IMMediate:AMPLitude", [Num(b.amp)]),
     Command("SOURce1:VOLTage:LEVel:IMMediate:OFFSet", [Num(b.offset)]),
     Cmd("SOURce1:BURSt:STATe ON"), Cmd("SOURce1:BURSt:MODE TRIGgered"),
     Command("SOURce1:BURSt:NCYCles", [Whole(b.cycles)]),
     Cmd("TRIGger:SEQuence:SOURce BUS"), Cmd("OUTPut:TRIGger:MODE SYNC")]
  }

  /** A whole burst count is used as typed when positive, else raised to 1. */
  lemma BurstCyclesOfNat(n: nat)
    ensures BurstCycles(NatText(n)) == if n >= 1 then n else 1
  {
    TimeUnits.NatTextFacts(n);
  }

  /** Any number typed as the count is truncated toward zero and raised to at least 1:
      a count of 1 or more keeps its integer part, anything below 1 gives a single cycle. */
  lemma BurstCyclesOfReal(text: string)
    requires IsReal(text)
    ensures var x := ParseReal(text).value;
      (x >= 1.0 ==> BurstCycles(text) as real <= x < BurstCycles(text) as real + 1.0) &&
      (x < 1.0 ==> BurstCycles(text) == 1)
  {
  }

  // ---------------------------------------------------------------- arm

  datatype ArmProfile = ArmProfile(freq: real, width: real, amp: real, offset: real)

  function ReadArm(e: LatchEntries): Result<ArmProfile>
  {
    match Field(e.freq, "Frequency")
    case Err(m) => Err(m)
    case Ok(f) =>
      match Field(e.width, "Width")
      case Err(m) => Err(m)
      case Ok(w) =>
        match Field(e.amp, "Amp")
        case Err(m) => Err(m)
        case Ok(a) =>
          match Field(e.offset, "Offset")
          case Err(m) => Err(m)
          case Ok(o) => Ok(ArmProfile(f, w, a, o))
  }

  /** `arm_system`'s writes: output off, the pulse, the burst set-up in "Burst" mode (the
      cycle count passed through as typed) or burst off otherwise, then output on. */
  function ArmCommands(a: ArmProfile, e: LatchEntries): seq<Command>
  {
    [Cmd("*CLS"), Cmd("SOURce1:FUNCtion:SHAPe PULSe"),
     Command("SOURce1:FREQuency:FIXed", [Num(a.freq)]), Command("SOURce1:PULSe:WIDTh", [Num(a.width)]),
     Command("SOURce1:VOLTage:LEVel:IMMediate:AMPLitude", [Num(a.amp)]),
     Command("SOURce1:VOLTage:LEVel:IMMediate:OFFSet", [Num(a.offset)])] +
    (if e.mode == "Burst" then
       [Cmd("SOURce1:BURSt:STATe ON"), Cmd("SOURce1:BURSt:MODE TRIGgered"),
        Command("SOURce1:BURSt:NCYCles", [Text(e.cycles)]),
        Cmd("TRIGger:SEQuence:SOURce BUS"), Cmd("OUTPut:TRIGger:MODE SYNC")]
     else [Cmd("SOURce1:BURSt:STATe OFF")]) +
    [OutputOn]
  }

  // ---------------------------------------------------------------- fire timing

  /** The auto-off wait: the burst's duration `cycles / freq` plus 0.1 s.  `None` is the
      division by zero or the negative sleep the thread would raise on. */
  function AutoOffWait(cycles: real, freq: real): (w: Option<real>)
    ensures w.Some? ==> w.value >= 0.0 && freq != 0.0
    ensures freq > 0.0 && cycles >= 0.0 ==> w.Some?
  {
    if freq == 0.0 then None
    else
      var wait := cycles * (1.0 / freq) + 0.1;
      if wait < 0.0 then None else Some(wait)
  }

  /** With a positive count and frequency the wait covers the whole burst plus 0.1 s. */
  lemma AutoOffWaitCovers(cycles: real, freq: real)
    requires cycles >= 0.0 && freq > 0.0
    ensures AutoOffWait(cycles, freq).Some?
    ensures (AutoOffWait(cycles, freq).value - 0.1) * freq == cycles
  {
    var q := 1.0 / freq;
    assert q * freq == 1.0;
    assert (cycles * q) * freq == cycles * (q * freq);
  }

  /** How a fire ends: the trigger went out (with the auto-off wait, when one ran), or it failed. */
  datatype FireOutcome = Fired(wait: Option<real>) | FireFailed

  /** The writes `_fire_thread` issues once the numbers are read: output on when it is
      off, the trigger, and the auto-off when a burst's wait can be slept. */
  function FireWrites(on: bool, e: LatchEntries, cycles: real, freq: real): seq<Command>
  {
    (if on then [] else [OutputOn]) + TriggerWrites(e, cycles, freq)
  }

  /** The trigger, then the output switched off after an auto-off burst's sleep. */
  function TriggerWrites(e: LatchEntries, cycles: real, freq: real): seq<Command>
  {
    [Trigger] + (if AutoOffBurst(e) && AutoOffWait(cycles, freq).Some? then [OutputOff] else [])
  }

  /** A burst fires when every one of those writes goes out and no auto-off sleep raises. */
  predicate FiresClean(f: seq<bool>, on: bool, e: LatchEntries, cycles: real, freq: real)
  {
    var cs := FireWrites(on, e, cycles, freq);
    Sent(f, cs) == |cs| && !(AutoOffBurst(e) && AutoOffWait(cycles, freq).None?)
  }

  /** What obtaining the cycle count does: the count, the writes, and the fault queue after them. */
  datatype CyclesStage = CyclesStage(cycles: Option<real>, sent: seq<Command>, faults: seq<bool>)

  function CyclesOf(latched: bool, e: LatchEntries, f: seq<bool>): CyclesStage
  {
    if !latched then CyclesStage(ParseReal(e.cycles), [], f)
    else match ReadPostLatch(e)
      case Err(_) => CyclesStage(None, [], f)
      case Ok(b) =>
        var cs := PostLatchCommands(b);
        var n := Sent(f, cs);
        CyclesStage(if n == |cs| then Some(b.cycles as real) else None, cs[..n], DropN(f, Attempted(f, cs)))
  }

  // ---------------------------------------------------------------- the controller

  class LatchController {
    var connected: bool
    var outputOn: bool
    var latchedZero: bool

    /** The flags never claim a high output while the zero latch holds. */
    predicate Valid()
      reads this
    {
      latchedZero ==> !outputOn
    }

    constructor ()
      ensures Valid() && !connected && !outputOn && !latchedZero
    {
      connected := false;
      outputOn := false;
      latchedZero := false;
    }

    /** `latch_zero`: both flags change only when every entry reads and every write succeeds. */
    method LatchZero(inst: Instrument?, e: LatchEntries) returns (ok: bool)
      requires Valid()
      modifies this, inst
      ensures Valid() && connected == old(connected)
      ensures inst == null ==> !ok && outputOn == old(outputOn) && latchedZero == old(latchedZero)
      ensures inst != null ==>
        (ok <==> ReadLatch(e).Ok? && Sent(old(inst.faults), LatchCommands(ReadLatch(e).value)) == |LatchCommands(ReadLatch(e).value)|) &&
        (ReadLatch(e).Err? ==> inst.written == old(inst.written)) &&
        (ReadLatch(e).Ok? ==> var cs := LatchCommands(ReadLatch(e).value);
          inst.written == old(inst.written) + cs[..Sent(old(inst.faults), cs)])
      ensures ok ==> latchedZero && !outputOn
      ensures !ok ==> latchedZero == old(latchedZero) && outputOn == old(outputOn)
    {
      if inst == null {
        return false;
      }
      var p := ReadLatch(e);
      if p.Err? {
        return false;
      }
      ok := WriteAll(inst, LatchCommands(p.value));
      if ok {
        latchedZero := true;
        outputOn := false;
      }
    }

    /** `_configure_burst_post_latch`: the latch is released only when every write succeeds. */
    method ConfigurePostLatch(inst: Instrument, e: LatchEntries) returns (cycles: Option<int>)
      requires Valid()
      modifies this, inst
      ensures Valid() && connected == old(connected) && outputOn == old(outputOn)
      ensures var b := ReadPostLatch(e);
        (b.Err? ==> cycles.None? && inst.written == old(inst.written) && latchedZero == old(latchedZero)) &&
        (b.Ok? ==> var cs := PostLatchCommands(b.value);
          var done := Sent(old(inst.faults), cs) == |cs|;
          inst.written == old(inst.written) + cs[..Sent(old(inst.faults), cs)] &&
          cycles == (if done then Some(b.value.cycles) else None) &&
          latchedZero == (if done then false else old(latchedZero)))
      ensures ReadPostLatch(e).Err? ==> inst.faults == old(inst.faults)
      ensures ReadPostLatch(e).Ok? ==> var cs := PostLatchCommands(ReadPostLatch(e).value);
        inst.faults == DropN(old(inst.faults), Attempted(old(inst.faults), cs))
    {
      var b := ReadPostLatch(e);
      if b.Err? {
        return None;
      }
      var ok := WriteAll(inst, PostLatchCommands(b.value));
      if !ok {
        return None;
      }
      latchedZero := false;
      cycles := Some(b.value.cycles);
    }

    /** `arm_system`: the latch flag is cleared first; the output flag is set only when
        the entries read and every write, the final output-on included, succeeds.  A bad
        entry is found after the output-off write. */
    method ArmSystem(inst: Instrument?, e: LatchEntries) returns (ok: bool)
      requires Valid()
      modifies this, inst
      ensures Valid() && connected == old(connected)
      ensures inst == null ==> !ok && outputOn == old(outputOn) && latchedZero == old(latchedZero)
      ensures inst != null ==> !latchedZero
      ensures inst != null && ReadArm(e).Err? ==>
        !ok && outputOn == old(outputOn) &&
        inst.written == old(inst.written) + (if FirstSet(old(inst.faults)) then [] else [OutputOff])
      ensures inst != null && ReadArm(e).Ok? ==>
        var cs := [OutputOff] + ArmCommands(ReadArm(e).value, e);
        inst.written == old(inst.written) + cs[..Sent(old(inst.faults), cs)] &&
        (ok <==> Sent(old(inst.faults), cs) == |cs|) &&
        outputOn == (ok || old(outputOn))
    {
      if inst == null {
        return false;
      }
      latchedZero := false;
      var a := ReadArm(e);
      if a.Err? {
        var _ := inst.Write(OutputOff);
        return false;
      }
      ok := WriteAll(inst, [OutputOff] + ArmCommands(a.value, e));
      if ok {
        outputOn := true;
      }
    }

    /** `_fire_thread`: a latched channel is reprogrammed first, the output is switched on
        if it is off, the trigger is sent, and in "Burst" mode with auto-off the output is
        switched off again after the burst's duration. */
    method Fire(inst: Instrument, e: LatchEntries) returns (r: FireOutcome)
      requires Valid()
      modifies this, inst
      ensures Valid() && connected == old(connected)
      ensures var st := CyclesOf(old(latchedZero), e, old(inst.faults));
        st.cycles.None? || FreqOf(e).Err? ==>
          r == FireFailed && inst.written == old(inst.written) + st.sent &&
          outputOn == old(outputOn) && latchedZero == (old(latchedZero) && st.cycles.None?)
      ensures var st := CyclesOf(old(latchedZero), e, old(inst.faults));
        st.cycles.Some? && FreqOf(e).Ok? ==>
          var cs := FireWrites(old(outputOn), e, st.cycles.value, FreqOf(e).value);
          inst.written == old(inst.written) + st.sent + cs[..Sent(st.faults, cs)] &&
          (r.Fired? <==> FiresClean(st.faults, old(outputOn), e, st.cycles.value, FreqOf(e).value)) &&
          (r.Fired? ==> r.wait == (if AutoOffBurst(e) then AutoOffWait(st.cycles.value, FreqOf(e).value) else None)) &&
          !latchedZero
      ensures r.Fired? ==> outputOn == !AutoOffBurst(e)
    {
      var cycles := FireCycles(inst, e);
      if cycles.None? {
        return FireFailed;
      }
      var freq := FreqOf(e);
      if freq.Err? {
        return FireFailed;
      }
      ghost var w := inst.written;
      r := FireUnlatched(inst, e, cycles.value, freq.value);
      SentAssoc(old(inst.written), CyclesOf(old(latchedZero), e, old(inst.faults)).sent,
        FireWrites(old(outputOn), e, cycles.value, freq.value)[..Sent(inst.faults, FireWrites(old(outputOn), e, cycles.value, freq.value))]);
    }

    /** The cycle count `_fire_thread` works with: a latched channel is reprogrammed
        and the count comes from that, otherwise the cycles entry is read. */
    method FireCycles(inst: Instrument, e: LatchEntries) returns (cycles: Option<real>)
      requires Valid()
      modifies this, inst
      ensures Valid() && connected == old(connected) && outputOn == old(outputOn)
      ensures var st := CyclesOf(old(latchedZero), e, old(inst.faults));
        cycles == st.cycles && inst.written == old(inst.written) + st.sent && inst.faults == st.faults
      ensures latchedZero == (old(latchedZero) && cycles.None?)
      ensures old(latchedZero) && cycles.Some? ==> cycles.value == BurstCycles(e.cycles) as real
    {
      if latchedZero {
        var c := ConfigurePostLatch(inst, e);
        if c.None? {
          return None;
        }
        cycles := Some(c.value as real);
      } else {
        cycles := ParseReal(e.cycles);
      }
    }

    /** The part of `_fire_thread` after the latch is released and the numbers are read. */
    method FireUnlatched(inst: Instrument, e: LatchEntries, cycles: real, freq: real) returns (r: FireOutcome)
      requires !latchedZero
      modifies this, inst
      ensures !latchedZero && connected == old(connected)
      ensures var cs := FireWrites(old(outputOn), e, cycles, freq);
        inst.written == old(inst.written) + cs[..Sent(old(inst.faults), cs)]
      ensures r.Fired? <==> FiresClean(old(inst.faults), old(outputOn), e, cycles, freq)
      ensures r.Fired? ==> r.wait == (if AutoOffBurst(e) then AutoOffWait(cycles, freq) else None)
      ensures outputOn == if r.Fired? && AutoOffBurst(e) then false else old(outputOn) || !FirstSet(old(inst.faults))
    {
      ghost var f0 := inst.faults;
      ghost var ts := TriggerWrites(e, cycles, freq);
      SentCons(f0, OutputOn, ts);
      if !outputOn {
        var ok := inst.Write(OutputOn);
        if !ok {
          return FireFailed;
        }
        outputOn := true;
        r := TriggerBurst(inst, e, cycles, freq);
        assert ([OutputOn] + ts)[..1 + Sent(DropFirst(f0), ts)] == [OutputOn] + ts[..Sent(DropFirst(f0), ts)];
      } else {
        assert [] + ts == ts;
        r := TriggerBurst(inst, e, cycles, freq);
      }
    }

    /** `*TRG`, and for an auto-off burst the sleep and `OUTPut1:STATe OFF`, stopping at the first
        write that raises or a sleep that cannot be taken. */
    method TriggerBurst(inst: Instrument, e: LatchEntries, cycles: real, freq: real) returns (r: FireOutcome)
      modifies this, inst
      ensures latchedZero == old(latchedZero) && connected == old(connected)
      ensures var ts := TriggerWrites(e, cycles, freq);
        inst.written == old(inst.written) + ts[..Sent(old(inst.faults), ts)] &&
        (r.Fired? <==> Sent(old(inst.faults), ts) == |ts| && !(AutoOffBurst(e) && AutoOffWait(cycles, freq).None?))
      ensures r.Fired? ==> r.wait == (if AutoOffBurst(e) then AutoOffWait(cycles, freq) else None)
      ensures outputOn == if r.Fired? && AutoOffBurst(e) then false else old(outputOn)
    {
      ghost var f := inst.faults;
      ghost var rest: seq<Command> := if AutoOffBurst(e) && AutoOffWait(cycles, freq).Some? then [OutputOff] else [];
      SentCons(f, Trigger, rest);
      SentCons(DropFirst(f), OutputOff, []);
      assert [OutputOff] + [] == [OutputOff];
      var ok := inst.Write(Trigger);
      if !ok {
        return FireFailed;
      }
      if AutoOffBurst(e) {
        var wait := AutoOffWait(cycles, freq);
        if wait.None? {
          assert ([Trigger] + rest)[..1] == [Trigger];
          return FireFailed;
        }
        ok := inst.Write(OutputOff);
        if !ok {
          assert ([Trigger] + rest)[..1] == [Trigger];
          return FireFailed;
        }
        outputOn := false;
        assert ([Trigger] + rest)[..2] == [Trigger, OutputOff];
        return Fired(wait);
      }
      assert ([Trigger] + rest)[..1] == [Trigger];
      r := Fired(None);
    }

    /** `disconnect`: output off is attempted (a failure is ignored) and every flag is cleared. */
    method Disconnect(inst: Instrument?)
      modifies this, inst
      ensures Valid() && !connected && !outputOn && !latchedZero
      ensures inst != null ==> inst.written == old(inst.written) + (if FirstSet(old(inst.faults)) then [] else [OutputOff])
    {
      if inst != null {
        var _ := inst.Write(OutputOff);
      }
      connected := false;
      outputOn := false;
      latchedZero := false;
    }
  }

  // ---------------------------------------------------------------- the state controller's toggle

  function ToggleCommand(on: bool): Command
  {
    if on then OutputOn else OutputOff
  }

  class StateController {
    var outputOn: bool

    constructor ()
      ensures !outputOn
    {
      outputOn := false;
    }

    /** `toggle_output` of the state controller: the flag flips before the write, so it
        stays flipped when the write raises. */
    method ToggleOutput(inst: Instrument?)
      modifies this, inst
      ensures inst == null ==> outputOn == old(outputOn)
      ensures inst != null ==> outputOn == !old(outputOn)
      ensures inst != null ==>
        inst.written == old(inst.written) + (if FirstSet(old(inst.faults)) then [] else [ToggleCommand(outputOn)])
    {
      if inst == null {
        return;
      }
      outputOn := !outputOn;
      var _ := inst.Write(ToggleCommand(outputOn));
    }
  }
}
