/** The 33522B pulse panel shared by the trigger-and-pulse GUI and the two combined 33522B
    measurement GUIs: channel 2 is a bus-triggered square-wave burst, channel 1 a pulse that
    can be armed to follow it after a delay.  The panel keeps its state in six flags; every
    action is specified by a function from the old flags and bus to the new ones. */
module KeysightPanel {
  import opened Outcome
  import opened PyText
  import opened Channel
  import opened WriteSequence
  import opened KeysightFields

  /** Which file's panel: they differ in the channel-1 entries, the time units and whether
      channel 1 may run continuously. */
  datatype Variant = TriggerAndPulse | Meas2602 | Meas2450

  datatype Flags = Flags(connected: bool, configured: bool, outputOn: bool, ch1Configured: bool,
                         ch1OutputOn: bool, ch1IsBurst: bool)

  /** The flags and the bus after an action. */
  datatype After = After(flags: Flags, bus: Bus)

  /** An action's own result, with the state it leaves. */
  datatype Step<T> = Step(value: T, after: After)

  /** The channel-2 entries. */
  datatype Ch2Form = Ch2Form(freq: string, vpp: string, cycles: string, settle: string, phaseDelay: string)

  const Ch1On: Command := Cmd(":OUTP1 ON")
  const Ch2On: Command := Cmd(":OUTP2 ON")
  const Ch2Off: Command := Cmd(":OUTP2 OFF")
  const Arm1: seq<Command> := [Ch1On, Cmd(":INIT1:IMM")]
  const Launch: seq<Command> := [Cmd(":INIT2:IMM"), Cmd("*TRG")]
  const StopCommands: seq<Command> := [Ch2Off, Cmd(":SOUR2:BURSt:STAT OFF"), Cmd(":INIT2:CONT OFF")]

  const ConnectFirst: string := "Connect first."
  const Ch2NotConfigured: string := "Configure channel 2 first."
  const ConnectKeysight: string := "Connect the Keysight 33522B first."
  const Ch1NotConfigured: string := "Configure Channel 1 before arming the trigger."

  /** Channel 1 waits for the bus trigger: always in the 2450 GUI, in burst mode elsewhere. */
  predicate Burst(v: Variant, fl: Flags) { v == Meas2450 || fl.ch1IsBurst }

  /** The channel-1 configuration of each file. */
  function Ch1Plan(v: Variant, e: Ch1Entries): Steps
  {
    match v
    case TriggerAndPulse => AmplitudePlan(e, WithMicro, Omega)
    case Meas2602 => AmplitudePlan(e, NoMicro, "Ohm")
    case Meas2450 => FixedLevelPlan(e)
  }

  /** Whether the channel-1 entries ask for a triggered burst. */
  predicate PlanBurst(v: Variant, e: Ch1Entries) { v == Meas2450 || IsBurstMode(e.mode) }

  function TriggerDelay(d: real): Command { Command(":TRIG1:DELay", [Num(Max(0.0, d))]) }

  // ---------------------------------------------------------------- the actions as functions

  /** `_ensure_ch1_output_on`: a configured channel 1 is switched on and armed; a failed write
      raises (value false). */
  function EnsureCh1Spec(fl: Flags, b: Bus): Step<bool>
  {
    if !fl.ch1Configured then Step(true, After(fl, b))
    else Step(Clean(b.faults, Arm1), After(if Clean(b.faults, Arm1) then fl.(ch1OutputOn := true) else fl, Put(b, Arm1)))
  }

  /** Writing a channel-1 plan: true when it completes, after which channel 1 is flagged
      configured and off in the given mode, and armed when that mode is a burst. */
  function Ch1Run(fl: Flags, plan: Steps, burst: bool, b: Bus): Step<bool>
  {
    var b1 := Put(b, plan.cmds);
    if !Clean(b.faults, plan.cmds) || plan.error.Some? then Step(false, After(fl, b1))
    else
      var fl1 := fl.(ch1Configured := true, ch1OutputOn := false, ch1IsBurst := burst);
      if burst then Step(true, EnsureCh1Spec(fl1, b1).after) else Step(true, After(fl1, b1))
  }

  /** `configure_ch1`: true when channel 1 ends up configured. */
  function Ch1Spec(v: Variant, fl: Flags, e: Ch1Entries, b: Bus): Step<bool>
  {
    if !fl.connected then Step(false, After(fl, b)) else Ch1Run(fl, Ch1Plan(v, e), PlanBurst(v, e), b)
  }

  /** Channel 2's commands, then the quiet channel-1 configuration and its arming. */
  function ConfigureRun(fl: Flags, cmds: seq<Command>, plan: Steps, burst: bool, b: Bus): Step<Option<string>>
  {
    if !Clean(b.faults, cmds) then Step(Some(VisaFailure), After(fl, Put(b, cmds)))
    else
      var c := Ch1Run(fl.(configured := true, outputOn := false), plan, burst, Put(b, cmds));
      if c.value then Step(None, EnsureCh1Spec(c.after.flags, c.after.bus).after) else Step(None, c.after)
  }

  /** `configure`: the message shown, if any.  Channel 2 is programmed and switched on, then
      flagged off; channel 1 is configured quietly and, when that worked, armed. */
  function ConfigureSpec(v: Variant, fl: Flags, c2: Ch2Form, e: Ch1Entries, b: Bus): Step<Option<string>>
  {
    if !fl.connected then Step(Some(ConnectFirst), After(fl, b))
    else match ReadCh2(c2.freq, c2.vpp, c2.cycles, c2.settle)
      case Err(m) => Step(Some(m), After(fl, b))
      case Ok(s) => ConfigureRun(fl, Ch2Setup(s, Ch2LowZero) + [Ch2On], Ch1Plan(v, e), PlanBurst(v, e), b)
  }

  /** `_set_ch1_trigger_delay`: only for a configured channel 1 waiting for the trigger; a
      failed write is swallowed. */
  function DelaySpec(v: Variant, fl: Flags, d: real, b: Bus): Bus
  {
    if !fl.ch1Configured || !Burst(v, fl) then b else Put(b, [TriggerDelay(d)])
  }

  /** `start_ch1_for_trigger`: the message raised, if any. */
  function StartCh1Spec(v: Variant, fl: Flags, b: Bus): Step<Option<string>>
  {
    if !fl.connected then Step(Some(ConnectKeysight), After(fl, b))
    else if !fl.ch1Configured then Step(Some(Ch1NotConfigured), After(fl, b))
    else if !Burst(v, fl) then Step(None, After(fl, b))
    else if Clean(b.faults, [Ch1On]) then Step(None, After(fl.(ch1OutputOn := true), Put(b, [Ch1On])))
    else Step(Some(VisaFailure), After(fl, Put(b, [Ch1On])))
  }

  /** The first steps of a fire: switch channel 2 on unless it already is. */
  function PrimeCh2(fl: Flags, b: Bus): Step<bool>
  {
    if fl.outputOn then Step(true, After(fl, b))
    else Step(Clean(b.faults, [Ch2On]), After(if Clean(b.faults, [Ch2On]) then fl.(outputOn := true) else fl, Put(b, [Ch2On])))
  }

  /** Then a configured channel 1 gets its delay and is armed. */
  function ArmCh1(v: Variant, fl: Flags, delay: real, b: Bus): Step<bool>
  {
    if !fl.ch1Configured then Step(true, After(fl, b)) else EnsureCh1Spec(fl, DelaySpec(v, fl, delay, b))
  }

  function FireEntriesOf(c2: Ch2Form): FireEntries { FireEntries(c2.cycles, c2.freq, c2.settle, c2.phaseDelay) }

  /** `fire_pulse`: Ok(dwell) when the burst was triggered and the automatic switch-off
      scheduled for `dwell` seconds later, else the message. */
  function FireSpec(v: Variant, fl: Flags, c2: Ch2Form, b: Bus): Step<Result<real>>
  {
    if !fl.configured then Step(Err(Ch2NotConfigured), After(fl, b))
    else match ReadFire(FireEntriesOf(c2))
      case Err(m) => Step(Err(m), After(fl, b))
      case Ok(t) =>
        var p := PrimeCh2(fl, b);
        if !p.value then Step(Err(VisaFailure), p.after)
        else
          var a := ArmCh1(v, p.after.flags, t.phaseDelay, p.after.bus);
          if !a.value then Step(Err(VisaFailure), a.after)
          else if Clean(a.after.bus.faults, Launch) then Step(Ok(t.dwell), After(a.after.flags, Put(a.after.bus, Launch)))
          else Step(Err(VisaFailure), After(a.after.flags, Put(a.after.bus, Launch)))
  }

  /** `_auto_off_after_fire`; a failed write is swallowed. */
  function AutoOffSpec(fl: Flags, b: Bus): After
  {
    if fl.configured && !fl.outputOn then After(fl, b)
    else if fl.outputOn then After(if Clean(b.faults, [Ch2Off]) then fl.(outputOn := false) else fl, Put(b, [Ch2Off]))
    else After(fl, b)
  }

  /** `stop`; a failed write is logged and leaves the flags. */
  function StopSpec(fl: Flags, b: Bus): After
  {
    After(if Clean(b.faults, StopCommands) then fl.(outputOn := false) else fl, Put(b, StopCommands))
  }

  function OnOff(header: string, on: bool): Command { Cmd(header + (if on then " ON" else " OFF")) }

  /** `toggle_output`: the flag flips only once the write went out. */
  function ToggleSpec(fl: Flags, b: Bus): After
  {
    if !fl.configured then After(fl, b)
    else
      var c := [OnOff(":OUTP2", !fl.outputOn)];
      After(if Clean(b.faults, c) then fl.(outputOn := !fl.outputOn) else fl, Put(b, c))
  }

  /** `toggle_ch1_output`. */
  function Ch1ToggleSpec(fl: Flags, b: Bus): After
  {
    if !fl.connected || !fl.ch1Configured then After(fl, b)
    else
      var c := [OnOff(":OUTP1", !fl.ch1OutputOn)];
      After(if Clean(b.faults, c) then fl.(ch1OutputOn := !fl.ch1OutputOn) else fl, Put(b, c))
  }

  // ---------------------------------------------------------------- what the actions promise

  /** Every channel-1 plan that writes nothing raises: it was refused before the first write. */
  lemma Ch1PlanEmptyRaises(v: Variant, e: Ch1Entries)
    ensures Ch1Plan(v, e).cmds == [] ==> Ch1Plan(v, e).error.Some?
  {
    match v
    case TriggerAndPulse => AmplitudePlanShape(e, WithMicro, Omega);
    case Meas2602 => AmplitudePlanShape(e, NoMicro, "Ohm");
    case Meas2450 => FixedLevelPlanShape(e);
  }

  lemma FixedLevelPlanShape(e: Ch1Entries)
    ensures FixedLevelPlan(e).error.None? ==> EndsIn(FixedLevelPlan(e).cmds, BurstTail(e, true))
  {
    match ReadLevels(e, false)
    case Err(_) =>
    case Ok(v) =>
      OffThenProgramming(Ch1Off, PanelHeaders, v.shape, LevelCommands(2.0, 0.0), Ch1Load(e.load, Omega),
        EdgePlan(PanelEdges(WithMicro), IsSeparate(e.edgeMode), Strip(e.lead), Strip(e.trail)), BurstTail(e, true));
  }

  /** A failed plan leaves every flag as it was, and a plan refused before its first write
      touches nothing. */
  lemma Ch1RunFailure(fl: Flags, plan: Steps, burst: bool, b: Bus)
    ensures !Ch1Run(fl, plan, burst, b).value ==> Ch1Run(fl, plan, burst, b).after.flags == fl
    ensures plan.cmds == [] && plan.error.Some? ==> Ch1Run(fl, plan, burst, b).after == After(fl, b)
  {
    if plan.cmds == [] {
      assert b.sent + plan.cmds == b.sent;
    }
  }

  /** A completed plan records its mode and leaves channel 2 alone; channel 1 stays off
      unless it was armed for a burst, which happens when those writes go out too. */
  lemma Ch1RunSuccess(fl: Flags, plan: Steps, burst: bool, b: Bus)
    requires Ch1Run(fl, plan, burst, b).value
    ensures var g := Ch1Run(fl, plan, burst, b).after.flags;
      g.ch1Configured && g.ch1IsBurst == burst && g.connected == fl.connected &&
      g.configured == fl.configured && g.outputOn == fl.outputOn
    ensures !burst ==> !Ch1Run(fl, plan, burst, b).after.flags.ch1OutputOn
    ensures burst && Clean(b.faults, plan.cmds + Arm1) ==>
      Ch1Run(fl, plan, burst, b).after == After(fl.(ch1Configured := true, ch1OutputOn := true, ch1IsBurst := true), Put(b, plan.cmds + Arm1))
  {
    PutThen(b, plan.cmds, Arm1);
  }

  /** The same, for each panel's own `configure_ch1`. */
  lemma Ch1Outcome(v: Variant, fl: Flags, e: Ch1Entries, b: Bus)
    ensures !Ch1Spec(v, fl, e, b).value ==> Ch1Spec(v, fl, e, b).after.flags == fl
    ensures fl.connected && Ch1Plan(v, e).cmds == [] ==> Ch1Spec(v, fl, e, b).after == After(fl, b)
    ensures Ch1Spec(v, fl, e, b).value ==> Ch1Spec(v, fl, e, b).after.flags.ch1IsBurst == PlanBurst(v, e)
    ensures Ch1Spec(v, fl, e, b).value && !PlanBurst(v, e) ==> !Ch1Spec(v, fl, e, b).after.flags.ch1OutputOn
  {
    if fl.connected {
      Ch1PlanEmptyRaises(v, e);
      Ch1RunFailure(fl, Ch1Plan(v, e), PlanBurst(v, e), b);
      if Ch1Spec(v, fl, e, b).value {
        Ch1RunSuccess(fl, Ch1Plan(v, e), PlanBurst(v, e), b);
      }
    }
  }

  lemma EnsureGrows(fl: Flags, b: Bus)
    ensures LogPrefix(EnsureCh1Spec(fl, b).after.bus.sent, b.sent)
  {
    PutGrows(b, Arm1);
    assert LogPrefix(b.sent, b.sent);
  }

  lemma Ch1RunGrows(fl: Flags, plan: Steps, burst: bool, b: Bus)
    ensures LogPrefix(Ch1Run(fl, plan, burst, b).after.bus.sent, b.sent)
  {
    PutGrows(b, plan.cmds);
    var fl1 := fl.(ch1Configured := true, ch1OutputOn := false, ch1IsBurst := burst);
    EnsureGrows(fl1, Put(b, plan.cmds));
    PrefixTrans(b.sent, Put(b, plan.cmds).sent, EnsureCh1Spec(fl1, Put(b, plan.cmds)).after.bus.sent);
  }

  lemma ConfigureRunOff(fl: Flags, cmds: seq<Command>, plan: Steps, burst: bool, b: Bus)
    requires ConfigureRun(fl, cmds, plan, burst, b).value.None?
    ensures ConfigureRun(fl, cmds, plan, burst, b).after.flags.configured
    ensures !ConfigureRun(fl, cmds, plan, burst, b).after.flags.outputOn
    ensures LogPrefix(ConfigureRun(fl, cmds, plan, burst, b).after.bus.sent, b.sent + cmds)
  {
    var fl1 := fl.(configured := true, outputOn := false);
    var b1 := Put(b, cmds);
    Ch1RunGrows(fl1, plan, burst, b1);
    var c := Ch1Run(fl1, plan, burst, b1);
    if c.value {
      Ch1RunSuccess(fl1, plan, burst, b1);
      EnsureGrows(c.after.flags, c.after.bus);
      PrefixTrans(b1.sent, c.after.bus.sent, EnsureCh1Spec(c.after.flags, c.after.bus).after.bus.sent);
    } else {
      Ch1RunFailure(fl1, plan, burst, b1);
    }
  }

  /** A successful `configure` leaves channel 2 flagged off although its last command switched
      the output on. */
  lemma ConfigureFlagsOutputOff(v: Variant, fl: Flags, c2: Ch2Form, e: Ch1Entries, b: Bus)
    requires ConfigureSpec(v, fl, c2, e, b).value.None?
    ensures ReadCh2(c2.freq, c2.vpp, c2.cycles, c2.settle).Ok?
    ensures ConfigureSpec(v, fl, c2, e, b).after.flags.configured
    ensures !ConfigureSpec(v, fl, c2, e, b).after.flags.outputOn
    ensures var s := ReadCh2(c2.freq, c2.vpp, c2.cycles, c2.settle).value;
      LogPrefix(ConfigureSpec(v, fl, c2, e, b).after.bus.sent, b.sent + Ch2Setup(s, Ch2LowZero) + [Ch2On])
  {
    var s := ReadCh2(c2.freq, c2.vpp, c2.cycles, c2.settle).value;
    ConfigureRunOff(fl, Ch2Setup(s, Ch2LowZero) + [Ch2On], Ch1Plan(v, e), PlanBurst(v, e), b);
    assert b.sent + (Ch2Setup(s, Ch2LowZero) + [Ch2On]) == b.sent + Ch2Setup(s, Ch2LowZero) + [Ch2On];
  }

  /** Refused channel-2 entries show their message and touch nothing. */
  lemma ConfigureRefused(v: Variant, fl: Flags, c2: Ch2Form, e: Ch1Entries, b: Bus)
    requires fl.connected && ReadCh2(c2.freq, c2.vpp, c2.cycles, c2.settle).Err?
    ensures ConfigureSpec(v, fl, c2, e, b) == Step(Some(ReadCh2(c2.freq, c2.vpp, c2.cycles, c2.settle).msg), After(fl, b))
  {
  }

  /** The trigger delay is never negative, and there is none for a continuous channel 1. */
  lemma DelayClamped(v: Variant, fl: Flags, d: real, b: Bus)
    ensures fl.ch1Configured && Burst(v, fl) && Clean(b.faults, [TriggerDelay(d)]) ==>
      DelaySpec(v, fl, d, b).sent == b.sent + [Command(":TRIG1:DELay", [Num(if d < 0.0 then 0.0 else d)])]
    ensures !Burst(v, fl) ==> DelaySpec(v, fl, d, b) == b
  {
  }

  /** Arming in continuous mode is a no-op; otherwise it needs a connection and a channel-1
      configuration. */
  lemma StartCh1Guards(v: Variant, fl: Flags, b: Bus)
    ensures fl.connected && fl.ch1Configured && !Burst(v, fl) ==> StartCh1Spec(v, fl, b) == Step(None, After(fl, b))
    ensures v == Meas2450 && fl.connected && fl.ch1Configured && Clean(b.faults, [Ch1On]) ==>
      StartCh1Spec(v, fl, b).after.flags.ch1OutputOn
    ensures StartCh1Spec(v, fl, b).value.Some? ==> StartCh1Spec(v, fl, b).after.flags == fl
  {
  }

  /** A fire with refused entries, or before channel 2 is configured, writes nothing. */
  lemma FireRefused(v: Variant, fl: Flags, c2: Ch2Form, b: Bus)
    requires !fl.configured || ReadFire(FireEntriesOf(c2)).Err?
    ensures FireSpec(v, fl, c2, b).after == After(fl, b) && FireSpec(v, fl, c2, b).value.Err?
  {
  }

  /** A triggered burst leaves channel 2 on, ends with the trigger commands, and schedules the
      switch-off after the dwell of the entries. */
  lemma FireLaunches(v: Variant, fl: Flags, c2: Ch2Form, b: Bus)
    requires FireSpec(v, fl, c2, b).value.Ok?
    ensures ReadFire(FireEntriesOf(c2)).Ok?
    ensures FireSpec(v, fl, c2, b).value.value == ReadFire(FireEntriesOf(c2)).value.dwell
    ensures FireSpec(v, fl, c2, b).after.flags.outputOn && FireSpec(v, fl, c2, b).after.flags.configured
    ensures EndsIn(FireSpec(v, fl, c2, b).after.bus.sent, Launch)
  {
    var a := FireSpec(v, fl, c2, b).after;
    assert a.bus.sent[|a.bus.sent| - 2..] == Launch;
  }

  /** The guard on a configured channel 2 whose output is off adds nothing: the automatic
      switch-off writes exactly when the output is flagged on, and then turns the flag off. */
  lemma AutoOffOnlyWhenOn(fl: Flags, b: Bus)
    ensures !fl.outputOn ==> AutoOffSpec(fl, b) == After(fl, b)
    ensures fl.outputOn ==> AutoOffSpec(fl, b).bus == Put(b, [Ch2Off])
    ensures fl.outputOn && Clean(b.faults, [Ch2Off]) ==> !AutoOffSpec(fl, b).flags.outputOn
  {
  }

  /** After a successful fire and a clean switch-off, channel 2 is off again. */
  lemma FireThenAutoOff(v: Variant, fl: Flags, c2: Ch2Form, b: Bus)
    requires FireSpec(v, fl, c2, b).value.Ok?
    requires Clean(FireSpec(v, fl, c2, b).after.bus.faults, [Ch2Off])
    ensures var f := FireSpec(v, fl, c2, b).after;
      !AutoOffSpec(f.flags, f.bus).flags.outputOn && AutoOffSpec(f.flags, f.bus).bus.sent == f.bus.sent + [Ch2Off]
  {
    FireLaunches(v, fl, c2, b);
  }

  /** Two toggles whose writes go out restore channel 2's flag; a toggle whose write raises
      leaves it. */
  lemma ToggleTwice(fl: Flags, b: Bus)
    requires fl.configured
    requires !FirstSet(b.faults) && !FirstSet(DropFirst(b.faults))
    ensures ToggleSpec(ToggleSpec(fl, b).flags, ToggleSpec(fl, b).bus).flags == fl
    ensures ToggleSpec(ToggleSpec(fl, b).flags, ToggleSpec(fl, b).bus).bus.sent ==
      b.sent + [OnOff(":OUTP2", !fl.outputOn), OnOff(":OUTP2", fl.outputOn)]
  {
    var c := [OnOff(":OUTP2", !fl.outputOn)];
    assert Sent(b.faults, c) == 1;
    assert ToggleSpec(fl, b).bus.faults == DropN(b.faults, 1);
    assert DropN(b.faults, 1) == DropFirst(b.faults);
  }

  lemma ToggleBlocked(fl: Flags, b: Bus)
    requires FirstSet(b.faults)
    ensures ToggleSpec(fl, b).flags == fl && ToggleSpec(fl, b).bus.sent == b.sent
    ensures Ch1ToggleSpec(fl, b).flags == fl && Ch1ToggleSpec(fl, b).bus.sent == b.sent
  {
  }

  /** `stop` switches channel 2 off whenever its three writes go out. */
  lemma StopSwitchesOff(fl: Flags, b: Bus)
    requires Clean(b.faults, StopCommands)
    ensures StopSpec(fl, b) == After(fl.(outputOn := false), Bus(b.sent + StopCommands, Put(b, StopCommands).faults))
  {
  }

  // ---------------------------------------------------------------- the panel

  class PulsePanel {
    const variant: Variant
    var inst: Instrument?
    var state: Flags

    /** The panel as `connect` leaves it: connected exactly when it has an instrument, nothing
        configured, and channel 1 taken for a burst as `__init__` sets it. */
    constructor (v: Variant, i: Instrument?)
      ensures variant == v && inst == i
      ensures state == Flags(i != null, false, false, false, false, true)
    {
      variant := v;
      inst := i;
      state := Flags(i != null, false, false, false, false, true);
    }

    function Wire(): Bus
      reads this, inst
      requires inst != null
    {
      Bus(inst.written, inst.faults)
    }

    /** The panel's flags and its instrument's bus are `a`. */
    predicate Reached(a: After)
      reads this, inst
    {
      inst != null && state == a.flags && inst.written == a.bus.sent && inst.faults == a.bus.faults
    }

    method Emit(cmds: seq<Command>) returns (ok: bool)
      requires inst != null
      modifies inst
      ensures ok == Clean(old(inst.faults), cmds)
      ensures inst.written == Put(old(Wire()), cmds).sent && inst.faults == Put(old(Wire()), cmds).faults
    {
      ok := Send(inst, cmds);
    }

    method EnsureCh1OutputOn() returns (ok: bool)
      modifies this, inst
      ensures inst == old(inst)
      ensures old(inst) == null ==> ok && state == old(state)
      ensures old(inst) != null ==> ok == EnsureCh1Spec(old(state), old(Wire())).value && Reached(EnsureCh1Spec(old(state), old(Wire())).after)
    {
      ok := true;
      if inst == null || !state.ch1Configured {
        return;
      }
      ok := Emit(Arm1);
      if ok {
        state := state.(ch1OutputOn := true);
      }
    }

    method ConfigureCh1(e: Ch1Entries) returns (ok: bool)
      modifies this, inst
      ensures inst == old(inst)
      ensures old(inst) == null ==> !ok && state == old(state)
      ensures old(inst) != null ==> ok == Ch1Spec(variant, old(state), e, old(Wire())).value && Reached(Ch1Spec(variant, old(state), e, old(Wire())).after)
    {
      if !state.connected || inst == null {
        return false;
      }
      var plan := Ch1Plan(variant, e);
      ok := Emit(plan.cmds);
      if !ok || plan.error.Some? {
        return false;
      }
      state := state.(ch1Configured := true, ch1OutputOn := false, ch1IsBurst := PlanBurst(variant, e));
      if PlanBurst(variant, e) {
        var _ := EnsureCh1OutputOn();
      }
    }

    method Configure(c2: Ch2Form, e: Ch1Entries) returns (shown: Option<string>)
      modifies this, inst
      ensures inst == old(inst)
      ensures old(inst) == null ==> shown == Some(ConnectFirst) && state == old(state)
      ensures old(inst) != null ==> shown == ConfigureSpec(variant, old(state), c2, e, old(Wire())).value && Reached(ConfigureSpec(variant, old(state), c2, e, old(Wire())).after)
    {
      if !state.connected || inst == null {
        return Some(ConnectFirst);
      }
      var s := ReadCh2(c2.freq, c2.vpp, c2.cycles, c2.settle);
      if s.Err? {
        return Some(s.msg);
      }
      var ok := Emit(Ch2Setup(s.value, Ch2LowZero) + [Ch2On]);
      if !ok {
        return Some(VisaFailure);
      }
      state := state.(configured := true, outputOn := false);
      shown := None;
      var ch1 := ConfigureCh1(e);
      if ch1 {
        var _ := EnsureCh1OutputOn();
      }
    }

    method SetCh1TriggerDelay(d: real)
      modifies this, inst
      ensures inst == old(inst)
      ensures old(inst) == null ==> state == old(state)
      ensures old(inst) != null ==> Reached(After(old(state), DelaySpec(variant, old(state), d, old(Wire()))))
    {
      if inst == null || !state.ch1Configured || !Burst(variant, state) {
        return;
      }
      var _ := Emit([TriggerDelay(d)]);
    }

    method StartCh1ForTrigger() returns (raised: Option<string>)
      modifies this, inst
      ensures inst == old(inst)
      ensures old(inst) == null ==> raised == Some(ConnectKeysight) && state == old(state)
      ensures old(inst) != null ==> raised == StartCh1Spec(variant, old(state), old(Wire())).value && Reached(StartCh1Spec(variant, old(state), old(Wire())).after)
    {
      if inst == null || !state.connected {
        return Some(ConnectKeysight);
      }
      if !state.ch1Configured {
        return Some(Ch1NotConfigured);
      }
      if !Burst(variant, state) {
        return None;
      }
      var ok := Emit([Ch1On]);
      if !ok {
        return Some(VisaFailure);
      }
      state := state.(ch1OutputOn := true);
      raised := None;
    }

    method FirePulse(c2: Ch2Form) returns (r: Result<real>)
      modifies this, inst
      ensures inst == old(inst)
      ensures old(inst) == null ==> r == Err(Ch2NotConfigured) && state == old(state)
      ensures old(inst) != null ==> r == FireSpec(variant, old(state), c2, old(Wire())).value && Reached(FireSpec(variant, old(state), c2, old(Wire())).after)
    {
      if !state.configured || inst == null {
        return Err(Ch2NotConfigured);
      }
      var t := ReadFire(FireEntriesOf(c2));
      if t.Err? {
        return Err(t.msg);
      }
      if !state.outputOn {
        var ok := Emit([Ch2On]);
        if !ok {
          return Err(VisaFailure);
        }
        state := state.(outputOn := true);
      }
      if state.ch1Configured {
        SetCh1TriggerDelay(t.value.phaseDelay);
        var ok := EnsureCh1OutputOn();
        if !ok {
          return Err(VisaFailure);
        }
      }
      var ok := Emit(Launch);
      r := if ok then Ok(t.value.dwell) else Err(VisaFailure);
    }

    method AutoOffAfterFire()
      modifies this, inst
      ensures inst == old(inst)
      ensures old(inst) == null ==> state == old(state)
      ensures old(inst) != null ==> Reached(AutoOffSpec(old(state), old(Wire())))
    {
      if state.configured && !state.outputOn {
        return;
      }
      if inst != null && state.outputOn {
        var ok := Emit([Ch2Off]);
        if ok {
          state := state.(outputOn := false);
        }
      }
    }

    method Stop()
      modifies this, inst
      ensures inst == old(inst)
      ensures old(inst) == null ==> state == old(state)
      ensures old(inst) != null ==> Reached(StopSpec(old(state), old(Wire())))
    {
      if inst == null {
        return;
      }
      var ok := Emit(StopCommands);
      if ok {
        state := state.(outputOn := false);
      }
    }

    method ToggleOutput()
      modifies this, inst
      ensures inst == old(inst)
      ensures old(inst) == null ==> state == old(state)
      ensures old(inst) != null ==> Reached(ToggleSpec(old(state), old(Wire())))
    {
      if inst == null || !state.configured {
        return;
      }
      var desired := !state.outputOn;
      var ok := Emit([OnOff(":OUTP2", desired)]);
      if ok {
        state := state.(outputOn := desired);
      }
    }

    method ToggleCh1Output()
      modifies this, inst
      ensures inst == old(inst)
      ensures old(inst) == null ==> state == old(state)
      ensures old(inst) != null ==> Reached(Ch1ToggleSpec(old(state), old(Wire())))
    {
      if inst == null || !state.connected || !state.ch1Configured {
        return;
      }
      var desired := !state.ch1OutputOn;
      var ok := Emit([OnOff(":OUTP1", desired)]);
      if ok {
        state := state.(ch1OutputOn := desired);
      }
    }
  }
}
