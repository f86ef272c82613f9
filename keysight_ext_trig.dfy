/** The 33522B external-trigger GUI: channel 2 is a bus-triggered square-wave burst fired
    from the panel, channel 1 an independent pulse.  Every instrument access goes through a
    guard that the session is open; firing re-sends only the channel-2 settings that changed
    since the last configuration or fire. */
module KeysightExtTrig {
  import opened Outcome
  import opened PyText
  import opened Channel
  import opened WriteSequence
  import opened KeysightFields

  datatype ExtFlags = ExtFlags(connected: bool, configured: bool, outputOn: bool, ch1OutputOn: bool, ch1Configured: bool)

  /** The channel-2 settings last programmed (`last_freq` … `last_settle`). */
  datatype LastValues = LastValues(freq: Option<real>, vpp: Option<real>, cycles: Option<int>, settle: Option<real>)

  const Cleared: ExtFlags := ExtFlags(false, false, false, false, false)
  const NoLast: LastValues := LastValues(None, None, None, None)

  /** Everything the panel keeps. */
  datatype Panel = Panel(flags: ExtFlags, last: LastValues)

  /** An action's result, with the panel and bus it leaves. */
  datatype Done<T> = Done(value: T, panel: Panel, bus: Bus)

  /** The channel-2 entries. */
  datatype ExtForm = ExtForm(freq: string, vpp: string, cycles: string, settle: string)

  const NotConnected: string := "Instrument is not connected."
  const EnterAddress: string := "Enter a VISA address."
  const QueryUnknown: string := "Query failed for unknown reasons."
  const AmplitudeExceeds: string := "Amplitude exceeds 10 Vpp. Reduce value to stay within instrument limits."
  const FireUnconfigured: string := "Configure channel 2 first."

  const Ch2On: Command := Cmd(":OUTP2 ON")
  const Ch2Off: Command := Cmd(":OUTP2 OFF")
  const Launch: seq<Command> := [Cmd(":INIT2:IMM"), Cmd("*TRG")]
  const Ch2Disable: seq<Command> := [Cmd(":SOUR2:BURSt:STAT OFF"), Cmd(":TRIG2:SOUR BUS"), Cmd(":INIT2:CONT OFF")]
  const LowZeroPoint: Command := Command(":SOUR2:VOLT:LOW", [Num(0.0)])

  // ---------------------------------------------------------------- the channel-2 entries

  /** The four channel-2 entries in order, each with its own message; `configure` also
      enforces the 10 Vpp limit, `fire_pulse` does not. */
  function ReadExtCh2(f: ExtForm, limited: bool): (r: Result<Ch2>)
    ensures r.Ok? ==> r.value.freq > 0.0 && r.value.vpp > 0.0 && r.value.cycles >= 1 && r.value.settle > 0.0
    ensures r.Ok? ==>
      ParseReal(f.freq) == Some(r.value.freq) && ParseReal(f.vpp) == Some(r.value.vpp) &&
      ParseInt(f.cycles) == Some(r.value.cycles) && ParseReal(f.settle) == Some(r.value.settle)
    ensures r.Ok? && limited ==> r.value.vpp <= 10.0
    ensures !IsReal(f.freq) ==> r == Err(MustBeANumber("Frequency"))
  {
    match PositiveField(f.freq, MustBeANumber("Frequency"), "Frequency")
    case Err(m) => Err(m)
    case Ok(freq) =>
    match PositiveField(f.vpp, MustBeANumber("Amplitude"), "Amplitude")
    case Err(m) => Err(m)
    case Ok(vpp) =>
    match DirectIntField(f.cycles, "Burst cycles")
    case Err(m) => Err(m)
    case Ok(cycles) =>
    match PositiveField(f.settle, MustBeANumber("Settle factor"), "Settle factor")
    case Err(m) => Err(m)
    case Ok(settle) =>
      if limited && vpp > 10.0 then Err(AmplitudeExceeds) else Ok(Ch2(freq, vpp, cycles, settle))
  }

  /** The two readings agree except on amplitudes above 10 Vpp, which only `configure` refuses. */
  lemma ExtReadingsAgree(f: ExtForm)
    ensures ReadExtCh2(f, true).Ok? ==> ReadExtCh2(f, false) == ReadExtCh2(f, true)
    ensures ReadExtCh2(f, false).Ok? && ReadExtCh2(f, false).value.vpp > 10.0 ==> ReadExtCh2(f, true) == Err(AmplitudeExceeds)
    ensures ReadExtCh2(f, false).Err? ==> ReadExtCh2(f, true) == ReadExtCh2(f, false)
  {
  }

  /** `abs(x - (last or inf)) > 1e-9`: a missing (or zero) last value always counts as changed. */
  predicate Differs(last: Option<real>, x: real) { last.None? || last.value == 0.0 || Abs(x - last.value) > 0.000000001 }

  /** `cycles != (last_cycles or None)`. */
  predicate CyclesDiffer(last: Option<int>, n: int) { last.None? || last.value == 0 || n != last.value }

  /** The channel-2 commands `fire_pulse` re-sends for the settings that changed. */
  function ChangeCommands(last: LastValues, s: Ch2): seq<Command>
  {
    (if Differs(last.freq, s.freq) then [Command(":SOUR2:FREQ", [Num(s.freq)]), Command(":SOUR2:BURSt:NCYC", [Whole(s.cycles)])] else []) +
    (if Differs(last.vpp, s.vpp) then [Ch2LowZero, Command(":SOUR2:VOLT:HIGH", [Num(s.vpp)]), Command(":SOUR2:VOLT:OFFS", [Num(s.vpp / 2.0)])] else []) +
    (if CyclesDiffer(last.cycles, s.cycles) then [Command(":SOUR2:BURSt:NCYC", [Whole(s.cycles)])] else [])
  }

  function Remember(s: Ch2): LastValues { LastValues(Some(s.freq), Some(s.vpp), Some(s.cycles), Some(s.settle)) }

  /** Firing again with the settings just programmed re-sends nothing. */
  lemma SameSettingsResendNothing(s: Ch2)
    ensures ChangeCommands(Remember(s), s) == [] || s.freq == 0.0 || s.vpp == 0.0 || s.cycles == 0
  {
  }

  /** The first fire after connecting re-sends all of channel 2's settings. */
  lemma FirstFireSendsAll(s: Ch2)
    ensures ChangeCommands(NoLast, s) ==
      [Command(":SOUR2:FREQ", [Num(s.freq)]), Command(":SOUR2:BURSt:NCYC", [Whole(s.cycles)]), Ch2LowZero,
       Command(":SOUR2:VOLT:HIGH", [Num(s.vpp)]), Command(":SOUR2:VOLT:OFFS", [Num(s.vpp / 2.0)]),
       Command(":SOUR2:BURSt:NCYC", [Whole(s.cycles)])]
  {
  }

  /** A frequency nudged by no more than 1e-9 Hz is not re-sent. */
  lemma TinyFrequencyChangeIgnored(s: Ch2, last: real)
    requires last != 0.0 && Abs(s.freq - last) <= 0.000000001
    ensures !Differs(Some(last), s.freq)
  {
  }

  // ---------------------------------------------------------------- the actions as functions

  /** `configure`: the message shown, if any. */
  function ConfigureSpec(p: Panel, f: ExtForm, b: Bus): Done<Option<string>>
  {
    if !p.flags.connected then Done(Some(NotConnected), p, b)
    else match ReadExtCh2(f, true)
      case Err(m) => Done(Some(m), p, b)
      case Ok(s) =>
        var cmds := Ch2Setup(s, LowZeroPoint) + [Ch2Off];
        if !Clean(b.faults, cmds) then Done(Some(VisaFailure), p, Put(b, cmds))
        else Done(None, Panel(p.flags.(outputOn := false, connected := true, configured := true), Remember(s)), Put(b, cmds))
  }

  /** `configure_ch1`. */
  function Ch1Spec(p: Panel, e: Ch1Entries, b: Bus): Done<Option<string>>
  {
    if !p.flags.connected then Done(Some(NotConnected), p, b)
    else
      var plan := ExtLevelPlan(e);
      if !Clean(b.faults, plan.cmds) then Done(Some(VisaFailure), p, Put(b, plan.cmds))
      else if plan.error.Some? then Done(plan.error, p, Put(b, plan.cmds))
      else Done(None, p.(flags := p.flags.(ch1Configured := true, ch1OutputOn := false)), Put(b, plan.cmds))
  }

  /** The pause after the trigger: `max(0.01, cycles / freq * settle)`. */
  function ExtDwell(s: Ch2): (w: real)
    requires s.freq > 0.0
    ensures w >= 0.01 && w >= s.cycles as real / s.freq * s.settle
  {
    Max(0.01, s.cycles as real / s.freq * s.settle)
  }

  /** The trigger, bracketed by switching channel 2 on (always written) and, when it was off
      before, off again after the dwell. */
  function TriggerCommands(wasOn: bool): seq<Command>
  {
    [Ch2On] + Launch + (if wasOn then [] else [Ch2Off])
  }

  /** The trigger as `fire_pulse` writes it, one write at a time, stopping at the first
      failure: the output flag turns on after the first write when it was off, and off again
      only once the closing write has gone out. */
  function Trigger(p: Panel, b: Bus): Done<bool>
  {
    var wasOn := p.flags.outputOn;
    if !Clean(b.faults, [Ch2On]) then Done(false, p, Put(b, [Ch2On]))
    else
      var b2 := Put(b, [Ch2On]);
      var p2 := p.(flags := p.flags.(outputOn := true));
      if !Clean(b2.faults, Launch) then Done(false, p2, Put(b2, Launch))
      else if wasOn then Done(true, p2, Put(b2, Launch))
      else
        var b3 := Put(b2, Launch);
        if !Clean(b3.faults, [Ch2Off]) then Done(false, p2, Put(b3, [Ch2Off]))
        else Done(true, p2.(flags := p2.flags.(outputOn := false)), Put(b3, [Ch2Off]))
  }

  /** A trigger that completes leaves the panel as it found it and writes the whole sequence. */
  lemma TriggerSucceeds(p: Panel, b: Bus)
    requires Trigger(p, b).value
    ensures Trigger(p, b).panel == p
    ensures Trigger(p, b).bus.sent == b.sent + TriggerCommands(p.flags.outputOn)
  {
    var b2 := Put(b, [Ch2On]);
    var b3 := Put(b2, Launch);
    if p.flags.outputOn {
      assert b3.sent == b.sent + TriggerCommands(true);
    } else {
      assert Put(b3, [Ch2Off]).sent == b.sent + TriggerCommands(false);
    }
  }

  /** `fire_pulse`: Ok(dwell) when it slept through the dwell and finished, else the message. */
  function FireSpec(p: Panel, f: ExtForm, b: Bus): Done<Result<real>>
  {
    if !p.flags.connected then Done(Err(NotConnected), p, b)
    else if !p.flags.configured then Done(Err(FireUnconfigured), p, b)
    else match ReadExtCh2(f, false)
      case Err(m) => Done(Err(m), p, b)
      case Ok(s) =>
        var changes := ChangeCommands(p.last, s);
        if !Clean(b.faults, changes) then Done(Err(VisaFailure), p, Put(b, changes))
        else
          var d := Trigger(p.(last := Remember(s)), Put(b, changes));
          Done(if d.value then Ok(ExtDwell(s)) else Err(VisaFailure), d.panel, d.bus)
  }

  /** `stop`: once channel 2's output is off the flag follows; once the burst is disabled too,
      channel 2 needs configuring again. */
  function StopSpec(p: Panel, b: Bus): Done<Option<string>>
  {
    if !p.flags.connected then Done(None, p, b)
    else if !Clean(b.faults, [Ch2Off]) then Done(Some(VisaFailure), p, Put(b, [Ch2Off]))
    else
      var b1 := Put(b, [Ch2Off]);
      var fl := p.flags.(outputOn := false);
      if !Clean(b1.faults, Ch2Disable) then Done(Some(VisaFailure), p.(flags := fl), Put(b1, Ch2Disable))
      else Done(None, p.(flags := fl.(configured := false)), Put(b1, Ch2Disable))
  }

  function OnOff(header: string, on: bool): Command { Cmd(header + (if on then " ON" else " OFF")) }

  /** `toggle_output`. */
  function ToggleSpec(p: Panel, b: Bus): Done<bool>
  {
    if !p.flags.connected || !p.flags.configured then Done(true, p, b)
    else
      var c := [OnOff(":OUTP2", !p.flags.outputOn)];
      Done(Clean(b.faults, c), if Clean(b.faults, c) then p.(flags := p.flags.(outputOn := !p.flags.outputOn)) else p, Put(b, c))
  }

  /** `toggle_ch1_output`. */
  function Ch1ToggleSpec(p: Panel, b: Bus): Done<bool>
  {
    if !p.flags.connected || !p.flags.ch1Configured then Done(true, p, b)
    else
      var c := [OnOff(":OUTP1", !p.flags.ch1OutputOn)];
      Done(Clean(b.faults, c), if Clean(b.faults, c) then p.(flags := p.flags.(ch1OutputOn := !p.flags.ch1OutputOn)) else p, Put(b, c))
  }

  /** The enabled buttons after `_set_button_states(connected, configured)`. */
  datatype Buttons = Buttons(connect: bool, disconnect: bool, configure: bool, fire: bool, stop: bool, toggle: bool,
                             ch1Configure: bool, ch1Toggle: bool, ch1Query: bool)

  function ButtonStates(connected: bool, configured: bool, ch1Configured: bool): (r: Buttons)
    ensures r.connect == !connected && r.disconnect == connected
    ensures r.fire == configured && r.stop == configured && r.toggle == configured
    ensures r.ch1Toggle <==> connected && ch1Configured
  {
    Buttons(!connected, connected, connected, configured, configured, configured, connected, connected && ch1Configured, connected)
  }

  // ---------------------------------------------------------------- what the actions promise

  /** A refused configuration writes nothing and changes nothing. */
  lemma ConfigureRefused(p: Panel, f: ExtForm, b: Bus)
    requires ReadExtCh2(f, true).Err?
    ensures ConfigureSpec(p, f, b).panel == p && ConfigureSpec(p, f, b).bus == b && ConfigureSpec(p, f, b).value.Some?
  {
  }

  /** A completed configuration programs zero to vpp about vpp/2, leaves the output off and
      remembers the settings. */
  lemma ConfigureProgramsSpan(p: Panel, f: ExtForm, b: Bus)
    requires ConfigureSpec(p, f, b).value.None?
    ensures ReadExtCh2(f, true).Ok?
    ensures var s := ReadExtCh2(f, true).value;
      ConfigureSpec(p, f, b).bus.sent == b.sent + Ch2Setup(s, LowZeroPoint) + [Ch2Off] &&
      ConfigureSpec(p, f, b).panel.last == Remember(s) && s.vpp <= 10.0
    ensures ConfigureSpec(p, f, b).panel.flags.configured && !ConfigureSpec(p, f, b).panel.flags.outputOn
  {
    var s := ReadExtCh2(f, true).value;
    assert b.sent + (Ch2Setup(s, LowZeroPoint) + [Ch2Off]) == b.sent + Ch2Setup(s, LowZeroPoint) + [Ch2Off];
  }

  /** A completed fire leaves the output as it found it, and remembers the settings fired. */
  lemma FireRestoresOutput(p: Panel, f: ExtForm, b: Bus)
    requires FireSpec(p, f, b).value.Ok?
    ensures FireSpec(p, f, b).panel.flags == p.flags
    ensures ReadExtCh2(f, false).Ok? && FireSpec(p, f, b).panel.last == Remember(ReadExtCh2(f, false).value)
    ensures FireSpec(p, f, b).bus.sent == b.sent + ChangeCommands(p.last, ReadExtCh2(f, false).value) + TriggerCommands(p.flags.outputOn)
  {
    var s := ReadExtCh2(f, false).value;
    TriggerSucceeds(p.(last := Remember(s)), Put(b, ChangeCommands(p.last, s)));
  }

  /** A fire that fails part-way through the trigger leaves the output flagged on exactly when
      the switch-on went out; the settings it sent are remembered. */
  lemma FireFailureFlag(p: Panel, f: ExtForm, b: Bus)
    requires p.flags.connected && p.flags.configured && ReadExtCh2(f, false).Ok?
    requires Clean(b.faults, ChangeCommands(p.last, ReadExtCh2(f, false).value))
    requires FireSpec(p, f, b).value.Err?
    ensures FireSpec(p, f, b).panel.flags.outputOn <==>
      p.flags.outputOn || !FirstSet(Put(b, ChangeCommands(p.last, ReadExtCh2(f, false).value)).faults)
    ensures FireSpec(p, f, b).panel.last == Remember(ReadExtCh2(f, false).value)
  {
    var b1 := Put(b, ChangeCommands(p.last, ReadExtCh2(f, false).value));
    assert Clean(b1.faults, [Ch2On]) <==> !FirstSet(b1.faults);
  }

  /** A write that fails while the changed settings go out keeps the old last values. */
  lemma FireKeepsLastOnFailure(p: Panel, f: ExtForm, b: Bus)
    requires p.flags.connected && p.flags.configured && ReadExtCh2(f, false).Ok?
    requires !Clean(b.faults, ChangeCommands(p.last, ReadExtCh2(f, false).value))
    ensures FireSpec(p, f, b).panel == p && FireSpec(p, f, b).value == Err(VisaFailure)
  {
  }

  /** With the output already on, firing never switches it off. */
  lemma FireKeepsOutputOn(p: Panel, f: ExtForm, b: Bus)
    requires p.flags.outputOn
    ensures FireSpec(p, f, b).panel.flags.outputOn
  {
  }

  /** When a button is enabled, the action behind it gets past its own guard. */
  lemma ButtonsMatchGuards(fl: ExtFlags)
    requires fl.configured ==> fl.connected
    ensures ButtonStates(fl.connected, fl.configured, fl.ch1Configured).fire ==> fl.connected && fl.configured
    ensures ButtonStates(fl.connected, fl.configured, fl.ch1Configured).ch1Toggle ==> fl.connected && fl.ch1Configured
    ensures ButtonStates(fl.connected, fl.configured, fl.ch1Configured).connect != ButtonStates(fl.connected, fl.configured, fl.ch1Configured).disconnect
  {
  }

  /** Two clean toggles restore channel 2's flag. */
  lemma ToggleTwice(p: Panel, b: Bus)
    requires p.flags.connected && p.flags.configured
    requires !FirstSet(b.faults) && !FirstSet(DropFirst(b.faults))
    ensures ToggleSpec(ToggleSpec(p, b).panel, ToggleSpec(p, b).bus).panel == p
  {
    var c := [OnOff(":OUTP2", !p.flags.outputOn)];
    assert Sent(b.faults, c) == 1;
    assert DropN(b.faults, 1) == DropFirst(b.faults);
  }

  // ---------------------------------------------------------------- query retries

  /** The session as the retry loop sees it. */
  datatype Link = Link(written: seq<Command>, faults: seq<bool>, pending: seq<ReadOutcome>, readTimeouts: seq<int>)

  /** One `inst.query`: a failed write answers with an error and reads nothing. */
  function QueryOnce(w: Link, c: Command, timeout: int): (ReadOutcome, Link)
  {
    if FirstSet(w.faults) then (OtherError, w.(faults := DropFirst(w.faults)))
    else (NextRead(w.pending), Link(w.written + [c], DropFirst(w.faults), AfterRead(w.pending), w.readTimeouts + [timeout]))
  }

  /** Up to `n` attempts, stopping at the first answer (stripped), and how many were made. */
  datatype Retried = Retried(answer: Option<string>, attempts: nat, wire: Link)

  function Retry(w: Link, c: Command, timeout: int, n: nat): (r: Retried)
    decreases n
    ensures r.attempts <= n
    ensures r.answer.None? ==> r.attempts == n
    ensures r.answer.Some? ==> r.attempts >= 1
  {
    if n == 0 then Retried(None, 0, w)
    else
      var (o, w1) := QueryOnce(w, c, timeout);
      if o.Line? then Retried(Some(Strip(o.text)), 1, w1)
      else
        var r := Retry(w1, c, timeout, n - 1);
        Retried(r.answer, r.attempts + 1, r.wire)
  }

  /** Each attempt sends the query at most once. */
  lemma {:induction false} RetryBounded(w: Link, c: Command, timeout: int, n: nat)
    ensures |w.written| <= |Retry(w, c, timeout, n).wire.written| <= |w.written| + Retry(w, c, timeout, n).attempts
    decreases n
  {
    if n > 0 && !QueryOnce(w, c, timeout).0.Line? {
      RetryBounded(QueryOnce(w, c, timeout).1, c, timeout, n - 1);
    }
  }

  /** The query is all that retrying sends: the session grows only by copies of it. */
  lemma {:induction false} RetrySendsOnlyQuery(w: Link, c: Command, timeout: int, n: nat)
    ensures |w.written| <= |Retry(w, c, timeout, n).wire.written|
    ensures Retry(w, c, timeout, n).wire.written == w.written + Repeat(c, |Retry(w, c, timeout, n).wire.written| - |w.written|)
    decreases n
  {
    if n > 0 {
      var q := QueryOnce(w, c, timeout);
      QueryOnceWrites(w, c, timeout);
      if !q.0.Line? {
        RetrySendsOnlyQuery(q.1, c, timeout, n - 1);
        RetryAfterMiss(w, c, timeout, n);
        if q.1.written != w.written {
          RepeatCons(w.written, c, |Retry(q.1, c, timeout, n - 1).wire.written| - |q.1.written|);
        }
      } else {
        assert Retry(w, c, timeout, n).wire == q.1;
        assert Repeat(c, 1) == [c];
      }
    }
  }

  /** A missed attempt leaves the rest to the remaining attempts. */
  lemma RetryAfterMiss(w: Link, c: Command, timeout: int, n: nat)
    requires n > 0 && !QueryOnce(w, c, timeout).0.Line?
    ensures Retry(w, c, timeout, n).wire == Retry(QueryOnce(w, c, timeout).1, c, timeout, n - 1).wire
  {
  }

  lemma RepeatCons(s: seq<Command>, c: Command, k: nat)
    ensures (s + [c]) + Repeat(c, k) == s + Repeat(c, k + 1)
  {
    assert Repeat(c, k + 1) == [c] + Repeat(c, k);
  }

  /** One attempt sends the query or nothing. */
  lemma QueryOnceWrites(w: Link, c: Command, timeout: int)
    ensures QueryOnce(w, c, timeout).1.written == w.written || QueryOnce(w, c, timeout).1.written == w.written + [c]
  {
  }

  /** `k` copies of `c`. */
  function Repeat(c: Command, k: nat): seq<Command>
  {
    if k == 0 then [] else [c] + Repeat(c, k - 1)
  }

  /** An answer on the first attempt ends the loop there. */
  lemma FirstAnswerWins(w: Link, c: Command, timeout: int, n: nat, text: string)
    requires n >= 1 && !FirstSet(w.faults) && w.pending != [] && w.pending[0] == Line(text)
    ensures Retry(w, c, timeout, n).answer == Some(Strip(text)) && Retry(w, c, timeout, n).attempts == 1
  {
  }

  /** A timed-out first attempt is retried. */
  lemma TimeoutRetried(w: Link, c: Command, timeout: int, n: nat, text: string)
    requires n >= 2 && !FirstSet(w.faults) && !FirstSet(DropFirst(w.faults))
    requires |w.pending| >= 2 && w.pending[0] == Timeout && w.pending[1] == Line(text)
    ensures Retry(w, c, timeout, n).answer == Some(Strip(text)) && Retry(w, c, timeout, n).attempts == 2
    ensures Retry(w, c, timeout, n).wire.written == w.written + [c, c]
  {
    var (o, w1) := QueryOnce(w, c, timeout);
    assert w1.pending[0] == Line(text);
  }

  /** `safe_query`: the stripped answer, or the message of what it raises. */
  function SafeQuerySpec(connected: bool, w: Link, c: Command, timeout: int, retries: int): (r: (Result<string>, Link))
    ensures !connected ==> r == (Err(NotConnected), w)
    ensures connected && retries < 1 ==> r == (Err(QueryUnknown), w)
    ensures connected && retries >= 1 && Retry(w, c, timeout, retries).answer.None? ==> r.0 == Err(VisaFailure)
  {
    if !connected then (Err(NotConnected), w)
    else if retries < 1 then (Err(QueryUnknown), w)
    else
      var r := Retry(w, c, timeout, retries);
      (if r.answer.Some? then Ok(r.answer.value) else Err(VisaFailure), r.wire)
  }

  // ---------------------------------------------------------------- the panel

  class ExtTrigPanel {
    var inst: Instrument?
    var state: ExtFlags
    var last: LastValues

    /** The session is open exactly when the panel says it is connected, nothing is
        configured without it, and a closed panel keeps nothing. */
    predicate Valid()
      reads this
    {
      (state.connected <==> inst != null) && (state.configured ==> state.connected) &&
      (!state.connected ==> state == Cleared && last == NoLast)
    }

    constructor ()
      ensures Valid() && inst == null && state == Cleared && last == NoLast
    {
      inst := null;
      state := Cleared;
      last := NoLast;
    }

    function Wire(): Bus
      reads this, inst
      requires inst != null
    {
      Bus(inst.written, inst.faults)
    }

    function LinkOf(): Link
      reads this, inst
      requires inst != null
    {
      Link(inst.written, inst.faults, inst.pending, inst.readTimeouts)
    }

    function PanelOf(): Panel reads this { Panel(state, last) }

    /** The panel and its instrument's bus are those of `d`. */
    predicate Reached<T>(d: Done<T>)
      reads this, inst
    {
      inst != null && PanelOf() == d.panel && inst.written == d.bus.sent && inst.faults == d.bus.faults
    }

    method Emit(cmds: seq<Command>) returns (ok: bool)
      requires inst != null
      modifies inst
      ensures ok == Clean(old(inst.faults), cmds)
      ensures inst.written == Put(old(Wire()), cmds).sent && inst.faults == Put(old(Wire()), cmds).faults
    {
      ok := Send(inst, cmds);
    }

    method Connect(session: Instrument?, address: string) returns (shown: Option<string>)
      requires Valid()
      modifies this, session
      ensures Valid()
      ensures old(state.connected) ==> shown == None && state == old(state) && inst == old(inst)
      ensures !old(state.connected) && IsBlank(address) ==> shown == Some(EnterAddress) && inst == null && state == Cleared
      ensures !old(state.connected) && !IsBlank(address) && session == null ==> shown == Some(VisaFailure) && inst == null
      ensures !old(state.connected) && !IsBlank(address) && session != null ==>
        (shown == None <==> !FirstSet(old(session.faults)) && NextRead(old(session.pending)).Line?)
      ensures shown == None ==> inst != null && state.connected
      ensures !old(state.connected) && shown == None ==> !state.configured && inst == session
      ensures shown.Some? ==> !state.connected && last == NoLast
    {
      if state.connected {
        return None;
      }
      if IsBlank(address) {
        return Some(EnterAddress);
      }
      if session == null {
        return Some(VisaFailure);
      }
      var idn := session.Query(Cmd("*IDN?"));
      if !idn.Line? {
        return Some(VisaFailure);
      }
      inst := session;
      state := state.(connected := true, configured := false);
      shown := None;
    }

    method SafeQuery(c: Command, retries: int) returns (r: Result<string>)
      requires Valid()
      modifies inst
      ensures Valid()
      ensures old(inst) == null ==> r == Err(NotConnected)
      ensures old(inst) != null ==> var q := SafeQuerySpec(true, old(LinkOf()), c, old(inst.timeout), retries);
        r == q.0 && LinkOf() == q.1 && inst.timeout == old(inst.timeout)
    {
      if !state.connected || inst == null {
        return Err(NotConnected);
      }
      if retries < 1 {
        return Err(QueryUnknown);
      }
      ghost var w0 := LinkOf();
      var attempt := 0;
      while attempt < retries
        invariant 0 <= attempt <= retries
        invariant inst.timeout == old(inst.timeout)
        invariant Retry(w0, c, inst.timeout, retries) ==
          var rest := Retry(LinkOf(), c, inst.timeout, retries - attempt);
          Retried(rest.answer, rest.attempts + attempt, rest.wire)
      {
        var o := inst.Query(c);
        if o.Line? {
          return Ok(Strip(o.text));
        }
        attempt := attempt + 1;
      }
      r := Err(VisaFailure);
    }

    method ConfigureCh2(f: ExtForm) returns (shown: Option<string>)
      requires Valid()
      modifies this, inst
      ensures Valid() && inst == old(inst)
      ensures old(inst) == null ==> shown == Some(NotConnected) && state == old(state) && last == old(last)
      ensures old(inst) != null ==> shown == ConfigureSpec(old(PanelOf()), f, old(Wire())).value && Reached(ConfigureSpec(old(PanelOf()), f, old(Wire())))
    {
      if !state.connected || inst == null {
        return Some(NotConnected);
      }
      var s := ReadExtCh2(f, true);
      if s.Err? {
        return Some(s.msg);
      }
      var ok := Emit(Ch2Setup(s.value, LowZeroPoint) + [Ch2Off]);
      if !ok {
        return Some(VisaFailure);
      }
      state := state.(outputOn := false, connected := true, configured := true);
      last := Remember(s.value);
      shown := None;
    }

    method ConfigureCh1(e: Ch1Entries) returns (shown: Option<string>)
      requires Valid()
      modifies this, inst
      ensures Valid() && inst == old(inst)
      ensures old(inst) == null ==> shown == Some(NotConnected) && state == old(state) && last == old(last)
      ensures old(inst) != null ==> shown == Ch1Spec(old(PanelOf()), e, old(Wire())).value && Reached(Ch1Spec(old(PanelOf()), e, old(Wire())))
    {
      if !state.connected || inst == null {
        return Some(NotConnected);
      }
      var plan := ExtLevelPlan(e);
      var ok := Emit(plan.cmds);
      if !ok {
        return Some(VisaFailure);
      }
      if plan.error.Some? {
        return plan.error;
      }
      state := state.(ch1Configured := true, ch1OutputOn := false);
      shown := None;
    }

    method FirePulse(f: ExtForm) returns (r: Result<real>)
      requires Valid()
      modifies this, inst
      ensures Valid() && inst == old(inst)
      ensures old(inst) == null ==> r == Err(NotConnected) && state == old(state) && last == old(last)
      ensures old(inst) != null ==> r == FireSpec(old(PanelOf()), f, old(Wire())).value && Reached(FireSpec(old(PanelOf()), f, old(Wire())))
    {
      if !state.connected || inst == null {
        return Err(NotConnected);
      }
      if !state.configured {
        return Err(FireUnconfigured);
      }
      var s := ReadExtCh2(f, false);
      if s.Err? {
        return Err(s.msg);
      }
      var ok := Emit(ChangeCommands(last, s.value));
      if !ok {
        return Err(VisaFailure);
      }
      last := Remember(s.value);
      var wasOn := state.outputOn;
      ok := Emit([Ch2On]);
      if ok {
        state := state.(outputOn := true);
        ok := Emit(Launch);
        if ok && !wasOn {
          ok := Emit([Ch2Off]);
          if ok {
            state := state.(outputOn := false);
          }
        }
      }
      r := if ok then Ok(ExtDwell(s.value)) else Err(VisaFailure);
    }

    method Stop() returns (shown: Option<string>)
      requires Valid()
      modifies this, inst
      ensures Valid() && inst == old(inst)
      ensures old(inst) == null ==> shown == None && state == old(state) && last == old(last)
      ensures old(inst) != null ==> shown == StopSpec(old(PanelOf()), old(Wire())).value && Reached(StopSpec(old(PanelOf()), old(Wire())))
    {
      if !state.connected || inst == null {
        return None;
      }
      var ok := Emit([Ch2Off]);
      if !ok {
        return Some(VisaFailure);
      }
      state := state.(outputOn := false);
      ok := Emit(Ch2Disable);
      if !ok {
        return Some(VisaFailure);
      }
      state := state.(configured := false);
      shown := None;
    }

    method ToggleOutput() returns (ok: bool)
      requires Valid()
      modifies this, inst
      ensures Valid() && inst == old(inst)
      ensures old(inst) == null ==> ok && state == old(state) && last == old(last)
      ensures old(inst) != null ==> ok == ToggleSpec(old(PanelOf()), old(Wire())).value && Reached(ToggleSpec(old(PanelOf()), old(Wire())))
    {
      ok := true;
      if !state.connected || !state.configured || inst == null {
        return;
      }
      var desired := !state.outputOn;
      ok := Emit([OnOff(":OUTP2", desired)]);
      if ok {
        state := state.(outputOn := desired);
      }
    }

    method ToggleCh1Output() returns (ok: bool)
      requires Valid()
      modifies this, inst
      ensures Valid() && inst == old(inst)
      ensures old(inst) == null ==> ok && state == old(state) && last == old(last)
      ensures old(inst) != null ==> ok == Ch1ToggleSpec(old(PanelOf()), old(Wire())).value && Reached(Ch1ToggleSpec(old(PanelOf()), old(Wire())))
    {
      ok := true;
      if !state.connected || !state.ch1Configured || inst == null {
        return;
      }
      var desired := !state.ch1OutputOn;
      ok := Emit([OnOff(":OUTP1", desired)]);
      if ok {
        state := state.(ch1OutputOn := desired);
      }
    }

    /** `disconnect`: the stop and the channel-1 switch-off are attempted with their errors
        swallowed; whether closing the session raises (`closeFails`) the panel comes back
        cleared. */
    method Disconnect(closeFails: bool) returns (raised: Option<string>)
      requires Valid()
      modifies this, inst
      ensures Valid()
      ensures inst == null && state == Cleared && last == NoLast
      ensures raised.Some? <==> old(state.connected) && closeFails
      ensures old(inst) != null ==>
        var d := StopSpec(old(PanelOf()), old(Wire()));
        old(inst).written == Put(d.bus, [Cmd(":OUTP1 OFF")]).sent &&
        old(inst).faults == Put(d.bus, [Cmd(":OUTP1 OFF")]).faults
    {
      raised := None;
      if !state.connected {
        return;
      }
      var i := inst;
      var _ := Stop();
      var _ := Emit([Cmd(":OUTP1 OFF")]);
      if closeFails {
        raised := Some(VisaFailure);
      }
      inst := null;
      state := Cleared;
      last := NoLast;
    }
  }
}
