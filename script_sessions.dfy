/** Script uploads to the 2450 over a session that remembers what it has
    loaded: the deprecated pulse-and-measure window's `Keithley2450Session`
    (a set of loaded script names, cleared on connect and disconnect) and its
    trigger-options panel (one wait at a time), and the once-per-connection
    `_load_script` guard with the `measure` input check of the two
    single-window voltmeter programs. */
module ScriptSessions {
  import opened Outcome
  import opened PyText
  import opened Channel
  import opened WriteSequence
  import TimeUnits
  import TriggerListener
  import Validators
  import ResponseParsers

  // ---------------------------------------------------------------- uploading a named script

  function DeleteCommand(name: string): Command { Cmd("pcall(script.delete, '" + name + "')") }
  function SaveCommand(name: string): Command { Cmd(name + ".save()") }
  function RunCommand(name: string): Command { Cmd(name + "()") }

  /** Each script line written as a command of its own. */
  function LineCommands(lines: seq<string>): (r: seq<Command>)
    ensures |r| == |lines|
    ensures forall i :: 0 <= i < |r| ==> r[i] == Cmd(lines[i])
  {
    seq(|lines|, i requires 0 <= i < |lines| => Cmd(lines[i]))
  }

  /** The result of an upload: whether every write after the delete went out, and the bus after it. */
  datatype Upload = Upload(ok: bool, bus: Bus)

  /** The shared upload shape: `pcall(script.delete, 'NAME')` with its failure swallowed,
      then the body, which succeeds only when every one of its writes goes out. */
  function UploadScript(b: Bus, name: string, body: seq<Command>): Upload
  {
    var cleared := Put(b, [DeleteCommand(name)]);
    Upload(Clean(cleared.faults, body), Put(cleared, body))
  }

  /** A failing delete costs its write and nothing else; a clean body then goes out whole. */
  lemma UploadWrites(b: Bus, name: string, body: seq<Command>)
    requires Clean(DropFirst(b.faults), body)
    ensures UploadScript(b, name, body).ok
    ensures UploadScript(b, name, body).bus.sent ==
            b.sent + (if FirstSet(b.faults) then [] else [DeleteCommand(name)]) + body
  {
    var d := [DeleteCommand(name)];
    if FirstSet(b.faults) {
      PutBlocked(b, d);
    } else {
      assert Sent(DropFirst(b.faults), d[1..]) == 0;
      assert Clean(b.faults, d);
      assert DropN(b.faults, 1) == DropN(DropFirst(b.faults), 0);
    }
  }

  /** A failing body keeps the upload from succeeding, whatever the delete did. */
  lemma UploadFailsOnBodyFault(b: Bus, name: string, body: seq<Command>)
    requires !Clean(DropFirst(b.faults), body)
    ensures !UploadScript(b, name, body).ok
  {
    var d := [DeleteCommand(name)];
    if FirstSet(b.faults) {
      PutBlocked(b, d);
    } else {
      assert Sent(DropFirst(b.faults), d[1..]) == 0;
      assert DropN(b.faults, 1) == DropN(DropFirst(b.faults), 0);
    }
  }

  // ---------------------------------------------------------------- Keithley2450Session

  const EnterAddress: string := "Provide a VISA address for the 2450."
  const SessionNotConnected: string := "Connect to the 2450 first."
  const SessionTimeout: int := 20000
  const Identify: Command := Cmd("*IDN?")

  /** What `ensure_script` writes after the delete: the stripped script's lines, then save and run. */
  function EnsureBody(name: string, lines: seq<string>): seq<Command>
  {
    LineCommands(lines) + [SaveCommand(name), RunCommand(name)]
  }

  /** The outcome of `ensure_script` on a connected session. */
  datatype Ensured = Ensured(error: Option<string>, loaded: set<string>, bus: Bus)

  /** `ensure_script` once connected: a name already loaded writes nothing; otherwise the
      script is uploaded and its name is remembered only when every write went out. */
  function EnsureSpec(loaded: set<string>, name: string, lines: seq<string>, b: Bus): (e: Ensured)
    ensures name in loaded ==> e == Ensured(None, loaded, b)
    ensures e.error.None? <==> name in e.loaded
    ensures e.loaded == loaded || e.loaded == loaded + {name}
    ensures e.error.Some? ==> e.error == Some(VisaFailure)
  {
    if name in loaded then Ensured(None, loaded, b)
    else
      var u := UploadScript(b, name, EnsureBody(name, lines));
      if u.ok then Ensured(None, loaded + {name}, u.bus) else Ensured(Some(VisaFailure), loaded, u.bus)
  }

  /** Ensuring a script a second time, with any text, changes nothing once the first succeeded. */
  lemma EnsureIdempotent(loaded: set<string>, name: string, lines: seq<string>, again: seq<string>, b: Bus)
    ensures var e := EnsureSpec(loaded, name, lines, b);
      e.error.None? ==> EnsureSpec(e.loaded, name, again, e.bus) == e
  {
  }

  /** A fresh name whose body goes out is loaded, and the bus carries exactly the upload. */
  lemma EnsureLoadsFreshName(loaded: set<string>, name: string, lines: seq<string>, b: Bus)
    requires name !in loaded && Clean(DropFirst(b.faults), EnsureBody(name, lines))
    ensures EnsureSpec(loaded, name, lines, b).loaded == loaded + {name}
    ensures EnsureSpec(loaded, name, lines, b).bus.sent ==
            b.sent + (if FirstSet(b.faults) then [] else [DeleteCommand(name)]) + LineCommands(lines) +
            [SaveCommand(name), RunCommand(name)]
  {
    UploadWrites(b, name, EnsureBody(name, lines));
  }

  /** A body write that raises leaves the name unloaded, so the next call uploads it again. */
  lemma EnsureRetriesAfterFailure(loaded: set<string>, name: string, lines: seq<string>, b: Bus)
    requires name !in loaded && !Clean(DropFirst(b.faults), EnsureBody(name, lines))
    ensures EnsureSpec(loaded, name, lines, b).error == Some(VisaFailure)
    ensures EnsureSpec(loaded, name, lines, b).loaded == loaded
  {
    UploadFailsOnBodyFault(b, name, EnsureBody(name, lines));
  }

  /** `*IDN?` is answered: its write goes out and a line comes back. */
  predicate IdnAnswered(f: seq<bool>, p: seq<ReadOutcome>) { !FirstSet(f) && NextRead(p).Line? }

  /** The shared 2450 session of the deprecated window. */
  class Session {
    var inst: Instrument?
    var address: string
    var loaded: set<string>

    constructor (address0: string)
      ensures inst == null && address == address0 && loaded == {}
    {
      inst := null;
      address := address0;
      loaded := {};
    }

    /** `connect`: a blank address is refused; `session` is what opening the address yields
        (null when it raises).  The handle is kept before `*IDN?` is asked, and the loaded
        names are forgotten only once the instrument has answered. */
    method Connect(addressText: string, session: Instrument?) returns (r: Result<string>)
      modifies this, session
      ensures IsBlank(addressText) ==>
                r == Err(EnterAddress) && inst == old(inst) && address == old(address) && loaded == old(loaded)
      ensures !IsBlank(addressText) ==> address == Strip(addressText)
      ensures !IsBlank(addressText) && session == null ==>
                r == Err(VisaFailure) && inst == old(inst) && loaded == old(loaded)
      ensures !IsBlank(addressText) && session != null ==>
                inst == session && session.timeout == SessionTimeout &&
                (r.Ok? <==> IdnAnswered(old(session.faults), old(session.pending))) &&
                (r.Ok? ==> r.value == Strip(NextRead(old(session.pending)).text) && loaded == {}) &&
                (r.Err? ==> r == Err(VisaFailure) && loaded == old(loaded))
    {
      var addr := Strip(addressText);
      if addr == [] {
        return Err(EnterAddress);
      }
      address := addr;
      if session == null {
        return Err(VisaFailure);
      }
      inst := session;
      session.SetTimeout(SessionTimeout);
      var answer := session.Query(Identify);
      if !answer.Line? {
        return Err(VisaFailure);
      }
      loaded := {};
      r := Ok(Strip(answer.text));
    }

    /** `disconnect`: close errors are swallowed, the handle is dropped and the loaded names forgotten. */
    method Disconnect()
      modifies this
      ensures inst == null && loaded == {} && address == old(address)
    {
      inst := null;
      loaded := {};
    }

    /** `ensure_script`: needs a connection; then as `EnsureSpec` says, the writes after the
        delete raising out of it. */
    method EnsureScript(name: string, lines: seq<string>) returns (err: Option<string>)
      modifies this, inst
      ensures inst == old(inst) && address == old(address)
      ensures old(inst) == null ==> err == Some(SessionNotConnected) && loaded == old(loaded)
      ensures old(inst) != null ==>
                Ensured(err, loaded, BusOf(inst)) == EnsureSpec(old(loaded), name, lines, old(BusOf(inst)))
      ensures inst != null ==> inst.pending == old(inst.pending)
    {
      if inst == null {
        return Some(SessionNotConnected);
      }
      if name in loaded {
        return None;
      }
      ghost var b := BusOf(inst);
      var _ := inst.Write(DeleteCommand(name));
      PutOne(b, DeleteCommand(name));
      var ok := Send(inst, EnsureBody(name, lines));
      if ok {
        loaded := loaded + {name};
        err := None;
      } else {
        err := Some(VisaFailure);
      }
    }

    /** `write`: refused without a connection; a VISA error comes back as the failure. */
    method Write(c: Command) returns (err: Option<string>)
      modifies inst
      ensures inst == null ==> err == Some(SessionNotConnected)
      ensures inst != null ==>
                BusOf(inst) == Put(old(BusOf(inst)), [c]) && inst.pending == old(inst.pending) &&
                (err.None? <==> !FirstSet(old(inst.faults))) && (err.Some? ==> err == Some(VisaFailure))
    {
      if inst == null {
        return Some(SessionNotConnected);
      }
      ghost var b := BusOf(inst);
      var ok := inst.Write(c);
      PutOne(b, c);
      err := if ok then None else Some(VisaFailure);
    }

    /** `query`: refused without a connection; otherwise the instrument's answer. */
    method Query(c: Command) returns (r: Result<string>)
      modifies inst
      ensures inst == null ==> r == Err(SessionNotConnected)
      ensures inst != null ==>
                (r.Ok? <==> IdnAnswered(old(inst.faults), old(inst.pending))) &&
                (r.Ok? ==> r.value == NextRead(old(inst.pending)).text) &&
                (r.Err? ==> r == Err(VisaFailure))
    {
      if inst == null {
        return Err(SessionNotConnected);
      }
      var answer := inst.Query(c);
      r := if answer.Line? then Ok(answer.text) else Err(VisaFailure);
    }
  }

  // ---------------------------------------------------------------- the trigger-options panel

  const ConnectFirst: string := "Connect first."
  const StopWaitingFirst: string := "Stop waiting before disconnecting."
  const LineNotInteger: string := "Select a DIGIO line 1-6."
  const LineOutOfRange: string := "DIGIO line must be 1-6."
  const PrepFailed: string := "Wait cancelled: meter prep failed."

  /** `_resolve_line`: `int()` of the entry, which must be 1..6; a blank entry is not a number. */
  function ResolveLine(text: string): (r: Result<int>)
    ensures r.Ok? <==> ParseInt(text).Some? && 1 <= ParseInt(text).value <= 6
    ensures r.Ok? ==> r.value == ParseInt(text).value
    ensures ParseInt(text).None? ==> r == Err(LineNotInteger)
    ensures ParseInt(text).Some? && r.Err? ==> r == Err(LineOutOfRange)
  {
    match ParseInt(text)
    case None => Err(LineNotInteger)
    case Some(n) => if 1 <= n <= 6 then Ok(n) else Err(LineOutOfRange)
  }

  /** Each line typed as its number is that line; no blank entry picks one. */
  lemma ResolveLineRoundTrip(n: int, blank: string)
    requires IsBlank(blank)
    ensures ResolveLine(IntText(n)) == if 1 <= n <= 6 then Ok(n) else Err(LineOutOfRange)
    ensures ResolveLine(blank) == Err(LineNotInteger)
  {
    IntTextRoundTrip(n);
    assert ParseInt(blank) == ParseSignedDigits([]);
  }

  /** `str(float(timeout))` or `nil` when blank; unlike the listener window, a negative
      timeout is passed on. */
  function TimeoutExpr(text: string): (r: Result<Option<real>>)
    ensures r == Ok(None) <==> IsBlank(text)
    ensures !IsBlank(text) ==> (r.Ok? <==> IsReal(text))
    ensures !IsBlank(text) && r.Ok? ==> r.value == ParseReal(text)
    ensures r.Err? ==> r == Err(TimeUnits.NotANumber)
  {
    ParseRealOfStrip(text);
    var t := Strip(text);
    if t == [] then Ok(None)
    else
      match ParseReal(t)
      case None => Err(TimeUnits.NotANumber)
      case Some(v) => Ok(Some(v))
  }

  /** A negative timeout that the listener window refuses is sent on here. */
  lemma NegativeTimeoutPassed(text: string)
    requires IsReal(text) && ParseReal(text).value < 0.0
    ensures TimeoutExpr(text) == Ok(ParseReal(text))
    ensures TriggerListener.FormatTimeoutArg(text) == Err(TriggerListener.TimeoutNegative)
  {
    ParseRealOfStrip(text);
  }

  /** The checks of `start_wait` after the readiness checks, in order: timeout, line, mode;
      the edge is the stripped, lower-cased entry. */
  function StartWaitArguments(timeoutText: string, edgeText: string, lineText: string, choice: string)
    : (r: Result<TriggerListener.WaitRequest>)
    ensures r.Ok? <==> TimeoutExpr(timeoutText).Ok? && ResolveLine(lineText).Ok? &&
                       TriggerListener.ResolveModeSelection(choice).Ok?
    ensures r.Ok? ==> r.value == TriggerListener.WaitRequest(TimeoutExpr(timeoutText).value,
                                   TriggerListener.EdgeChoice(edgeText), ResolveLine(lineText).value,
                                   TriggerListener.ResolveModeSelection(choice).value.0)
    ensures TimeoutExpr(timeoutText).Err? ==> r == Err(TimeUnits.NotANumber)
    ensures TimeoutExpr(timeoutText).Ok? && ResolveLine(lineText).Err? ==> r == Err(ResolveLine(lineText).msg)
  {
    match TimeoutExpr(timeoutText)
    case Err(m) => Err(m)
    case Ok(t) =>
      match ResolveLine(lineText)
      case Err(m) => Err(m)
      case Ok(n) =>
        match TriggerListener.ResolveModeSelection(choice)
        case Err(m) => Err(m)
        case Ok(sel) => Ok(TriggerListener.WaitRequest(t, TriggerListener.EdgeChoice(edgeText), n, sel.0))
  }

  /** Why `start_wait` refuses before reading any entry. */
  function StartWaitGuard(connected: bool, waiting: bool): Option<string>
  {
    if !connected then Some(ConnectFirst)
    else if waiting then Some(TriggerListener.AlreadyWaiting)
    else None
  }

  /** `start_wait` as a whole: the guards, the entries, then `before_wait_callback`, which
      aborts the wait only by answering False (`prepFailed`). */
  function WaitStart(connected: bool, waiting: bool, args: Result<TriggerListener.WaitRequest>, prepFailed: bool)
    : (r: Result<TriggerListener.WaitRequest>)
    ensures r.Ok? <==> connected && !waiting && args.Ok? && !prepFailed
    ensures r.Ok? ==> r == args
    ensures !connected ==> r == Err(ConnectFirst)
    ensures connected && waiting ==> r == Err(TriggerListener.AlreadyWaiting)
    ensures connected && !waiting && args.Ok? && prepFailed ==> r == Err(PrepFailed)
  {
    match StartWaitGuard(connected, waiting)
    case Some(m) => Err(m)
    case None =>
      match args
      case Err(m) => Err(m)
      case Ok(req) => if prepFailed then Err(PrepFailed) else Ok(req)
  }

  /** The query the wait thread sends, and what comes back to the panel. */
  function WaitReplyOf(connected: bool, f: seq<bool>, p: seq<ReadOutcome>): TriggerListener.WaitReply
  {
    if !connected then TriggerListener.WaitReply(None, Some(SessionNotConnected))
    else if IdnAnswered(f, p) then TriggerListener.WaitReply(Some(Upper(Strip(NextRead(p).text))), None)
    else TriggerListener.WaitReply(None, Some(VisaFailure))
  }

  /** `trigger_callback` runs when no error text came back and the result is TRIGGER. */
  predicate WaitFires(reply: TriggerListener.WaitReply)
  {
    (reply.error.None? || reply.error.value == []) && reply.result == Some("TRIGGER")
  }

  /** The log line `_handle_wait_result` writes for each reply. */
  function WaitLog(reply: TriggerListener.WaitReply): (s: string)
    ensures WaitFires(reply) <==> s == "Trigger received."
  {
    if reply.error.Some? && reply.error.value != [] then
      assert ("Wait failed: " + reply.error.value)[0] == 'W';
      "Wait failed: " + reply.error.value
    else if reply.result == Some("TRIGGER") then "Trigger received."
    else if reply.result == Some("TIMEOUT") then "Timeout waiting for trigger."
    else if reply.result == Some("CANCEL") then "Wait cancelled."
    else if reply.result == Some("INVALID_MODE") then "DIGIO mode is not a trigger input."
    else
      var r := if reply.result.Some? then reply.result.value else "None";
      assert ("Wait result: " + r)[0] == 'W';
      "Wait result: " + r
  }

  /** The callback runs exactly when the script's printed line reads TRIGGER, whatever the
      case and surrounding white space. */
  lemma FiresOnlyOnTrigger(connected: bool, f: seq<bool>, p: seq<ReadOutcome>)
    ensures WaitFires(WaitReplyOf(connected, f, p)) <==>
            connected && IdnAnswered(f, p) && Upper(Strip(NextRead(p).text)) == "TRIGGER"
  {
  }

  /** Each wait word the listener script prints reaches the panel as that word. */
  lemma ScriptWordsArrive(w: string, p: seq<ReadOutcome>, f: seq<bool>)
    requires TriggerListener.IsWaitResult(w) && !FirstSet(f) && p != [] && p[0] == Line(w)
    ensures WaitReplyOf(true, f, p) == TriggerListener.WaitReply(Some(w), None)
    ensures WaitFires(WaitReplyOf(true, f, p)) <==> w == "TRIGGER"
  {
    TriggerListener.WaitWordsText(w);
    TriggerListener.WordTextFixed(w);
  }

  /** `_on_session_change`: which buttons the panel enables. */
  datatype OptionButtons = OptionButtons(connect: bool, disconnect: bool, setup: bool, wait: bool, cancel: bool, clear: bool)

  function OptionButtonsFor(connected: bool, waiting: bool): OptionButtons
  {
    OptionButtons(!connected, connected, connected, connected && !waiting, waiting, connected)
  }

  /** The Wait button is enabled exactly when `start_wait` would get past its guards, and
      Wait and Cancel are never enabled together. */
  lemma ButtonsMatchWaitGuard(connected: bool, waiting: bool)
    ensures OptionButtonsFor(connected, waiting).wait <==> StartWaitGuard(connected, waiting).None?
    ensures !(OptionButtonsFor(connected, waiting).wait && OptionButtonsFor(connected, waiting).cancel)
  {
  }

  /** The trigger-options panel over the shared session. */
  class TriggerOptions {
    const session: Session
    var waiting: bool

    constructor (s: Session)
      ensures session == s && !waiting
    {
      session := s;
      waiting := false;
    }

    /** `start_wait`: on success the panel is waiting and the request goes to the wait thread. */
    method StartWait(timeoutText: string, edgeText: string, lineText: string, choice: string, prepFailed: bool)
      returns (r: Result<TriggerListener.WaitRequest>)
      modifies this
      ensures r == WaitStart(session.inst != null, old(waiting),
                             StartWaitArguments(timeoutText, edgeText, lineText, choice), prepFailed)
      ensures waiting == (old(waiting) || r.Ok?)
    {
      var guard := StartWaitGuard(session.inst != null, waiting);
      if guard.Some? {
        return Err(guard.value);
      }
      var args := StartWaitArguments(timeoutText, edgeText, lineText, choice);
      if args.Err? {
        return Err(args.msg);
      }
      if prepFailed {
        return Err(PrepFailed);
      }
      waiting := true;
      r := args;
    }

    /** `_wait_worker`: the wait query through the session. */
    method WaitWorker(req: TriggerListener.WaitRequest) returns (reply: TriggerListener.WaitReply)
      modifies session.inst
      ensures session.inst == null ==> reply == WaitReplyOf(false, [], [])
      ensures session.inst != null ==>
                reply == WaitReplyOf(true, old(session.inst.faults), old(session.inst.pending))
    {
      var answer := session.Query(TriggerListener.WaitCommand(req));
      if answer.Ok? {
        reply := TriggerListener.WaitReply(Some(Upper(Strip(answer.value))), None);
      } else {
        reply := TriggerListener.WaitReply(None, Some(answer.msg));
      }
    }

    /** `_handle_wait_result`: the wait is over; `fired` says the trigger callback runs. */
    method HandleWaitResult(reply: TriggerListener.WaitReply) returns (fired: bool, logged: string)
      modifies this
      ensures !waiting
      ensures fired <==> WaitFires(reply)
      ensures logged == WaitLog(reply)
    {
      waiting := false;
      fired := WaitFires(reply);
      logged := WaitLog(reply);
    }

    /** `disconnect`: refused while a wait is running. */
    method Disconnect() returns (shown: Option<string>)
      modifies session
      ensures old(waiting) ==>
                shown == Some(StopWaitingFirst) && session.inst == old(session.inst) && session.loaded == old(session.loaded)
      ensures !old(waiting) ==> shown.None? && session.inst == null && session.loaded == {}
    {
      if waiting {
        return Some(StopWaitingFirst);
      }
      session.Disconnect();
      shown := None;
    }

    /** `cancel_wait`: only a running wait on a live session is told to stop; a failing write
        is logged and the panel keeps waiting for the thread's reply. */
    method CancelWait()
      modifies session.inst
      ensures !waiting && session.inst != null ==> unchanged(session.inst)
      ensures waiting && session.inst != null ==> BusOf(session.inst) == Put(old(BusOf(session.inst)), [TriggerListener.CancelCommand])
    {
      if !waiting || session.inst == null {
        return;
      }
      var _ := session.Write(TriggerListener.CancelCommand);
    }
  }

  // ---------------------------------------------------------------- the voltmeter windows

  const NotReady: string := "Connect to the instrument first."
  const LoadFailed: string := "Failed to load script"
  const SamplesNotNumeric: string := "Samples must be numeric."
  const MeasureFailed: string := "Measurement failed"
  const OutputOff: Command := Cmd("pcall(voltmeter_output_off)")
  const BufferQuery: Command := Cmd("printbuffer(1, defbuffer1.n, defbuffer1)")

  /** What a window knows of its script: the name it is loaded under, whether loading also
      switches the output off (the measure-voltage window), and the message for a missing file. */
  datatype ScriptFile = ScriptFile(name: string, outputOff: bool, missing: string)

  /** The body `_load_script` writes after the delete. */
  function LoadBody(f: ScriptFile, lines: seq<string>): seq<Command>
  {
    [Cmd("loadscript " + f.name)] + LineCommands(lines) + [Cmd("endscript"), SaveCommand(f.name), RunCommand(f.name)] +
    (if f.outputOff then [OutputOff] else [])
  }

  /** One `_load_script` call on a connected window that has not loaded the script:
      `script` is the file's lines, or None when the file is missing. */
  datatype Loaded = Loaded(shown: Option<string>, loaded: bool, bus: Bus)

  function LoadSpec(f: ScriptFile, script: Option<seq<string>>, b: Bus): (l: Loaded)
    ensures l.loaded <==> l.shown.None?
    ensures script.None? ==> l == Loaded(Some(f.missing), false, b)
  {
    match script
    case None => Loaded(Some(f.missing), false, b)
    case Some(lines) =>
      var u := UploadScript(b, f.name, LoadBody(f, lines));
      if u.ok then Loaded(None, true, u.bus) else Loaded(Some(LoadFailed), false, u.bus)
  }

  /** A script whose writes after the delete all go out is loaded, and the window sends it
      wrapped in `loadscript` and `endscript`. */
  lemma LoadSucceeds(f: ScriptFile, lines: seq<string>, b: Bus)
    requires Clean(DropFirst(b.faults), LoadBody(f, lines))
    ensures LoadSpec(f, Some(lines), b).loaded
    ensures LoadSpec(f, Some(lines), b).bus.sent ==
            b.sent + (if FirstSet(b.faults) then [] else [DeleteCommand(f.name)]) + LoadBody(f, lines)
  {
    UploadWrites(b, f.name, LoadBody(f, lines));
  }

  /** A failing write after the delete leaves the script unloaded and shows the failure. */
  lemma LoadFailsOnBodyFault(f: ScriptFile, lines: seq<string>, b: Bus)
    requires !Clean(DropFirst(b.faults), LoadBody(f, lines))
    ensures LoadSpec(f, Some(lines), b) == Loaded(Some(LoadFailed), false, UploadScript(b, f.name, LoadBody(f, lines)).bus)
  {
    UploadFailsOnBodyFault(b, f.name, LoadBody(f, lines));
  }

  /** `_format_float_arg` of the measure-voltage window: the shared check, with the
      offending text in the message. */
  function MeasureFloatArg(text: string): (r: Result<string>)
    ensures r.Ok? <==> Validators.FormatFloatArg(text, None, true).Ok?
    ensures r.Ok? ==> r == Validators.FormatFloatArg(text, None, true)
    ensures r.Err? ==> r.msg == "Invalid numeric value: " + Strip(text)
  {
    match Validators.FormatFloatArg(text, None, true)
    case Ok(v) => Ok(v)
    case Err(_) => Err("Invalid numeric value: " + Strip(text))
  }

  /** The measurement request `measure` builds from its entries. */
  datatype MeasureArgs = MeasureArgs(samples: int, range: string, nplc: string)

  /** The entry checks of `measure`: samples first (`int(float(text))`), then range and NPLC. */
  function MeasureInputs(samplesText: string, rangeText: string, nplcText: string): (r: Result<MeasureArgs>)
    ensures !IsReal(samplesText) ==> r == Err(SamplesNotNumeric)
    ensures r.Ok? <==> IsReal(samplesText) && MeasureFloatArg(rangeText).Ok? && MeasureFloatArg(nplcText).Ok?
    ensures r.Ok? ==> r.value.samples == TruncToInt(ParseReal(samplesText).value) &&
                      r.value.range == MeasureFloatArg(rangeText).value &&
                      r.value.nplc == MeasureFloatArg(nplcText).value
  {
    match ParseTruncatedInt(samplesText)
    case None => Err(SamplesNotNumeric)
    case Some(n) =>
      match MeasureFloatArg(rangeText)
      case Err(m) => Err(m)
      case Ok(range) =>
        match MeasureFloatArg(nplcText)
        case Err(m) => Err(m)
        case Ok(nplc) => Ok(MeasureArgs(n, range, nplc))
  }

  function MeasureCommand(a: MeasureArgs): Command
  {
    Command("print(measure_voltage", [Whole(a.samples), Text(a.range), Text(a.nplc)])
  }

  /** A whole sample count typed as digits is taken as that count. */
  lemma MeasureSamplesRoundTrip(n: int, rangeText: string, nplcText: string)
    requires MeasureFloatArg(rangeText).Ok? && MeasureFloatArg(nplcText).Ok?
    ensures MeasureInputs(IntText(n), rangeText, nplcText).Ok?
    ensures MeasureInputs(IntText(n), rangeText, nplcText).value.samples == n
  {
    IntTextRoundTrip(n);
    IntTextIsReal(IntText(n));
    assert TruncToInt(n as real) == n;
  }

  /** The instrument's bus once `measure` has made sure of its script: untouched when the
      script was already loaded, otherwise after one `LoadSpec` attempt. */
  function AfterLoad(f: ScriptFile, loaded: bool, script: Option<seq<string>>, b: Bus): Bus
  {
    if loaded then b else LoadSpec(f, script, b).bus
  }

  /** A single-window 2450 voltmeter: the connection and whether its script is loaded. */
  class Voltmeter {
    var inst: Instrument?
    var scriptLoaded: bool
    const file: ScriptFile

    constructor (file0: ScriptFile)
      ensures inst == null && !scriptLoaded && file == file0
    {
      inst := null;
      scriptLoaded := false;
      file := file0;
    }

    /** `_load_script`: nothing at all happens when disconnected or already loaded. */
    method LoadScript(script: Option<seq<string>>) returns (shown: Option<string>)
      modifies this, inst
      ensures inst == old(inst)
      ensures old(inst) == null || old(scriptLoaded) ==>
                shown.None? && scriptLoaded == old(scriptLoaded) && (inst != null ==> unchanged(inst))
      ensures old(inst) != null && !old(scriptLoaded) ==>
                Loaded(shown, scriptLoaded, BusOf(inst)) == LoadSpec(file, script, old(BusOf(inst))) &&
                inst.pending == old(inst.pending) && inst.readTimeouts == old(inst.readTimeouts)
    {
      if inst == null || scriptLoaded {
        return None;
      }
      if script.None? {
        return Some(file.missing);
      }
      ghost var b := BusOf(inst);
      var _ := inst.Write(DeleteCommand(file.name));
      PutOne(b, DeleteCommand(file.name));
      var ok := Send(inst, LoadBody(file, script.value));
      scriptLoaded := ok;
      shown := if ok then None else Some(LoadFailed);
    }

    /** `_ensure_ready`: connected, then the script loaded (trying once if it is not). */
    method EnsureReady(script: Option<seq<string>>) returns (ready: bool, shown: Option<string>)
      modifies this, inst
      ensures inst == old(inst)
      ensures old(inst) == null ==> !ready && shown == Some(NotReady) && scriptLoaded == old(scriptLoaded)
      ensures old(inst) != null && old(scriptLoaded) ==> ready && shown.None? && scriptLoaded && unchanged(inst)
      ensures old(inst) != null && !old(scriptLoaded) ==>
                Loaded(shown, ready, BusOf(inst)) == LoadSpec(file, script, old(BusOf(inst)))
      ensures old(inst) != null ==> ready == scriptLoaded
    {
      if inst == null {
        return false, Some(NotReady);
      }
      shown := LoadScript(script);
      ready := scriptLoaded;
    }

    /** The two queries of `measure` once its entries are checked: the measurement, whose
        answer is only logged, then the buffer dump, whose numbers are the result. */
    method RunMeasurement(args: MeasureArgs) returns (r: Result<seq<real>>)
      requires inst != null
      modifies inst
      ensures inst.timeout == old(inst.timeout)
      ensures r.Ok? <==> |old(inst.pending)| >= 2 && old(inst.pending)[0].Line? && old(inst.pending)[1].Line? &&
                         !FirstSet(old(inst.faults)) && !FirstSet(DropFirst(old(inst.faults)))
      ensures r.Ok? ==>
                r.value == ResponseParsers.BufferValues(Strip(old(inst.pending)[1].text)) &&
                inst.written == old(inst.written) + [MeasureCommand(args), BufferQuery] &&
                inst.readTimeouts == old(inst.readTimeouts) + [inst.timeout, inst.timeout]
      ensures r.Err? ==> r == Err(MeasureFailed)
    {
      var response := inst.Query(MeasureCommand(args));
      if !response.Line? {
        return Err(MeasureFailed);
      }
      var dump := inst.Query(BufferQuery);
      if !dump.Line? {
        return Err(MeasureFailed);
      }
      r := Ok(ResponseParsers.BufferValues(Strip(dump.text)));
    }

    /** `measure` of the measure-voltage window: connected, the script loaded if need be (a
        failed load is shown and the measurement still goes ahead), the entries checked before
        any query, then `RunMeasurement`. */
    method Measure(script: Option<seq<string>>, samplesText: string, rangeText: string, nplcText: string)
      returns (r: Result<seq<real>>, loadShown: Option<string>)
      modifies this, inst
      ensures inst == old(inst)
      ensures old(inst) == null ==> r == Err(NotReady) && loadShown.None? && scriptLoaded == old(scriptLoaded)
      ensures old(inst) != null && MeasureInputs(samplesText, rangeText, nplcText).Err? ==>
                r == Err(MeasureInputs(samplesText, rangeText, nplcText).msg) &&
                inst.pending == old(inst.pending) && inst.readTimeouts == old(inst.readTimeouts)
      ensures old(inst) != null && !old(scriptLoaded) ==>
                scriptLoaded == LoadSpec(file, script, old(BusOf(inst))).loaded &&
                loadShown == LoadSpec(file, script, old(BusOf(inst))).shown
      ensures old(inst) != null && MeasureInputs(samplesText, rangeText, nplcText).Err? ==>
                BusOf(inst) == AfterLoad(file, old(scriptLoaded), script, old(BusOf(inst)))
      ensures old(inst) != null && MeasureInputs(samplesText, rangeText, nplcText).Ok? ==>
                var b := AfterLoad(file, old(scriptLoaded), script, old(BusOf(inst)));
                (r.Ok? <==> |old(inst.pending)| >= 2 && old(inst.pending)[0].Line? && old(inst.pending)[1].Line? &&
                            !FirstSet(b.faults) && !FirstSet(DropFirst(b.faults))) &&
                (r.Ok? ==> inst.written == b.sent + [MeasureCommand(MeasureInputs(samplesText, rangeText, nplcText).value), BufferQuery]) &&
                (r.Err? ==> r == Err(MeasureFailed))
      ensures r.Ok? ==>
                MeasureInputs(samplesText, rangeText, nplcText).Ok? &&
                |old(inst.pending)| >= 2 && old(inst.pending)[1].Line? &&
                r.value == ResponseParsers.BufferValues(Strip(old(inst.pending)[1].text))
    {
      if inst == null {
        return Err(NotReady), None;
      }
      loadShown := None;
      if !scriptLoaded {
        loadShown := LoadScript(script);
      }
      var args := MeasureInputs(samplesText, rangeText, nplcText);
      if args.Err? {
        return Err(args.msg), loadShown;
      }
      r := RunMeasurement(args.value);
    }
  }

  /** The scripts of the three single-window programs. */
  const AsyncScript: ScriptFile := ScriptFile("TriggerVoltmeter", false, "TSP file not found")
  const MeasureScript: ScriptFile := ScriptFile("VoltmeterScript", true, "TSP file not found")
  const FastScript: ScriptFile := ScriptFile("FastExternalTrigger", false, "Missing TSP file")

  // ---------------------------------------------------------------- the fast external-trigger window

  const AlreadyRunning: string := "Measurement already running."

  /** The argument text of one `_format_number` result (the `%.9g` rendering is not modelled). */
  function ArgOf(a: Validators.NumberArg): Arg
  {
    match a
    case NilArg => Text("nil")
    case WholeArg(t) => Text(t)
    case RealArg(v) => Num(v)
  }

  /** The entries `start_measurement` reads. */
  datatype FastEntries = FastEntries(count: string, current: string, sourceRange: string, measureRange: string,
                                     nplc: string, line: string, edge: string)

  /** The checks of `start_measurement` in order (count, current, source range, measure range,
      NPLC, line), then the `run_fast_external_trigger` call they build. */
  function FastCommand(e: FastEntries): (r: Result<Command>)
    ensures r.Ok? <==> Validators.FormatNumber(e.count, true, true).Ok? && Validators.FormatNumber(e.current, true, false).Ok? &&
                       Validators.FormatNumber(e.sourceRange, true, false).Ok? &&
                       Validators.FormatNumber(e.measureRange, true, false).Ok? &&
                       Validators.FormatNumber(e.nplc, true, false).Ok? && Validators.ParseLine(e.line).Ok?
    ensures r.Ok? ==> r.value.header == "run_fast_external_trigger" && |r.value.args| == 7
    ensures Validators.FormatNumber(e.count, true, true).Err? ==> r == Err(Validators.FormatNumber(e.count, true, true).msg)
  {
    match Validators.FormatNumber(e.count, true, true)
    case Err(m) => Err(m)
    case Ok(count) =>
      match Validators.FormatNumber(e.current, true, false)
      case Err(m) => Err(m)
      case Ok(current) =>
        match Validators.FormatNumber(e.sourceRange, true, false)
        case Err(m) => Err(m)
        case Ok(sourceRange) =>
          match Validators.FormatNumber(e.measureRange, true, false)
          case Err(m) => Err(m)
          case Ok(measureRange) =>
            match Validators.FormatNumber(e.nplc, true, false)
            case Err(m) => Err(m)
            case Ok(nplc) =>
              match Validators.ParseLine(e.line)
              case Err(m) => Err(m)
              case Ok(line) =>
                Ok(Command("run_fast_external_trigger",
                           [ArgOf(count), ArgOf(current), ArgOf(sourceRange), ArgOf(measureRange), Whole(line),
                            TriggerListener.EdgeArg(TriggerListener.EdgeChoice(e.edge)), ArgOf(nplc)]))
  }

  /** Blank entries leave every optional argument nil: the script's defaults apply. */
  lemma FastBlankEntriesAreNil(blank: string, line: int, edge: string)
    requires IsBlank(blank) && 1 <= line <= 6
    ensures FastCommand(FastEntries(blank, blank, blank, blank, blank, IntText(line), edge)) ==
            Ok(Command("run_fast_external_trigger",
                       [Text("nil"), Text("nil"), Text("nil"), Text("nil"), Whole(line),
                        TriggerListener.EdgeArg(TriggerListener.EdgeChoice(edge)), Text("nil")]))
  {
    Validators.ParseLineRoundTrip(line);
  }

  /** `_update_buttons`: Run and Cancel of the fast external-trigger window. */
  datatype RunButtons = RunButtons(run: bool, cancel: bool)

  function RunButtonsFor(connected: bool, running: bool): RunButtons
  {
    RunButtons(connected && !running, connected && running)
  }

  /** Run is enabled only when `start_measurement` would not refuse for a running measurement,
      and the two are never enabled together. */
  lemma RunButtonsExclusive(connected: bool, running: bool)
    ensures RunButtonsFor(connected, running).run ==> !running
    ensures RunButtonsFor(connected, running).cancel ==> connected && running
    ensures !(RunButtonsFor(connected, running).run && RunButtonsFor(connected, running).cancel)
  {
  }

  /** The fast external-trigger window: a script-loading voltmeter with run and cancel flags. */
  class FastTrigger {
    const meter: Voltmeter
    var running: bool
    var cancelRequested: bool

    constructor (m: Voltmeter)
      ensures meter == m && !running && !cancelRequested
    {
      meter := m;
      running := false;
      cancelRequested := false;
    }

    /** `start_measurement`: readiness first (which may load the script), then the refusal
        while running, then the entries; on success the run is marked and a new cancel cleared. */
    method StartMeasurement(script: Option<seq<string>>, e: FastEntries) returns (r: Result<Command>)
      modifies this, meter, meter.inst
      ensures meter.inst == old(meter.inst)
      ensures old(meter.inst) == null ==> r == Err(NotReady) && running == old(running)
      ensures old(meter.inst) != null && !meter.scriptLoaded ==> r.Err? && running == old(running)
      ensures meter.scriptLoaded && old(meter.inst) != null && old(running) ==> r == Err(AlreadyRunning) && running
      ensures meter.scriptLoaded && old(meter.inst) != null && !old(running) ==>
                r == FastCommand(e) && running == r.Ok?
      ensures r.Ok? ==> running && !cancelRequested
      ensures !r.Ok? ==> cancelRequested == old(cancelRequested)
    {
      var ready, shown := meter.EnsureReady(script);
      if !ready {
        return Err(if shown.Some? then shown.value else NotReady);
      }
      if running {
        return Err(AlreadyRunning);
      }
      r := FastCommand(e);
      if r.Ok? {
        running := true;
        cancelRequested := false;
      }
    }

    /** `cancel_measurement`: only a running measurement on a live connection is aborted. */
    method CancelMeasurement()
      modifies this, meter.inst
      ensures running == old(running)
      ensures old(running) && meter.inst != null ==>
                cancelRequested && BusOf(meter.inst) == Put(old(BusOf(meter.inst)), [TriggerListener.AbortCommand])
      ensures !(old(running) && meter.inst != null) ==> cancelRequested == old(cancelRequested)
      ensures !old(running) && meter.inst != null ==> unchanged(meter.inst)
    {
      if !running || meter.inst == null {
        return;
      }
      cancelRequested := true;
      ghost var b := BusOf(meter.inst);
      var _ := meter.inst.Write(TriggerListener.AbortCommand);
      PutOne(b, TriggerListener.AbortCommand);
    }

    /** The `finalize` step of `_async_finish`: the run is over. */
    method Finish()
      modifies this
      ensures !running && cancelRequested == old(cancelRequested)
    {
      running := false;
    }
  }
}
