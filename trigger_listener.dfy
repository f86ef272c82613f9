/** The 2450 DIGIO trigger listener.  The instrument side is a TSP script
    whose helpers resolve the edge, line-mode and line arguments and whose
    wait loop polls the trigger input in short chunks; the panel side
    formats those arguments, hands them to a worker, and keeps the
    `waiting` / `cancel_requested` flags. */
module TriggerListener {
  import opened Outcome
  import opened PyText
  import opened Channel
  import opened WriteSequence

  // ================================================================ script helpers

  predicate IsAsciiUpper(c: char) { 'A' <= c <= 'Z' }

  predicate NoUpper(s: string) { forall i :: 0 <= i < |s| ==> !IsAsciiUpper(s[i]) }

  predicate NoSpace(s: string) { forall i :: 0 <= i < |s| ==> !IsSpace(s[i]) }

  /** `string.lower` in the C locale: ASCII letters only. */
  function LuaLower(s: string): (r: string)
    ensures |r| == |s| && NoUpper(r)
    ensures NoUpper(s) ==> r == s
    ensures NoSpace(s) ==> NoSpace(r)
  {
    seq(|s|, i requires 0 <= i < |s| => if IsAsciiUpper(s[i]) then (s[i] as int + 32) as char else s[i])
  }

  datatype Edge = Rising | Falling | Either

  /** `EDGE_MAP`. */
  function EdgeNamed(name: string): Option<Edge>
  {
    if name == "rising" then Some(Rising)
    else if name == "falling" then Some(Falling)
    else if name == "either" then Some(Either)
    else None
  }

  const DefaultEdge: string := "falling"

  /** `resolve_edge`: the edge and its label; nil and unknown names fall back to "falling". */
  function ResolveEdge(edgeName: Option<string>): (r: (Edge, string))
    ensures EdgeNamed(r.1) == Some(r.0)
    ensures edgeName.None? ==> r == (Falling, DefaultEdge)
    ensures edgeName.Some? && EdgeNamed(LuaLower(edgeName.value)).Some? ==> r.1 == LuaLower(edgeName.value)
    ensures edgeName.Some? && EdgeNamed(LuaLower(edgeName.value)).None? ==> r == (Falling, DefaultEdge)
  {
    match edgeName
    case None => (Falling, DefaultEdge)
    case Some(n) =>
      var name := LuaLower(n);
      match EdgeNamed(name)
      case None => (Falling, DefaultEdge)
      case Some(e) => (e, name)
  }

  /** What is left of `s` once its leading blanks are gone. */
  function SkipSpaces(s: string): (r: string)
    ensures r == [] || !IsSpace(r[0])
    ensures |r| <= |s| && r == s[|s| - |r|..]
  {
    if s != [] && IsSpace(s[0]) then SkipSpaces(s[1..]) else s
  }

  /** `string.gsub(key, "%s+", "_")`: each maximal run of blanks becomes one underscore. */
  function CollapseSpaces(s: string): (r: string)
    ensures NoSpace(r)
    decreases |s|
  {
    if s == [] then []
    else if IsSpace(s[0]) then "_" + CollapseSpaces(SkipSpaces(s[1..]))
    else [s[0]] + CollapseSpaces(s[1..])
  }

  /** Collapsing adds only underscores, and leaves blank-free text alone. */
  lemma CollapseFacts(s: string)
    ensures NoUpper(s) ==> NoUpper(CollapseSpaces(s))
    ensures NoSpace(s) ==> CollapseSpaces(s) == s
  {
    if NoUpper(s) {
      CollapseNoUpper(s);
    }
    if NoSpace(s) {
      CollapseIdentity(s);
    }
  }

  lemma NoUpperConcat(a: string, b: string)
    requires NoUpper(a) && NoUpper(b)
    ensures NoUpper(a + b)
  {
    assert forall i :: |a| <= i < |a + b| ==> (a + b)[i] == b[i - |a|];
  }

  lemma {:induction false} CollapseNoUpper(s: string)
    requires NoUpper(s)
    ensures NoUpper(CollapseSpaces(s))
    decreases |s|
  {
    if s != [] {
      if IsSpace(s[0]) {
        var t := SkipSpaces(s[1..]);
        assert forall i :: 0 <= i < |t| ==> t[i] == s[|s| - |t| + i];
        CollapseNoUpper(t);
        NoUpperConcat("_", CollapseSpaces(t));
      } else {
        assert forall i :: 0 <= i < |s| - 1 ==> s[1..][i] == s[i + 1];
        CollapseNoUpper(s[1..]);
        NoUpperConcat([s[0]], CollapseSpaces(s[1..]));
      }
    }
  }

  lemma {:induction false} CollapseIdentity(s: string)
    requires NoSpace(s)
    ensures CollapseSpaces(s) == s
    decreases |s|
  {
    if s != [] {
      assert !IsSpace(s[0]);
      assert forall i :: 0 <= i < |s| - 1 ==> s[1..][i] == s[i + 1];
      CollapseIdentity(s[1..]);
      assert s == [s[0]] + s[1..];
    }
  }

  const DefaultMode: string := "trigger_in"

  /** `normalize_mode_key`. */
  function NormalizeModeKey(modeName: Option<string>): (key: string)
    ensures NoSpace(key) && NoUpper(key)
    ensures modeName.None? ==> key == DefaultMode
    ensures modeName.Some? && NoSpace(modeName.value) ==> key == LuaLower(modeName.value)
  {
    match modeName
    case None => DefaultMode
    case Some(n) => CollapseFacts(LuaLower(n)); CollapseSpaces(LuaLower(n))
  }

  datatype LineMode =
    | DigitalIn | DigitalOut | DigitalOpenDrain
    | TriggerIn | TriggerOut | TriggerOpenDrain
    | SynchronousMaster | SynchronousAcceptor

  /** `MODE_MAP`. */
  function ModeNamed(key: string): Option<LineMode>
  {
    if key == "digital_in" then Some(DigitalIn)
    else if key == "digital_out" then Some(DigitalOut)
    else if key == "digital_open_drain" then Some(DigitalOpenDrain)
    else if key == "trigger_in" then Some(TriggerIn)
    else if key == "trigger_out" then Some(TriggerOut)
    else if key == "trigger_open_drain" then Some(TriggerOpenDrain)
    else if key == "synchronous_master" then Some(SynchronousMaster)
    else if key == "synchronous_acceptor" then Some(SynchronousAcceptor)
    else None
  }

  /** `resolve_mode`: unknown keys fall back to trigger_in. */
  function ResolveMode(modeName: Option<string>): (r: (LineMode, string))
    ensures ModeNamed(r.1) == Some(r.0)
    ensures ModeNamed(NormalizeModeKey(modeName)).Some? ==> r.1 == NormalizeModeKey(modeName)
    ensures ModeNamed(NormalizeModeKey(modeName)).None? ==> r == (TriggerIn, DefaultMode)
  {
    var key := NormalizeModeKey(modeName);
    match ModeNamed(key)
    case None => (TriggerIn, DefaultMode)
    case Some(m) => (m, key)
  }

  /** `is_trigger_input_mode`. */
  predicate IsTriggerInputMode(m: LineMode) { m == TriggerIn || m == TriggerOpenDrain }

  /** `resolve_line`, given `tonumber(line_number)`: nil means line 1, the value is clamped to
      1..6 and floored after a 0.0001 nudge. */
  function ResolveLine(lineNumber: Option<real>): (line: int)
    ensures 1 <= line <= 6
    ensures lineNumber.None? ==> line == 1
    ensures lineNumber.Some? && lineNumber.value <= 1.0 ==> line == 1
    ensures lineNumber.Some? && lineNumber.value >= 6.0 ==> line == 6
    ensures lineNumber.Some? && 1.0 <= lineNumber.value <= 6.0 ==>
              line as real <= lineNumber.value + 0.0001 < line as real + 1.0
  {
    var idx := if lineNumber.None? then 1.0 else lineNumber.value;
    var clamped := if idx < 1.0 then 1.0 else if idx > 6.0 then 6.0 else idx;
    (clamped + 0.0001).Floor
  }

  /** A line number that is a whole number, or just below one, selects that line. */
  lemma ResolveLineNearWhole(n: int, v: real)
    requires 1 <= n <= 6 && n as real - 0.0001 <= v < n as real + 0.9999
    ensures ResolveLine(Some(v)) == n
  {
    var line := ResolveLine(Some(v));
    if 1.0 <= v <= 6.0 {
      assert line as real <= v + 0.0001 < line as real + 1.0;
    }
  }

  /** Edge and mode names are case-insensitive in the script. */
  lemma ResolveIgnoresCase(n: string)
    ensures ResolveEdge(Some(n)) == ResolveEdge(Some(LuaLower(n)))
    ensures ResolveMode(Some(n)) == ResolveMode(Some(LuaLower(n)))
  {
    assert LuaLower(LuaLower(n)) == LuaLower(n);
  }

  /** A normalised key normalises to itself. */
  lemma NormalizeIdempotent(modeName: Option<string>)
    ensures NormalizeModeKey(Some(NormalizeModeKey(modeName))) == NormalizeModeKey(modeName)
    ensures ResolveMode(Some(ResolveMode(modeName).1)) == ResolveMode(modeName)
  {
    var key := NormalizeModeKey(modeName);
    NormalizeFixed(key);
    DefaultModePlain();
    var choice := ResolveMode(modeName).1;
    NormalizeFixed(choice);
  }

  /** Text that is already lower-case and blank-free is its own key. */
  lemma NormalizeFixed(s: string)
    requires NoSpace(s) && NoUpper(s)
    ensures NormalizeModeKey(Some(s)) == s
  {
    CollapseFacts(s);
  }

  lemma DefaultModePlain()
    ensures NoSpace(DefaultMode) && NoUpper(DefaultMode)
  {
    var d := DefaultMode;
    assert forall i :: 0 <= i < |d| ==> KeyChar(d[i]);
  }

  /** A run of blanks between two words becomes a single underscore. */
  lemma CollapseRun(a: string, w: string, b: string)
    requires NoSpace(a) && w != [] && (forall i :: 0 <= i < |w| ==> IsSpace(w[i]))
    requires b == [] || !IsSpace(b[0])
    ensures CollapseSpaces(a + w + b) == a + "_" + CollapseSpaces(b)
  {
    LeadingRun(w, b);
    ConcatNoSpace(a, w + b);
    assert a + w + b == a + (w + b);
  }

  lemma LeadingRun(w: string, b: string)
    requires w != [] && (forall i :: 0 <= i < |w| ==> IsSpace(w[i]))
    requires b == [] || !IsSpace(b[0])
    ensures CollapseSpaces(w + b) == "_" + CollapseSpaces(b)
  {
    var wb := w + b;
    assert wb[0] == w[0] && IsSpace(wb[0]);
    assert wb[1..] == w[1..] + b;
    SkipRun(w[1..], b);
  }

  lemma {:induction false} SkipRun(w: string, b: string)
    requires forall i :: 0 <= i < |w| ==> IsSpace(w[i])
    requires b == [] || !IsSpace(b[0])
    ensures SkipSpaces(w + b) == b
    decreases |w|
  {
    if w == [] {
      assert w + b == b;
    } else {
      assert (w + b)[0] == w[0];
      assert (w + b)[1..] == w[1..] + b;
      SkipRun(w[1..], b);
    }
  }

  /** Collapsing passes a blank-free prefix through unchanged. */
  lemma {:induction false} ConcatNoSpace(a: string, b: string)
    requires NoSpace(a)
    ensures CollapseSpaces(a + b) == a + CollapseSpaces(b)
    decreases |a|
  {
    if a == [] {
      assert a + b == b;
    } else {
      assert (a + b)[0] == a[0] && !IsSpace(a[0]);
      assert (a + b)[1..] == a[1..] + b;
      ConcatNoSpace(a[1..], b);
      assert a == [a[0]] + a[1..];
    }
  }

  // ================================================================ the wait loop

  /** The length of one wait call. */
  const Chunk: real := 0.25

  /** The sum of the waits so far (the loop's `elapsed`). */
  function Total(ws: seq<real>): real
  {
    if ws == [] then 0.0 else Total(ws[..|ws| - 1]) + ws[|ws| - 1]
  }

  /** The answer of the `i`-th `trigger.digin[line].wait` call; calls past the given outcomes
      see no trigger. */
  predicate DigIn(digin: seq<bool>, i: nat) { i < |digin| && digin[i] }

  /** Whether `receive_trigger_cancel()` has set the flag by the time `i` waits have run. */
  predicate CancelSeen(cancelAt: Option<nat>, i: nat) { cancelAt.Some? && cancelAt.value <= i }

  /** Without a timeout the loop only ends on a trigger or a cancel; a wait with none of the
      three never returns, so it is not a call the loop models. */
  predicate WaitEnds(timeout: Option<real>, digin: seq<bool>, cancelAt: Option<nat>)
  {
    timeout.Some? || cancelAt.Some? || exists i :: 0 <= i < |digin| && digin[i]
  }

  /** The shape of the waits so far: every one a positive chunk at most, all but the last a
      whole chunk, their total within the timeout, and the last one the smaller of a chunk
      and the time that was left. */
  ghost predicate ChunkedWaits(timeout: Option<real>, waits: seq<real>)
  {
    (forall k :: 0 <= k < |waits| ==> 0.0 < waits[k] <= Chunk) &&
    (forall k :: 0 <= k < |waits| - 1 ==> waits[k] == Chunk) &&
    (timeout.None? ==> forall k :: 0 <= k < |waits| ==> waits[k] == Chunk) &&
    (timeout.Some? ==>
       Total(waits) <= Max(timeout.value, 0.0) &&
       (timeout.value < 0.0 ==> waits == []) &&
       (waits == [] || waits[|waits| - 1] == Chunk ==> Total(waits) == Chunk * |waits| as real) &&
       (waits != [] && waits[|waits| - 1] != Chunk ==> Total(waits) == timeout.value) &&
       (waits != [] ==> waits[|waits| - 1] == Min(Chunk, Max(timeout.value, 0.0) - Total(waits[..|waits| - 1]))))
  }

  /** The next wait: a whole chunk, or with a timeout the time left when that is shorter. */
  function NextWait(timeout: Option<real>, elapsed: real): real
  {
    if timeout.Some? && elapsed + Chunk > timeout.value then timeout.value - elapsed else Chunk
  }

  /** One more wait keeps the shape, as long as time was left. */
  lemma ChunkedSnoc(timeout: Option<real>, waits: seq<real>)
    requires ChunkedWaits(timeout, waits)
    requires timeout.Some? ==> Total(waits) < timeout.value
    ensures var w := NextWait(timeout, if timeout.Some? then Total(waits) else 0.0);
            w > 0.0 && ChunkedWaits(timeout, waits + [w])
  {
    var e := if timeout.Some? then Total(waits) else 0.0;
    var w := NextWait(timeout, e);
    var ws := waits + [w];
    assert ws[..|ws| - 1] == waits;
    assert Total(ws) == Total(waits) + w;
    var whole := waits == [] || waits[|waits| - 1] == Chunk;
    if timeout.Some? {
      assert whole;
      assert w == Min(Chunk, Max(timeout.value, 0.0) - e);
    }
    assert 0.0 < w <= Chunk;
    forall k | 0 <= k < |ws|
      ensures 0.0 < ws[k] <= Chunk
    {
      if k < |waits| {
        assert ws[k] == waits[k];
      }
    }
    forall k | 0 <= k < |ws| - 1
      ensures ws[k] == Chunk
    {
      assert ws[k] == waits[k];
    }
  }

  /** While time is left, the waits so far are whole chunks fewer than `4 t`, which leaves
      room under the loop's bound. */
  lemma ChunkBound(timeout: Option<real>, waits: seq<real>)
    requires timeout.Some? && ChunkedWaits(timeout, waits) && Total(waits) < timeout.value
    ensures |waits| < (4.0 * timeout.value).Floor + 1
  {
    assert Total(waits) == Chunk * |waits| as real;
    assert (|waits| as real) < 4.0 * timeout.value;
  }

  /** The chunked wait of `receive_trigger_wait`: `waits` are the durations passed to the
      successive wait calls. */
  method WaitLoop(timeout: Option<real>, digin: seq<bool>, cancelAt: Option<nat>)
    returns (triggered: bool, cancelled: bool, ghost waits: seq<real>)
    requires WaitEnds(timeout, digin, cancelAt)
    ensures cancelled == CancelSeen(cancelAt, |waits|)
    ensures forall k :: 0 <= k < |waits| ==> 0.0 < waits[k] <= Chunk
    ensures timeout.Some? ==> Total(waits) <= Max(timeout.value, 0.0)
    ensures timeout.None? ==> forall k :: 0 <= k < |waits| ==> waits[k] == Chunk
    ensures forall k :: 0 <= k < |waits| - 1 ==> waits[k] == Chunk
    ensures forall k :: 0 <= k < |waits| ==> !CancelSeen(cancelAt, k)
    ensures forall k :: 0 <= k < |waits| - 1 ==> !DigIn(digin, k)
    ensures triggered <==> |waits| > 0 && DigIn(digin, |waits| - 1)
    ensures !triggered && !CancelSeen(cancelAt, |waits|) ==>
              timeout.Some? && Total(waits) == Max(timeout.value, 0.0)
    ensures timeout.Some? && |waits| > 0 ==>
              waits[|waits| - 1] == Min(Chunk, Max(timeout.value, 0.0) - Total(waits[..|waits| - 1]))
  {
    ghost var bound: int;
    if timeout.Some? {
      bound := if timeout.value > 0.0 then (4.0 * timeout.value).Floor + 1 else 1;
    } else if cancelAt.Some? {
      bound := cancelAt.value;
    } else {
      ghost var j :| 0 <= j < |digin| && digin[j];
      bound := j + 1;
      assert bound <= |digin| && DigIn(digin, bound - 1);
    }
    triggered := false;
    waits := [];
    var elapsed := 0.0;
    var i := 0;
    while !triggered && !CancelSeen(cancelAt, i)
      invariant i == |waits| && 0 <= i <= bound
      invariant elapsed == (if timeout.Some? then Total(waits) else 0.0)
      invariant ChunkedWaits(timeout, waits)
      invariant timeout.None? && cancelAt.None? ==> DigIn(digin, bound - 1) && (i > 0 ==> i - 1 < bound - 1 || triggered)
      invariant forall k :: 0 <= k < i ==> !CancelSeen(cancelAt, k)
      invariant forall k :: 0 <= k < i - 1 ==> !DigIn(digin, k)
      invariant triggered <==> i > 0 && DigIn(digin, i - 1)
      decreases bound - i
    {
      if timeout.Some? && timeout.value <= elapsed {
        break;
      }
      var waitTime := NextWait(timeout, elapsed);
      ChunkedSnoc(timeout, waits);
      if timeout.Some? {
        ChunkBound(timeout, waits);
      }
      triggered := DigIn(digin, i);
      waits := waits + [waitTime];
      if timeout.Some? {
        elapsed := elapsed + waitTime;
        assert Total(waits) == Total(waits[..i]) + waitTime;
      }
      i := i + 1;
    }
    cancelled := CancelSeen(cancelAt, i);
  }

  /** The words `receive_trigger_wait` prints. */
  predicate IsWaitResult(w: string)
  {
    w == "CANCEL" || w == "TRIGGER" || w == "TIMEOUT" || w == "INVALID_MODE"
  }

  /** `receive_trigger_wait(timeout, edge, line, mode)`: a line mode that is not a trigger input
      is refused before any wait; otherwise the chunked wait runs and a cancel outranks a
      trigger, which outranks a timeout.  `digin` and `cancelAt` describe the resolved line and
      the cancel command. */
  method ReceiveTriggerWait(timeout: Option<real>, edgeName: Option<string>, lineNumber: Option<real>,
                            modeName: Option<string>, digin: seq<bool>, cancelAt: Option<nat>)
    returns (result: string, ghost waits: seq<real>)
    requires IsTriggerInputMode(ResolveMode(modeName).0) ==> WaitEnds(timeout, digin, cancelAt)
    ensures IsWaitResult(result)
    ensures result == "INVALID_MODE" <==> !IsTriggerInputMode(ResolveMode(modeName).0)
    ensures result == "INVALID_MODE" ==> waits == []
    ensures result != "INVALID_MODE" ==>
              (result == "CANCEL" <==> CancelSeen(cancelAt, |waits|)) &&
              (result == "TRIGGER" <==> !CancelSeen(cancelAt, |waits|) && |waits| > 0 && DigIn(digin, |waits| - 1))
    ensures result == "TIMEOUT" ==> timeout.Some? && Total(waits) == Max(timeout.value, 0.0)
    ensures timeout.Some? ==> Total(waits) <= Max(timeout.value, 0.0)
    ensures forall k :: 0 <= k < |waits| ==> 0.0 < waits[k] <= Chunk
    ensures forall k :: 0 <= k < |waits| ==> !CancelSeen(cancelAt, k)
    ensures forall k :: 0 <= k < |waits| - 1 ==> !DigIn(digin, k)
  {
    var edge := ResolveEdge(edgeName);
    var mode := ResolveMode(modeName);
    var line := ResolveLine(lineNumber);
    if !IsTriggerInputMode(mode.0) {
      return "INVALID_MODE", [];
    }
    var triggered, cancelled;
    triggered, cancelled, waits := WaitLoop(timeout, digin, cancelAt);
    if cancelled {
      result := "CANCEL";
    } else if triggered {
      result := "TRIGGER";
    } else {
      result := "TIMEOUT";
    }
  }

  // ================================================================ the panel

  const NotReadyText: string := "Connect to the instrument first."
  const LoadFailedText: string := "Failed to load script"
  const AlreadyWaiting: string := "Already waiting for a trigger."
  const TimeoutNotNumeric: string := "Timeout must be numeric."
  const TimeoutNegative: string := "Timeout must be >= 0."
  const LineNotInteger: string := "Select a valid DIGIO line (1-6)."
  const LineOutOfRange: string := "DIGIO line must be between 1 and 6."
  const ModeNotSelected: string := "Select a valid line mode."
  const SetupFailed: string := "Setup failed"

  /** `_format_timeout_arg`: blank is nil; otherwise a float that is not negative. */
  function FormatTimeoutArg(text: string): (r: Result<Option<real>>)
    ensures r == Ok(None) <==> IsBlank(text)
    ensures !IsBlank(text) && !IsReal(text) ==> r == Err(TimeoutNotNumeric)
    ensures IsReal(text) && ParseReal(text).value < 0.0 ==> r == Err(TimeoutNegative)
    ensures IsReal(text) && ParseReal(text).value >= 0.0 ==> r == Ok(ParseReal(text))
  {
    ParseRealOfStrip(text);
    var t := Strip(text);
    if t == [] then Ok(None)
    else
      match ParseReal(t)
      case None => Err(TimeoutNotNumeric)
      case Some(v) => if v < 0.0 then Err(TimeoutNegative) else Ok(Some(v))
  }

  /** `_resolve_line_number`: blank selects line 1; otherwise an integer 1..6. */
  function ResolveLineNumber(text: string): (r: Result<int>)
    ensures r.Ok? ==> 1 <= r.value <= 6
    ensures IsBlank(text) ==> r == Ok(1)
    ensures !IsBlank(text) ==>
              (ParseInt(text).None? ==> r == Err(LineNotInteger)) &&
              (ParseInt(text).Some? ==> r == if 1 <= ParseInt(text).value <= 6 then Ok(ParseInt(text).value) else Err(LineOutOfRange))
  {
    StripIdempotent(text);
    var t := Strip(text);
    var value := if t == [] then "1" else t;
    assert t != [] ==> ParseInt(value) == ParseInt(text);
    IntTextRoundTrip(1);
    assert IntText(1) == "1";
    match ParseInt(value)
    case None => Err(LineNotInteger)
    case Some(n) => if 1 <= n <= 6 then Ok(n) else Err(LineOutOfRange)
  }

  /** A line typed as its number selects it; any other whole number is out of range. */
  lemma ResolveLineNumberRoundTrip(n: int)
    ensures ResolveLineNumber(IntText(n)) == if 1 <= n <= 6 then Ok(n) else Err(LineOutOfRange)
  {
    IntTextRoundTrip(n);
    IntTextChars(n);
    NoEdgeSpaceStripFixed(IntText(n));
  }

  /** The script key of each line mode (the keys of `MODE_MAP`). */
  function ModeKey(m: LineMode): string
  {
    match m
    case DigitalIn => "digital_in"
    case DigitalOut => "digital_out"
    case DigitalOpenDrain => "digital_open_drain"
    case TriggerIn => "trigger_in"
    case TriggerOut => "trigger_out"
    case TriggerOpenDrain => "trigger_open_drain"
    case SynchronousMaster => "synchronous_master"
    case SynchronousAcceptor => "synchronous_acceptor"
  }

  /** `LINE_MODE_LOOKUP`: the labels the panel offers and the modes they stand for. */
  function SelectedMode(choice: string): Option<LineMode>
  {
    if choice == "Trigger control, input" then Some(TriggerIn)
    else if choice == "Trigger control, open-drain" then Some(TriggerOpenDrain)
    else if choice == "Trigger control, output" then Some(TriggerOut)
    else if choice == "Digital control, input" then Some(DigitalIn)
    else if choice == "Digital control, output" then Some(DigitalOut)
    else if choice == "Digital control, open-drain" then Some(DigitalOpenDrain)
    else if choice == "Synchronous master" then Some(SynchronousMaster)
    else if choice == "Synchronous acceptor" then Some(SynchronousAcceptor)
    else None
  }

  /** `_resolve_mode_selection`: the script key and label of the chosen entry. */
  function ResolveModeSelection(choice: string): (r: Result<(string, string)>)
    ensures r.Ok? <==> SelectedMode(choice).Some?
    ensures r.Ok? ==> r.value == (ModeKey(SelectedMode(choice).value), choice)
    ensures r.Err? ==> r.msg == ModeNotSelected
  {
    match SelectedMode(choice)
    case None => Err(ModeNotSelected)
    case Some(m) => Ok((ModeKey(m), choice))
  }

  predicate KeyChar(c: char) { 'a' <= c <= 'z' || c == '_' }

  /** Text made of lower-case letters and underscores only. */
  predicate KeyText(s: string) { forall i :: 0 <= i < |s| ==> KeyChar(s[i]) }

  lemma KeyTextPlain(s: string)
    requires KeyText(s)
    ensures NoSpace(s) && NoUpper(s)
  {
  }

  lemma ModeKeyText(m: LineMode)
    ensures KeyText(ModeKey(m))
  {
  }

  /** The script knows every key the panel sends, as the mode it stands for. */
  lemma ModeKeyNamed(m: LineMode)
    ensures ModeNamed(ModeKey(m)) == Some(m)
  {
  }

  /** A key the panel sends resolves, in the script, to its own mode and label. */
  lemma ModeKeyResolves(m: LineMode)
    ensures ResolveMode(Some(ModeKey(m))) == (m, ModeKey(m))
  {
    ModeKeyText(m);
    KeyTextPlain(ModeKey(m));
    CollapseFacts(ModeKey(m));
    ModeKeyNamed(m);
  }

  /** The edge names the panel offers (`EDGE_OPTIONS`) reach the script unchanged. */
  lemma EdgeOptionsResolve(e: string)
    requires e == "falling" || e == "rising" || e == "either"
    ensures ResolveEdge(Some(e)) == (EdgeNamed(e).value, e)
  {
    assert KeyText(e);
    KeyTextPlain(e);
  }

  /** The selected line reaches the script as itself. */
  lemma LineReachesScript(lineText: string)
    requires ResolveLineNumber(lineText).Ok?
    ensures ResolveLine(Some(ResolveLineNumber(lineText).value as real)) == ResolveLineNumber(lineText).value
  {
    var n := ResolveLineNumber(lineText).value;
    ResolveLineNearWhole(n, n as real);
  }

  /** Exactly the two trigger-control input labels select a line mode the wait accepts. */
  lemma WaitableLabels(choice: string)
    requires SelectedMode(choice).Some?
    ensures IsTriggerInputMode(SelectedMode(choice).value) <==>
              choice == "Trigger control, input" || choice == "Trigger control, open-drain"
  {
  }

  /** The arguments the worker passes to `receive_trigger_wait`. */
  datatype WaitRequest = WaitRequest(timeout: Option<real>, edge: Option<string>, line: int, modeKey: string)

  /** `wait_context`: what the log describes a wait by. */
  datatype WaitContext = WaitContext(line: int, modeLabel: string, edge: string, timeout: Option<real>)

  /** The reply handed to `_async_complete_wait`: a result word, or an error text. */
  datatype WaitReply = WaitReply(result: Option<string>, error: Option<string>)

  /** How `_async_complete_wait` reports a finished wait. */
  datatype WaitOutcome =
    | WaitCancelled | TriggerReceived | WaitTimedOut | ModeIncompatible
    | WaitFailed(error: string) | OtherResult(text: string) | Unreported

  /** The classification in `finish()`; `cancelRequested` is the flag at completion time. */
  function FinishOutcome(result: Option<string>, error: Option<string>, cancelRequested: bool): (o: WaitOutcome)
    ensures o == TriggerReceived <==> result.Some? && Upper(result.value) == "TRIGGER"
    ensures result.Some? && Upper(result.value) == "CANCEL" ==> o == WaitCancelled
    ensures cancelRequested && result.None? ==> o == WaitCancelled || o == Unreported
    ensures o.WaitFailed? ==> !cancelRequested && error == Some(o.error) && o.error != []
    ensures o.OtherResult? ==> result == Some(o.text) && !IsWaitResult(Upper(o.text))
  {
    var res := if result.Some? then Some(Upper(result.value)) else None;
    if res == Some("CANCEL") || (cancelRequested && res.None? && error.None?) then WaitCancelled
    else if res == Some("TRIGGER") then TriggerReceived
    else if res == Some("TIMEOUT") then WaitTimedOut
    else if res == Some("INVALID_MODE") then ModeIncompatible
    else if error.Some? && error.value != [] then (if cancelRequested then WaitCancelled else WaitFailed(error.value))
    else if res.Some? && res.value != [] then OtherResult(result.value)
    else Unreported
  }

  /** The status line after a finished wait; a failure only raises a dialog. */
  function FinishStatus(o: WaitOutcome, status: string): string
  {
    match o
    case WaitCancelled => "Wait cancelled."
    case TriggerReceived => "Trigger received."
    case WaitTimedOut => "Timeout (no trigger detected)."
    case ModeIncompatible => "Line mode incompatible with trigger wait."
    case WaitFailed(_) => status
    case OtherResult(t) => "Wait result: " + t
    case Unreported => status
  }

  /** Every word the script prints, read back by the worker, is reported as what it means. */
  lemma ScriptWordsClassified(w: string, cancelRequested: bool)
    requires IsWaitResult(w)
    ensures FinishOutcome(Some(Upper(Strip(w))), None, cancelRequested) == WordOutcome(w)
  {
    WaitWordsText(w);
    WordTextFixed(w);
    FinishOnWords(w, cancelRequested);
  }

  /** The outcome each printed word stands for. */
  function WordOutcome(w: string): WaitOutcome
  {
    if w == "CANCEL" then WaitCancelled
    else if w == "TRIGGER" then TriggerReceived
    else if w == "TIMEOUT" then WaitTimedOut
    else ModeIncompatible
  }

  lemma WaitWordsText(w: string)
    requires IsWaitResult(w)
    ensures WordText(w)
  {
  }

  lemma FinishOnWords(w: string, cancelRequested: bool)
    requires IsWaitResult(w) && Upper(w) == w
    ensures FinishOutcome(Some(w), None, cancelRequested) == WordOutcome(w)
  {
  }

  /** Text made of upper-case letters and underscores only. */
  predicate WordText(s: string) { forall i :: 0 <= i < |s| ==> 'A' <= s[i] <= 'Z' || s[i] == '_' }

  lemma WordTextFixed(s: string)
    requires WordText(s)
    ensures Upper(Strip(s)) == s
  {
    if s != [] {
      assert !IsSpace(s[0]) && !IsSpace(s[|s| - 1]);
    }
    NoEdgeSpaceStripFixed(s);
    assert Upper(s) == s;
  }

  const DeleteScript: Command := Cmd("pcall(script.delete, 'ReceiveTrigger')")
  const SaveScript: Command := Cmd("ReceiveTrigger.save()")
  const RunScript: Command := Cmd("ReceiveTrigger()")
  const CancelCommand: Command := Cmd("receive_trigger_cancel()")
  const AbortCommand: Command := Cmd("abort")

  /** The upload after the delete: the script's lines, then save and run. */
  function UploadCommands(script: seq<Command>): seq<Command> { script + [SaveScript, RunScript] }

  /** The upload succeeds when every write after the (possibly failing) delete goes out. */
  predicate UploadSucceeds(faults: seq<bool>, script: seq<Command>)
  {
    Sent(DropFirst(faults), UploadCommands(script)) == |UploadCommands(script)|
  }

  /** What the upload leaves in the write log. */
  function UploadLog(faults: seq<bool>, script: seq<Command>): seq<Command>
  {
    (if FirstSet(faults) then [] else [DeleteScript]) +
    UploadCommands(script)[..Sent(DropFirst(faults), UploadCommands(script))]
  }

  /** The fault queue after the upload: the delete and every attempted later write consume one answer each. */
  function AfterUpload(faults: seq<bool>, script: seq<Command>): seq<bool>
  {
    DropN(DropFirst(faults), Attempted(DropFirst(faults), UploadCommands(script)))
  }

  /** What `_check_ready` writes: nothing when the script is loaded, otherwise the upload. */
  function ReadyLog(loaded: bool, faults: seq<bool>, script: seq<Command>): seq<Command>
  {
    if loaded then [] else UploadLog(faults, script)
  }

  /** The fault queue `_check_ready` leaves behind. */
  function ReadyFaults(loaded: bool, faults: seq<bool>, script: seq<Command>): seq<bool>
  {
    if loaded then faults else AfterUpload(faults, script)
  }

  /** Argument text the script receives. */
  function TimeoutArg(t: Option<real>): Arg { if t.None? then Text("nil") else Num(t.value) }

  function EdgeArg(e: Option<string>): Arg { if e.None? then Text("nil") else Text(e.value) }

  function WaitCommand(req: WaitRequest): Command
  {
    Command("print(receive_trigger_wait", [TimeoutArg(req.timeout), EdgeArg(req.edge), Whole(req.line), Text(req.modeKey)])
  }

  function SetupCommand(edge: Option<string>, line: int, key: string): Command
  {
    Command("receive_trigger_setup", [EdgeArg(edge), Whole(line), Text(key)])
  }

  /** The edge argument: the stripped, lower-cased entry, or nil when blank. */
  function EdgeChoice(edgeText: string): Option<string>
  {
    var e := Lower(Strip(edgeText));
    if e == [] then None else Some(e)
  }

  /** The argument checks of `start_wait` after the readiness checks, in the source's order. */
  function WaitArguments(timeoutText: string, edgeText: string, lineText: string, choice: string): (r: Result<WaitRequest>)
    ensures r.Ok? <==> FormatTimeoutArg(timeoutText).Ok? && ResolveLineNumber(lineText).Ok? &&
                        ResolveModeSelection(choice).Ok?
    ensures r.Ok? ==> r.value == WaitRequest(FormatTimeoutArg(timeoutText).value, EdgeChoice(edgeText),
                                             ResolveLineNumber(lineText).value, ResolveModeSelection(choice).value.0)
    ensures FormatTimeoutArg(timeoutText).Err? ==> r == Err(FormatTimeoutArg(timeoutText).msg)
  {
    match FormatTimeoutArg(timeoutText)
    case Err(m) => Err(m)
    case Ok(t) =>
      match ResolveLineNumber(lineText)
      case Err(m) => Err(m)
      case Ok(n) =>
        match ResolveModeSelection(choice)
        case Err(m) => Err(m)
        case Ok(sel) => Ok(WaitRequest(t, EdgeChoice(edgeText), n, sel.0))
  }

  /** What a panel action that starts with `_check_ready` does to the session: its result, the
      commands it writes, the fault queue it leaves and the loaded flag afterwards. */
  datatype PanelStep<T> = PanelStep(result: Result<T>, log: seq<Command>, faults: seq<bool>, loaded: bool)

  /** `start_wait` on a connected panel: readiness first, then the waiting check, then the
      arguments; only the readiness check writes. */
  function StartSpec(loaded: bool, waiting: bool, faults: seq<bool>, timeoutText: string, edgeText: string,
                     lineText: string, choice: string, script: seq<Command>): (s: PanelStep<WaitRequest>)
    ensures s.loaded == (loaded || UploadSucceeds(faults, script))
    ensures s.log == ReadyLog(loaded, faults, script) && s.faults == ReadyFaults(loaded, faults, script)
    ensures !s.loaded ==> s.result == Err(LoadFailedText)
    ensures s.loaded && waiting ==> s.result == Err(AlreadyWaiting)
    ensures s.loaded && !waiting ==> s.result == WaitArguments(timeoutText, edgeText, lineText, choice)
    ensures s.result.Ok? <==> s.loaded && !waiting && WaitArguments(timeoutText, edgeText, lineText, choice).Ok?
  {
    var ready := loaded || UploadSucceeds(faults, script);
    var r := if !ready then Err(LoadFailedText)
             else if waiting then Err(AlreadyWaiting)
             else WaitArguments(timeoutText, edgeText, lineText, choice);
    PanelStep(r, ReadyLog(loaded, faults, script), ReadyFaults(loaded, faults, script), ready)
  }

  /** `setup_trigger` on a connected panel: readiness, the line, the mode, then one write of
      the setup command, which is refused when its fault is scripted. */
  function SetupSpec(loaded: bool, faults: seq<bool>, edgeText: string, lineText: string, choice: string,
                     script: seq<Command>): (s: PanelStep<Command>)
    ensures s.loaded == (loaded || UploadSucceeds(faults, script))
    ensures var f := ReadyFaults(loaded, faults, script);
            var line := ResolveLineNumber(lineText);
            var mode := ResolveModeSelection(choice);
            var go := s.loaded && line.Ok? && mode.Ok?;
            (!s.loaded ==> s.result == Err(LoadFailedText)) &&
            (s.loaded && line.Err? ==> s.result == Err(line.msg)) &&
            (s.loaded && line.Ok? && mode.Err? ==> s.result == Err(mode.msg)) &&
            (go && FirstSet(f) ==> s.result == Err(SetupFailed)) &&
            (s.result.Ok? <==> go && !FirstSet(f)) &&
            (s.result.Ok? ==> s.result.value == SetupCommand(EdgeChoice(edgeText), line.value, mode.value.0)) &&
            s.log == ReadyLog(loaded, faults, script) + (if s.result.Ok? then [s.result.value] else []) &&
            s.faults == (if go then DropFirst(f) else f)
  {
    var ready := loaded || UploadSucceeds(faults, script);
    var log := ReadyLog(loaded, faults, script);
    var f := ReadyFaults(loaded, faults, script);
    if !ready then PanelStep(Err(LoadFailedText), log, f, false)
    else match ResolveLineNumber(lineText)
      case Err(m) => PanelStep(Err(m), log, f, true)
      case Ok(n) =>
        match ResolveModeSelection(choice)
        case Err(m) => PanelStep(Err(m), log, f, true)
        case Ok(sel) =>
          var c := SetupCommand(EdgeChoice(edgeText), n, sel.0);
          if FirstSet(f) then PanelStep(Err(SetupFailed), log, DropFirst(f), true)
          else PanelStep(Ok(c), log + [c], DropFirst(f), true)
  }

  /** The edge as the log shows it. */
  function EdgeLabel(e: Option<string>): string { if e.None? then "default" else e.value }

  /** `_set_buttons`. */
  datatype ListenerButtons = ListenerButtons(setup: bool, wait: bool, cancel: bool, hello: bool, hey: bool, clear: bool)

  function SetButtons(connected: bool, waiting: bool): (b: ListenerButtons)
    ensures b.setup <==> connected && !waiting
    ensures b.wait <==> connected && !waiting
    ensures b.cancel <==> connected && waiting
    ensures (b.hello <==> connected) && (b.hey <==> connected) && (b.clear <==> connected)
    ensures !(b.wait && b.cancel)
  {
    var idle := connected && !waiting;
    ListenerButtons(idle, idle, connected && waiting, connected, connected, connected)
  }

  /** `ReceiveTriggerGUI`: the session and the wait state. */
  class ListenerPanel {
    var inst: Instrument?
    var scriptLoaded: bool
    var waiting: bool
    var cancelRequested: bool
    var waitContext: Option<WaitContext>
    var status: string

    constructor ()
      ensures inst == null && !scriptLoaded && !waiting && !cancelRequested && waitContext.None?
      ensures status == "Disconnected"
    {
      inst := null;
      scriptLoaded := false;
      waiting := false;
      cancelRequested := false;
      waitContext := None;
      status := "Disconnected";
    }

    /** `_load_script`: delete any old copy (a failure is ignored), then upload, save and run. */
    method LoadScript(script: seq<Command>)
      modifies this, inst
      ensures inst == old(inst) && waiting == old(waiting) && cancelRequested == old(cancelRequested)
      ensures waitContext == old(waitContext) && status == old(status)
      ensures old(inst) == null ==> scriptLoaded == old(scriptLoaded)
      ensures inst != null ==>
                scriptLoaded == UploadSucceeds(old(inst.faults), script) &&
                inst.written == old(inst.written) + UploadLog(old(inst.faults), script) &&
                inst.faults == AfterUpload(old(inst.faults), script) &&
                inst.pending == old(inst.pending) && inst.timeout == old(inst.timeout)
    {
      if inst == null {
        return;
      }
      var deleted := inst.Write(DeleteScript);
      var ok := WriteAll(inst, UploadCommands(script));
      scriptLoaded := ok;
    }

    /** `_check_ready`: connected, with the script loaded (loading it once more if needed). */
    method CheckReady(script: seq<Command>) returns (ready: bool)
      modifies this, inst
      ensures inst == old(inst) && waiting == old(waiting) && cancelRequested == old(cancelRequested)
      ensures waitContext == old(waitContext) && status == old(status)
      ensures ready <==> old(inst) != null && (old(scriptLoaded) || UploadSucceeds(old(inst.faults), script))
      ensures ready ==> scriptLoaded
      ensures old(inst) == null ==> scriptLoaded == old(scriptLoaded)
      ensures old(inst) != null ==>
                scriptLoaded == (old(scriptLoaded) || UploadSucceeds(old(inst.faults), script)) &&
                inst.written == old(inst.written) + ReadyLog(old(scriptLoaded), old(inst.faults), script) &&
                inst.faults == ReadyFaults(old(scriptLoaded), old(inst.faults), script)
      ensures inst != null ==> inst.pending == old(inst.pending) && inst.timeout == old(inst.timeout)
    {
      if inst == null {
        return false;
      }
      if !scriptLoaded {
        LoadScript(script);
      }
      ready := scriptLoaded;
    }

    /** `start_wait`: refused when not ready or already waiting, or when an argument is bad;
        otherwise the wait state is set and the worker's arguments are returned. */
    method StartWait(timeoutText: string, edgeText: string, lineText: string, choice: string, script: seq<Command>)
      returns (r: Result<WaitRequest>)
      modifies this, inst
      ensures inst == old(inst) && status == old(status)
      ensures old(inst) == null ==> r == Err(NotReadyText) && scriptLoaded == old(scriptLoaded)
      ensures old(inst) != null ==>
                var s := StartSpec(old(scriptLoaded), old(waiting), old(inst.faults), timeoutText, edgeText,
                                   lineText, choice, script);
                r == s.result && scriptLoaded == s.loaded &&
                inst.written == old(inst.written) + s.log && inst.faults == s.faults &&
                inst.pending == old(inst.pending) && inst.timeout == old(inst.timeout)
      ensures r.Ok? ==> waiting && !cancelRequested &&
                        waitContext == Some(WaitContext(r.value.line, choice, EdgeLabel(r.value.edge), r.value.timeout))
      ensures r.Err? ==> waiting == old(waiting) && cancelRequested == old(cancelRequested) &&
                         waitContext == old(waitContext)
    {
      var ready := CheckReady(script);
      r := BeginWait(ready, timeoutText, edgeText, lineText, choice);
    }

    /** The part of `start_wait` after `_check_ready`: the waiting check, the arguments, and
        the wait state when they are good. */
    method BeginWait(ready: bool, timeoutText: string, edgeText: string, lineText: string, choice: string)
      returns (r: Result<WaitRequest>)
      modifies this
      ensures inst == old(inst) && scriptLoaded == old(scriptLoaded) && status == old(status)
      ensures r == if !ready then Err(if inst == null then NotReadyText else LoadFailedText)
                   else if old(waiting) then Err(AlreadyWaiting)
                   else WaitArguments(timeoutText, edgeText, lineText, choice)
      ensures r.Ok? ==> waiting && !cancelRequested &&
                        waitContext == Some(WaitContext(r.value.line, choice, EdgeLabel(r.value.edge), r.value.timeout))
      ensures r.Err? ==> waiting == old(waiting) && cancelRequested == old(cancelRequested) &&
                         waitContext == old(waitContext)
    {
      if !ready {
        return Err(if inst == null then NotReadyText else LoadFailedText);
      }
      if waiting {
        return Err(AlreadyWaiting);
      }
      r := WaitArguments(timeoutText, edgeText, lineText, choice);
      if r.Ok? {
        waiting := true;
        cancelRequested := false;
        waitContext := Some(WaitContext(r.value.line, choice, EdgeLabel(r.value.edge), r.value.timeout));
      }
    }

    /** `_wait_worker`: query the wait and hand back the stripped, upper-cased reply, or the
        VISA error. */
    method WaitWorker(req: WaitRequest) returns (reply: WaitReply)
      requires inst != null
      modifies inst
      ensures var o := QueryOutcome(old(inst.pending), old(inst.faults));
              reply == (if o.Line? then WaitReply(Some(Upper(Strip(o.text))), None) else WaitReply(None, Some(VisaErrorText(o))))
      ensures inst.written == old(inst.written) + (if FirstSet(old(inst.faults)) then [] else [WaitCommand(req)])
    {
      var o := inst.Query(WaitCommand(req));
      if o.Line? {
        reply := WaitReply(Some(Upper(Strip(o.text))), None);
      } else {
        reply := WaitReply(None, Some(VisaErrorText(o)));
      }
    }

    /** `_async_complete_wait`'s `finish()`: the wait is over whatever the reply, the outcome is
        reported, and the cancel request and context are cleared. */
    method CompleteWait(reply: WaitReply) returns (outcome: WaitOutcome)
      modifies this
      ensures outcome == FinishOutcome(reply.result, reply.error, old(cancelRequested))
      ensures !waiting && !cancelRequested && waitContext.None?
      ensures status == FinishStatus(outcome, old(status))
      ensures inst == old(inst) && scriptLoaded == old(scriptLoaded)
    {
      waiting := false;
      outcome := FinishOutcome(reply.result, reply.error, cancelRequested);
      status := FinishStatus(outcome, status);
      cancelRequested := false;
      waitContext := None;
    }

    /** `cancel_wait`: only while waiting on a session; the request is withdrawn when the
        cancel command cannot be written. */
    method CancelWait()
      modifies this, inst
      ensures inst == old(inst) && waiting == old(waiting) && waitContext == old(waitContext)
      ensures scriptLoaded == old(scriptLoaded) && status == old(status)
      ensures !old(waiting) || old(inst) == null ==>
                cancelRequested == old(cancelRequested) && (inst != null ==> inst.written == old(inst.written))
      ensures old(waiting) && inst != null ==>
                cancelRequested == !FirstSet(old(inst.faults)) &&
                inst.written == old(inst.written) + (if cancelRequested then [CancelCommand] else [])
    {
      if !waiting || inst == null {
        return;
      }
      cancelRequested := true;
      var ok := inst.Write(CancelCommand);
      if !ok {
        cancelRequested := false;
      }
    }

    /** `setup_trigger`: configure the line for the chosen edge and mode. */
    method SetupTrigger(edgeText: string, lineText: string, choice: string, script: seq<Command>)
      returns (r: Result<Command>)
      modifies this, inst
      ensures inst == old(inst) && waiting == old(waiting) && cancelRequested == old(cancelRequested)
      ensures waitContext == old(waitContext) && status == old(status)
      ensures old(inst) == null ==> r == Err(NotReadyText) && scriptLoaded == old(scriptLoaded)
      ensures old(inst) != null ==>
                var s := SetupSpec(old(scriptLoaded), old(inst.faults), edgeText, lineText, choice, script);
                r == s.result && scriptLoaded == s.loaded &&
                inst.written == old(inst.written) + s.log && inst.faults == s.faults &&
                inst.pending == old(inst.pending) && inst.timeout == old(inst.timeout)
    {
      var ready := CheckReady(script);
      if !ready {
        return Err(if inst == null then NotReadyText else LoadFailedText);
      }
      var line := ResolveLineNumber(lineText);
      if line.Err? {
        return Err(line.msg);
      }
      var mode := ResolveModeSelection(choice);
      if mode.Err? {
        return Err(mode.msg);
      }
      var c := SetupCommand(EdgeChoice(edgeText), line.value, mode.value.0);
      var ok := inst.Write(c);
      r := if ok then Ok(c) else Err(SetupFailed);
    }

    /** `disconnect`: abort a running wait (a failure is ignored) and drop the session; the
        cancel request is left as it was. */
    method Disconnect()
      modifies this, inst
      ensures inst == null && !scriptLoaded && !waiting && waitContext.None?
      ensures cancelRequested == old(cancelRequested) && status == "Disconnected"
      ensures old(inst) != null ==>
                old(inst).written == old(inst.written) +
                  (if old(waiting) && !FirstSet(old(inst.faults)) then [AbortCommand] else [])
    {
      if waiting && inst != null {
        var ok := inst.Write(AbortCommand);
      }
      waiting := false;
      waitContext := None;
      inst := null;
      scriptLoaded := false;
      status := "Disconnected";
    }
  }

  /** What `inst.query` produced, as a function of the queues. */
  function QueryOutcome(pending: seq<ReadOutcome>, faults: seq<bool>): ReadOutcome
  {
    if FirstSet(faults) then OtherError else NextRead(pending)
  }

  /** The VISA error text; its wording is not modelled beyond the kind of error. */
  function VisaErrorText(o: ReadOutcome): string
  {
    if o.Timeout? then "VI_ERROR_TMO" else "VI_ERROR_IO"
  }
}
