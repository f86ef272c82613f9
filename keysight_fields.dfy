/** The entry parsers and command plans the Keysight 33522B panels share: the two-channel
    trigger-and-pulse panel, the pulse panels of the two combined 33522B measurement GUIs, the
    external-trigger channel-2 panel and the single-channel pulse GUI.  A configuration is a
    plan: the commands written in order, then either success or the message of the error
    raised after them. */
module KeysightFields {
  import opened Outcome
  import opened PyText
  import opened Channel
  import TimeUnits
  import opened LoadChoice

  // ---------------------------------------------------------------- entry parsers

  function MustBeNumeric(field: string): string { field + " must be numeric." }
  function MustBeANumber(field: string): string { field + " must be a number." }
  function MustBePositive(field: string): string { field + " must be > 0." }
  function MustBeInteger(field: string): string { field + " must be an integer." }

  /** `float(text.strip())`, refused with the panel's message. */
  function NumberField(text: string, notNumber: string): (r: Result<real>)
    ensures r.Ok? <==> IsReal(text)
    ensures r.Ok? ==> ParseReal(text) == Some(r.value)
    ensures r.Err? ==> r.msg == notNumber
  {
    match ParseReal(text)
    case None => Err(notNumber)
    case Some(x) => Ok(x)
  }

  /** `_parse_positive`: a float that must be above zero. */
  function PositiveField(text: string, notNumber: string, field: string): (r: Result<real>)
    ensures r.Ok? <==> IsReal(text) && ParseReal(text).value > 0.0
    ensures r.Ok? ==> r.value > 0.0 && ParseReal(text) == Some(r.value)
    ensures !IsReal(text) ==> r == Err(notNumber)
    ensures IsReal(text) && ParseReal(text).value <= 0.0 ==> r == Err(MustBePositive(field))
  {
    match NumberField(text, notNumber)
    case Err(m) => Err(m)
    case Ok(x) => if x <= 0.0 then Err(MustBePositive(field)) else Ok(x)
  }

  /** `_parse_int` of most panels: `int(float(text))`, which must be at least one. */
  function TruncIntField(text: string, field: string): (r: Result<int>)
    ensures r.Ok? <==> IsReal(text) && TruncToInt(ParseReal(text).value) >= 1
    ensures r.Ok? ==> r.value >= 1 && ParseTruncatedInt(text) == Some(r.value)
    ensures !IsReal(text) ==> r == Err(MustBeInteger(field))
  {
    match ParseTruncatedInt(text)
    case None => Err(MustBeInteger(field))
    case Some(n) => if n <= 0 then Err(MustBePositive(field)) else Ok(n)
  }

  /** `_parse_int` of the external-trigger panel: `int(text)` directly, which must be at least one. */
  function DirectIntField(text: string, field: string): (r: Result<int>)
    ensures r.Ok? <==> ParseInt(text).Some? && ParseInt(text).value >= 1
    ensures r.Ok? ==> r.value >= 1 && ParseInt(text) == Some(r.value)
    ensures ParseInt(text).None? ==> r == Err(MustBeInteger(field))
  {
    match ParseInt(text)
    case None => Err(MustBeInteger(field))
    case Some(n) => if n <= 0 then Err(MustBePositive(field)) else Ok(n)
  }

  /** A positive integer typed in is accepted by both integer parsers. */
  lemma IntFieldsRoundTrip(n: int, field: string)
    requires n >= 1
    ensures TruncIntField(IntText(n), field) == Ok(n)
    ensures DirectIntField(IntText(n), field) == Ok(n)
  {
    IntTextRoundTrip(n);
    IntTextIsReal(IntText(n));
    assert TruncToInt(n as real) == n;
  }

  /** A zero or negative integer is refused by both, with the same message. */
  lemma IntFieldsRefuseNonPositive(n: int, field: string)
    requires n <= 0
    ensures TruncIntField(IntText(n), field) == Err(MustBePositive(field))
    ensures DirectIntField(IntText(n), field) == Err(MustBePositive(field))
  {
    IntTextRoundTrip(n);
    IntTextIsReal(IntText(n));
    assert TruncToInt(n as real) == n;
  }

  lemma OnePointZeroReal()
    ensures ParseReal("1.0") == Some(1.0)
  {
    var t := "1.0";
    assert !IsSpace(t[0]) && !IsSpace(t[2]);
    assert ExponentMark(t[2..]) == 1;
    assert ExponentMark(t) == 3;
    assert t[..3] == t;
    assert IndexOf(t, '.') == 1;
    assert t[..1] == "1" && t[2..] == "0";
    assert DigitsValue("1") == 1 && DigitsValue("0") == 0;
  }

  lemma OnePointZeroNotInt()
    ensures ParseInt("1.0") == None
  {
    var t := "1.0";
    NoEdgeSpaceStripFixed(t);
    assert !IsDigit(t[1]);
  }

  /** "1.0" is one burst cycle for `int(float(...))` but not an integer for `int(...)`. */
  lemma DecimalIntegerText(field: string)
    ensures TruncIntField("1.0", field) == Ok(1)
    ensures DirectIntField("1.0", field) == Err(MustBeInteger(field))
  {
    OnePointZeroReal();
    OnePointZeroNotInt();
  }

  // ---------------------------------------------------------------- time entries

  /** Which `_parse_time_to_seconds` a panel has. */
  datatype Clock = WithMicro | NoMicro | SingleGui

  const EmptyTimeValue: string := "Empty time value"

  /** The single-channel GUI's parser: the common unit table, blanks removed, its own message
      for empty text and no field name. */
  function ParseSingleTime(text: string): (r: Result<real>)
    ensures Strip(text) == [] ==> r == Err(EmptyTimeValue)
  {
    TimeUnits.ParseTime(text, TimeUnits.SecondUnits, true, EmptyTimeValue)
  }

  /** The documented examples: a whole number followed by any of s, ms, us, µs, ns, ps (in
      either case), or with no unit at all, is read in that unit. */
  lemma ParseSingleTimeRoundTrip(n: int, i: nat)
    requires i < |TimeUnits.SecondUnits|
    ensures ParseSingleTime(IntText(n) + TimeUnits.SecondUnits[i].suffix) == Ok(TimeUnits.InUnit(n as real, TimeUnits.SecondUnits[i]))
    ensures ParseSingleTime(IntText(n)) == Ok(n as real)
  {
    TimeUnits.SecondUnitsWellFormed();
    TimeUnits.ParseTimeRoundTrip(TimeUnits.SecondUnits, true, EmptyTimeValue, n, i, TimeUnits.SecondUnits[i].suffix);
    TimeUnits.ParseTimePlainSeconds(TimeUnits.SecondUnits, true, EmptyTimeValue, n);
  }

  function EdgeTime(c: Clock, text: string, field: string): Result<real>
  {
    match c
    case WithMicro => TimeUnits.ParseSeconds(text, field)
    case NoMicro => TimeUnits.ParseSecondsNoMicro(text, field)
    case SingleGui => ParseSingleTime(text)
  }

  // ---------------------------------------------------------------- plans

  /** Commands a configuration writes before it either finishes (`error` None) or raises. */
  datatype Steps = Steps(cmds: seq<Command>, error: Option<string>)

  function Writes(cmds: seq<Command>): Steps { Steps(cmds, None) }

  function Raise(msg: string): Steps { Steps([], Some(msg)) }

  /** `a`, and then `b` unless `a` raised. */
  function Then(a: Steps, b: Steps): Steps
  {
    if a.error.Some? then a else Steps(a.cmds + b.cmds, b.error)
  }

  lemma ThenAssoc(a: Steps, b: Steps, c: Steps)
    ensures Then(Then(a, b), c) == Then(a, Then(b, c))
  {
    if a.error.None? && b.error.None? {
      assert a.cmds + b.cmds + c.cmds == a.cmds + (b.cmds + c.cmds);
    }
  }

  // ---------------------------------------------------------------- pulse edges

  /** How one panel programs and words the pulse edges. */
  datatype EdgeForm = EdgeForm(clock: Clock, leadHeader: string, trailHeader: string, leadNegative: string,
                               trailNegative: string, mismatch: string, sharedNegative: string)

  const LeadHeader: string := ":SOUR1:PULS:TRANsition:LEADing"
  const TrailHeader: string := ":SOUR1:PULS:TRANsition:TRAiling"

  /** The trigger-and-pulse panel and the two combined GUIs. */
  function PanelEdges(c: Clock): EdgeForm
  {
    EdgeForm(c, LeadHeader, TrailHeader, "Lead edge must be >= 0.", "Trail edge must be >= 0.",
             "In 'Both' mode, lead and trail entries must match (or leave blank).", "Edge time must be >= 0.")
  }

  const ExtEdges: EdgeForm := EdgeForm(WithMicro, LeadHeader, TrailHeader, "Lead edge time must be >= 0.",
    "Trail edge time must be >= 0.", "In 'Both' mode, lead and trail entries must match (or leave one blank).",
    "Edge time must be >= 0.")

  const SingleEdges: EdgeForm := EdgeForm(SingleGui, ":SOURce1:FUNCtion:PULSe:TRANsition:LEADing",
    ":SOURce1:FUNCtion:PULSe:TRANsition:TRAiling", "Lead edge time must be >= 0", "Trail edge time must be >= 0",
    "In 'Both' mode, lead and trail must be equal. Enable 'Separate' or make them the same.", "Edge time must be >= 0")

  /** An edge command carries one duration, never a negative one. */
  predicate EdgeCommand(c: Command) { |c.args| == 1 && c.args[0].Num? && c.args[0].x >= 0.0 }

  function EdgeWrite(header: string, v: real): Command { Command(header, [Num(v)]) }

  /** One edge in "Separate" mode: nothing for a blank entry, else its time, which must not be negative. */
  function OneEdge(f: EdgeForm, header: string, text: string, field: string, negative: string): (r: Steps)
    ensures text == "" ==> r == Writes([])
    ensures r.error.Some? ==> r.cmds == []
    ensures |r.cmds| <= 1 && forall k :: 0 <= k < |r.cmds| ==> EdgeCommand(r.cmds[k]) && r.cmds[k].header == header
  {
    if text == "" then Writes([])
    else match EdgeTime(f.clock, text, field)
      case Err(m) => Raise(m)
      case Ok(v) => if v < 0.0 then Raise(negative) else Writes([EdgeWrite(header, v)])
  }

  predicate IsSeparate(mode: string) { Lower(Strip(mode)) == "separate" }

  /** The edge block, on stripped entries: "Separate" programs each given edge on its own; any
      other mode needs the entries to agree or one to be blank, and programs the shared time on
      both edges. */
  function EdgePlan(f: EdgeForm, separate: bool, lead: string, trail: string): (r: Steps)
    ensures forall k :: 0 <= k < |r.cmds| ==> EdgeCommand(r.cmds[k])
    ensures !separate && lead != "" && trail != "" && lead != trail ==> r == Raise(f.mismatch)
    ensures lead == "" && trail == "" ==> r == Writes([])
  {
    if separate then
      var a := OneEdge(f, f.leadHeader, lead, "Lead edge", f.leadNegative);
      var b := OneEdge(f, f.trailHeader, trail, "Trail edge", f.trailNegative);
      assert forall k :: 0 <= k < |a.cmds + b.cmds| ==> (a.cmds + b.cmds)[k] == (if k < |a.cmds| then a.cmds[k] else b.cmds[k - |a.cmds|]);
      Then(a, b)
    else if lead != "" && trail != "" && lead != trail then Raise(f.mismatch)
    else
      var shared := if lead != "" then lead else trail;
      if shared == "" then Writes([])
      else match EdgeTime(f.clock, shared, "Edge time")
        case Err(m) => Raise(m)
        case Ok(v) => if v < 0.0 then Raise(f.sharedNegative) else Writes([EdgeWrite(f.leadHeader, v), EdgeWrite(f.trailHeader, v)])
  }

  /** Outside "Separate" mode, one given time (the other entry blank or equal) is written to
      both edges, and a negative one is refused before anything is written. */
  lemma SharedEdge(f: EdgeForm, lead: string, trail: string, v: real)
    requires lead != "" && (trail == "" || trail == lead)
    requires EdgeTime(f.clock, lead, "Edge time") == Ok(v)
    ensures v >= 0.0 ==> EdgePlan(f, false, lead, trail) == Writes([EdgeWrite(f.leadHeader, v), EdgeWrite(f.trailHeader, v)])
    ensures v >= 0.0 ==> EdgePlan(f, false, trail, lead) == Writes([EdgeWrite(f.leadHeader, v), EdgeWrite(f.trailHeader, v)])
    ensures v < 0.0 ==> EdgePlan(f, false, lead, trail) == Raise(f.sharedNegative)
  {
  }

  /** In "Separate" mode the two edges are independent: each is its own entry's time. */
  lemma SeparateEdges(f: EdgeForm, lead: string, trail: string, a: real, b: real)
    requires EdgeTime(f.clock, lead, "Lead edge") == Ok(a) && a >= 0.0 && lead != ""
    requires EdgeTime(f.clock, trail, "Trail edge") == Ok(b) && b >= 0.0 && trail != ""
    ensures EdgePlan(f, true, lead, trail) == Writes([EdgeWrite(f.leadHeader, a), EdgeWrite(f.trailHeader, b)])
  {
  }

  // ---------------------------------------------------------------- channel-1 load

  const LoadNotNumeric: string := "Channel 1 load must be INF or numeric."
  const Omega: string := "Ω"

  function LoadNotAbove(ohm: string): string { "Channel 1 load must be greater than 0 " + ohm + "." }

  /** `_set_ch1_load` of the two-channel panels (the unit word `ohm` differs between files). */
  function Ch1Load(text: string, ohm: string): (r: Result<Load>)
    ensures r.Ok? <==> ReadLoad33522(text).Ok?
    ensures r.Ok? ==> r.value == ReadLoad33522(text).value
    ensures r.Err? && IsReal(Upper(Strip(text))) ==> r.msg == LoadNotAbove(ohm)
    ensures r.Err? && !IsReal(Upper(Strip(text))) ==> r.msg == LoadNotNumeric
  {
    var t := Upper(Strip(text));
    if IsInfAlias33522(t) then Ok(HighZ)
    else match ParseReal(t)
      case None => Err(LoadNotNumeric)
      case Some(v) => if v <= 0.0 then Err(LoadNotAbove(ohm)) else Ok(Ohms(v))
  }

  function LoadCommand(header: string, l: Load): Command
  {
    match l
    case HighZ => Cmd(header + " INF")
    case Ohms(v) => Command(header, [Num(v)])
  }

  function LoadSteps(header: string, l: Result<Load>): Steps
  {
    match l
    case Err(m) => Raise(m)
    case Ok(x) => Writes([LoadCommand(header, x)])
  }

  // ---------------------------------------------------------------- channel-1 programming

  /** The pulse every channel-1 configuration programs. */
  datatype Shape = Shape(period: real, width: real, phase: real)

  /** The headers one panel uses for the channel-1 pulse. */
  datatype Headers = Headers(load: string, pulseFunction: string, period: string, width: string, phase: string)

  const PanelHeaders: Headers := Headers(":OUTP1:LOAD", ":SOUR1:FUNC PULS", ":SOUR1:PULS:PER", ":SOUR1:PULS:WIDTh", ":SOUR1:PHAS")

  function ShapeCommands(h: Headers, s: Shape, levels: seq<Command>): seq<Command>
  {
    [Cmd(h.pulseFunction), Command(h.period, [Num(s.period)]), Command(h.width, [Num(s.width)])] + levels +
    [Command(h.phase, [Num(s.phase)])]
  }

  /** After validation: the load, the shape with its `levels` between width and phase, the
      edges, then `tail`.  A bad load or edge raises after the commands before it. */
  function Programming(h: Headers, s: Shape, levels: seq<Command>, load: Result<Load>, edges: Steps, tail: seq<Command>): Steps
  {
    Then(LoadSteps(h.load, load), Then(Writes(ShapeCommands(h, s, levels)), Then(edges, Writes(tail))))
  }

  /** Where the programming stops: at the load, at the edges, or after the tail. */
  lemma ProgrammingOutcome(h: Headers, s: Shape, levels: seq<Command>, load: Result<Load>, edges: Steps, tail: seq<Command>)
    ensures load.Err? ==> Programming(h, s, levels, load, edges, tail) == Raise(load.msg)
    ensures load.Ok? && edges.error.Some? ==>
      Programming(h, s, levels, load, edges, tail) ==
      Steps([LoadCommand(h.load, load.value)] + ShapeCommands(h, s, levels) + edges.cmds, edges.error)
    ensures load.Ok? && edges.error.None? ==>
      Programming(h, s, levels, load, edges, tail) ==
      Writes([LoadCommand(h.load, load.value)] + ShapeCommands(h, s, levels) + edges.cmds + tail)
  {
    if load.Ok? {
      var l := [LoadCommand(h.load, load.value)];
      var sh := ShapeCommands(h, s, levels);
      assert l + (sh + edges.cmds) == l + sh + edges.cmds;
      assert l + (sh + (edges.cmds + tail)) == l + sh + edges.cmds + tail;
    }
  }

  const Ch1Off: Command := Cmd(":OUTP1 OFF")
  const Wait: Command := Cmd("*WAI")
  const Ch1Frequency: string := "Channel 1 frequency"
  const WidthOutside: string := "Pulse width must be greater than 0 and less than the period."
  const LevelsInverted: string := "High level must be greater than low level."

  /** Every entry of the two-channel panels' channel-1 section; each panel reads its own subset. */
  datatype Ch1Entries = Ch1Entries(freq: string, width: string, amplitude: string, offset: string, high: string,
                                   low: string, load: string, phase: string, lead: string, trail: string,
                                   edgeMode: string, mode: string, unit: string, burst: string)

  /** "continuous" (in any case) is the only mode that is not a burst; blank means burst. */
  predicate IsBurstMode(mode: string) { Lower(Strip(mode)) != "continuous" }

  /** The amplitude unit: VRMS when asked for, VPP for anything else. */
  function AmpUnit(text: string): (u: string)
    ensures u == "VPP" || u == "VRMS"
    ensures u == "VRMS" <==> Upper(Strip(text)) == "VRMS"
  {
    if Upper(Strip(text)) == "VRMS" then "VRMS" else "VPP"
  }

  /** The burst count: zero outside burst mode, otherwise `int(float(text))` raised to at least one. */
  function BurstCount(burst: bool, text: string): (n: int)
    ensures !burst ==> n == 0
    ensures burst ==> n >= 1
    ensures burst && ParseTruncatedInt(text).Some? && ParseTruncatedInt(text).value >= 1 ==> n == ParseTruncatedInt(text).value
    ensures burst && (ParseTruncatedInt(text).None? || ParseTruncatedInt(text).value < 1) ==> n == 1
  {
    if !burst then 0
    else match ParseTruncatedInt(text)
      case None => 1
      case Some(k) => if k < 1 then 1 else k
  }

  /** The trigger set-up ending every channel-1 plan of the two-channel panels. */
  function BurstCommands(burst: bool, count: int): seq<Command>
  {
    if burst then
      [Cmd(":SOUR1:BURSt:STAT ON"), Cmd(":SOUR1:BURSt:MODE TRIG"), Command(":SOUR1:BURSt:NCYC", [Whole(count)]),
       Cmd(":TRIG1:SOUR BUS"), Cmd(":INIT1:CONT OFF")]
    else [Cmd(":SOUR1:BURSt:STAT OFF"), Cmd(":INIT1:CONT ON"), Cmd(":TRIG1:SOUR IMM")]
  }

  /** The validated amplitude-style entries. */
  datatype Amplitude = Amplitude(shape: Shape, amplitude: real, offset: real)

  /** The validation of `configure_ch1` in the trigger-and-pulse panel and the 2602B/33522B GUI:
      every entry is read, and the width checked against the period, before any write. */
  function ReadAmplitude(e: Ch1Entries, c: Clock): (r: Result<Amplitude>)
    ensures r.Ok? ==> IsReal(e.freq) && ParseReal(e.freq).value > 0.0 && r.value.shape.period == 1.0 / ParseReal(e.freq).value
    ensures r.Ok? ==> 0.0 < r.value.shape.width < r.value.shape.period && EdgeTime(c, e.width, "Pulse width") == Ok(r.value.shape.width)
    ensures r.Ok? ==> r.value.amplitude > 0.0 && ParseReal(e.amplitude) == Some(r.value.amplitude)
    ensures r.Ok? ==> ParseReal(e.offset) == Some(r.value.offset) && ParseReal(e.phase) == Some(r.value.shape.phase)
  {
    match PositiveField(e.freq, MustBeNumeric(Ch1Frequency), Ch1Frequency)
    case Err(m) => Err(m)
    case Ok(freq) =>
    match EdgeTime(c, e.width, "Pulse width")
    case Err(m) => Err(m)
    case Ok(width) =>
    match PositiveField(e.amplitude, MustBeNumeric("Amplitude"), "Amplitude")
    case Err(m) => Err(m)
    case Ok(amp) =>
    match NumberField(e.offset, MustBeNumeric("Offset"))
    case Err(m) => Err(m)
    case Ok(offset) =>
    match NumberField(e.phase, MustBeNumeric("Phase"))
    case Err(m) => Err(m)
    case Ok(phase) =>
      var period := 1.0 / freq;
      if !(0.0 < width < period) then Err(WidthOutside) else Ok(Amplitude(Shape(period, width, phase), amp, offset))
  }

  function AmplitudeLevels(e: Ch1Entries, a: Amplitude): seq<Command>
  {
    [Command(":SOUR1:VOLT:UNIT", [Text(AmpUnit(e.unit))]), Command(":SOUR1:VOLT:LEV:IMM:AMPL", [Num(a.amplitude)]),
     Command(":SOUR1:VOLT:OFFS", [Num(a.offset)])]
  }

  function BurstTail(e: Ch1Entries, burst: bool): seq<Command>
  {
    BurstCommands(burst, BurstCount(burst, e.burst)) + [Ch1Off, Wait]
  }

  /** `configure_ch1` of the trigger-and-pulse panel (`c` WithMicro, `ohm` Ω) and of the
      2602B/33522B GUI (NoMicro, "Ohm"). */
  function AmplitudePlan(e: Ch1Entries, c: Clock, ohm: string): Steps
  {
    match ReadAmplitude(e, c)
    case Err(m) => Raise(m)
    case Ok(a) =>
      Then(Writes([Ch1Off]), Programming(PanelHeaders, a.shape, AmplitudeLevels(e, a), Ch1Load(e.load, ohm),
        EdgePlan(PanelEdges(c), IsSeparate(e.edgeMode), Strip(e.lead), Strip(e.trail)), BurstTail(e, IsBurstMode(e.mode))))
  }

  /** Channel 1 switched off (`off`), then the programming: that first command is always
      written, a bad load stops right after it, the levels follow the load and the three shape
      commands, and a plan that completes ends with `tail`. */
  lemma OffThenProgramming(off: Command, h: Headers, s: Shape, levels: seq<Command>, load: Result<Load>, edges: Steps, tail: seq<Command>)
    ensures var p := Then(Writes([off]), Programming(h, s, levels, load, edges, tail));
      |p.cmds| >= 1 && p.cmds[0] == off
    ensures load.Err? ==> Then(Writes([off]), Programming(h, s, levels, load, edges, tail)) == Steps([off], Some(load.msg))
    ensures var p := Then(Writes([off]), Programming(h, s, levels, load, edges, tail));
      load.Ok? ==> |p.cmds| >= 5 + |levels| && p.cmds[5..5 + |levels|] == levels
    ensures var p := Then(Writes([off]), Programming(h, s, levels, load, edges, tail));
      p.error.None? ==> EndsIn(p.cmds, tail)
  {
    ProgrammingOutcome(h, s, levels, load, edges, tail);
    var p := Then(Writes([off]), Programming(h, s, levels, load, edges, tail));
    if load.Ok? {
      assert p.cmds[5..5 + |levels|] == levels;
    }
    if p.error.None? {
      assert p.cmds[|p.cmds| - |tail|..] == tail;
    }
  }

  /** A refused entry writes nothing; otherwise channel 1 is switched off first, and a plan that
      completes ends with the burst or continuous set-up of its mode, switches channel 1 off
      again and waits. */
  lemma AmplitudePlanShape(e: Ch1Entries, c: Clock, ohm: string)
    ensures ReadAmplitude(e, c).Err? ==> AmplitudePlan(e, c, ohm) == Raise(ReadAmplitude(e, c).msg)
    ensures ReadAmplitude(e, c).Ok? ==> |AmplitudePlan(e, c, ohm).cmds| >= 1 && AmplitudePlan(e, c, ohm).cmds[0] == Ch1Off
    ensures ReadAmplitude(e, c).Ok? && Ch1Load(e.load, ohm).Err? ==>
      AmplitudePlan(e, c, ohm) == Steps([Ch1Off], Some(Ch1Load(e.load, ohm).msg))
    ensures AmplitudePlan(e, c, ohm).error.None? ==> EndsIn(AmplitudePlan(e, c, ohm).cmds, BurstTail(e, IsBurstMode(e.mode)))
  {
    match ReadAmplitude(e, c)
    case Err(_) =>
    case Ok(a) =>
      OffThenProgramming(Ch1Off, PanelHeaders, a.shape, AmplitudeLevels(e, a), Ch1Load(e.load, ohm),
        EdgePlan(PanelEdges(c), IsSeparate(e.edgeMode), Strip(e.lead), Strip(e.trail)), BurstTail(e, IsBurstMode(e.mode)));
  }

  /** `cmds` finishes with `tail`. */
  predicate EndsIn(cmds: seq<Command>, tail: seq<Command>) { |tail| <= |cmds| && cmds[|cmds| - |tail|..] == tail }

  /** The level-style entries: the width and levels checked before any write. */
  datatype Levels = Levels(shape: Shape, high: real, low: real)

  /** The validation of `configure_ch1` in the 2450/33522B GUI (`aNumber` false: "must be
      numeric.") and in the external-trigger panel (`aNumber` true: "must be a number."). */
  function ReadLevels(e: Ch1Entries, aNumber: bool): (r: Result<Levels>)
    ensures r.Ok? ==> IsReal(e.freq) && ParseReal(e.freq).value > 0.0 && r.value.shape.period == 1.0 / ParseReal(e.freq).value
    ensures r.Ok? ==> 0.0 < r.value.shape.width < r.value.shape.period && TimeUnits.ParseSeconds(e.width, "Pulse width") == Ok(r.value.shape.width)
    ensures r.Ok? ==> ParseReal(e.high) == Some(r.value.high) && ParseReal(e.low) == Some(r.value.low) && r.value.high > r.value.low
    ensures r.Ok? ==> ParseReal(e.phase) == Some(r.value.shape.phase)
  {
    match PositiveField(e.freq, NotANumber(aNumber, Ch1Frequency), Ch1Frequency)
    case Err(m) => Err(m)
    case Ok(freq) =>
    match TimeUnits.ParseSeconds(e.width, "Pulse width")
    case Err(m) => Err(m)
    case Ok(width) =>
    match NumberField(e.high, NotANumber(aNumber, "High level"))
    case Err(m) => Err(m)
    case Ok(high) =>
    match NumberField(e.low, NotANumber(aNumber, "Low level"))
    case Err(m) => Err(m)
    case Ok(low) =>
    match NumberField(e.phase, NotANumber(aNumber, "Phase"))
    case Err(m) => Err(m)
    case Ok(phase) =>
      var period := 1.0 / freq;
      if !(0.0 < width < period) then Err(WidthOutside)
      else if high <= low then Err(LevelsInverted)
      else Ok(Levels(Shape(period, width, phase), high, low))
  }

  /** The "not a number" wording of the two level-style panels. */
  function NotANumber(aNumber: bool, field: string): string
  {
    if aNumber then MustBeANumber(field) else MustBeNumeric(field)
  }

  function LevelCommands(high: real, low: real): seq<Command>
  {
    [Command(":SOUR1:VOLT:HIGH", [Num(high)]), Command(":SOUR1:VOLT:LOW", [Num(low)])]
  }

  /** `configure_ch1` of the 2450/33522B GUI: always a burst, and the levels written are fixed
      at 2.0 V and 0.0 V once the entered ones have been checked. */
  function FixedLevelPlan(e: Ch1Entries): Steps
  {
    match ReadLevels(e, false)
    case Err(m) => Raise(m)
    case Ok(v) =>
      Then(Writes([Ch1Off]), Programming(PanelHeaders, v.shape, LevelCommands(2.0, 0.0), Ch1Load(e.load, Omega),
        EdgePlan(PanelEdges(WithMicro), IsSeparate(e.edgeMode), Strip(e.lead), Strip(e.trail)), BurstTail(e, true)))
  }

  /** The entered levels only gate the plan: any two pairs that pass the check give the same commands. */
  lemma FixedLevelsIgnoreEntries(e: Ch1Entries, high: string, low: string)
    requires ReadLevels(e, false).Ok? && ReadLevels(e.(high := high, low := low), false).Ok?
    ensures FixedLevelPlan(e) == FixedLevelPlan(e.(high := high, low := low))
  {
    var e2 := e.(high := high, low := low);
    assert ReadLevels(e, false).value.shape == ReadLevels(e2, false).value.shape;
  }

  /** `configure_ch1` of the external-trigger panel: the entered levels, no burst set-up. */
  function ExtLevelPlan(e: Ch1Entries): Steps
  {
    match ReadLevels(e, true)
    case Err(m) => Raise(m)
    case Ok(v) =>
      Then(Writes([Ch1Off]), Programming(PanelHeaders, v.shape, LevelCommands(v.high, v.low), Ch1Load(e.load, Omega),
        EdgePlan(ExtEdges, IsSeparate(e.edgeMode), Strip(e.lead), Strip(e.trail)), [Wait]))
  }

  /** The external-trigger plan programs exactly the levels entered, high above low. */
  lemma ExtLevelPlanLevels(e: Ch1Entries)
    requires ExtLevelPlan(e).error.None?
    ensures ReadLevels(e, true).Ok?
    ensures var v := ReadLevels(e, true).value;
      v.high > v.low && ExtLevelPlan(e).cmds[5..7] == LevelCommands(v.high, v.low)
  {
    var v := ReadLevels(e, true).value;
    var edges := EdgePlan(ExtEdges, IsSeparate(e.edgeMode), Strip(e.lead), Strip(e.trail));
    OffThenProgramming(Ch1Off, PanelHeaders, v.shape, LevelCommands(v.high, v.low), Ch1Load(e.load, Omega), edges, [Wait]);
  }

  // ---------------------------------------------------------------- the single-channel GUI

  datatype SingleEntries = SingleEntries(freq: string, width: string, high: string, low: string, phase: string,
                                         load: string, lead: string, trail: string, edgeMode: string)

  const FrequencyNotPositive: string := "Frequency must be > 0"
  const SingleWidthOutside: string := "Pulse width must be > 0 and < period"
  const SingleOff: Command := Cmd(":OUTPut1 OFF")

  const SingleHeaders: Headers := Headers(":OUTPut1:LOAD", ":SOURce1:FUNCtion PULSe", ":SOURce1:FUNCtion:PULSe:PERiod",
    ":SOURce1:FUNCtion:PULSe:WIDTh", ":SOURce1:PHASe")

  function SingleLevels(high: real, low: real): seq<Command>
  {
    [Command(":SOURce1:VOLTage:HIGH", [Num(high)]), Command(":SOURce1:VOLTage:LOW", [Num(low)])]
  }

  /** The entries `_apply_inner` reads, in its order; unlike the two-channel panels it takes
      any pair of levels. */
  function SingleRead(e: SingleEntries): (r: Result<Levels>)
    ensures !IsReal(e.freq) ==> r == Err(TimeUnits.NotANumber)
    ensures IsReal(e.freq) && ParseReal(e.freq).value <= 0.0 ==> r == Err(FrequencyNotPositive)
    ensures r.Ok? ==> IsReal(e.freq) && ParseReal(e.freq).value > 0.0 && r.value.shape.period == 1.0 / ParseReal(e.freq).value
    ensures r.Ok? ==> 0.0 < r.value.shape.width < r.value.shape.period && ParseSingleTime(e.width) == Ok(r.value.shape.width)
    ensures r.Ok? ==> ParseReal(e.high) == Some(r.value.high) && ParseReal(e.low) == Some(r.value.low)
    ensures r.Ok? ==> ParseReal(e.phase) == Some(r.value.shape.phase)
  {
    match TimeUnits.FloatOf(e.freq)
    case Err(m) => Err(m)
    case Ok(freq) =>
      if freq <= 0.0 then Err(FrequencyNotPositive)
      else
        match ParseSingleTime(e.width)
        case Err(m) => Err(m)
        case Ok(width) =>
        match TimeUnits.FloatOf(e.high)
        case Err(m) => Err(m)
        case Ok(high) =>
        match TimeUnits.FloatOf(e.low)
        case Err(m) => Err(m)
        case Ok(low) =>
        match TimeUnits.FloatOf(e.phase)
        case Err(m) => Err(m)
        case Ok(phase) =>
          var period := 1.0 / freq;
          if !(0.0 < width < period) then Err(SingleWidthOutside) else Ok(Levels(Shape(period, width, phase), high, low))
  }

  /** `_apply_inner`: channel 1 is switched off before anything is read, so every outcome,
      refused entries included, writes that command. */
  function SinglePlan(e: SingleEntries): Steps
  {
    Then(Writes([SingleOff]),
      match SingleRead(e)
      case Err(m) => Raise(m)
      case Ok(v) =>
        Programming(SingleHeaders, v.shape, SingleLevels(v.high, v.low), ReadLoad33522(e.load),
          EdgePlan(SingleEdges, IsSeparate(e.edgeMode), Strip(e.lead), Strip(e.trail)), []))
  }

  /** The output is switched off whatever happens next; a refused entry writes nothing else, a
      refused load stops after that one command; a completed plan writes the entered levels. */
  lemma SinglePlanShape(e: SingleEntries)
    ensures |SinglePlan(e).cmds| >= 1 && SinglePlan(e).cmds[0] == SingleOff
    ensures SingleRead(e).Err? ==> SinglePlan(e) == Steps([SingleOff], Some(SingleRead(e).msg))
    ensures SingleRead(e).Ok? && ReadLoad33522(e.load).Err? ==> SinglePlan(e) == Steps([SingleOff], Some(InvalidLoad))
    ensures SinglePlan(e).error.None? ==> SingleRead(e).Ok?
    ensures SinglePlan(e).error.None? ==>
      SinglePlan(e).cmds[5..7] == SingleLevels(SingleRead(e).value.high, SingleRead(e).value.low)
  {
    match SingleRead(e)
    case Err(_) =>
    case Ok(v) =>
      OffThenProgramming(SingleOff, SingleHeaders, v.shape, SingleLevels(v.high, v.low), ReadLoad33522(e.load),
        EdgePlan(SingleEdges, IsSeparate(e.edgeMode), Strip(e.lead), Strip(e.trail)), []);
  }

  // ---------------------------------------------------------------- channel 2

  /** The channel-2 burst settings. */
  datatype Ch2 = Ch2(freq: real, vpp: real, cycles: int, settle: real)

  const EnterNumeric: string := "Enter numeric settings."
  const ValuesPositive: string := "Values must be positive."
  const AmplitudeLimited: string := "Amplitude limited to 10 Vpp."

  predicate Ch2Numeric(freq: string, vpp: string, cycles: string, settle: string)
  {
    IsReal(freq) && IsReal(vpp) && IsReal(cycles) && IsReal(settle)
  }

  predicate Ch2Positive(freq: string, vpp: string, cycles: string, settle: string)
    requires Ch2Numeric(freq, vpp, cycles, settle)
  {
    ParseReal(freq).value > 0.0 && ParseReal(vpp).value > 0.0 && ParseTruncatedInt(cycles).value > 0 && ParseReal(settle).value > 0.0
  }

  /** `configure` of the two-channel panels: all four entries numeric, then all positive, then
      at most 10 Vpp. */
  function ReadCh2(freq: string, vpp: string, cycles: string, settle: string): (r: Result<Ch2>)
    ensures !Ch2Numeric(freq, vpp, cycles, settle) ==> r == Err(EnterNumeric)
    ensures Ch2Numeric(freq, vpp, cycles, settle) && !Ch2Positive(freq, vpp, cycles, settle) ==> r == Err(ValuesPositive)
    ensures r.Ok? <==> Ch2Numeric(freq, vpp, cycles, settle) && Ch2Positive(freq, vpp, cycles, settle) && ParseReal(vpp).value <= 10.0
    ensures r.Ok? ==> r.value == Ch2(ParseReal(freq).value, ParseReal(vpp).value, ParseTruncatedInt(cycles).value, ParseReal(settle).value)
  {
    if !Ch2Numeric(freq, vpp, cycles, settle) then Err(EnterNumeric)
    else
      var s := Ch2(ParseReal(freq).value, ParseReal(vpp).value, ParseTruncatedInt(cycles).value, ParseReal(settle).value);
      if s.freq <= 0.0 || s.vpp <= 0.0 || s.cycles <= 0 || s.settle <= 0.0 then Err(ValuesPositive)
      else if s.vpp > 10.0 then Err(AmplitudeLimited)
      else Ok(s)
  }

  /** The channel-2 square-wave burst: from `low` to vpp about an offset of vpp/2, one burst of
      `cycles` per bus trigger. */
  function Ch2Setup(s: Ch2, low: Command): seq<Command>
  {
    [Cmd("*CLS"), Cmd(":SOUR2:FUNC SQU"), Command(":SOUR2:FREQ", [Num(s.freq)]), low,
     Command(":SOUR2:VOLT:HIGH", [Num(s.vpp)]), Command(":SOUR2:VOLT:OFFS", [Num(s.vpp / 2.0)]),
     Cmd(":SOUR2:PULS:DCYC 50"), Cmd(":OUTP2:LOAD INF"), Cmd(":SOUR2:BURSt:STAT ON"), Cmd(":SOUR2:BURSt:MODE TRIG"),
     Command(":SOUR2:BURSt:NCYC", [Whole(s.cycles)]), Cmd(":TRIG2:SOUR BUS"), Cmd(":INIT2:CONT OFF")]
  }

  const Ch2LowZero: Command := Cmd(":SOUR2:VOLT:LOW 0")

  /** The offset is half the high level, so the wave spans zero to vpp. */
  lemma Ch2Span(s: Ch2, low: Command)
    ensures Ch2Setup(s, low)[4].args == [Num(s.vpp)] && Ch2Setup(s, low)[5].args[0].x * 2.0 == Ch2Setup(s, low)[4].args[0].x
  {
  }

  // ---------------------------------------------------------------- firing

  /** The burst duration, its dwell and the channel-1 delay of one trigger. */
  datatype Timing = Timing(cycles: int, duration: real, dwell: real, phaseDelay: real)

  const InvalidNumeric: string := "Invalid numeric values."
  const PhaseNotNumeric: string := "Phase delay must be numeric."
  /** Python's message for `cycles / freq` with a zero frequency: it is raised out of the handler. */
  const DivisionByZero: string := "float division by zero"

  /** `max(1e-4, cycles / freq)`. */
  function Duration(cycles: int, freq: real): (d: real)
    requires freq != 0.0
    ensures d >= 0.0001 && d >= cycles as real / freq
    ensures d == 0.0001 || d == cycles as real / freq
  {
    Max(0.0001, cycles as real / freq)
  }

  /** `max(0.01, duration * settle)`. */
  function Dwell(duration: real, settle: real): (w: real)
    ensures w >= 0.01 && w >= duration * settle
    ensures w == 0.01 || w == duration * settle
  {
    Max(0.01, duration * settle)
  }

  /** The phase-delay entry: blank means the dwell, otherwise a number clamped at zero. */
  function PhaseDelay(text: string, dwell: real): (r: Result<real>)
    ensures Strip(text) == [] ==> r == Ok(dwell)
    ensures Strip(text) != [] && !IsReal(Strip(text)) ==> r == Err(PhaseNotNumeric)
    ensures Strip(text) != [] && IsReal(Strip(text)) ==> r == Ok(Max(0.0, ParseReal(Strip(text)).value))
  {
    var t := Strip(text);
    if t == [] then Ok(dwell)
    else match ParseReal(t)
      case None => Err(PhaseNotNumeric)
      case Some(v) => Ok(Max(0.0, v))
  }

  /** The entries `fire_pulse` of the two-channel panels reads. */
  datatype FireEntries = FireEntries(cycles: string, freq: string, settle: string, phase: string)

  /** The reading of `fire_pulse`: three numbers (none checked for sign), the timing, the delay. */
  function ReadFire(e: FireEntries): (r: Result<Timing>)
    ensures r.Ok? ==> r.value.duration >= 0.0001 && r.value.dwell >= 0.01 && r.value.phaseDelay >= 0.0
    ensures r.Ok? ==> IsReal(e.freq) && ParseReal(e.freq).value != 0.0 && ParseTruncatedInt(e.cycles) == Some(r.value.cycles)
    ensures r.Ok? ==> r.value.duration == Duration(r.value.cycles, ParseReal(e.freq).value)
    ensures r.Ok? ==> IsReal(e.settle) && r.value.dwell == Dwell(r.value.duration, ParseReal(e.settle).value)
    ensures r.Ok? && Strip(e.phase) == [] ==> r.value.phaseDelay == r.value.dwell
    ensures !IsReal(e.cycles) || !IsReal(e.freq) || !IsReal(e.settle) ==> r == Err(InvalidNumeric)
    ensures IsReal(e.cycles) && IsReal(e.freq) && IsReal(e.settle) && ParseReal(e.freq).value == 0.0 ==> r == Err(DivisionByZero)
  {
    if !IsReal(e.cycles) || !IsReal(e.freq) || !IsReal(e.settle) then Err(InvalidNumeric)
    else
      var cycles := ParseTruncatedInt(e.cycles).value;
      var freq := ParseReal(e.freq).value;
      if freq == 0.0 then Err(DivisionByZero)
      else
        var duration := Duration(cycles, freq);
        var dwell := Dwell(duration, ParseReal(e.settle).value);
        match PhaseDelay(e.phase, dwell)
        case Err(m) => Err(m)
        case Ok(p) => Ok(Timing(cycles, duration, dwell, p))
  }

  /** A long burst is not clamped: dwell is the burst time scaled by the settle factor. */
  lemma LongBurstDwell(cycles: int, freq: real, settle: real)
    requires freq > 0.0 && cycles as real / freq >= 0.0001 && settle >= 1.0 && cycles as real / freq >= 0.01
    ensures Duration(cycles, freq) == cycles as real / freq
    ensures Dwell(Duration(cycles, freq), settle) == cycles as real / freq * settle
  {
    var d := cycles as real / freq;
    assert d * settle >= d * 1.0;
  }
}
