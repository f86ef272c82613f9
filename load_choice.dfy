/** The output-load entry of the pulse generator GUIs.  Three readings exist:
    the 3021B pulse panels (blank leaves the termination alone, an alias
    selects high impedance, a number must be positive), the 3021B state
    controller (anything unreadable falls back to 50 ohms) and the 33522B
    pulse panel (one more alias, "HZ", and no blank case). */
module LoadChoice {
  import opened Outcome
  import opened PyText
  import opened Channel
  import TimeUnits

  /** The output termination a generator is told to assume. */
  datatype Load = HighZ | Ohms(r: real)

  /** The high-impedance spellings of the 3021B GUIs, after `strip().upper()`. */
  predicate IsInfAlias(t: string) { t == "INF" || t == "INFINITE" || t == "HIGHZ" }

  /** The 33522B spellings: the 3021B ones and "HZ". */
  predicate IsInfAlias33522(t: string) { IsInfAlias(t) || t == "HZ" }

  const LoadNotPositive: string := "Load must be > 0."
  const InvalidLoad: string := "Invalid load. Use INF or a positive number (ohms)."

  /** The 3021B pulse panels: `None` means no impedance command is sent. */
  function ReadLoad(text: string): (r: Result<Option<Load>>)
    ensures r == Ok(None) <==> Strip(text) == []
    ensures r == Ok(Some(HighZ)) <==> IsInfAlias(Upper(Strip(text)))
    ensures r.Ok? && r.value.Some? && r.value.value.Ohms? ==>
      r.value.value.r > 0.0 && ParseReal(Upper(Strip(text))) == Some(r.value.value.r)
  {
    var t := Upper(Strip(text));
    if t == [] then Ok(None)
    else if IsInfAlias(t) then Ok(Some(HighZ))
    else match ParseReal(t)
      case None => Err("could not convert string to float")
      case Some(v) => if v <= 0.0 then Err(LoadNotPositive) else Ok(Some(Ohms(v)))
  }

  /** The 3021B state controller's choice: an alias, else the number as written
      (even a non-positive one), else 50 ohms. */
  function ReadLoadFallback(text: string): (l: Load)
    ensures l == HighZ <==> IsInfAlias(Upper(Strip(text)))
    ensures l.Ohms? && !IsReal(Upper(Strip(text))) ==> l.r == 50.0
  {
    var t := Upper(Strip(text));
    if IsInfAlias(t) then HighZ
    else match ParseReal(t)
      case None => Ohms(50.0)
      case Some(v) => Ohms(v)
  }

  /** The 33522B pulse panel's `_set_load`: blank text is not a number, so it is refused. */
  function ReadLoad33522(text: string): (r: Result<Load>)
    ensures r == Ok(HighZ) <==> IsInfAlias33522(Upper(Strip(text)))
    ensures r.Err? ==> r.msg == InvalidLoad
    ensures r.Ok? && r.value.Ohms? ==> r.value.r > 0.0 && ParseReal(Upper(Strip(text))) == Some(r.value.r)
  {
    var t := Upper(Strip(text));
    if IsInfAlias33522(t) then Ok(HighZ)
    else match ParseReal(t)
      case Some(v) => if v <= 0.0 then Err(InvalidLoad) else Ok(Ohms(v))
      case None => Err(InvalidLoad)
  }

  // ---------------------------------------------------------------- text facts

  lemma UpperDigits(s: string)
    requires AllDigits(s)
    ensures Upper(s) == s
  {
    AllDigitsAt(s);
  }

  lemma NatTextUpperStrip(n: nat)
    ensures Upper(Strip(NatText(n))) == NatText(n)
  {
    var s := NatText(n);
    AllDigitsAt(s);
    NoEdgeSpaceStripFixed(s);
    UpperDigits(s);
  }

  /** A number is none of the aliases: they all start with a letter. */
  lemma NumberNotAlias(t: string)
    requires IsReal(t)
    ensures !IsInfAlias33522(t)
  {
    if IsInfAlias33522(t) {
      assert t[0] == 'I' || t[0] == 'H';
      assert t != [] && !IsSpace(t[0]) && !IsSpace(t[|t| - 1]);
      NoEdgeSpaceStripFixed(t);
      NotRealLead(t);
    }
  }

  lemma HzNotNumber()
    ensures !IsReal("HZ")
  {
    var t := "HZ";
    assert !IsSpace(t[0]) && !IsSpace(t[|t| - 1]);
    NoEdgeSpaceStripFixed(t);
    NotRealLead(t);
  }

  lemma HzUpperStrip()
    ensures Upper(Strip("hz")) == "HZ"
  {
    var t := "hz";
    assert !IsSpace(t[0]) && !IsSpace(t[|t| - 1]);
    NoEdgeSpaceStripFixed(t);
  }

  // ---------------------------------------------------------------- properties

  /** A positive whole number of ohms typed into the 3021B panel is the termination sent. */
  lemma ReadLoadOhms(n: nat)
    requires n > 0
    ensures ReadLoad(NatText(n)) == Ok(Some(Ohms(n as real)))
  {
    NatTextUpperStrip(n);
    TimeUnits.NatTextFacts(n);
    NumberNotAlias(NatText(n));
  }

  /** Lower-case aliases are accepted: the entry is upper-cased before the comparison. */
  lemma ReadLoadInfLowerCase()
    ensures ReadLoad("inf") == Ok(Some(HighZ)) && ReadLoad("highz") == Ok(Some(HighZ))
  {
    var a, b := "inf", "highz";
    assert !IsSpace(a[0]) && !IsSpace(a[|a| - 1]);
    assert !IsSpace(b[0]) && !IsSpace(b[|b| - 1]);
    NoEdgeSpaceStripFixed(a);
    NoEdgeSpaceStripFixed(b);
    assert Upper(a) == "INF";
    assert Upper(b) == "HIGHZ";
  }

  /** Whatever the strict panels accept, the fallback reader picks the same load. */
  lemma FallbackAgreesWhenAccepted(text: string)
    requires ReadLoad(text).Ok? && ReadLoad(text).value.Some?
    ensures ReadLoadFallback(text) == ReadLoad(text).value.value
  {
  }

  /** Every entry the 3021B panels accept with a load, the 33522B panel accepts with the same load. */
  lemma Load33522Extends(text: string)
    requires ReadLoad(text).Ok? && ReadLoad(text).value.Some?
    ensures ReadLoad33522(text) == Ok(ReadLoad(text).value.value)
  {
    var t := Upper(Strip(text));
    if !IsInfAlias(t) {
      NumberNotAlias(t);
    }
  }

  /** "hz" selects high impedance on the 33522B only: the 3021B panels refuse it
      and the state controller falls back to 50 ohms. */
  lemma HzOnly33522()
    ensures ReadLoad33522("hz") == Ok(HighZ)
    ensures ReadLoad("hz").Err?
    ensures ReadLoadFallback("hz") == Ohms(50.0)
  {
    HzUpperStrip();
    HzNotNumber();
  }

  /** A blank entry sends nothing on the 3021B panels but is an error on the 33522B. */
  lemma BlankLoad(text: string)
    requires Strip(text) == []
    ensures ReadLoad(text) == Ok(None)
    ensures ReadLoad33522(text) == Err(InvalidLoad)
    ensures ReadLoadFallback(text) == Ohms(50.0)
  {
    assert Upper(Strip(text)) == [];
  }

  /** The state controller's load write (3021b/3021b_single_trigger.py:258-261): the
      number is written as typed, and when it is unreadable or its write raises,
      50 ohms is written instead.  `ok` is false when a write error escapes the apply:
      the INF write, the fallback write, or the retry after the bare `except`. */
  method WriteFallbackLoad(inst: Instrument, text: string) returns (ok: bool)
    modifies inst
    ensures var t := Upper(Strip(text));
      var first := if IsInfAlias(t) then Command("OUTPut1:IMPedance INF", [])
        else if IsReal(t) then Command("OUTPut1:IMPedance", [Num(ParseReal(t).value)])
        else Command("OUTPut1:IMPedance", [Num(50.0)]);
      var retry := !IsInfAlias(t) && IsReal(t) && FirstSet(old(inst.faults));
      inst.written == old(inst.written)
        + (if FirstSet(old(inst.faults)) then [] else [first])
        + (if retry && !FirstSet(DropFirst(old(inst.faults))) then [Command("OUTPut1:IMPedance", [Num(50.0)])] else []) &&
      (ok <==> !FirstSet(old(inst.faults)) || (retry && !FirstSet(DropFirst(old(inst.faults))))) &&
      inst.faults == (if retry then DropFirst(DropFirst(old(inst.faults))) else DropFirst(old(inst.faults)))
    ensures inst.pending == old(inst.pending) && inst.timeout == old(inst.timeout)
  {
    var t := Upper(Strip(text));
    if IsInfAlias(t) {
      ok := inst.Write(Command("OUTPut1:IMPedance INF", []));
    } else {
      match ParseReal(t)
      case None =>
        ok := inst.Write(Command("OUTPut1:IMPedance", [Num(50.0)]));
      case Some(v) =>
        ok := inst.Write(Command("OUTPut1:IMPedance", [Num(v)]));
        if !ok {
          ok := inst.Write(Command("OUTPut1:IMPedance", [Num(50.0)]));
        }
    }
  }
}
