/** The unit-suffix parsers of the function-generator panels (`_parse_time_to_seconds`,
    `_parse_time`, `_parse_float_si`, the multiplier `_parse_float` and the textual `parse`) and
    the unit choice of `_format_seconds_si`. */
module TimeUnits {
  import opened Outcome
  import opened PyText

  /** Python's `float()` failure, whatever its wording. */
  const NotANumber: string := "could not convert string to float"

  /** Python `float(text)` as a result. */
  function FloatOf(s: string): (r: Result<real>)
    ensures r.Ok? <==> IsReal(s)
    ensures r.Ok? ==> ParseReal(s) == Some(r.value)
    ensures r.Err? ==> r.msg == NotANumber
  {
    match ParseReal(s)
    case None => Err(NotANumber)
    case Some(x) => Ok(x)
  }

  // ---------------------------------------------------------------- text facts

  lemma {:induction false} RemoveSpacesFixed(s: string)
    requires ' ' !in s
    ensures RemoveSpaces(s) == s
    decreases |s|
  {
    if s != [] {
      assert ' ' !in s[1..];
      RemoveSpacesFixed(s[1..]);
      assert s == [s[0]] + s[1..];
    }
  }

  lemma LowerFixed(s: string)
    requires forall k :: 0 <= k < |s| ==> LowerChar(s[k]) == s[k]
    ensures Lower(s) == s
  {
  }

  /** `float(str(n)) == n`. */
  lemma IntTextReal(n: int)
    ensures ParseReal(IntText(n)) == Some(n as real)
  {
    IntTextRoundTrip(n);
    IntTextIsReal(IntText(n));
  }

  lemma IntTextLastDigit(n: int)
    ensures IsDigit(IntText(n)[|IntText(n)| - 1])
  {
    if n < 0 {
      var s := NatText(-n);
      assert IntText(n) == "-" + s;
      assert IntText(n)[|IntText(n)| - 1] == s[|s| - 1];
    }
  }

  /** Lower-casing yields no `Â`: it is itself an upper-case Latin-1 letter. */
  lemma LowerNeverUpperA(s: string)
    ensures '\U{00C2}' !in Lower(s)
  {
  }

  // ---------------------------------------------------------------- suffix tables

  datatype Unit = Unit(suffix: string, scale: real)

  const Micro: char := '\U{00B5}'

  /** A character a suffix may hold: none that can end or continue a number, and none that
      lower-casing or stripping would change. */
  predicate UnitChar(c: char)
  {
    ('a' <= c <= 'z' && c != 'e') || c == Micro
  }

  predicate UnitText(s: string) { |s| > 0 && forall k :: 0 <= k < |s| ==> UnitChar(s[k]) }

  /** The order in which `sorted(units, key=len, reverse=True)` visits a table: longest first. */
  predicate LongestFirst(t: seq<Unit>)
  {
    forall i, j :: 0 <= i < j < |t| ==> |t[i].suffix| >= |t[j].suffix|
  }

  predicate DistinctSuffixes(t: seq<Unit>)
  {
    forall i, j :: 0 <= i < j < |t| ==> t[i].suffix != t[j].suffix
  }

  predicate WellFormed(t: seq<Unit>)
  {
    LongestFirst(t) && DistinctSuffixes(t) && forall i :: 0 <= i < |t| ==> UnitText(t[i].suffix)
  }

  /** The 2450/33522B and 3021B table `{s, ms, us, µs, ns, ps}` in search order (the stable
      sort keeps the two-letter suffixes in table order, then `s`). */
  const SecondUnits: seq<Unit> :=
    [Unit("ms", 0.001), Unit("us", 0.000001), Unit([Micro, 's'], 0.000001),
     Unit("ns", 0.000000001), Unit("ps", 0.000000000001), Unit("s", 1.0)]

  /** The 2602B/33522B table `{s, ms, us, ns, ps}`: no `µs`. */
  const SecondUnitsNoMicro: seq<Unit> :=
    [Unit("ms", 0.001), Unit("us", 0.000001), Unit("ns", 0.000000001), Unit("ps", 0.000000000001), Unit("s", 1.0)]

  /** The SDG1020 burst panel's table `{s, ms, us, µs, ns}`: no `ps`. */
  const BurstUnits: seq<Unit> :=
    [Unit("ms", 0.001), Unit("us", 0.000001), Unit([Micro, 's'], 0.000001), Unit("ns", 0.000000001), Unit("s", 1.0)]

  /** The SDG1020 continuous panel's table as written: its micro suffix is the three characters
      `Âµs`, so it is tried first. */
  const ContUnitsAsWritten: seq<Unit> :=
    [Unit(['\U{00C2}', Micro, 's'], 0.000001), Unit("ms", 0.001), Unit("us", 0.000001),
     Unit("ns", 0.000000001), Unit("ps", 0.000000000001), Unit("s", 1.0)]

  /** The AFG3021B latch panel's table, which also knows `khz`, `hz` and `mhz`. */
  const LatchUnits: seq<Unit> :=
    [Unit("khz", 1000.0), Unit("mhz", 1000000.0), Unit("ms", 0.001), Unit("us", 0.000001),
     Unit([Micro, 's'], 0.000001), Unit("ns", 0.000000001), Unit("ps", 0.000000000001),
     Unit("hz", 1.0), Unit("s", 1.0)]

  lemma SecondUnitsWellFormed()
    ensures WellFormed(SecondUnits)
  {
    SecondUnitsSuffixes();
    SecondUnitsDistinct();
  }

  lemma SecondUnitsSuffixes()
    ensures LongestFirst(SecondUnits) && forall i :: 0 <= i < |SecondUnits| ==> UnitText(SecondUnits[i].suffix)
  {
  }

  lemma SecondUnitsDistinct()
    ensures DistinctSuffixes(SecondUnits)
  {
  }

  lemma SecondUnitsNoMicroWellFormed()
    ensures WellFormed(SecondUnitsNoMicro)
  {
    SecondUnitsNoMicroSuffixes();
    SecondUnitsNoMicroDistinct();
  }

  lemma SecondUnitsNoMicroSuffixes()
    ensures LongestFirst(SecondUnitsNoMicro) && forall i :: 0 <= i < |SecondUnitsNoMicro| ==> UnitText(SecondUnitsNoMicro[i].suffix)
  {
  }

  lemma SecondUnitsNoMicroDistinct()
    ensures DistinctSuffixes(SecondUnitsNoMicro)
  {
  }

  lemma BurstUnitsWellFormed()
    ensures WellFormed(BurstUnits)
  {
    BurstUnitsSuffixes();
    BurstUnitsDistinct();
  }

  lemma BurstUnitsSuffixes()
    ensures LongestFirst(BurstUnits) && forall i :: 0 <= i < |BurstUnits| ==> UnitText(BurstUnits[i].suffix)
  {
  }

  lemma BurstUnitsDistinct()
    ensures DistinctSuffixes(BurstUnits)
  {
  }

  lemma LatchUnitsWellFormed()
    ensures WellFormed(LatchUnits)
  {
    LatchUnitsSuffixes();
    LatchUnitsDistinct();
  }

  lemma LatchUnitsSuffixes()
    ensures LongestFirst(LatchUnits) && forall i :: 0 <= i < |LatchUnits| ==> UnitText(LatchUnits[i].suffix)
  {
  }

  lemma LatchUnitsDistinct()
    ensures DistinctSuffixes(LatchUnits)
  {
  }

  /** The first unit, from index `i` on, whose suffix the text ends with. */
  function MatchFrom(t: seq<Unit>, raw: string, i: nat): (r: Option<nat>)
    requires i <= |t|
    ensures r.Some? ==> i <= r.value < |t| && EndsWith(raw, t[r.value].suffix)
    ensures r.Some? ==> forall j :: i <= j < r.value ==> !EndsWith(raw, t[j].suffix)
    ensures r.None? ==> forall j :: i <= j < |t| ==> !EndsWith(raw, t[j].suffix)
    decreases |t| - i
  {
    if i == |t| then None
    else if EndsWith(raw, t[i].suffix) then Some(i)
    else MatchFrom(t, raw, i + 1)
  }

  /** The text the parsers search: `strip().lower()`, and `.replace(" ", "")` where the panel
      does that too. */
  function Normalize(text: string, dropSpaces: bool): string
  {
    var v := Lower(Strip(text));
    if dropSpaces then RemoveSpaces(v) else v
  }

  /** The returning search: the first suffix found scales the number before it, and a number
      that does not parse is an error; with no suffix the text is plain seconds. */
  function ScaleSuffix(raw: string, t: seq<Unit>): Result<real>
  {
    match MatchFrom(t, raw, 0)
    case None => FloatOf(raw)
    case Some(i) =>
      match FloatOf(raw[..|raw| - |t[i].suffix|])
      case Err(e) => Err(e)
      case Ok(x) => Ok(InUnit(x, t[i]))
  }

  /** A number read in a unit, in seconds (or hertz). */
  function InUnit(x: real, u: Unit): real { x * u.scale }

  /** `_parse_time_to_seconds` / `_parse_time`: empty text is refused with the panel's own
      message, the rest goes through the suffix search. */
  function ParseTime(text: string, t: seq<Unit>, dropSpaces: bool, required: string): (r: Result<real>)
    ensures Normalize(text, dropSpaces) == [] ==> r == Err(required)
  {
    var raw := Normalize(text, dropSpaces);
    if raw == [] then Err(required) else ScaleSuffix(raw, t)
  }

  /** The AFG3021B latch panel's search, which skips a suffix whose number does not parse and
      tries the next one. */
  function TryFrom(raw: string, t: seq<Unit>, i: nat): Result<real>
    requires i <= |t|
    decreases |t| - i
  {
    if i == |t| then FloatOf(raw)
    else if EndsWith(raw, t[i].suffix) && IsReal(raw[..|raw| - |t[i].suffix|]) then
      Ok(InUnit(ParseReal(raw[..|raw| - |t[i].suffix|]).value, t[i]))
    else TryFrom(raw, t, i + 1)
  }

  function ParseTimeLenient(text: string, t: seq<Unit>, required: string): (r: Result<real>)
    ensures Normalize(text, true) == [] ==> r == Err(required)
  {
    var raw := Normalize(text, true);
    if raw == [] then Err(required) else TryFrom(raw, t, 0)
  }

  // ---------------------------------------------------------------- the search finds its own suffix

  /** After a digit, a unit's own suffix is the first one a longest-first search sees. */
  lemma OwnSuffixFirst(t: seq<Unit>, pre: string, i: nat)
    requires WellFormed(t) && i < |t|
    requires |pre| > 0 && IsDigit(pre[|pre| - 1])
    ensures MatchFrom(t, pre + t[i].suffix, 0) == Some(i)
  {
    EndsWithAppend(pre, t[i].suffix);
    EarlierSuffixesMiss(t, pre, i);
    MatchAt(t, pre + t[i].suffix, i);
  }

  lemma EndsWithAppend(pre: string, s: string)
    ensures EndsWith(pre + s, s)
  {
    assert (pre + s)[|pre + s| - |s|..] == s;
  }

  /** The search stops at the first suffix that matches. */
  lemma MatchAt(t: seq<Unit>, raw: string, i: nat)
    requires i < |t| && EndsWith(raw, t[i].suffix)
    requires forall j :: 0 <= j < i ==> !EndsWith(raw, t[j].suffix)
    ensures MatchFrom(t, raw, 0) == Some(i)
  {
  }

  lemma EarlierSuffixesMiss(t: seq<Unit>, pre: string, i: nat)
    requires WellFormed(t) && i < |t|
    requires |pre| > 0 && IsDigit(pre[|pre| - 1])
    ensures forall j :: 0 <= j < i ==> !EndsWith(pre + t[i].suffix, t[j].suffix)
  {
    forall j | 0 <= j < i
      ensures !EndsWith(pre + t[i].suffix, t[j].suffix)
    {
      EarlierSuffixMisses(t[i].suffix, t[j].suffix, pre);
    }
  }

  /** A suffix listed earlier is at least as long, hence either a different suffix of the same
      length or one that would have to reach into the number. */
  lemma EarlierSuffixMisses(s: string, u: string, pre: string)
    requires UnitText(s) && UnitText(u) && |u| >= |s| && u != s
    requires |pre| > 0 && IsDigit(pre[|pre| - 1])
    ensures !EndsWith(pre + s, u)
  {
    var raw := pre + s;
    if |u| == |s| {
      assert raw[|raw| - |s|..] == s;
    } else if |u| <= |raw| {
      var k := |u| - |s| - 1;
      assert raw[|raw| - |u|..][k] == pre[|pre| - 1];
      assert UnitChar(u[k]);
    }
  }

  /** After a digit, no suffix of a table matches a bare number. */
  lemma NoSuffixAfterDigit(t: seq<Unit>, pre: string)
    requires WellFormed(t)
    requires |pre| > 0 && IsDigit(pre[|pre| - 1])
    ensures MatchFrom(t, pre, 0).None?
  {
    forall j | 0 <= j < |t|
      ensures !EndsWith(pre, t[j].suffix)
    {
      var u := t[j].suffix;
      if |u| <= |pre| {
        assert pre[|pre| - |u|..][|u| - 1] == pre[|pre| - 1];
        assert UnitChar(u[|u| - 1]);
      }
    }
  }

  lemma ScaleSuffixRoundTrip(t: seq<Unit>, pre: string, v: real, i: nat)
    requires WellFormed(t) && i < |t|
    requires |pre| > 0 && IsDigit(pre[|pre| - 1]) && ParseReal(pre) == Some(v)
    ensures ScaleSuffix(pre + t[i].suffix, t) == Ok(InUnit(v, t[i]))
  {
    OwnSuffixFirst(t, pre, i);
    var raw := pre + t[i].suffix;
    assert raw[..|raw| - |t[i].suffix|] == pre;
    ScaleSuffixAt(t, raw, i, v);
  }

  lemma ScaleSuffixAt(t: seq<Unit>, raw: string, i: nat, v: real)
    requires i < |t| && MatchFrom(t, raw, 0) == Some(i)
    requires ParseReal(raw[..|raw| - |t[i].suffix|]) == Some(v)
    ensures ScaleSuffix(raw, t) == Ok(InUnit(v, t[i]))
  {
  }

  /** How a panel user may type a unit: any letter case, no blanks. */
  predicate TypedAs(typed: string, s: string)
  {
    |typed| == |s| && forall k :: 0 <= k < |s| ==> LowerChar(typed[k]) == s[k] && !IsSpace(typed[k])
  }

  lemma UpperTyped(s: string)
    requires UnitText(s)
    ensures TypedAs(Upper(s), s)
  {
  }

  /** A whole number followed by a unit, in any letter case, normalises to the number and the
      unit's own suffix. */
  lemma NormalizeNumberUnit(n: int, s: string, typed: string, dropSpaces: bool)
    requires UnitText(s) && TypedAs(typed, s)
    ensures Normalize(IntText(n) + typed, dropSpaces) == IntText(n) + s
  {
    var p := IntText(n);
    var x := p + typed;
    IntTextChars(n);
    assert !IsSpace(x[0]) && !IsSpace(x[|x| - 1]);
    NoEdgeSpaceStripFixed(x);
    LowerNumberTyped(p, s, typed);
    NoSpaceNumberUnit(p, s);
  }

  lemma LowerNumberTyped(p: string, s: string, typed: string)
    requires forall k :: 0 <= k < |p| ==> IsDigit(p[k]) || (k == 0 && p[k] == '-')
    requires TypedAs(typed, s)
    ensures Lower(p + typed) == p + s
  {
    var x := p + typed;
    assert forall k :: 0 <= k < |p| ==> Lower(x)[k] == p[k];
    assert forall k :: 0 <= k < |s| ==> Lower(x)[|p| + k] == s[k];
  }

  lemma NoSpaceNumberUnit(p: string, s: string)
    requires forall k :: 0 <= k < |p| ==> IsDigit(p[k]) || (k == 0 && p[k] == '-')
    requires UnitText(s)
    ensures RemoveSpaces(p + s) == p + s
  {
    var y := p + s;
    assert ' ' !in y by {
      assert forall k :: 0 <= k < |y| ==> y[k] != ' ' by {
        forall k | 0 <= k < |y|
          ensures y[k] != ' '
        {
          if k >= |p| {
            assert y[k] == s[k - |p|];
          }
        }
      }
    }
    RemoveSpacesFixed(y);
  }

  /** Every unit of a table scales a whole number by its factor, whatever the case it is typed in. */
  lemma ParseTimeRoundTrip(t: seq<Unit>, dropSpaces: bool, required: string, n: int, i: nat, typed: string)
    requires WellFormed(t) && i < |t| && TypedAs(typed, t[i].suffix)
    ensures ParseTime(IntText(n) + typed, t, dropSpaces, required) == Ok(InUnit(n as real, t[i]))
  {
    NormalizeNumberUnit(n, t[i].suffix, typed, dropSpaces);
    IntTextLastDigit(n);
    IntTextReal(n);
    ScaleSuffixRoundTrip(t, IntText(n), n as real, i);
  }

  /** A number with no unit is seconds. */
  lemma ParseTimePlainSeconds(t: seq<Unit>, dropSpaces: bool, required: string, n: int)
    requires WellFormed(t)
    ensures ParseTime(IntText(n), t, dropSpaces, required) == Ok(n as real)
  {
    var p := IntText(n);
    IntTextChars(n);
    NoEdgeSpaceStripFixed(p);
    assert Lower(p) == p;
    assert ' ' !in p;
    RemoveSpacesFixed(p);
    IntTextLastDigit(n);
    IntTextReal(n);
    NoSuffixAfterDigit(t, p);
  }

  lemma {:induction false} TryFromSkips(raw: string, t: seq<Unit>, lo: nat, i: nat)
    requires lo <= i <= |t|
    requires forall j :: lo <= j < i ==> !EndsWith(raw, t[j].suffix)
    ensures TryFrom(raw, t, lo) == TryFrom(raw, t, i)
    decreases i - lo
  {
    if lo < i {
      TryFromSkips(raw, t, lo + 1, i);
    }
  }

  /** The latch panel's search reaches the unit's own suffix just as the returning one does. */
  lemma ParseTimeLenientRoundTrip(t: seq<Unit>, required: string, n: int, i: nat, typed: string)
    requires WellFormed(t) && i < |t| && TypedAs(typed, t[i].suffix)
    ensures ParseTimeLenient(IntText(n) + typed, t, required) == Ok(InUnit(n as real, t[i]))
  {
    NormalizeNumberUnit(n, t[i].suffix, typed, true);
    IntTextLastDigit(n);
    IntTextReal(n);
    var raw := IntText(n) + t[i].suffix;
    OwnSuffixFirst(t, IntText(n), i);
    TryFromSkips(raw, t, 0, i);
    assert raw[..|raw| - |t[i].suffix|] == IntText(n);
  }

  // ---------------------------------------------------------------- the panels' parsers

  /** The required-field message of the 2450/33522B panels. */
  function Required(field: string): string { field + " is required." }

  /** `_parse_time_to_seconds` of the 2450/33522B, 33522B trigger-and-pulse and ch2 panels. */
  function ParseSeconds(text: string, field: string): (r: Result<real>)
    ensures Strip(text) == [] ==> r == Err(Required(field))
  {
    ParseTime(text, SecondUnits, true, Required(field))
  }

  /** `_parse_time_to_seconds` of the 2602B/33522B panel. */
  function ParseSecondsNoMicro(text: string, field: string): (r: Result<real>)
    ensures Strip(text) == [] ==> r == Err(Required(field))
  {
    ParseTime(text, SecondUnitsNoMicro, true, Required(field))
  }

  /** `_parse_time` of the SDG1020 burst panel (blanks inside the text are kept: `float()`
      later ignores those at its ends). */
  function ParseBurstTime(text: string): (r: Result<real>)
    ensures Strip(text) == [] ==> r == Err("Empty Value")
  {
    ParseTime(text, BurstUnits, false, "Empty Value")
  }

  const PeriodEmpty: string := "Period cannot be empty"

  /** `_parse_time` of the SDG1020 continuous panel as written. */
  function ParseContTimeAsWritten(text: string): (r: Result<real>)
    ensures Strip(text) == [] ==> r == Err(PeriodEmpty)
  {
    ParseTime(text, ContUnitsAsWritten, false, PeriodEmpty)
  }

  /** The same parser with its micro suffix spelt `µs`, which makes its table the common one. */
  function ParseContTime(text: string): (r: Result<real>)
    ensures Strip(text) == [] ==> r == Err(PeriodEmpty)
  {
    ParseTime(text, SecondUnits, false, PeriodEmpty)
  }

  /** As written, the `Âµs` entry can never match: the searched text is lower-cased first. */
  lemma ContMicroUnreachable(text: string)
    ensures MatchFrom(ContUnitsAsWritten, Normalize(text, false), 0) != Some(0)
  {
    var raw := Normalize(text, false);
    LowerNeverUpperA(Strip(text));
    if |raw| >= 3 {
      assert raw[|raw| - 3..][0] != '\U{00C2}';
    }
  }

  /** So "10µs" is refused as written: only the `s` entry matches, leaving "10µ". */
  lemma ContMicroRejected()
    ensures ParseContTimeAsWritten("10" + [Micro, 's']).Err?
  {
    var x := "10" + [Micro, 's'];
    ContMicroNormal();
    ContMicroMatchesSeconds();
    assert x[..3] == ['1', '0', Micro];
    MicroTailNotReal();
  }

  lemma ContMicroNormal()
    ensures Normalize("10" + [Micro, 's'], false) == "10" + [Micro, 's']
  {
    var x := "10" + [Micro, 's'];
    NoEdgeSpaceStripFixed(x);
    assert Lower(x) == x;
  }

  /** Of the as-written table only the plain `s` entry matches "10µs". */
  lemma ContMicroMatchesSeconds()
    ensures MatchFrom(ContUnitsAsWritten, "10" + [Micro, 's'], 0) == Some(5)
  {
    var x := "10" + [Micro, 's'];
    assert !EndsWith(x, ContUnitsAsWritten[0].suffix) by { assert x[1] != '\U{00C2}'; }
    assert !EndsWith(x, "ms") && !EndsWith(x, "us") && !EndsWith(x, "ns") && !EndsWith(x, "ps");
    assert forall j :: 0 <= j < 5 ==> !EndsWith(x, ContUnitsAsWritten[j].suffix);
    assert EndsWith(x, ContUnitsAsWritten[5].suffix);
  }

  lemma MicroTailNotReal()
    ensures !IsReal(['1', '0', Micro])
  {
    var pre := ['1', '0', Micro];
    ExponentMarkAbsent(pre);
    IndexOfAbsent(pre, '.');
    assert pre[..|pre|] == pre;
  }

  /** With the suffix spelt `µs`, "10µs" is ten microseconds. */
  lemma ContMicroAccepted()
    ensures ParseContTime("10" + [Micro, 's']) == Ok(0.00001)
  {
    assert IntText(10) == "10" by {
      assert NatText(10) == NatText(1) + [DigitChar(0)];
    }
    SecondUnitsWellFormed();
    ParseTimeRoundTrip(SecondUnits, false, PeriodEmpty, 10, 2, [Micro, 's']);
    assert InUnit(10 as real, SecondUnits[2]) == 0.00001;
  }

  lemma ParseSecondsRoundTrip(field: string, n: int, i: nat)
    requires i < |SecondUnits|
    ensures ParseSeconds(IntText(n) + SecondUnits[i].suffix, field) == Ok(InUnit(n as real, SecondUnits[i]))
    ensures ParseSeconds(IntText(n) + Upper(SecondUnits[i].suffix), field) == Ok(InUnit(n as real, SecondUnits[i]))
    ensures ParseSeconds(IntText(n), field) == Ok(n as real)
  {
    SecondUnitsWellFormed();
    ParseTimeRoundTrip(SecondUnits, true, Required(field), n, i, SecondUnits[i].suffix);
    UpperTyped(SecondUnits[i].suffix);
    ParseTimeRoundTrip(SecondUnits, true, Required(field), n, i, Upper(SecondUnits[i].suffix));
    ParseTimePlainSeconds(SecondUnits, true, Required(field), n);
  }

  lemma ParseSecondsNoMicroRoundTrip(field: string, n: int, i: nat)
    requires i < |SecondUnitsNoMicro|
    ensures ParseSecondsNoMicro(IntText(n) + SecondUnitsNoMicro[i].suffix, field) ==
            Ok(InUnit(n as real, SecondUnitsNoMicro[i]))
    ensures ParseSecondsNoMicro(IntText(n), field) == Ok(n as real)
  {
    SecondUnitsNoMicroWellFormed();
    ParseTimeRoundTrip(SecondUnitsNoMicro, true, Required(field), n, i, SecondUnitsNoMicro[i].suffix);
    ParseTimePlainSeconds(SecondUnitsNoMicro, true, Required(field), n);
  }

  lemma ParseBurstTimeRoundTrip(n: int, i: nat)
    requires i < |BurstUnits|
    ensures ParseBurstTime(IntText(n) + BurstUnits[i].suffix) == Ok(InUnit(n as real, BurstUnits[i]))
    ensures ParseBurstTime(IntText(n)) == Ok(n as real)
  {
    BurstUnitsWellFormed();
    ParseTimeRoundTrip(BurstUnits, false, "Empty Value", n, i, BurstUnits[i].suffix);
    ParseTimePlainSeconds(BurstUnits, false, "Empty Value", n);
  }

  lemma ParseContTimeRoundTrip(n: int, i: nat)
    requires i < |SecondUnits|
    ensures ParseContTime(IntText(n) + SecondUnits[i].suffix) == Ok(InUnit(n as real, SecondUnits[i]))
    ensures ParseContTime(IntText(n)) == Ok(n as real)
  {
    SecondUnitsWellFormed();
    ParseTimeRoundTrip(SecondUnits, false, PeriodEmpty, n, i, SecondUnits[i].suffix);
    ParseTimePlainSeconds(SecondUnits, false, PeriodEmpty, n);
  }

  /** `_parse_time_to_seconds` of the AFG3021B latch panel. */
  function ParseLatchTime(text: string, field: string): (r: Result<real>)
    ensures Strip(text) == [] ==> r == Err(Required(field))
  {
    ParseTimeLenient(text, LatchUnits, Required(field))
  }

  lemma ParseLatchTimeRoundTrip(field: string, n: int, i: nat)
    requires i < |LatchUnits|
    ensures ParseLatchTime(IntText(n) + LatchUnits[i].suffix, field) == Ok(InUnit(n as real, LatchUnits[i]))
    ensures ParseLatchTime(IntText(n) + Upper(LatchUnits[i].suffix), field) == Ok(InUnit(n as real, LatchUnits[i]))
  {
    LatchUnitsWellFormed();
    ParseTimeLenientRoundTrip(LatchUnits, Required(field), n, i, LatchUnits[i].suffix);
    UpperTyped(LatchUnits[i].suffix);
    ParseTimeLenientRoundTrip(LatchUnits, Required(field), n, i, Upper(LatchUnits[i].suffix));
  }

  // ---------------------------------------------------------------- `_parse_float_si`

  lemma {:induction false} DigitsAll(s: string)
    requires forall k :: 0 <= k < |s| ==> IsDigit(s[k])
    ensures AllDigits(s)
    decreases |s|
  {
    if s != [] {
      DigitsAll(s[..|s| - 1]);
    }
  }

  /** The AFG3021B latch panel's one-letter multipliers; case matters (`M` mega, `m` milli). */
  function SIMultiplier(c: char): Option<real>
  {
    if c == 'k' then Some(1000.0)
    else if c == 'M' then Some(1000000.0)
    else if c == 'm' then Some(0.001)
    else if c == 'u' then Some(0.000001)
    else if c == 'n' then Some(0.000000001)
    else None
  }

  /** A number read with a multiplier letter. */
  function WithMultiplier(x: real, c: char): real
    requires SIMultiplier(c).Some?
  {
    x * SIMultiplier(c).value
  }

  /** The text with its first '.' taken out. */
  function DropFirstDot(s: string): string
  {
    var d := IndexOf(s, '.');
    if d < |s| then s[..d] + s[d + 1..] else s
  }

  /** `s.replace('.', '', 1).isdigit()`: decimal digits around at most one point. */
  predicate DecimalDigits(s: string)
  {
    var r := DropFirstDot(s);
    |r| > 0 && AllDigits(r)
  }

  /** Outside its first point, a `DecimalDigits` text is digits. */
  lemma DecimalDigitsAt(s: string)
    requires DecimalDigits(s)
    ensures forall k :: 0 <= k < |s| && k != IndexOf(s, '.') ==> IsDigit(s[k])
    ensures IndexOf(s, '.') < |s| ==> |s| > 1
  {
    var d := IndexOf(s, '.');
    var r := DropFirstDot(s);
    AllDigitsAt(r);
    if d < |s| {
      DropDotIndex(s, d, r);
    } else {
      assert r == s;
    }
  }

  lemma DropDotIndex(s: string, d: nat, r: string)
    requires d < |s| && r == s[..d] + s[d + 1..]
    ensures forall k :: 0 <= k < d ==> s[k] == r[k]
    ensures forall k :: d < k < |s| ==> s[k] == r[k - 1]
  {
  }

  lemma DecimalIntPart(s: string)
    requires DecimalDigits(s)
    ensures AllDigits(s[..IndexOf(s, '.')])
  {
    var ip := s[..IndexOf(s, '.')];
    DecimalDigitsAt(s);
    assert forall k :: 0 <= k < |ip| ==> IsDigit(ip[k]);
    DigitsAll(ip);
  }

  lemma DecimalFracPart(s: string)
    requires DecimalDigits(s) && IndexOf(s, '.') < |s|
    ensures AllDigits(s[IndexOf(s, '.') + 1..])
  {
    var d := IndexOf(s, '.');
    var fp := s[d + 1..];
    DecimalDigitsAt(s);
    assert forall k :: 0 <= k < |fp| ==> fp[k] == s[d + 1 + k];
    DigitsAll(fp);
  }

  lemma UnsignedDecimalOfDigits(s: string)
    requires DecimalDigits(s)
    ensures ParseUnsignedDecimal(s).Some?
  {
    var d := IndexOf(s, '.');
    DecimalIntPart(s);
    if d < |s| {
      DecimalFracPart(s);
      assert |DropFirstDot(s)| == d + |s[d + 1..]|;
    }
  }

  lemma DecimalDigitsCore(s: string)
    requires DecimalDigits(s)
    ensures ParseRealCore(s).Some?
  {
    var d := IndexOf(s, '.');
    IndexOfFirst(s, '.');
    DecimalDigitsAt(s);
    assert forall k :: 0 <= k < |s| ==> s[k] != 'e' && s[k] != 'E';
    ExponentMarkAbsent(s);
    assert s[0] != '+' && s[0] != '-';
    assert s[..|s|] == s;
    UnsignedDecimalOfDigits(s);
  }

  /** What passes `DecimalDigits` is a float, so the multiplier branch never fails. */
  lemma DecimalDigitsIsReal(s: string)
    requires DecimalDigits(s)
    ensures IsReal(s)
  {
    DecimalDigitsAt(s);
    IndexOfFirst(s, '.');
    assert !IsSpace(s[0]) && !IsSpace(s[|s| - 1]);
    NoEdgeSpaceStripFixed(s);
    ParseRealStrip(s);
    DecimalDigitsCore(s);
  }

  /** `_parse_float_si`: a multiplier letter after a plain decimal scales it; otherwise the text
      is a float, or else whatever the latch panel's time parser makes of it. */
  function ParseFloatSI(text: string, field: string): (r: Result<real>)
    ensures RemoveSpaces(Strip(text)) == [] ==> r == Err(Required(field))
  {
    var raw := RemoveSpaces(Strip(text));
    if raw == [] then Err(Required(field))
    else
      var c := raw[|raw| - 1];
      var num := raw[..|raw| - 1];
      if SIMultiplier(c).Some? && DecimalDigits(num) then
        DecimalDigitsIsReal(num);
        Ok(WithMultiplier(ParseReal(num).value, c))
      else if IsReal(raw) then Ok(ParseReal(raw).value)
      else ParseLatchTime(text, field)
  }

  lemma NatTextFacts(n: nat)
    ensures IntText(n) == NatText(n) && |NatText(n)| > 0
    ensures forall k :: 0 <= k < |NatText(n)| ==> IsDigit(NatText(n)[k])
    ensures ParseReal(NatText(n)) == Some(n as real)
  {
    AllDigitsAt(NatText(n));
    IntTextReal(n);
  }

  /** Digits and unit letters: text that `strip`, `lower` and space removal leave alone. */
  predicate PlainText(x: string)
  {
    forall k :: 0 <= k < |x| ==> IsDigit(x[k]) || UnitChar(x[k])
  }

  lemma PlainConcat(a: string, b: string)
    requires PlainText(a) && PlainText(b)
    ensures PlainText(a + b)
  {
    var x := a + b;
    assert forall k :: 0 <= k < |a| ==> x[k] == a[k];
    assert forall k :: |a| <= k < |x| ==> x[k] == b[k - |a|];
  }

  lemma PlainLower(x: string)
    requires PlainText(x)
    ensures Lower(x) == x
  {
    assert forall k :: 0 <= k < |x| ==> LowerChar(x[k]) == x[k];
    LowerFixed(x);
  }

  lemma PlainNoSpaces(x: string)
    requires PlainText(x)
    ensures Strip(x) == x && RemoveSpaces(x) == x
  {
    if x != [] {
      assert !IsSpace(x[0]) && !IsSpace(x[|x| - 1]);
    }
    NoEdgeSpaceStripFixed(x);
    assert forall k :: 0 <= k < |x| ==> x[k] != ' ';
    RemoveSpacesFixed(x);
  }

  lemma NatTextPlain(n: nat)
    ensures PlainText(NatText(n))
  {
    AllDigitsAt(NatText(n));
  }

  /** A unit after a number is left alone by `lower`, `strip` and space removal. */
  lemma NumberUnitLower(n: nat, w: string)
    requires UnitText(w)
    ensures Lower(NatText(n) + w) == NatText(n) + w
  {
    NumberUnitPlain(n, w);
    PlainLower(NatText(n) + w);
  }

  lemma NumberUnitPlain(n: nat, w: string)
    requires UnitText(w)
    ensures PlainText(NatText(n) + w)
  {
    NatTextPlain(n);
    assert PlainText(w);
    PlainConcat(NatText(n), w);
  }

  lemma NumberUnitRaw(n: nat, w: string)
    requires UnitText(w)
    ensures RemoveSpaces(Strip(NatText(n) + w)) == NatText(n) + w
  {
    NumberUnitPlain(n, w);
    PlainNoSpaces(NatText(n) + w);
  }

  lemma MultiplierNumberText(n: nat, c: char)
    requires SIMultiplier(c).Some?
    ensures RemoveSpaces(Strip(NatText(n) + [c])) == NatText(n) + [c]
  {
    var d := NatText(n);
    var x := d + [c];
    AllDigitsAt(d);
    assert x[0] == d[0];
    NoEdgeSpaceStripFixed(x);
    assert forall k :: 0 <= k < |x| ==> x[k] != ' ' by {
      assert forall k :: 0 <= k < |d| ==> x[k] == d[k];
    }
    RemoveSpacesFixed(x);
  }

  /** A whole number with a multiplier letter is scaled by it. */
  lemma ParseFloatSIMultiplier(field: string, n: nat, c: char)
    requires SIMultiplier(c).Some?
    ensures ParseFloatSI(NatText(n) + [c], field) == Ok(WithMultiplier(n as real, c))
  {
    var d := NatText(n);
    var x := d + [c];
    NatTextFacts(n);
    MultiplierNumberText(n, c);
    assert x[..|x| - 1] == d;
    IndexOfAbsent(d, '.');
    assert DropFirstDot(d) == d;
    DigitsAll(d);
  }

  /** Digits followed by a unit are not a float. */
  lemma UnitTailNotReal(d: string, u: string)
    requires |d| > 0 && forall k :: 0 <= k < |d| ==> IsDigit(d[k])
    requires UnitText(u)
    ensures !IsReal(d + u)
  {
    var x := d + u;
    assert forall k :: 0 <= k < |x| ==> x[k] != 'e' && x[k] != 'E' && x[k] != '.' by {
      assert forall k :: 0 <= k < |d| ==> x[k] == d[k];
      assert forall k :: |d| <= k < |x| ==> x[k] == u[k - |d|];
    }
    assert x[|x| - 1] == u[|u| - 1];
    assert !AllDigits(x);
    assert !IsSpace(x[0]) && !IsSpace(x[|x| - 1]);
    NoEdgeSpaceStripFixed(x);
    ParseRealStrip(x);
    ExponentMarkAbsent(x);
    IndexOfAbsent(x, '.');
    assert x[..|x|] == x;
  }

  /** When the last character is no multiplier and the text is no float, the latch panel's time
      parser decides. */
  lemma ParseFloatSIDefers(text: string, field: string)
    requires var raw := RemoveSpaces(Strip(text)); raw != [] && SIMultiplier(raw[|raw| - 1]).None? && !IsReal(raw)
    ensures ParseFloatSI(text, field) == ParseLatchTime(text, field)
  {
  }

  /** Text ending in a unit rather than a multiplier letter goes on to the latch panel's time
      parser, so "5khz" is 5000 and "2ms" is 0.002. */
  lemma ParseFloatSIFallsBack(field: string, n: nat, i: nat)
    requires i < |LatchUnits|
    ensures ParseFloatSI(NatText(n) + LatchUnits[i].suffix, field) == Ok(InUnit(n as real, LatchUnits[i]))
  {
    var u := LatchUnits[i].suffix;
    LatchSuffixEnds(i);
    FallsBackText(n, u);
    ParseFloatSIDefers(NatText(n) + u, field);
    NatTextFacts(n);
    ParseLatchTimeRoundTrip(field, n, i);
  }

  lemma LatchSuffixEnds(i: nat)
    requires i < |LatchUnits|
    ensures UnitText(LatchUnits[i].suffix)
    ensures var u := LatchUnits[i].suffix; u[|u| - 1] == 's' || u[|u| - 1] == 'z'
  {
    LatchUnitsSuffixes();
  }

  lemma FallsBackText(n: nat, u: string)
    requires UnitText(u) && (u[|u| - 1] == 's' || u[|u| - 1] == 'z')
    ensures RemoveSpaces(Strip(NatText(n) + u)) == NatText(n) + u
    ensures SIMultiplier(u[|u| - 1]).None? && (NatText(n) + u)[|NatText(n) + u| - 1] == u[|u| - 1]
    ensures !IsReal(NatText(n) + u)
  {
    var d := NatText(n);
    NumberUnitRaw(n, u);
    var x := d + u;
    assert x[|x| - 1] == u[|u| - 1];
    AllDigitsAt(d);
    UnitTailNotReal(d, u);
    NoMultiplierAtEnd(u[|u| - 1]);
  }

  lemma NoMultiplierAtEnd(c: char)
    requires c == 's' || c == 'z'
    ensures SIMultiplier(c).None?
  {
  }

  // ---------------------------------------------------------------- the multiplier `_parse_float`

  /** `str.strip(chars)`, one end at a time. */
  function LStripSet(s: string, cs: set<char>): (r: string)
    decreases |s|
  {
    if s != [] && s[0] in cs then LStripSet(s[1..], cs) else s
  }

  function RStripSet(s: string, cs: set<char>): (r: string)
    decreases |s|
  {
    if s != [] && s[|s| - 1] in cs then RStripSet(s[..|s| - 1], cs) else s
  }

  function StripSet(s: string, cs: set<char>): string
  {
    RStripSet(LStripSet(s, cs), cs)
  }

  predicate AllIn(w: string, cs: set<char>)
  {
    forall k :: 0 <= k < |w| ==> w[k] in cs
  }

  lemma {:induction false} RStripSetTail(a: string, b: string, cs: set<char>)
    requires a == [] || a[|a| - 1] !in cs
    requires AllIn(b, cs)
    ensures RStripSet(a + b, cs) == a
    decreases |b|
  {
    if b != [] {
      var x := a + b;
      assert x[|x| - 1] == b[|b| - 1];
      assert x[..|x| - 1] == a + b[..|b| - 1];
      RStripSetTail(a, b[..|b| - 1], cs);
    } else {
      assert a + b == a;
    }
  }

  /** The letters the AFG3021B burst panel strips off both ends of a value. */
  const StripLetters: set<char> := {'k', 'm', 'u', 'n', 'h', 'z', 's', 'v'}

  /** The unit letters among them. */
  const UnitLetters: set<char> := {'h', 'z', 's', 'v'}

  /** The multiplier letters among them. */
  const MultiplierLetters: set<char> := {'k', 'm', 'u', 'n'}

  /** The multiplier of a letter: `m` is mega here, since the panel reads frequencies with it. */
  function LetterMultiplier(c: char): real
  {
    if c == 'k' then 1000.0
    else if c == 'm' then 1000000.0
    else if c == 'u' then 0.000001
    else if c == 'n' then 0.000000001
    else 1.0
  }

  /** The multiplier read off the last character of a text. */
  function TrailingMultiplier(v: string): real
  {
    if v == [] then 1.0 else LetterMultiplier(v[|v| - 1])
  }

  function Multiplied(x: real, m: real): real { x * m }

  function InvalidValue(name: string): string { "Invalid value for " + name }

  /** `_parse_float` as written: the multiplier comes from the very last character, before the
      unit letters are stripped. */
  function ParseMultipliedAsWritten(text: string, name: string): (r: Result<real>)
    ensures r.Err? ==> r.msg == InvalidValue(name)
  {
    var v := RemoveSpaces(Lower(text));
    match ParseReal(StripSet(v, StripLetters))
    case None => Err(InvalidValue(name))
    case Some(x) => Ok(Multiplied(x, TrailingMultiplier(v)))
  }

  /** `_parse_float` with the multiplier taken from the character before the unit letters. */
  function ParseMultiplied(text: string, name: string): (r: Result<real>)
    ensures r.Err? ==> r.msg == InvalidValue(name)
  {
    var v := RemoveSpaces(Lower(text));
    match ParseReal(StripSet(v, StripLetters))
    case None => Err(InvalidValue(name))
    case Some(x) => Ok(Multiplied(x, TrailingMultiplier(RStripSet(v, UnitLetters))))
  }

  /** A multiplier letter and unit letters form a unit text, all of whose letters are stripped. */
  lemma MultiplierTail(p: char, unit: string)
    requires p in MultiplierLetters && AllIn(unit, UnitLetters)
    ensures UnitText([p] + unit) && AllIn([p] + unit, StripLetters)
  {
    var w := [p] + unit;
    assert forall k :: 1 <= k < |w| ==> w[k] == unit[k - 1];
  }

  lemma MultipliedText(n: nat, p: char, unit: string)
    requires p in MultiplierLetters && AllIn(unit, UnitLetters)
    ensures RemoveSpaces(Lower(NatText(n) + [p] + unit)) == NatText(n) + [p] + unit
    ensures StripSet(NatText(n) + [p] + unit, StripLetters) == NatText(n)
    ensures RStripSet(NatText(n) + [p] + unit, UnitLetters) == NatText(n) + [p]
  {
    var d := NatText(n);
    var w := [p] + unit;
    assert d + [p] + unit == d + w;
    MultiplierTail(p, unit);
    NumberUnitPlain(n, w);
    PlainLower(d + w);
    PlainNoSpaces(d + w);
    StripMultiplied(d, w);
    MultipliedUnitStrip(d, p, unit);
    assert d + w == (d + [p]) + unit;
  }

  lemma MultipliedUnitStrip(d: string, p: char, unit: string)
    requires p in MultiplierLetters && AllIn(unit, UnitLetters)
    ensures RStripSet(d + [p] + unit, UnitLetters) == d + [p]
  {
    var dp := d + [p];
    assert dp[|dp| - 1] == p;
    assert p !in UnitLetters;
    RStripSetTail(dp, unit, UnitLetters);
  }

  lemma StripMultiplied(d: string, w: string)
    requires |d| > 0 && AllDigits(d) && AllIn(w, StripLetters)
    ensures StripSet(d + w, StripLetters) == d
  {
    AllDigitsAt(d);
    var x := d + w;
    assert x[0] == d[0];
    assert LStripSet(x, StripLetters) == x;
    RStripSetTail(d, w, StripLetters);
  }

  /** As written, unit letters after the multiplier make it fall away: "10us" reads as 10 and
      "5khz" as 5. */
  lemma UnitDropsMultiplier(n: nat, p: char, unit: string, name: string)
    requires p in MultiplierLetters && |unit| > 0 && AllIn(unit, UnitLetters)
    ensures ParseMultipliedAsWritten(NatText(n) + [p] + unit, name) == Ok(n as real)
  {
    MultipliedText(n, p, unit);
    NatTextFacts(n);
    var x := NatText(n) + [p] + unit;
    assert x[|x| - 1] == unit[|unit| - 1];
    assert Multiplied(n as real, 1.0) == n as real;
  }

  /** A whole number, a multiplier letter and any unit letters read as the number times the
      multiplier. */
  lemma ParseMultipliedRoundTrip(n: nat, p: char, unit: string, name: string)
    requires p in MultiplierLetters && AllIn(unit, UnitLetters)
    ensures ParseMultiplied(NatText(n) + [p] + unit, name) == Ok(Multiplied(n as real, LetterMultiplier(p)))
  {
    MultipliedText(n, p, unit);
    NatTextFacts(n);
  }

  /** The two readings differ on every positive number written with a multiplier and a unit. */
  lemma MultipliedReadingsDiffer(n: nat, p: char, unit: string, name: string)
    requires n > 0 && p in MultiplierLetters && |unit| > 0 && AllIn(unit, UnitLetters)
    ensures ParseMultipliedAsWritten(NatText(n) + [p] + unit, name) != ParseMultiplied(NatText(n) + [p] + unit, name)
  {
    UnitDropsMultiplier(n, p, unit, name);
    ParseMultipliedRoundTrip(n, p, unit, name);
    var m := LetterMultiplier(p);
    assert m != 1.0;
    assert Multiplied(n as real, m) != n as real by {
      if m > 1.0 {
        assert n as real * m > n as real * 1.0;
      } else {
        assert n as real * m < n as real * 1.0;
      }
    }
  }

  /** Without trailing unit letters the two readings agree. */
  lemma ParseMultipliedAgrees(text: string, name: string)
    requires var v := RemoveSpaces(Lower(text)); v == [] || v[|v| - 1] !in UnitLetters
    ensures ParseMultiplied(text, name) == ParseMultipliedAsWritten(text, name)
  {
  }

  // ---------------------------------------------------------------- the textual `parse`

  lemma {:induction false} NoHeadNoMatch(s: string, p: string)
    requires |p| > 0 && p[0] !in s
    ensures !Contains(s, p)
    decreases |s|
  {
    if s != [] {
      assert s[0] != p[0];
      NoHeadNoMatch(s[1..], p);
    }
  }

  lemma ReplaceWhole(p: string, q: string)
    requires |p| > 0
    ensures Replace(p, p, q) == q
  {
    assert p[..|p|] == p && p[|p|..] == [];
  }

  lemma ReplaceSkip(x: string, p: string, q: string)
    requires |p| > 0 && |x| >= |p| && x[0] != p[0]
    ensures Replace(x, p, q) == [x[0]] + Replace(x[1..], p, q)
  {
    assert x[..|p|][0] == x[0];
  }

  lemma {:induction false} ReplaceAfterDigits(d: string, p: string, q: string)
    requires |p| > 0 && !IsDigit(p[0]) && forall k :: 0 <= k < |d| ==> IsDigit(d[k])
    ensures Replace(d + p, p, q) == d + q
    decreases |d|
  {
    if d == [] {
      assert d + p == p && d + q == q;
      ReplaceWhole(p, q);
    } else {
      var x := d + p;
      assert x[0] == d[0] && x[1..] == d[1..] + p;
      ReplaceSkip(x, p, q);
      ReplaceAfterDigits(d[1..], p, q);
      assert d + q == [d[0]] + (d[1..] + q);
    }
  }

  /** `parse` of the SDG1020 two-channel and manual-burst panels: `us`, `ms` and `ns` are
      rewritten into exponents, in that order, and what is left must be a float. */
  function ParseExponentText(text: string): Result<real>
  {
    FloatOf(RewriteExponents(Lower(text)))
  }

  function RewriteExponents(s: string): string
  {
    Replace(Replace(Replace(s, "us", "e-6"), "ms", "e-3"), "ns", "e-9")
  }

  lemma {:induction false} ExponentMarkAfter(d: string, rest: string)
    requires forall k :: 0 <= k < |d| ==> IsDigit(d[k])
    requires |rest| > 0 && rest[0] == 'e'
    ensures ExponentMark(d + rest) == |d|
    decreases |d|
  {
    if d != [] {
      assert (d + rest)[1..] == d[1..] + rest;
      ExponentMarkAfter(d[1..], rest);
    } else {
      assert d + rest == rest;
    }
  }

  lemma WholeDecimal(d: string)
    requires |d| > 0 && AllDigits(d)
    ensures ParseUnsignedDecimal(d) == Some(DigitsValue(d) as real)
  {
    AllDigitsAt(d);
    IndexOfAbsent(d, '.');
    assert d[..|d|] == d;
  }

  lemma NegativeDigit(e: nat)
    requires e < 10
    ensures ParseSignedDigits("-" + [DigitChar(e)]) == Some(-(e as int))
  {
    var t := "-" + [DigitChar(e)];
    var c := [DigitChar(e)];
    assert t[0] == '-' && t[1..] == c;
    assert c[..0] == [] && c[|c| - 1] == DigitChar(e);
    assert AllDigits(c);
    assert DigitsValue(c) == e;
  }

  /** `float()` of an unsigned mantissa followed by an exponent. */
  lemma CoreOfParts(t: string, k: nat, m: real, e: int)
    requires |t| > 0 && t[0] != '+' && t[0] != '-' && k < |t| && ExponentMark(t) == k
    requires ParseUnsignedDecimal(t[..k]) == Some(m) && ParseSignedDigits(t[k + 1..]) == Some(e)
    ensures ParseRealCore(t) == Some(Scale10(m, e))
  {
  }

  lemma DigitsExponentCore(d: string, e: nat)
    requires |d| > 0 && AllDigits(d) && e < 10
    ensures ParseRealCore(d + "e-" + [DigitChar(e)]) == Some(Scale10(DigitsValue(d) as real, -(e as int)))
  {
    var x := d + ("e-" + [DigitChar(e)]);
    assert x == d + "e-" + [DigitChar(e)];
    AllDigitsAt(d);
    assert x[0] == d[0];
    ExponentMarkAfter(d, "e-" + [DigitChar(e)]);
    assert x[..|d|] == d;
    WholeDecimal(d);
    assert x[|d| + 1..] == "-" + [DigitChar(e)];
    NegativeDigit(e);
    CoreOfParts(x, |d|, DigitsValue(d) as real, -(e as int));
  }

  /** A whole number with a negative one-digit exponent. */
  lemma ExponentNumber(n: nat, e: nat)
    requires e < 10
    ensures ParseReal(NatText(n) + "e-" + [DigitChar(e)]) == Some(Scale10(n as real, -(e as int)))
  {
    var d := NatText(n);
    var x := d + "e-" + [DigitChar(e)];
    NatTextFacts(n);
    NatTextValue(n);
    assert x[0] == d[0] && x[|x| - 1] == DigitChar(e);
    NoEdgeSpaceStripFixed(x);
    ParseRealStrip(x);
    DigitsExponentCore(d, e);
  }

  /** A letter is not among digits followed by a tail without it. */
  lemma DigitsLack(d: string, tail: string, c: char)
    requires forall k :: 0 <= k < |d| ==> IsDigit(d[k])
    requires !IsDigit(c) && c !in tail
    ensures c !in d + tail
  {
    var x := d + tail;
    assert forall k :: 0 <= k < |d| ==> x[k] == d[k];
    assert forall k :: |d| <= k < |x| ==> x[k] == tail[k - |d|];
  }

  lemma Untouched(d: string, tail: string, p: string, q: string)
    requires forall k :: 0 <= k < |d| ==> IsDigit(d[k])
    requires |p| > 0 && !IsDigit(p[0]) && p[0] !in tail
    ensures Replace(d + tail, p, q) == d + tail
  {
    DigitsLack(d, tail, p[0]);
    NoHeadNoMatch(d + tail, p);
    ReplaceAbsent(d + tail, p, q);
  }

  /** Three rewrites in a row, of which the first, the second, the third or none applies. */
  predicate Rewrites(d: string, p1: string, p2: string, p3: string)
  {
    (forall k :: 0 <= k < |d| ==> IsDigit(d[k])) && |p1| > 0 && |p2| > 0 && |p3| > 0
    && !IsDigit(p1[0]) && !IsDigit(p2[0]) && !IsDigit(p3[0])
  }

  lemma RewriteFirst(d: string, p1: string, q1: string, p2: string, q2: string, p3: string, q3: string)
    requires Rewrites(d, p1, p2, p3) && p2[0] !in q1 && p3[0] !in q1
    ensures Replace(Replace(Replace(d + p1, p1, q1), p2, q2), p3, q3) == d + q1
  {
    ReplaceAfterDigits(d, p1, q1);
    Untouched(d, q1, p2, q2);
    Untouched(d, q1, p3, q3);
  }

  lemma RewriteSecond(d: string, p1: string, q1: string, p2: string, q2: string, p3: string, q3: string)
    requires Rewrites(d, p1, p2, p3) && p1[0] !in p2 && p3[0] !in q2
    ensures Replace(Replace(Replace(d + p2, p1, q1), p2, q2), p3, q3) == d + q2
  {
    Untouched(d, p2, p1, q1);
    ReplaceAfterDigits(d, p2, q2);
    Untouched(d, q2, p3, q3);
  }

  lemma RewriteThird(d: string, p1: string, q1: string, p2: string, q2: string, p3: string, q3: string)
    requires Rewrites(d, p1, p2, p3) && p1[0] !in p3 && p2[0] !in p3
    ensures Replace(Replace(Replace(d + p3, p1, q1), p2, q2), p3, q3) == d + q3
  {
    Untouched(d, p3, p1, q1);
    Untouched(d, p3, p2, q2);
    ReplaceAfterDigits(d, p3, q3);
  }

  lemma RewriteNone(d: string, t: string, p1: string, q1: string, p2: string, q2: string, p3: string, q3: string)
    requires Rewrites(d, p1, p2, p3) && p1[0] !in t && p2[0] !in t && p3[0] !in t
    ensures Replace(Replace(Replace(d + t, p1, q1), p2, q2), p3, q3) == d + t
  {
    Untouched(d, t, p1, q1);
    Untouched(d, t, p2, q2);
    Untouched(d, t, p3, q3);
  }

  lemma RewriteMicro(d: string)
    requires forall k :: 0 <= k < |d| ==> IsDigit(d[k])
    ensures RewriteExponents(d + "us") == d + "e-6"
  {
    RewriteFirst(d, "us", "e-6", "ms", "e-3", "ns", "e-9");
  }

  lemma RewriteMilli(d: string)
    requires forall k :: 0 <= k < |d| ==> IsDigit(d[k])
    ensures RewriteExponents(d + "ms") == d + "e-3"
  {
    RewriteSecond(d, "us", "e-6", "ms", "e-3", "ns", "e-9");
  }

  lemma RewriteNano(d: string)
    requires forall k :: 0 <= k < |d| ==> IsDigit(d[k])
    ensures RewriteExponents(d + "ns") == d + "e-9"
  {
    RewriteThird(d, "us", "e-6", "ms", "e-3", "ns", "e-9");
  }

  lemma RewriteSeconds(d: string)
    requires forall k :: 0 <= k < |d| ==> IsDigit(d[k])
    ensures RewriteExponents(d + "s") == d + "s"
  {
    RewriteNone(d, "s", "us", "e-6", "ms", "e-3", "ns", "e-9");
  }

  lemma ExponentTextOf(x: string, y: string)
    requires Lower(x) == x && RewriteExponents(x) == y
    ensures ParseExponentText(x) == FloatOf(y)
  {
  }

  /** A whole number with a negative exponent, as the rewrite leaves it, is a float. */
  lemma ExponentFloat(n: nat, e: nat, t: string)
    requires e < 10 && t == "e-" + [DigitChar(e)]
    ensures FloatOf(NatText(n) + t) == Ok(Scale10(n as real, -(e as int)))
  {
    ExponentNumber(n, e);
    assert NatText(n) + t == NatText(n) + "e-" + [DigitChar(e)];
  }

  lemma ExponentTextMicro(n: nat)
    ensures ParseExponentText(NatText(n) + "us") == Ok(Scale10(n as real, -6))
  {
    var d := NatText(n);
    NumberUnitLower(n, "us");
    AllDigitsAt(d);
    RewriteMicro(d);
    ExponentTextOf(d + "us", d + "e-6");
    ExponentFloat(n, 6, "e-6");
  }

  lemma ExponentTextMilli(n: nat)
    ensures ParseExponentText(NatText(n) + "ms") == Ok(Scale10(n as real, -3))
  {
    var d := NatText(n);
    NumberUnitLower(n, "ms");
    AllDigitsAt(d);
    RewriteMilli(d);
    ExponentTextOf(d + "ms", d + "e-3");
    ExponentFloat(n, 3, "e-3");
  }

  lemma ExponentTextNano(n: nat)
    ensures ParseExponentText(NatText(n) + "ns") == Ok(Scale10(n as real, -9))
  {
    var d := NatText(n);
    NumberUnitLower(n, "ns");
    AllDigitsAt(d);
    RewriteNano(d);
    ExponentTextOf(d + "ns", d + "e-9");
    ExponentFloat(n, 9, "e-9");
  }

  /** A plain `s` is not rewritten, so "1s" is refused. */
  lemma ExponentTextRejectsSeconds(n: nat)
    ensures ParseExponentText(NatText(n) + "s").Err?
  {
    var d := NatText(n);
    NumberUnitLower(n, "s");
    AllDigitsAt(d);
    RewriteSeconds(d);
    UnitTailNotReal(d, "s");
  }

  // ---------------------------------------------------------------- `_format_seconds_si`

  /** 1000^k. */
  function Thousands(k: nat): (p: real)
    ensures p >= 1.0
  {
    if k == 0 then 1.0 else 1000.0 * Thousands(k - 1)
  }

  /** A duration in the unit `_format_seconds_si` picks: `step` 0..4 is s, ms, µs, ns, ps. */
  datatype Scaled = Scaled(value: real, step: nat)

  /** The unit choice: the largest of s, ms, µs, ns in which the value is at least 1, else ps;
      the `%g` rendering is not modelled. */
  function ScaleSeconds(s: real): (r: Scaled)
    ensures r.step <= 4 && r.value == s * Thousands(r.step)
    ensures r.step == 0 <==> s >= 1.0
    ensures 0.000000001 <= s < 1.0 ==> 1.0 <= r.value < 1000.0
    ensures 0.0 < s < 0.000000001 ==> r.step == 4 && 0.0 < r.value < 1000.0
  {
    if s >= 1.0 then Scaled(s, 0)
    else if s >= 0.001 then Scaled(s * 1000.0, 1)
    else if s >= 0.000001 then Scaled(s * 1000000.0, 2)
    else if s >= 0.000000001 then Scaled(s * 1000000000.0, 3)
    else Scaled(s * 1000000000000.0, 4)
  }

  /** A longer duration never gets a smaller unit. */
  lemma ScaleMonotone(a: real, b: real)
    requires a <= b
    ensures ScaleSeconds(a).step >= ScaleSeconds(b).step
  {
  }

  /** `_format_seconds_si`: nothing to show for a non-positive duration. */
  function FormatSecondsSI(s: real): (r: Option<Scaled>)
    ensures r.None? <==> s <= 0.0
    ensures r.Some? ==> r.value.value > 0.0 && r.value.value == s * Thousands(r.value.step)
  {
    if s <= 0.0 then None else Some(ScaleSeconds(s))
  }

  /** `_format_seconds` of the AFG3021B test panel: the period of a positive frequency, scaled
      the same way. */
  function PeriodScaled(freq: real): (r: Scaled)
    requires freq > 0.0
    ensures r.value * freq == Thousands(r.step)
    ensures freq <= 1.0 ==> r.step == 0
    ensures 1.0 < freq <= 1000000000.0 ==> 1.0 <= r.value < 1000.0
  {
    ScaleSeconds(1.0 / freq)
  }
}
