/** The entry-field validators the 2450 front panels share: floats with an
    optional lower bound, `int(float(text))` with optional bounds, the
    `nil`-defaulting argument formatters, and the DIGIO line check.  Error
    texts differ between the copies; the model carries one per branch. */
module Validators {
  import opened Outcome
  import opened PyText

  predicate InRange(n: int, minimum: Option<int>, maximum: Option<int>)
  {
    (minimum.Some? ==> n >= minimum.value) && (maximum.Some? ==> n <= maximum.value)
  }

  /** `_parse_float(text, minimum=...)`: blank and non-numeric text and values below the
      minimum are rejected. */
  function ParseFloatMin(text: string, minimum: Option<real>): (r: Result<real>)
    ensures r.Ok? <==> IsReal(text) && (minimum.Some? ==> ParseReal(text).value >= minimum.value)
    ensures r.Ok? ==> ParseReal(text) == Some(r.value)
  {
    ParseRealOfStrip(text);
    var t := Strip(text);
    if t == [] then Err("must not be empty")
    else
      match ParseReal(t)
      case None => Err("must be a number")
      case Some(v) => if minimum.Some? && v < minimum.value then Err("below the minimum") else Ok(v)
  }

  /** `_parse_int(text, minimum=..., maximum=...)`: `int(float(text))`, then the bounds. */
  function ParseIntRange(text: string, minimum: Option<int>, maximum: Option<int>): (r: Result<int>)
    ensures r.Ok? <==> IsReal(text) && InRange(TruncToInt(ParseReal(text).value), minimum, maximum)
    ensures r.Ok? ==> r.value == TruncToInt(ParseReal(text).value)
  {
    ParseRealOfStrip(text);
    match ParseReal(Strip(text))
    case None => Err("must be an integer")
    case Some(v) =>
      var n := TruncToInt(v);
      if minimum.Some? && n < minimum.value then Err("below the minimum")
      else if maximum.Some? && n > maximum.value then Err("above the maximum")
      else Ok(n)
  }

  /** `_parse_line`: a DIGIO line number 1..6. */
  function ParseLine(text: string): (r: Result<int>)
    ensures r.Ok? ==> 1 <= r.value <= 6
  {
    ParseIntRange(text, Some(1), Some(6))
  }

  /** `_format_float_arg` / `_format_float`: blank text becomes `nil` (when allowed) or the
      default; other text must be a float and is passed on stripped but otherwise unchanged. */
  function FormatFloatArg(text: string, default: Option<string>, allowNil: bool): (r: Result<string>)
    ensures IsBlank(text) ==> (r.Ok? <==> allowNil || default.Some?)
    ensures IsBlank(text) && allowNil ==> r == Ok("nil")
    ensures IsBlank(text) && !allowNil && default.Some? ==> r == Ok(default.value)
    ensures !IsBlank(text) ==> (r.Ok? <==> IsReal(text))
    ensures !IsBlank(text) && r.Ok? ==> r.value == Strip(text) && ParseReal(r.value) == ParseReal(text)
  {
    ParseRealOfStrip(text);
    var t := Strip(text);
    if t == [] then
      if allowNil then Ok("nil") else if default.Some? then Ok(default.value) else Err("Enter a numeric value.")
    else if ParseReal(t).None? then Err("Invalid numeric value")
    else Ok(t)
  }

  /** What `_format_number` hands to the script: `nil`, `str(int(value))`, or a float whose
      `%.9g` rendering is not modelled. */
  datatype NumberArg = NilArg | WholeArg(text: string) | RealArg(value: real)

  /** `_format_number(text, allow_nil, integer)`. */
  function FormatNumber(text: string, allowNil: bool, integer: bool): (r: Result<NumberArg>)
    ensures IsBlank(text) ==> (r.Ok? <==> allowNil) && (r.Ok? ==> r.value == NilArg)
    ensures !IsBlank(text) ==>
      (r.Ok? <==> IsReal(text) && (integer ==> ParseReal(text).value >= 1.0))
    ensures !IsBlank(text) && r.Ok? && !integer ==> r.value == RealArg(ParseReal(text).value)
    ensures !IsBlank(text) && r.Ok? && integer ==>
      r.value == WholeArg(IntText(TruncToInt(ParseReal(text).value))) && TruncToInt(ParseReal(text).value) >= 1
  {
    ParseRealOfStrip(text);
    var t := Strip(text);
    if t == [] then
      if allowNil then Ok(NilArg) else Err("Value cannot be empty.")
    else
      match ParseReal(t)
      case None => Err("Enter numeric values only.")
      case Some(v) =>
        if integer then
          if v < 1.0 then Err("Sample count must be >= 1.") else Ok(WholeArg(IntText(TruncToInt(v))))
        else Ok(RealArg(v))
  }

  // ------------------------------------------------------------ round trips

  lemma IntTextText(n: int)
    ensures ParseReal(IntText(n)) == Some(n as real)
    ensures !IsBlank(IntText(n)) && Strip(IntText(n)) == IntText(n)
  {
    IntTextRoundTrip(n);
    IntTextIsReal(IntText(n));
    IntTextChars(n);
    NoEdgeSpaceStripFixed(IntText(n));
  }

  /** An integer typed in is read back as that integer, and accepted exactly when in range. */
  lemma ParseIntRangeRoundTrip(n: int, minimum: Option<int>, maximum: Option<int>)
    ensures ParseIntRange(IntText(n), minimum, maximum).Ok? <==> InRange(n, minimum, maximum)
    ensures InRange(n, minimum, maximum) ==> ParseIntRange(IntText(n), minimum, maximum) == Ok(n)
  {
    IntTextText(n);
    assert TruncToInt(n as real) == n;
  }

  lemma ParseLineRoundTrip(n: int)
    ensures ParseLine(IntText(n)).Ok? <==> 1 <= n <= 6
    ensures 1 <= n <= 6 ==> ParseLine(IntText(n)) == Ok(n)
  {
    ParseIntRangeRoundTrip(n, Some(1), Some(6));
  }

  lemma ParseFloatMinRoundTrip(n: int, minimum: Option<real>)
    ensures ParseFloatMin(IntText(n), minimum).Ok? <==> (minimum.Some? ==> n as real >= minimum.value)
    ensures ParseFloatMin(IntText(n), minimum).Ok? ==> ParseFloatMin(IntText(n), minimum) == Ok(n as real)
  {
    IntTextText(n);
  }

  /** A formatted argument is read back by the script as the number typed in. */
  lemma FormatFloatArgRoundTrip(n: int, default: Option<string>, allowNil: bool)
    ensures FormatFloatArg(IntText(n), default, allowNil) == Ok(IntText(n))
  {
    IntTextText(n);
  }

  lemma FormatNumberWhole(n: int)
    ensures FormatNumber(IntText(n), false, true).Ok? <==> n >= 1
    ensures n >= 1 ==> FormatNumber(IntText(n), false, true) == Ok(WholeArg(IntText(n)))
  {
    IntTextText(n);
    assert TruncToInt(n as real) == n;
  }
}
