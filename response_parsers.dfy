/** Parsers for what the 2450 scripts print back: comma/newline separated
    buffer dumps, the numeric tail of a response, rounded point counts and
    the `index, value` measurement lines of the external-trigger tools. */
module ResponseParsers {
  import opened Outcome
  import opened PyText

  // ------------------------------------------------------------ buffer dumps

  /** What one field of a dump contributes: its number, or nothing when it is blank or
      not a number. */
  function FieldValue(field: string): (r: seq<real>)
    ensures |r| <= 1
  {
    var t := Strip(field);
    if t == [] then []
    else
      match ParseReal(t)
      case Some(v) => [v]
      case None => []
  }

  lemma FieldValueIsReal(field: string)
    ensures FieldValue(field) != [] <==> IsReal(field)
    ensures FieldValue(field) != [] ==> ParseReal(field) == Some(FieldValue(field)[0])
  {
    ParseRealOfStrip(field);
    ParseRealStrip(field);
  }

  function FieldValues(fields: seq<string>): (r: seq<real>)
    ensures |r| <= |fields|
  {
    if fields == [] then [] else FieldValue(fields[0]) + FieldValues(fields[1..])
  }

  /** `text.replace("\n", ",").split(",")`. */
  function BufferFields(text: string): (r: seq<string>)
    ensures forall i :: 0 <= i < |r| ==> ',' !in r[i] && '\n' !in r[i]
  {
    var flat := Replace(text, "\n", ",");
    ReplaceCharGone(text, '\n', ",");
    SplitOnKeepsOut(flat, ',', '\n');
    SplitOnFieldsFree(flat, ',');
    SplitOn(flat, ',')
  }

  /** The numbers of a buffer dump, in order. */
  function BufferValues(text: string): seq<real>
  {
    FieldValues(BufferFields(text))
  }

  lemma {:induction false} FieldValuesAppend(a: seq<string>, b: seq<string>)
    ensures FieldValues(a + b) == FieldValues(a) + FieldValues(b)
  {
    if a != [] {
      assert (a + b)[0] == a[0];
      assert (a + b)[1..] == a[1..] + b;
      FieldValuesAppend(a[1..], b);
    } else {
      assert a + b == b;
    }
  }

  /** `_parse_buffer`; the copies with an `if not text` guard and those without it agree,
      because an empty dump has no numeric field either way. */
  method ParseBuffer(text: string) returns (values: seq<real>)
    ensures values == BufferValues(text)
  {
    if |text| == 0 {
      BufferValuesEmpty();
      return [];
    }
    var fields := BufferFields(text);
    values := [];
    assert fields[0..] == fields;
    for i := 0 to |fields|
      invariant FieldValues(fields) == values + FieldValues(fields[i..])
    {
      FieldValuesStep(fields, i);
      ghost var before := values;
      values := values + FieldValue(fields[i]);
      assert before + (FieldValue(fields[i]) + FieldValues(fields[i + 1..])) == values + FieldValues(fields[i + 1..]);
    }
    assert fields[|fields|..] == [];
  }

  /** An empty dump holds no number. */
  lemma BufferValuesEmpty()
    ensures BufferValues("") == []
  {
    assert BufferFields("") == [""];
  }

  lemma FieldValuesStep(fields: seq<string>, i: nat)
    requires i < |fields|
    ensures FieldValues(fields[i..]) == FieldValue(fields[i]) + FieldValues(fields[i + 1..])
  {
    assert fields[i..][1..] == fields[i + 1..];
  }

  /** Commas and newlines separate fields alike. */
  lemma NewlineIsComma(a: string, b: string)
    ensures BufferValues(a + "\n" + b) == BufferValues(a + "," + b)
  {
    ReplaceCharConcat(a + "\n", b, '\n', ",");
    ReplaceCharConcat(a, "\n", '\n', ",");
    ReplaceCharConcat(a + ",", b, '\n', ",");
    ReplaceCharConcat(a, ",", '\n', ",");
    assert Replace(",", "\n", ",") == ",";
  }

  /** Blank fields and fields that are not numbers are skipped, the rest kept in order:
      a dump whose fields are all numbers yields one value per field. */
  lemma {:induction false} AllNumericFields(fields: seq<string>)
    requires forall i :: 0 <= i < |fields| ==> IsReal(fields[i])
    ensures |FieldValues(fields)| == |fields|
    ensures forall i :: 0 <= i < |fields| ==> ParseReal(fields[i]) == Some(FieldValues(fields)[i])
  {
    if fields != [] {
      FieldValueIsReal(fields[0]);
      AllNumericFields(fields[1..]);
    }
  }

  function IntFields(ns: seq<int>): (r: seq<string>)
    ensures |r| == |ns| && forall i :: 0 <= i < |ns| ==> r[i] == IntText(ns[i])
  {
    seq(|ns|, i requires 0 <= i < |ns| => IntText(ns[i]))
  }

  /** A comma-separated dump of integers reads back as exactly those numbers. */
  lemma BufferRoundTrip(ns: seq<int>)
    requires ns != []
    ensures BufferValues(Join(IntFields(ns), ',')) == seq(|ns|, i requires 0 <= i < |ns| => ns[i] as real)
  {
    var fields := IntFields(ns);
    IntFieldsFacts(ns);
    JoinNoNewline(fields);
    ReplaceCharAbsent(Join(fields, ','), '\n', ",");
    JoinSplitOn(fields, ',');
    assert BufferFields(Join(fields, ',')) == fields;
    AllNumericFields(fields);
  }

  lemma IntFieldsFacts(ns: seq<int>)
    ensures forall i :: 0 <= i < |ns| ==>
      ',' !in IntFields(ns)[i] && '\n' !in IntFields(ns)[i] && ParseReal(IntFields(ns)[i]) == Some(ns[i] as real)
  {
    forall i | 0 <= i < |ns|
      ensures ',' !in IntText(ns[i]) && '\n' !in IntText(ns[i]) && ParseReal(IntText(ns[i])) == Some(ns[i] as real)
    {
      IntTextChars(ns[i]);
      IntTextRoundTrip(ns[i]);
      IntTextIsReal(IntText(ns[i]));
    }
  }

  lemma {:induction false} JoinNoNewline(parts: seq<string>)
    requires forall i :: 0 <= i < |parts| ==> '\n' !in parts[i]
    ensures '\n' !in Join(parts, ',')
  {
    if |parts| > 1 {
      JoinNoNewline(parts[1..]);
    }
  }

  // ------------------------------------------------------------ numeric tail

  /** The index of the last line `float()` accepts. */
  function LastRealIndex(lines: seq<string>): (r: Option<nat>)
    ensures r.None? ==> forall i :: 0 <= i < |lines| ==> !IsReal(lines[i])
    ensures r.Some? ==> r.value < |lines| && IsReal(lines[r.value]) &&
                        forall j :: r.value < j < |lines| ==> !IsReal(lines[j])
    decreases |lines|
  {
    if lines == [] then None
    else if IsReal(lines[|lines| - 1]) then Some(|lines| - 1)
    else LastRealIndex(lines[..|lines| - 1])
  }

  /** `_split_numeric_tail`: the last numeric line, and every other line in order. */
  function SplitNumericTail(lines: seq<string>): (r: (Option<string>, seq<string>))
    ensures r.0.None? <==> forall i :: 0 <= i < |lines| ==> !IsReal(lines[i])
    ensures r.0.None? ==> r.1 == lines
    ensures r.0.Some? ==> IsReal(r.0.value) && |r.1| == |lines| - 1 &&
                          multiset(r.1) + multiset{r.0.value} == multiset(lines)
  {
    match LastRealIndex(lines)
    case None => (None, lines)
    case Some(i) =>
      assert lines == lines[..i] + [lines[i]] + lines[i + 1..];
      (Some(lines[i]), lines[..i] + lines[i + 1..])
  }

  /** The line taken is the last numeric one: every line after it in the response is text. */
  lemma SplitNumericTailIsLast(lines: seq<string>)
    requires SplitNumericTail(lines).0.Some?
    ensures var i := LastRealIndex(lines).value;
      SplitNumericTail(lines).0.value == lines[i] &&
      SplitNumericTail(lines).1 == lines[..i] + lines[i + 1..] &&
      forall j :: i < j < |lines| ==> !IsReal(lines[j])
  {
  }

  /** A response ending in its count splits into the text before it and that count. */
  lemma {:induction false} SplitNumericTailOfCount(text: seq<string>, n: int)
    ensures SplitNumericTail(text + [IntText(n)]) == (Some(IntText(n)), text)
  {
    var lines := text + [IntText(n)];
    IntTextRoundTrip(n);
    IntTextIsReal(IntText(n));
    assert lines[|lines| - 1] == IntText(n);
    assert IsReal(lines[|lines| - 1]);
    assert LastRealIndex(lines) == Some(|text|);
    assert lines[..|text|] + lines[|text| + 1..] == text;
    assert SplitNumericTail(lines) == (Some(lines[|text|]), lines[..|text|] + lines[|text| + 1..]);
  }

  /** `_parse_count`: `int(round(float(line)))`, or nothing. */
  function ParseCount(line: Option<string>): (r: Option<int>)
    ensures r.Some? <==> line.Some? && IsReal(line.value)
    ensures r.Some? ==> Abs(r.value as real - ParseReal(line.value).value) <= 0.5
  {
    match line
    case None => None
    case Some(t) =>
      match ParseReal(t)
      case None => None
      case Some(v) => Some(RoundHalfEven(v))
  }

  lemma ParseCountRoundTrip(n: int)
    ensures ParseCount(Some(IntText(n))) == Some(n)
  {
    IntTextRoundTrip(n);
    IntTextIsReal(IntText(n));
  }

  // ------------------------------------------------------------ measurement lines

  /** One `index, value` pair printed by the external-trigger scripts. */
  datatype Sample = Sample(index: int, value: real)

  /** The outcome of `_parse_measurements`: the samples, or the first error line. */
  datatype Parsed = Parsed(data: seq<Sample>, error: Option<string>)

  predicate IsErrorLine(line: string)
  {
    line != [] && StartsWith(Lower(line), "error")
  }

  predicate IsHeaderLine(line: string)
  {
    Contains(Lower(line), "reading") && Contains(Lower(line), "voltage")
  }

  /** The sample a non-error line yields: at least two whitespace/comma separated tokens,
      `int(float(first))` and `float(second)`. */
  function LineSample(line: string): (r: seq<Sample>)
    ensures |r| <= 1
  {
    if line == [] || IsHeaderLine(line) then []
    else
      var tokens := SplitWs(Replace(line, ",", " "));
      if |tokens| < 2 then []
      else
        match (ParseTruncatedInt(tokens[0]), ParseReal(tokens[1]))
        case (Some(i), Some(v)) => [Sample(i, v)]
        case _ => []
  }

  /** A column-header line (one naming both "reading" and "voltage") yields no sample. */
  lemma HeaderLineSkipped(line: string)
    requires IsHeaderLine(line)
    ensures LineSample(line) == []
  {
  }

  function Measurements(lines: seq<string>): (p: Parsed)
    ensures p.error.Some? ==> p.data == [] && IsErrorLine(p.error.value)
  {
    if lines == [] then Parsed([], None)
    else if IsErrorLine(lines[0]) then Parsed([], Some(lines[0]))
    else Prepend(LineSample(lines[0]), Measurements(lines[1..]))
  }

  function Prepend(d: seq<Sample>, p: Parsed): (r: Parsed)
    ensures r.error == p.error
  {
    if p.error.Some? then p else Parsed(d + p.data, None)
  }

  /** `_parse_measurements`. */
  method ParseMeasurements(lines: seq<string>) returns (data: seq<Sample>, error: Option<string>)
    ensures Parsed(data, error) == Measurements(lines)
  {
    data := [];
    for i := 0 to |lines|
      invariant Measurements(lines) == Prepend(data, Measurements(lines[i..]))
    {
      var line := lines[i];
      assert lines[i..] == [line] + lines[i + 1..];
      if line != [] && StartsWith(Lower(line), "error") {
        return [], Some(line);
      }
      data := data + LineSample(line);
    }
    assert lines[|lines|..] == [];
    error := None;
  }

  /** The first error line aborts the parse, and nothing parsed before it is returned. */
  lemma {:induction false} MeasurementsErrorAborts(lines: seq<string>, k: nat)
    requires k < |lines| && IsErrorLine(lines[k])
    requires forall j :: 0 <= j < k ==> !IsErrorLine(lines[j])
    ensures Measurements(lines) == Parsed([], Some(lines[k]))
    decreases k
  {
    if k > 0 {
      MeasurementsErrorAborts(lines[1..], k - 1);
    }
  }

  /** Without an error line the parse succeeds and keeps one sample per good line, in order. */
  lemma {:induction false} MeasurementsNoError(lines: seq<string>)
    requires forall j :: 0 <= j < |lines| ==> !IsErrorLine(lines[j])
    ensures Measurements(lines).error.None?
    ensures |Measurements(lines).data| <= |lines|
  {
    if lines != [] {
      MeasurementsNoError(lines[1..]);
    }
  }

  lemma {:induction false} MeasurementsAppend(a: seq<string>, b: seq<string>)
    requires forall j :: 0 <= j < |a| ==> !IsErrorLine(a[j])
    ensures Measurements(a + b) == Prepend(Measurements(a).data, Measurements(b))
    decreases |a|
  {
    if a != [] {
      assert (a + b)[0] == a[0];
      assert (a + b)[1..] == a[1..] + b;
      MeasurementsAppend(a[1..], b);
      MeasurementsNoError(a[1..]);
    } else {
      assert a + b == b;
    }
  }

  /** Text made of digits, minus signs, commas and spaces. */
  predicate NumericText(s: string)
  {
    forall k :: 0 <= k < |s| ==> IsDigit(s[k]) || s[k] == '-' || s[k] == ',' || s[k] == ' '
  }

  lemma NumericTextLower(s: string)
    requires NumericText(s)
    ensures Lower(s) == s
  {
  }

  lemma NumericTextNoWord(s: string, w: string)
    requires NumericText(s) && |w| > 0 && !IsDigit(w[0]) && w[0] != '-' && w[0] != ',' && w[0] != ' '
    ensures !Contains(s, w)
  {
    if Contains(s, w) {
      ContainsHead(s, w);
      assert false;
    }
  }

  /** The line `i, v` the scripts print for a reading of integer volts reads back as (i, v). */
  lemma SampleRoundTrip(i: int, v: int)
    ensures Measurements([IntText(i) + ", " + IntText(v)]) == Parsed([Sample(i, v as real)], None)
  {
    var line := IntText(i) + ", " + IntText(v);
    SampleLineShape(i, v);
    SampleLineTokens(i, v);
    SampleLineValues(i, v);
    assert LineSample(line) == [Sample(i, v as real)];
    assert [line][1..] == [];
  }

  lemma SampleLineShape(i: int, v: int)
    ensures !IsErrorLine(IntText(i) + ", " + IntText(v))
    ensures !IsHeaderLine(IntText(i) + ", " + IntText(v))
  {
    var a := IntText(i);
    var b := IntText(v);
    var line := a + ", " + b;
    IntTextChars(i);
    IntTextChars(v);
    assert forall k :: 0 <= k < |a| ==> line[k] == a[k];
    assert forall k :: |a| + 2 <= k < |line| ==> line[k] == b[k - |a| - 2];
    assert NumericText(line);
    NumericTextLower(line);
    NumericTextNoWord(line, "reading");
    assert line[0] == a[0];
  }

  lemma SampleLineTokens(i: int, v: int)
    ensures SplitWs(Replace(IntText(i) + ", " + IntText(v), ",", " ")) == [IntText(i), IntText(v)]
  {
    var a := IntText(i);
    var b := IntText(v);
    IntTextWord(i);
    IntTextWord(v);
    assert ',' !in " " + b;
    ReplaceCharConcat(a + ",", " " + b, ',', " ");
    ReplaceCharConcat(a, ",", ',', " ");
    ReplaceCharAbsent(a, ',', " ");
    ReplaceCharAbsent(" " + b, ',', " ");
    assert Replace(",", ",", " ") == " ";
    assert a + ", " + b == a + "," + (" " + b);
    assert Replace(a + ", " + b, ",", " ") == a + " " + " " + b;
    SplitTwoWords(a, b);
  }

  lemma IntTextWord(n: int)
    ensures IsWord(IntText(n)) && ',' !in IntText(n)
  {
    IntTextChars(n);
  }

  lemma SampleLineValues(i: int, v: int)
    ensures ParseTruncatedInt(IntText(i)) == Some(i)
    ensures ParseReal(IntText(v)) == Some(v as real)
  {
    SampleIndexValue(i);
    SampleRealValue(v);
  }

  lemma SampleIndexValue(i: int)
    ensures ParseTruncatedInt(IntText(i)) == Some(i)
  {
    IntTextRoundTrip(i);
    IntTextIsReal(IntText(i));
  }

  lemma SampleRealValue(v: int)
    ensures ParseReal(IntText(v)) == Some(v as real)
  {
    IntTextRoundTrip(v);
    IntTextIsReal(IntText(v));
  }

  lemma SplitTwoWords(a: string, b: string)
    requires IsWord(a) && IsWord(b)
    ensures SplitWs(a + " " + " " + b) == [a, b]
  {
    var gap := " " + " " + b;
    assert a + " " + " " + b == a + gap;
    SplitWsWord(a, gap);
    assert gap[1..] == " " + b;
    assert (" " + b)[1..] == b;
    assert SplitWs(gap) == SplitWs(" " + b) == SplitWs(b);
    assert b + [] == b;
    SplitWsWord(b, []);
  }

  /** A word followed by whitespace (or nothing) is split off as the first token. */
  lemma SplitWsWord(a: string, rest: string)
    requires IsWord(a) && (rest == [] || IsSpace(rest[0]))
    ensures SplitWs(a + rest) == [a] + SplitWs(rest)
  {
    var s := a + rest;
    WordOfWord(a, rest);
    assert s[..|a|] == a && s[|a|..] == rest;
    assert !IsSpace(s[0]);
  }

  lemma {:induction false} WordOfWord(a: string, rest: string)
    requires IsWord(a) && (rest == [] || IsSpace(rest[0]))
    ensures WordLength(a + rest) == |a|
    decreases |a|
  {
    if |a| > 1 {
      assert (a + rest)[1..] == a[1..] + rest;
      WordOfWord(a[1..], rest);
    } else {
      assert (a + rest)[1..] == rest;
    }
  }
}
