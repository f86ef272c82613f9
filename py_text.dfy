/** The Python string and number built-ins the instrument GUIs rely on
    (`str.strip`, `lower`, `split`, `replace`, `float`, `int`, `round`, `math.isclose`),
    written out so that every parser in the project is stated in terms of them. */
module PyText {
  import opened Outcome

  // ---------------------------------------------------------------- characters

  /** ASCII whitespace, as `str.strip()` and `str.split()` see it. */
  predicate IsSpace(c: char) {
    c == ' ' || c == '\t' || c == '\n' || c == '\r' || c == '\U{000B}' || c == '\U{000C}'
  }

  predicate IsDigit(c: char) { '0' <= c <= '9' }

  /** Every character is a decimal digit (stated from the back, the way digit values are read). */
  predicate AllDigits(s: string)
    decreases |s|
  {
    s == [] || (IsDigit(s[|s| - 1]) && AllDigits(s[..|s| - 1]))
  }

  lemma {:induction false} AllDigitsAt(s: string)
    requires AllDigits(s)
    ensures forall k :: 0 <= k < |s| ==> IsDigit(s[k])
    decreases |s|
  {
    if s != [] {
      AllDigitsAt(s[..|s| - 1]);
    }
  }

  /** `str.lower()` on ASCII and Latin-1 capitals; other Unicode letters are kept as they are. */
  function LowerChar(c: char): (r: char)
    ensures 'A' <= c <= 'Z' ==> 'a' <= r <= 'z'
  {
    if 'A' <= c <= 'Z' || ('\U{00C0}' <= c <= '\U{00DE}' && c != '\U{00D7}') then (c as int + 32) as char else c
  }

  /** `str.upper()` on ASCII letters; other Unicode letters are kept as they are. */
  function UpperChar(c: char): (r: char)
    ensures 'a' <= c <= 'z' ==> 'A' <= r <= 'Z'
  {
    if 'a' <= c <= 'z' then (c as int - 32) as char else c
  }

  function Lower(s: string): (r: string)
    ensures |r| == |s|
  {
    seq(|s|, i requires 0 <= i < |s| => LowerChar(s[i]))
  }

  function Upper(s: string): (r: string)
    ensures |r| == |s|
  {
    seq(|s|, i requires 0 <= i < |s| => UpperChar(s[i]))
  }

  lemma LowerIdempotent(s: string)
    ensures Lower(Lower(s)) == Lower(s)
  {
  }

  // ---------------------------------------------------------------- strip

  function LeadingSpaces(s: string): (n: nat)
    ensures n <= |s|
    ensures n < |s| ==> !IsSpace(s[n])
  {
    if s == [] || !IsSpace(s[0]) then 0 else 1 + LeadingSpaces(s[1..])
  }

  lemma {:induction false} LeadingSpacesAll(s: string)
    ensures forall k :: 0 <= k < LeadingSpaces(s) ==> IsSpace(s[k])
    decreases |s|
  {
    if s != [] && IsSpace(s[0]) {
      LeadingSpacesAll(s[1..]);
    }
  }

  function TrailingStart(s: string): (m: nat)
    ensures m <= |s|
    ensures 0 < m ==> !IsSpace(s[m - 1])
  {
    if s == [] || !IsSpace(s[|s| - 1]) then |s| else TrailingStart(s[..|s| - 1])
  }

  lemma {:induction false} TrailingSpacesAll(s: string)
    ensures forall k :: TrailingStart(s) <= k < |s| ==> IsSpace(s[k])
    decreases |s|
  {
    if s != [] && IsSpace(s[|s| - 1]) {
      TrailingSpacesAll(s[..|s| - 1]);
    }
  }

  /** `str.lstrip()`. */
  function LStrip(s: string): (r: string)
    ensures r == [] || !IsSpace(r[0])
  {
    s[LeadingSpaces(s)..]
  }

  /** `str.rstrip()`. */
  function RStrip(s: string): (r: string)
    ensures r == [] || !IsSpace(r[|r| - 1])
    ensures r <= s
  {
    s[..TrailingStart(s)]
  }

  /** `str.strip()`: the input without its leading and trailing whitespace. */
  function Strip(s: string): (r: string)
    ensures r == [] || (!IsSpace(r[0]) && !IsSpace(r[|r| - 1]))
    ensures |r| <= |s|
  {
    RStrip(LStrip(s))
  }

  lemma NoEdgeSpaceStripFixed(s: string)
    requires s == [] || (!IsSpace(s[0]) && !IsSpace(s[|s| - 1]))
    ensures Strip(s) == s
  {
    assert LeadingSpaces(s) == 0;
    assert LStrip(s) == s;
    assert TrailingStart(s) == |s|;
  }

  lemma StripIdempotent(s: string)
    ensures Strip(Strip(s)) == Strip(s)
  {
    NoEdgeSpaceStripFixed(Strip(s));
  }

  /** A text is blank when `text.strip()` is empty (Python's `if not text.strip()`). */
  predicate IsBlank(s: string) { Strip(s) == [] }

  // ---------------------------------------------------------------- search and replace

  predicate StartsWith(s: string, p: string) { |p| <= |s| && s[..|p|] == p }

  predicate EndsWith(s: string, p: string) { |p| <= |s| && s[|s| - |p|..] == p }

  /** Python's `p in s` on strings. */
  predicate Contains(s: string, p: string)
    decreases |s|
  {
    StartsWith(s, p) || (s != [] && Contains(s[1..], p))
  }

  /** `s.replace(p, q)`: non-overlapping occurrences of `p`, scanned left to right. */
  function Replace(s: string, p: string, q: string): string
    requires |p| > 0
    decreases |s|
  {
    if |s| < |p| then s
    else if s[..|p|] == p then q + Replace(s[|p|..], p, q)
    else [s[0]] + Replace(s[1..], p, q)
  }

  lemma {:induction false} ReplaceAbsent(s: string, p: string, q: string)
    requires |p| > 0 && !Contains(s, p)
    ensures Replace(s, p, q) == s
  {
    if |s| >= |p| {
      assert s[..|p|] != p;
      ReplaceAbsent(s[1..], p, q);
    }
  }

  /** `s.replace(" ", "")`. */
  function RemoveSpaces(s: string): (r: string)
    ensures ' ' !in r
    ensures |r| <= |s|
    decreases |s|
  {
    if s == [] then [] else if s[0] == ' ' then RemoveSpaces(s[1..]) else [s[0]] + RemoveSpaces(s[1..])
  }

  /** `s.find(c)`, with `|s|` standing for "not found". */
  function IndexOf(s: string, c: char): (n: nat)
    ensures n <= |s|
  {
    if s == [] || s[0] == c then 0 else 1 + IndexOf(s[1..], c)
  }

  lemma {:induction false} IndexOfFirst(s: string, c: char)
    ensures forall k :: 0 <= k < IndexOf(s, c) ==> s[k] != c
    ensures IndexOf(s, c) < |s| ==> s[IndexOf(s, c)] == c
    decreases |s|
  {
    if s != [] && s[0] != c {
      IndexOfFirst(s[1..], c);
    }
  }

  // ---------------------------------------------------------------- split

  /** Length of the leading run of non-whitespace characters. */
  function WordLength(s: string): (n: nat)
    ensures n <= |s|
    ensures forall k :: 0 <= k < n ==> !IsSpace(s[k])
    ensures n < |s| ==> IsSpace(s[n])
  {
    if s == [] || IsSpace(s[0]) then 0 else 1 + WordLength(s[1..])
  }

  predicate IsWord(t: string) { |t| > 0 && forall k :: 0 <= k < |t| ==> !IsSpace(t[k]) }

  /** `s.split()`: the maximal whitespace-free runs, in order. */
  function SplitWs(s: string): (r: seq<string>)
    decreases |s|
  {
    if s == [] then []
    else if IsSpace(s[0]) then SplitWs(s[1..])
    else
      var n := WordLength(s);
      [s[..n]] + SplitWs(s[n..])
  }

  /** `s.split(sep)` for a one-character separator: empty fields are kept. */
  function SplitOn(s: string, sep: char): (r: seq<string>)
    ensures |r| >= 1
    decreases |s|
  {
    var n := IndexOf(s, sep);
    if n == |s| then [s] else [s[..n]] + SplitOn(s[n + 1..], sep)
  }

  /** No field of a split holds the separator. */
  lemma {:induction false} SplitOnFieldsFree(s: string, sep: char)
    ensures forall i :: 0 <= i < |SplitOn(s, sep)| ==> sep !in SplitOn(s, sep)[i]
    decreases |s|
  {
    var n := IndexOf(s, sep);
    IndexOfFirst(s, sep);
    if n < |s| {
      SplitOnFieldsFree(s[n + 1..], sep);
      assert forall k :: 0 <= k < n ==> s[..n][k] == s[k];
    }
  }

  /** The fields of a split only hold characters of the text. */
  lemma {:induction false} SplitOnKeepsOut(s: string, sep: char, c: char)
    requires c !in s
    ensures forall i :: 0 <= i < |SplitOn(s, sep)| ==> c !in SplitOn(s, sep)[i]
    decreases |s|
  {
    var n := IndexOf(s, sep);
    if n < |s| {
      SplitOnKeepsOut(s[n + 1..], sep, c);
      assert forall k :: 0 <= k < n ==> s[..n][k] == s[k];
    }
  }

  /** `sep.join(parts)`. */
  function Join(parts: seq<string>, sep: char): string
  {
    if parts == [] then [] else if |parts| == 1 then parts[0] else parts[0] + [sep] + Join(parts[1..], sep)
  }

  /** Splitting and re-joining on the same separator gives back the text. */
  lemma {:induction false} SplitOnJoin(s: string, sep: char)
    ensures Join(SplitOn(s, sep), sep) == s
    decreases |s|
  {
    var n := IndexOf(s, sep);
    IndexOfFirst(s, sep);
    if n < |s| {
      SplitOnJoin(s[n + 1..], sep);
      assert s == s[..n] + [sep] + s[n + 1..];
    }
  }

  lemma {:induction false} IndexOfAfter(a: string, sep: char, b: string)
    requires sep !in a
    ensures IndexOf(a + [sep] + b, sep) == |a|
    decreases |a|
  {
    if a != [] {
      assert (a + [sep] + b)[1..] == a[1..] + [sep] + b;
      IndexOfAfter(a[1..], sep, b);
    }
  }

  lemma IndexOfAbsent(a: string, sep: char)
    requires sep !in a
    ensures IndexOf(a, sep) == |a|
  {
  }

  /** Joining fields that do not contain the separator and splitting again gives the fields back. */
  lemma {:induction false} JoinSplitOn(parts: seq<string>, sep: char)
    requires |parts| >= 1
    requires forall i :: 0 <= i < |parts| ==> sep !in parts[i]
    ensures SplitOn(Join(parts, sep), sep) == parts
    decreases |parts|
  {
    if |parts| == 1 {
      IndexOfAbsent(parts[0], sep);
    } else {
      var s := Join(parts, sep);
      var tail := Join(parts[1..], sep);
      assert s == parts[0] + [sep] + tail;
      IndexOfAfter(parts[0], sep, tail);
      assert s[..|parts[0]|] == parts[0];
      assert s[|parts[0]| + 1..] == tail;
      JoinSplitOn(parts[1..], sep);
      assert parts == [parts[0]] + parts[1..];
    }
  }

  /** Replacing a one-character pattern distributes over concatenation. */
  lemma {:induction false} ReplaceCharConcat(a: string, b: string, c: char, q: string)
    ensures Replace(a + b, [c], q) == Replace(a, [c], q) + Replace(b, [c], q)
    decreases |a|
  {
    if a != [] {
      var ab := a + b;
      assert ab[1..] == a[1..] + b;
      assert ab[..1] == a[..1];
      ReplaceCharConcat(a[1..], b, c, q);
      if a[..1] == [c] {
        assert Replace(ab, [c], q) == q + Replace(ab[1..], [c], q);
        assert Replace(a, [c], q) == q + Replace(a[1..], [c], q);
      } else {
        assert Replace(ab, [c], q) == [ab[0]] + Replace(ab[1..], [c], q);
        assert Replace(a, [c], q) == [a[0]] + Replace(a[1..], [c], q);
      }
    } else {
      assert a + b == b;
    }
  }

  /** After replacing a character by text that does not contain it, the character is gone. */
  lemma {:induction false} ReplaceCharGone(s: string, c: char, q: string)
    requires c !in q
    ensures c !in Replace(s, [c], q)
    decreases |s|
  {
    if s != [] {
      ReplaceCharGone(s[1..], c, q);
    }
  }

  /** Replacing a character that does not occur changes nothing. */
  lemma ReplaceCharAbsent(s: string, c: char, q: string)
    requires c !in s
    ensures Replace(s, [c], q) == s
  {
    if Contains(s, [c]) {
      ContainsHead(s, [c]);
    }
    ReplaceAbsent(s, [c], q);
  }

  /** A text that contains a pattern contains the pattern's first character. */
  lemma {:induction false} ContainsHead(s: string, p: string)
    requires |p| > 0 && Contains(s, p)
    ensures p[0] in s
    decreases |s|
  {
    if StartsWith(s, p) {
      assert s[0] == p[0];
    } else {
      ContainsHead(s[1..], p);
    }
  }

  // ---------------------------------------------------------------- numbers

  function DigitsValue(s: string): nat
    requires AllDigits(s)
    decreases |s|
  {
    if s == [] then 0 else DigitsValue(s[..|s| - 1]) * 10 + (s[|s| - 1] as int - '0' as int)
  }

  function Pow10(n: nat): (p: nat)
    ensures p >= 1
  {
    if n == 0 then 1 else 10 * Pow10(n - 1)
  }

  /** x · 10^e for an integer exponent. */
  function Scale10(x: real, e: int): real
  {
    if e >= 0 then x * Pow10(e) as real else x / Pow10(-e) as real
  }

  /** A signed run of decimal digits, with nothing around it. */
  function ParseSignedDigits(t: string): (r: Option<int>)
    ensures r.Some? ==> |t| > 0
  {
    if |t| > 0 && (t[0] == '+' || t[0] == '-') then
      var d := t[1..];
      if |d| > 0 && AllDigits(d) then Some(if t[0] == '-' then -(DigitsValue(d) as int) else DigitsValue(d)) else None
    else if |t| > 0 && AllDigits(t) then Some(DigitsValue(t))
    else None
  }

  /** Python `int(text)` on a string: optional sign and decimal digits, surrounding whitespace allowed. */
  function ParseInt(s: string): Option<int>
  {
    ParseSignedDigits(Strip(s))
  }

  /** digits [ '.' digits ], with at least one digit overall. */
  function ParseUnsignedDecimal(m: string): Option<real>
  {
    var dot := IndexOf(m, '.');
    var ip := m[..dot];
    var fp := if dot < |m| then m[dot + 1..] else "";
    if AllDigits(ip) && AllDigits(fp) && |ip| + |fp| > 0 then
      Some(DigitsValue(ip) as real + DigitsValue(fp) as real / Pow10(|fp|) as real)
    else None
  }

  /** Where the exponent marker `e`/`E` is, or `|s|`. */
  function ExponentMark(s: string): (n: nat)
    ensures n <= |s|
  {
    if s == [] || s[0] == 'e' || s[0] == 'E' then 0 else 1 + ExponentMark(s[1..])
  }

  lemma {:induction false} ExponentMarkAbsent(s: string)
    requires forall k :: 0 <= k < |s| ==> s[k] != 'e' && s[k] != 'E'
    ensures ExponentMark(s) == |s|
    decreases |s|
  {
    if s != [] {
      ExponentMarkAbsent(s[1..]);
    }
  }

  /** The decimal float grammar without surrounding whitespace. */
  function ParseRealCore(t: string): Option<real>
  {
    var neg := |t| > 0 && t[0] == '-';
    var body := if |t| > 0 && (t[0] == '+' || t[0] == '-') then t[1..] else t;
    var k := ExponentMark(body);
    var mant := ParseUnsignedDecimal(body[..k]);
    var ex := if k < |body| then ParseSignedDigits(body[k + 1..]) else Some(0);
    if mant.Some? && ex.Some? then
      var v := Scale10(mant.value, ex.value);
      Some(if neg then -v else v)
    else None
  }

  /** Python `float(text)` on a string: surrounding whitespace is ignored. */
  function ParseReal(s: string): Option<real>
    decreases |s|
  {
    if s != [] && IsSpace(s[0]) then ParseReal(s[1..])
    else if s != [] && IsSpace(s[|s| - 1]) then ParseReal(s[..|s| - 1])
    else ParseRealCore(s)
  }

  lemma StripDropLeading(s: string)
    requires s != [] && IsSpace(s[0])
    ensures Strip(s) == Strip(s[1..])
  {
    assert LStrip(s) == LStrip(s[1..]);
  }

  lemma StripDropTrailing(s: string)
    requires s != [] && !IsSpace(s[0]) && IsSpace(s[|s| - 1])
    ensures Strip(s) == Strip(s[..|s| - 1])
  {
    var t := s[..|s| - 1];
    assert LStrip(s) == s;
    assert LStrip(t) == t;
    assert TrailingStart(s) == TrailingStart(t);
  }

  /** `float()` parses the stripped text. */
  lemma {:induction false} ParseRealStrip(s: string)
    ensures ParseReal(s) == ParseRealCore(Strip(s))
    decreases |s|
  {
    if s != [] && IsSpace(s[0]) {
      StripDropLeading(s);
      ParseRealStrip(s[1..]);
    } else if s != [] && IsSpace(s[|s| - 1]) {
      StripDropTrailing(s);
      ParseRealStrip(s[..|s| - 1]);
    } else {
      NoEdgeSpaceStripFixed(s);
    }
  }

  predicate IsReal(s: string) { ParseReal(s).Some? }

  lemma ParseRealOfStrip(s: string)
    ensures ParseReal(Strip(s)) == ParseReal(s)
  {
    ParseRealStrip(s);
    ParseRealStrip(Strip(s));
    StripIdempotent(s);
  }

  /** Every text `int()` accepts, `float()` accepts with the same value. */
  lemma IntTextIsReal(s: string)
    requires ParseInt(s).Some?
    ensures ParseReal(s) == Some(ParseInt(s).value as real)
  {
    ParseRealStrip(s);
    DigitsAreReal(Strip(s));
  }

  lemma DigitsAreReal(t: string)
    requires ParseSignedDigits(t).Some?
    ensures ParseRealCore(t) == Some(ParseSignedDigits(t).value as real)
  {
    var body := if t[0] == '+' || t[0] == '-' then t[1..] else t;
    assert AllDigits(body);
    AllDigitsAt(body);
    assert forall k :: 0 <= k < |body| ==> body[k] != 'e' && body[k] != 'E' && body[k] != '.';
    ExponentMarkAbsent(body);
    assert body[..|body|] == body;
    IndexOfAbsent(body, '.');
  }

  /** A character no float text can start with (`inf` and `nan` are not modelled). */
  predicate NotNumberStart(c: char) { !IsDigit(c) && c != '.' && c != '+' && c != '-' }

  /** Text whose first non-blank character cannot start a number is not a float. */
  lemma NotRealLead(s: string)
    requires Strip(s) != [] && NotNumberStart(Strip(s)[0])
    ensures !IsReal(s)
  {
    ParseRealStrip(s);
    var t := Strip(s);
    var k := ExponentMark(t);
    if k > 0 {
      var m := t[..k];
      var dot := IndexOf(m, '.');
      IndexOfFirst(m, '.');
      var ip := m[..dot];
      if dot > 0 {
        assert ip[0] == t[0];
        if AllDigits(ip) {
          AllDigitsAt(ip);
        }
        assert !AllDigits(ip);
      }
    }
  }

  /** `int(x)` on a float: truncation toward zero. */
  function TruncToInt(x: real): (n: int)
    ensures x >= 0.0 ==> 0 <= n && n as real <= x < n as real + 1.0
    ensures x < 0.0 ==> n <= 0 && n as real - 1.0 < x <= n as real
  {
    if x >= 0.0 then x.Floor else -((-x).Floor)
  }

  /** Python `round(x)`: nearest integer, ties to the even one. */
  function RoundHalfEven(x: real): (n: int)
    ensures n as real - 0.5 <= x <= n as real + 0.5
    ensures (x - x.Floor as real == 0.5) ==> n % 2 == 0
  {
    var f := x.Floor;
    var d := x - f as real;
    if d < 0.5 then f else if d > 0.5 then f + 1 else if f % 2 == 0 then f else f + 1
  }

  /** `int(float(text))`: the integer part of any float text. */
  function ParseTruncatedInt(s: string): (r: Option<int>)
    ensures r.Some? <==> IsReal(s)
  {
    match ParseReal(s)
    case None => None
    case Some(v) => Some(TruncToInt(v))
  }

  function Abs(x: real): (r: real)
    ensures r >= 0.0 && (r == x || r == -x)
  {
    if x < 0.0 then -x else x
  }

  function Max(a: real, b: real): (r: real)
    ensures r >= a && r >= b && (r == a || r == b)
  {
    if a >= b then a else b
  }

  function Min(a: real, b: real): (r: real)
    ensures r <= a && r <= b && (r == a || r == b)
  {
    if a <= b then a else b
  }

  /** `math.isclose(a, b, abs_tol=absTol)` with the default relative tolerance 1e-9. */
  predicate IsClose(a: real, b: real, absTol: real)
  {
    Abs(a - b) <= Max(1e-9 * Max(Abs(a), Abs(b)), absTol)
  }

  lemma IsCloseSymmetric(a: real, b: real, absTol: real)
    ensures IsClose(a, b, absTol) == IsClose(b, a, absTol)
  {
    assert Abs(a - b) == Abs(b - a);
  }

  lemma IsCloseReflexive(a: real, absTol: real)
    requires absTol >= 0.0
    ensures IsClose(a, a, absTol)
  {
  }

  // ---------------------------------------------------------------- str(int)

  function DigitChar(d: nat): (c: char)
    requires d < 10
    ensures IsDigit(c) && c as int - '0' as int == d
  {
    ('0' as int + d) as char
  }

  function NatText(n: nat): (s: string)
    ensures |s| > 0 && AllDigits(s)
    decreases n
  {
    if n < 10 then [DigitChar(n)] else NatText(n / 10) + [DigitChar(n % 10)]
  }

  /** Python `str(n)` for an int. */
  function IntText(n: int): (s: string)
    ensures |s| > 0
  {
    if n < 0 then "-" + NatText(-n) else NatText(n)
  }

  /** `str(n)` is made of digits and at most a leading minus sign. */
  lemma {:induction false} IntTextChars(n: int)
    ensures forall k :: 0 <= k < |IntText(n)| ==> IsDigit(IntText(n)[k]) || (k == 0 && IntText(n)[k] == '-')
  {
    var s := IntText(n);
    if n < 0 {
      AllDigitsAt(NatText(-n));
      assert forall k :: 1 <= k < |s| ==> s[k] == NatText(-n)[k - 1];
    } else {
      AllDigitsAt(NatText(n));
    }
  }

  lemma {:induction false} NatTextValue(n: nat)
    ensures DigitsValue(NatText(n)) == n
    decreases n
  {
    var s := NatText(n);
    if n >= 10 {
      NatTextValue(n / 10);
      assert s[..|s| - 1] == NatText(n / 10);
    }
  }

  /** `int(str(n)) == n`. */
  lemma IntTextRoundTrip(n: int)
    ensures ParseInt(IntText(n)) == Some(n)
  {
    var s := IntText(n);
    IntTextChars(n);
    assert !IsSpace(s[0]) && !IsSpace(s[|s| - 1]);
    NoEdgeSpaceStripFixed(s);
    if n < 0 {
      NegativeTextValue(n);
    } else {
      NatTextDigits(n);
    }
  }

  lemma NegativeTextValue(n: int)
    requires n < 0
    ensures ParseSignedDigits(IntText(n)) == Some(n)
  {
    var s := IntText(n);
    NatTextValue(-n);
    assert s[0] == '-';
    assert s[1..] == NatText(-n);
  }

  lemma NatTextDigits(n: nat)
    ensures ParseSignedDigits(NatText(n)) == Some(n)
  {
    NatTextValue(n);
    AllDigitsAt(NatText(n));
  }
}
