/**
 * Command-line text converters of src/helper/converter/converter.py.
 *
 * Each converter returns the pair `(value, error)` that the Python code returns:
 * `(Some(v), false)` on success and `(None, true)` on failure. Python's `int()`
 * on a string: surrounding whitespace (every character `str.isspace` accepts) is
 * stripped, an optional sign may lead, and the ASCII digits may be grouped by single
 * underscores. The other Unicode decimal digits `int()` accepts are not modelled.
 */
module Converter {
  import opened Common

  // ---------------------------------------------------------------------------
  // Python int() on a string
  // ---------------------------------------------------------------------------

  /**
   * Python's whitespace: `\t` to `\r`, the separators U+001C to U+001F, the space, and the
   * Unicode spaces from U+0085 to U+3000. `int()` strips exactly these.
   */
  predicate IsSpace(c: char)
  {
    var k := c as int;
    || 9 <= k <= 13 || 28 <= k <= 32 || k == 0x85 || k == 0xA0 || k == 0x1680
    || 0x2000 <= k <= 0x200A || k == 0x2028 || k == 0x2029 || k == 0x202F || k == 0x205F || k == 0x3000
  }

  /** `s.strip()`: leading and trailing whitespace removed. */
  function Strip(s: string): (t: string)
    ensures |t| <= |s|
    ensures |t| > 0 ==> !IsSpace(t[0]) && !IsSpace(t[|t| - 1])
    decreases |s|
  {
    if |s| > 0 && IsSpace(s[0]) then Strip(s[1..])
    else if |s| > 0 && IsSpace(s[|s| - 1]) then Strip(s[..|s| - 1])
    else s
  }

  /** `s` is `t` with whitespace before and after it. */
  predicate SpacedAround(s: string, t: string, i: int, j: int)
  {
    && 0 <= i <= j <= |s| && t == s[i..j]
    && (forall k :: 0 <= k < i ==> IsSpace(s[k]))
    && (forall k :: j <= k < |s| ==> IsSpace(s[k]))
  }

  /** Stripping removes whitespace at the two ends and nothing else: the result is a slice of the text. */
  lemma {:induction false} StripRemovesOnlyEnds(s: string)
    ensures exists i, j :: SpacedAround(s, Strip(s), i, j)
    decreases |s|
  {
    var t := Strip(s);
    if |s| > 0 && IsSpace(s[0]) {
      var rest := s[1..];
      StripRemovesOnlyEnds(rest);
      var i, j :| SpacedAround(rest, t, i, j);
      assert t == s[i + 1..j + 1];
      forall k | 0 <= k < i + 1 ensures IsSpace(s[k]) {
        if k > 0 { assert s[k] == rest[k - 1]; }
      }
      forall k | j + 1 <= k < |s| ensures IsSpace(s[k]) {
        assert s[k] == rest[k - 1];
      }
      assert SpacedAround(s, t, i + 1, j + 1);
    } else if |s| > 0 && IsSpace(s[|s| - 1]) {
      var init := s[..|s| - 1];
      StripRemovesOnlyEnds(init);
      var i, j :| SpacedAround(init, t, i, j);
      assert t == s[i..j];
      forall k | j <= k < |s| ensures IsSpace(s[k]) {
        if k < |s| - 1 { assert s[k] == init[k]; }
      }
      assert SpacedAround(s, t, i, j);
    } else {
      assert SpacedAround(s, t, 0, |s|);
    }
  }

  /** A digit run as `int()` accepts it: digits, single underscores only between digits. */
  predicate DigitRun(r: string)
  {
    && |r| > 0
    && IsDigit(r[0])
    && IsDigit(r[|r| - 1])
    && (forall i :: 0 <= i < |r| ==> IsDigit(r[i]) || r[i] == '_')
    && (forall i :: 0 <= i < |r| - 1 && r[i] == '_' ==> r[i + 1] != '_')
  }

  /** Value of the digits of a run, underscores skipped. */
  function RunValue(r: string): nat
    requires forall i :: 0 <= i < |r| ==> IsDigit(r[i]) || r[i] == '_'
  {
    if |r| == 0 then 0
    else
      var last := r[|r| - 1];
      assert IsDigit(last) || last == '_';
      if last == '_' then RunValue(r[..|r| - 1])
      else RunValue(r[..|r| - 1]) * 10 + (last as int - '0' as int)
  }

  /**
   * The limit on decimal digits in a conversion between `int` and `str` (Python 3.11 and later,
   * `sys.int_info.default_max_str_digits`): `int(text)` with more digits raises ValueError, and
   * so does `str(n)` for an n with more digits.
   */
  const MaxStrDigits := 4300

  /** The number of digits in a text, underscores and other characters not counted. */
  function DigitCount(r: string): (k: nat)
    ensures k <= |r|
  {
    if |r| == 0 then 0
    else DigitCount(r[..|r| - 1]) + (if IsDigit(r[|r| - 1]) then 1 else 0)
  }

  /** A text made only of digits counts every character. */
  lemma {:induction false} AllDigitsCount(r: string)
    requires forall i :: 0 <= i < |r| ==> IsDigit(r[i])
    ensures DigitCount(r) == |r|
  {
    if |r| > 0 {
      AllDigitsCount(r[..|r| - 1]);
    }
  }

  /** A digit run `int()` converts: well formed and within the digit limit. */
  predicate Convertible(r: string)
  {
    DigitRun(r) && DigitCount(r) <= MaxStrDigits
  }

  /** Python `int(text)`: the value, or None where Python raises ValueError. */
  function ParseInt(text: string): (r: Option<int>)
  {
    var t := Strip(text);
    if |t| > 0 && (t[0] == '+' || t[0] == '-') then
      if Convertible(t[1..]) then
        Some(if t[0] == '-' then -(RunValue(t[1..]) as int) else RunValue(t[1..]))
      else None
    else if Convertible(t) then Some(RunValue(t))
    else None
  }

  /** `str(n)` succeeds: the decimal rendering of n has at most `MaxStrDigits` digits. */
  predicate StrAllowed(n: int)
  {
    |NatToString(if n < 0 then -n else n)| <= MaxStrDigits
  }

  // ---------------------------------------------------------------------------
  // The converters
  // ---------------------------------------------------------------------------

  /** converter_string_boolean: exactly "True" and "False" convert. */
  function ConverterStringBoolean(input: string): (r: (Option<bool>, bool))
    ensures r.1 <==> r.0 == None
    ensures r == (Some(true), false) <==> input == "True"
    ensures r == (Some(false), false) <==> input == "False"
  {
    if input == "True" then (Some(true), false)
    else if input == "False" then (Some(false), false)
    else (None, true)
  }

  /** converter_string_int: succeeds exactly when Python's int() accepts the text. */
  function ConverterStringInt(input: string): (r: (Option<int>, bool))
    ensures r.1 <==> r.0 == None
    ensures r.0 == ParseInt(input)
  {
    match ParseInt(input)
    case Some(v) => (Some(v), false)
    case None => (None, true)
  }

  /** int() of every piece, all or nothing. */
  function ParseAll(pieces: seq<string>): (r: Option<seq<int>>)
    ensures r.Some? ==> |r.value| == |pieces|
    ensures r.Some? <==> forall i :: 0 <= i < |pieces| ==> ParseInt(pieces[i]).Some?
    ensures r.Some? ==> forall i :: 0 <= i < |pieces| ==> r.value[i] == ParseInt(pieces[i]).value
  {
    if |pieces| == 0 then Some([])
    else
      match ParseInt(pieces[0])
      case None => None
      case Some(v) =>
        match ParseAll(pieces[1..])
        case None => None
        case Some(vs) => Some([v] + vs)
  }

  /** converter_string_list_int: `[int(p) for p in input.split(",")]`, all or nothing. */
  function ConverterStringListInt(input: string): (r: (Option<seq<int>>, bool))
    ensures r.1 <==> r.0 == None
    ensures r.0 == ParseAll(Split(input, ','))
    ensures r.0.Some? ==> |r.0.value| == Count(input, ',') + 1
  {
    SplitCount(input, ',');
    match ParseAll(Split(input, ','))
    case Some(vs) => (Some(vs), false)
    case None => (None, true)
  }

  /** converter_exit: the converted value, or sys.exit(msg) when the error flag is set. */
  function ConverterExit<T>(convert: string -> (Option<T>, bool), input: string, msg: string): (r: Exits<Option<T>>)
    ensures r == Exited(msg) <==> convert(input).1
    ensures !convert(input).1 ==> r == Returned(convert(input).0)
  {
    var (output, error) := convert(input);
    if error then Exited(msg) else Returned(output)
  }

  // ---------------------------------------------------------------------------
  // Properties
  // ---------------------------------------------------------------------------

  lemma {:induction false} RunValueOfDecimal(n: nat)
    ensures DigitRun(NatToString(n))
    ensures RunValue(NatToString(n)) == n
    decreases n
  {
    if n >= 10 {
      RunValueOfDecimal(n / 10);
      var s := NatToString(n);
      assert s[..|s| - 1] == NatToString(n / 10);
    }
  }

  lemma StripIdentity(s: string)
    requires |s| > 0 && !IsSpace(s[0]) && !IsSpace(s[|s| - 1])
    ensures Strip(s) == s
  {
  }

  /** int(str(n)) == n for every integer whose `str` succeeds. */
  lemma {:induction false} ParseIntRoundTrip(n: int)
    requires StrAllowed(n)
    ensures ParseInt(IntToString(n)) == Some(n)
  {
    var s := IntToString(n);
    StripIdentity(s);
    if n < 0 {
      DecimalConvertible(-n);
      assert s[1..] == NatToString(-n);
    } else {
      DecimalConvertible(n);
    }
  }

  /** The decimal rendering of a natural within the digit limit is a run `int()` accepts, with that value. */
  lemma DecimalConvertible(m: nat)
    requires |NatToString(m)| <= MaxStrDigits
    ensures Convertible(NatToString(m)) && RunValue(NatToString(m)) == m
  {
    RunValueOfDecimal(m);
    AllDigitsCount(NatToString(m));
  }

  /** One digit over the limit is refused, and the limit itself is accepted. */
  lemma DigitLimit()
    ensures ConverterStringInt(Repeat('1', MaxStrDigits + 1)) == (None, true)
    ensures ConverterStringInt(Repeat('1', MaxStrDigits)).0.Some?
  {
    var over, at := Repeat('1', MaxStrDigits + 1), Repeat('1', MaxStrDigits);
    StripIdentity(over);
    StripIdentity(at);
    AllDigitsCount(over);
    AllDigitsCount(at);
  }

  /** Joining the decimal renderings of a non-empty list with "," converts back to the list. */
  lemma {:induction false} ListRoundTrip(xs: seq<int>)
    requires |xs| >= 1
    requires forall i :: 0 <= i < |xs| ==> StrAllowed(xs[i])
    ensures ConverterStringListInt(Join(seq(|xs|, i requires 0 <= i < |xs| => IntToString(xs[i])), ",")) == (Some(xs), false)
  {
    var parts := seq(|xs|, i requires 0 <= i < |xs| => IntToString(xs[i]));
    forall i | 0 <= i < |parts|
      ensures ',' !in parts[i]
      ensures ParseInt(parts[i]) == Some(xs[i])
    {
      ParseIntRoundTrip(xs[i]);
      assert forall k :: 0 <= k < |parts[i]| ==> parts[i][k] == '-' || IsDigit(parts[i][k]);
    }
    SplitJoin(parts, ',');
    assert ParseAll(parts).value == xs;
  }

  /** The information separators and the Unicode spaces count as whitespace: `int("\x1c5\u3000") == 5`. */
  lemma SeparatorsAreStripped()
    ensures ConverterStringInt("\U{1C}5\U{3000}") == (Some(5), false)
  {
    var s := "\U{1C}5\U{3000}";
    assert s[1..] == "5\U{3000}" && "5\U{3000}"[..1] == "5";
    assert Strip(s) == "5";
    assert DigitRun("5") && RunValue("5") == 5;
  }

  /** The empty text, decimal fractions and words are refused, as the module's tests pin. */
  lemma RejectedExamples()
    ensures ConverterStringListInt("") == (None, true)
    ensures ConverterStringListInt("1.2") == (None, true)
    ensures ConverterStringInt("10.5") == (None, true)
    ensures ConverterStringInt("ab c") == (None, true)
    ensures ConverterStringBoolean("true") == (None, true)
  {
    assert Split("", ',') == [""];
    assert !DigitRun("");
    SplitNoSeparator("1.2", ',');
    NotAnInteger("1.2", 1);
    NotAnInteger("10.5", 2);
    NotAnInteger("ab c", 0);
  }

  /** Text with no whitespace or sign at its ends and a character other than a digit or `_` is refused. */
  lemma NotAnInteger(t: string, k: nat)
    requires k < |t| && !IsDigit(t[k]) && t[k] != '_'
    requires !IsSpace(t[0]) && !IsSpace(t[|t| - 1]) && t[0] != '+' && t[0] != '-'
    ensures ConverterStringInt(t) == (None, true)
  {
    StripIdentity(t);
  }
}
