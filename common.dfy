/**
 * Shared vocabulary of the model: optional values, Python exceptions as data,
 * decimal rendering of integers (`str(int)`), `str.split` on one character,
 * `str.join`, list repetition and `range`.
 */
module Common {

  datatype Option<T> = None | Some(value: T)

  /** The Python exceptions the modelled code raises or catches. */
  datatype PyError =
    | AssertionError
    | KeyError(key: string)
    | IndexError
    | TypeError(message: string)
    | ValueError(message: string)
    | RuntimeError(message: string)
    | RaisedException(message: string)
    | UnboundLocalError(name: string)

  /** A value, or the exception raised while computing it. */
  datatype Result<T> = Ok(value: T) | Err(error: PyError)

  /** Outcome of a statement that returns nothing but may raise. */
  datatype Status = Done | Raised(error: PyError)

  /** A value, or termination through `sys.exit(message)`. */
  datatype Exits<T> = Returned(value: T) | Exited(message: string)

  // ---------------------------------------------------------------------------
  // Decimal rendering, as Python's `str` on an int
  // ---------------------------------------------------------------------------

  predicate IsDigit(c: char) { '0' <= c <= '9' }

  function DigitChar(d: nat): (c: char)
    requires d < 10
    ensures IsDigit(c)
  {
    "0123456789"[d]
  }

  function NatToString(n: nat): (s: string)
    ensures |s| > 0
    ensures forall i :: 0 <= i < |s| ==> IsDigit(s[i])
    decreases n
  {
    if n < 10 then [DigitChar(n)] else NatToString(n / 10) + [DigitChar(n % 10)]
  }

  /** Different naturals have different decimal renderings. */
  lemma {:induction false} NatToStringInjective(a: nat, b: nat)
    requires NatToString(a) == NatToString(b)
    ensures a == b
    decreases a
  {
    var s := NatToString(a);
    assert |NatToString(a)| == 1 <==> a < 10;
    assert |NatToString(b)| == 1 <==> b < 10;
    if a < 10 {
      assert "0123456789"[a] == s[0] == "0123456789"[b];
    } else {
      assert s[..|s| - 1] == NatToString(a / 10) == NatToString(b / 10);
      NatToStringInjective(a / 10, b / 10);
      assert "0123456789"[a % 10] == s[|s| - 1] == "0123456789"[b % 10];
    }
  }

  function IntToString(i: int): (s: string)
    ensures |s| > 0
    ensures i < 0 <==> s[0] == '-'
    ensures forall k :: 0 < k < |s| ==> IsDigit(s[k])
  {
    if i < 0 then "-" + NatToString(-i) else NatToString(i)
  }

  /** Different integers have different decimal renderings. */
  lemma IntToStringInjective(a: int, b: int)
    requires IntToString(a) == IntToString(b)
    ensures a == b
  {
    if a < 0 && b < 0 {
      assert IntToString(a)[1..] == NatToString(-a);
      assert IntToString(b)[1..] == NatToString(-b);
      NatToStringInjective(-a, -b);
    } else if a >= 0 && b >= 0 {
      NatToStringInjective(a, b);
    }
  }

  /** Python's repr of a list of ints: `[0, 3]`. */
  function IntListRepr(xs: seq<int>): string
  {
    "[" + Join(seq(|xs|, i requires 0 <= i < |xs| => IntToString(xs[i])), ", ") + "]"
  }

  // ---------------------------------------------------------------------------
  // Strings and lists
  // ---------------------------------------------------------------------------

  /** `sep.join(parts)`. */
  function Join(parts: seq<string>, sep: string): string
  {
    if |parts| == 0 then ""
    else if |parts| == 1 then parts[0]
    else parts[0] + sep + Join(parts[1..], sep)
  }

  /** `s.split(sep)` for a one-character separator: never empty, "" gives [""]. */
  function Split(s: string, sep: char): (parts: seq<string>)
    ensures |parts| >= 1
    ensures forall i :: 0 <= i < |parts| ==> sep !in parts[i]
  {
    if |s| == 0 then [""]
    else
      var rest := Split(s[1..], sep);
      if s[0] == sep then [""] + rest
      else [[s[0]] + rest[0]] + rest[1..]
  }

  /** Lines each followed by a newline, as a text file holds them. */
  function Terminated(lines: seq<string>): string
  {
    if |lines| == 0 then "" else lines[0] + "\n" + Terminated(lines[1..])
  }

  function Count(s: string, c: char): nat
  {
    if |s| == 0 then 0 else (if s[0] == c then 1 else 0) + Count(s[1..], c)
  }

  /** `[x] * k`; a negative k gives the empty list, as in Python. */
  function Repeat<T>(x: T, k: int): (r: seq<T>)
    ensures |r| == if k < 0 then 0 else k
    ensures forall i :: 0 <= i < |r| ==> r[i] == x
  {
    if k <= 0 then [] else [x] + Repeat(x, k - 1)
  }

  /** `list(range(k))`. */
  function Range(k: int): (r: seq<int>)
    ensures |r| == if k < 0 then 0 else k
    ensures forall i :: 0 <= i < |r| ==> r[i] == i
  {
    if k <= 0 then [] else seq(k, i => i)
  }

  /** `sub in s` for strings. */
  predicate Contains(s: string, sub: string)
    decreases |s|
  {
    sub <= s || (|s| > 0 && Contains(s[1..], sub))
  }

  // ---------------------------------------------------------------------------
  // Lemmas about splitting and joining
  // ---------------------------------------------------------------------------

  /** Splitting yields one more piece than there are separators. */
  lemma {:induction false} SplitCount(s: string, sep: char)
    ensures |Split(s, sep)| == Count(s, sep) + 1
  {
    if |s| > 0 {
      SplitCount(s[1..], sep);
    }
  }

  /** Splitting `a + [sep] + b` splits `a` and `b` separately, when `a` holds no separator. */
  lemma {:induction false} SplitAtSeparator(a: string, b: string, sep: char)
    requires sep !in a
    ensures Split(a + [sep] + b, sep) == [a] + Split(b, sep)
  {
    if |a| == 0 {
      assert a + [sep] + b == [sep] + b;
      assert ([sep] + b)[1..] == b;
    } else {
      assert (a + [sep] + b)[1..] == a[1..] + [sep] + b;
      SplitAtSeparator(a[1..], b, sep);
      assert [a[0]] + a[1..] == a;
    }
  }

  /** A string without the separator splits into itself. */
  lemma {:induction false} SplitNoSeparator(a: string, sep: char)
    requires sep !in a
    ensures Split(a, sep) == [a]
  {
    if |a| > 0 {
      SplitNoSeparator(a[1..], sep);
      assert [a[0]] + a[1..] == a;
    }
  }

  /** `sep.join` then `split(sep)` gives the parts back, when no part holds the separator. */
  lemma {:induction false} SplitJoin(parts: seq<string>, sep: char)
    requires |parts| >= 1
    requires forall i :: 0 <= i < |parts| ==> sep !in parts[i]
    ensures Split(Join(parts, [sep]), sep) == parts
  {
    if |parts| == 1 {
      SplitNoSeparator(parts[0], sep);
    } else {
      SplitJoin(parts[1..], sep);
      SplitAtSeparator(parts[0], Join(parts[1..], [sep]), sep);
      assert [parts[0]] + parts[1..] == parts;
    }
  }

  /** Splitting newline-terminated lines at the newline gives the lines back, then an empty tail. */
  lemma {:induction false} SplitTerminated(lines: seq<string>)
    requires forall i :: 0 <= i < |lines| ==> '\n' !in lines[i]
    ensures Split(Terminated(lines), '\n') == lines + [""]
  {
    if |lines| > 0 {
      SplitTerminated(lines[1..]);
      SplitAtSeparator(lines[0], Terminated(lines[1..]), '\n');
      assert [lines[0]] + (lines[1..] + [""]) == lines + [""];
    }
  }

  /** Four lines, each followed by a newline, written out left to right. */
  lemma FourLinesTerminated(a: string, b: string, c: string, d: string)
    ensures a + "\n" + b + "\n" + c + "\n" + d + "\n" == Terminated([a, b, c, d])
  {
    var lines := [a, b, c, d];
    assert lines[1..] == [b, c, d] && lines[1..][1..] == [c, d] && lines[1..][1..][1..] == [d];
    assert Terminated([d]) == d + "\n" by { assert [d][1..] == []; }
    assert Terminated([c, d]) == c + "\n" + (d + "\n");
    assert Terminated([b, c, d]) == b + "\n" + (c + "\n" + (d + "\n"));
  }
}
