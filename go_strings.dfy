/**
  The parts of Go's `strings` and `strconv` packages that the relay relies on.
  A `char` stands for one byte of a frame: every delimiter and digit involved is ASCII,
  so splitting and parsing byte by byte is what the Go library does.
 */
module GoStrings {

  datatype Option<+T> = None | Some(value: T)

  /** Go's `int` on a 64-bit platform. */
  const MinInt: int := -0x8000_0000_0000_0000
  const MaxInt: int := 0x7FFF_FFFF_FFFF_FFFF
  type GoInt = x: int | MinInt <= x <= MaxInt

  /** `strings.IndexByte(s, c)`: the first position of `c` in `s`; `None` stands for Go's -1. */
  function IndexByte(s: string, c: char): (r: Option<nat>)
    ensures r.None? <==> c !in s
    ensures r.Some? ==> r.value < |s| && s[r.value] == c && c !in s[..r.value]
  {
    if s == [] then None
    else if s[0] == c then Some(0)
    else match IndexByte(s[1..], c)
      case None => None
      case Some(i) =>
        assert s[..i + 1] == [s[0]] + s[1..][..i];
        Some(i + 1)
  }

  /**
    `strings.SplitN(s, string(sep), n)` for `n > 0`: cut `s` at the first `n - 1` occurrences of
    `sep`; the last piece is the rest of `s`, uncut.
   */
  function SplitN(s: string, sep: char, n: nat): (parts: seq<string>)
    requires n > 0
    ensures 1 <= |parts| <= n
    ensures forall i :: 0 <= i < |parts| - 1 ==> sep !in parts[i]
    ensures |parts| < n ==> sep !in parts[|parts| - 1]
    decreases n
  {
    if n == 1 then [s]
    else match IndexByte(s, sep)
      case None => [s]
      case Some(i) => [s[..i]] + SplitN(s[i + 1..], sep, n - 1)
  }

  /** Gluing pieces back together with the separator (the inverse of splitting). */
  function Join(parts: seq<string>, sep: char): string
    requires |parts| > 0
  {
    if |parts| == 1 then parts[0] else parts[0] + [sep] + Join(parts[1..], sep)
  }

  /** Splitting loses nothing: the pieces glued with the separator give back the input. */
  lemma {:induction false} SplitNJoin(s: string, sep: char, n: nat)
    requires n > 0
    ensures Join(SplitN(s, sep, n), sep) == s
    decreases n
  {
    var r := IndexByte(s, sep);
    if n > 1 && r.Some? {
      var rest := SplitN(s[r.value + 1..], sep, n - 1);
      SplitNJoin(s[r.value + 1..], sep, n - 1);
      JoinCut(s, sep, r.value, rest);
    }
  }

  /** Gluing the part before a separator at `i` to pieces that glue to the part after it gives `s`. */
  lemma JoinCut(s: string, sep: char, i: nat, rest: seq<string>)
    requires i < |s| && s[i] == sep && |rest| > 0 && Join(rest, sep) == s[i + 1..]
    ensures Join([s[..i]] + rest, sep) == s
  {
    var parts := [s[..i]] + rest;
    assert parts[0] == s[..i] && parts[1..] == rest;
    assert s[..i] + [s[i]] + s[i + 1..] == s;
  }

  /** A piece without the separator followed by the separator is cut off as the first piece. */
  lemma SplitNFirstField(a: string, b: string, sep: char, n: nat)
    requires n >= 2 && sep !in a
    ensures SplitN(a + [sep] + b, sep, n) == [a] + SplitN(b, sep, n - 1)
  {
    var s := a + [sep] + b;
    assert s[|a|] == sep;
    assert s[..|a|] == a;
    assert s[|a| + 1..] == b;
  }

  /** A string without the separator is one piece. */
  lemma SplitNNoSeparator(s: string, sep: char, n: nat)
    requires n > 0 && sep !in s
    ensures SplitN(s, sep, n) == [s]
  {
  }

  predicate IsDigit(ch: char) {
    '0' <= ch <= '9'
  }

  predicate AllDigits(s: string) {
    forall i :: 0 <= i < |s| ==> IsDigit(s[i])
  }

  function DigitChar(d: nat): (ch: char)
    requires d < 10
    ensures IsDigit(ch)
  {
    (d + '0' as int) as char
  }

  function DigitValue(ch: char): (d: nat)
    requires IsDigit(ch)
    ensures d < 10
  {
    ch as int - '0' as int
  }

  /** The decimal digits of `n`, most significant first, without leading zeros. */
  function Decimal(n: nat): (s: string)
    ensures |s| > 0 && AllDigits(s)
  {
    if n < 10 then [DigitChar(n)] else Decimal(n / 10) + [DigitChar(n % 10)]
  }

  /** The value of a string of decimal digits, most significant first. */
  function DigitsValue(s: string): nat
    requires AllDigits(s)
  {
    if s == [] then 0 else 10 * DigitsValue(s[..|s| - 1]) + DigitValue(s[|s| - 1])
  }

  /** `strconv.Itoa`: decimal, with a leading '-' for negative values. */
  function Itoa(i: int): string {
    if i < 0 then "-" + Decimal(-i) else Decimal(i)
  }

  /**
    `strconv.Atoi` on a 64-bit platform: an optional '+' or '-', then at least one decimal
    digit and nothing else, with the value inside Go's `int` range; `None` stands for the
    syntax and range errors. Leading zeros are accepted.
   */
  function Atoi(s: string): (r: Option<GoInt>)
    ensures r.Some? ==> |s| > 0
  {
    var signed := |s| > 0 && (s[0] == '-' || s[0] == '+');
    var digits := if signed then s[1..] else s;
    if |digits| == 0 || !AllDigits(digits) then None
    else
      var magnitude: int := DigitsValue(digits);
      var v: int := if signed && s[0] == '-' then -magnitude else magnitude;
      if MinInt <= v <= MaxInt then Some(v) else None
  }

  lemma {:induction false} DecimalValue(n: nat)
    ensures DigitsValue(Decimal(n)) == n
  {
    if n >= 10 {
      var s := Decimal(n);
      assert s[..|s| - 1] == Decimal(n / 10);
      DecimalValue(n / 10);
    }
  }

  /** Parsing what Itoa printed gives back the number, for every Go `int`. */
  lemma AtoiItoa(k: GoInt)
    ensures Atoi(Itoa(k)) == Some(k)
  {
    var m: int := k;
    if m < 0 {
      assert ("-" + Decimal(-m))[1..] == Decimal(-m);
      DecimalValue(-m);
    } else {
      assert IsDigit(Decimal(k)[0]);
      DecimalValue(k);
    }
  }

  /** Itoa's output is never empty and holds only digits and a leading minus sign. */
  lemma ItoaChars(k: int)
    ensures |Itoa(k)| > 0
    ensures forall i :: 0 <= i < |Itoa(k)| ==> IsDigit(Itoa(k)[i]) || (i == 0 && Itoa(k)[i] == '-')
  {
  }
}
