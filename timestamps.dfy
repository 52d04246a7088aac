/** Integer timestamps and the millisecond conversion `to_ms`.

    A pandas timestamp is modelled by its integer value: nanoseconds since the
    Unix epoch. The exchange takes millisecond epoch values, and `to_ms` obtains
    one by printing the nanosecond integer in decimal and keeping its first 13
    characters. */
module Timestamps {

  import opened Arithmetic

  /** Nanoseconds in one millisecond. */
  const NanosPerMilli: int := 1_000_000

  /** Number of characters `to_ms` keeps of the decimal nanosecond value. */
  const KeptChars: nat := 13

  function Pow10(k: nat): (p: nat)
    ensures p >= 1
  {
    if k == 0 then 1 else 10 * Pow10(k - 1)
  }

  predicate IsDigit(c: char) {
    '0' <= c <= '9'
  }

  predicate AllDigits(s: string) {
    forall i :: 0 <= i < |s| ==> IsDigit(s[i])
  }

  /** A literal Python's `int` accepts: digits, optionally after a minus sign. */
  predicate IsDecimal(s: string) {
    || (|s| >= 1 && AllDigits(s))
    || (|s| >= 2 && s[0] == '-' && AllDigits(s[1..]))
  }

  function DigitChar(d: nat): (c: char)
    requires d < 10
    ensures IsDigit(c) && c as int - '0' as int == d
  {
    ('0' as int + d) as char
  }

  /** The decimal digits of `n`, most significant first (Python's `str` on a
      non-negative int). */
  function Digits(n: nat): (s: string)
    ensures 1 <= |s| && AllDigits(s)
    ensures n < Pow10(|s|)
  {
    if n < 10 then [DigitChar(n)] else Digits(n / 10) + [DigitChar(n % 10)]
  }

  /** Python's `str` on an int. */
  function Show(n: int): (s: string)
    ensures IsDecimal(s)
  {
    if n < 0 then "-" + Digits(-n) else Digits(n)
  }

  /** The value of a string of decimal digits (`int` on it). */
  function DigitsValue(s: string): (v: nat)
    requires AllDigits(s)
    ensures v < Pow10(|s|)
  {
    if s == [] then 0
    else 10 * DigitsValue(s[..|s| - 1]) + (s[|s| - 1] as int - '0' as int)
  }

  /** Python's `int` on a decimal literal. */
  function ParseInt(s: string): int
    requires IsDecimal(s)
  {
    if s[0] == '-' then -(DigitsValue(s[1..]) as int) else DigitsValue(s)
  }

  /** Python's slice `s[:k]`: the whole string when it is shorter than `k`. */
  function Take(s: string, k: nat): (t: string)
    ensures |t| <= k && t <= s
    ensures |s| <= k ==> t == s
  {
    if |s| <= k then s else s[..k]
  }

  lemma TakeKeepsDecimal(s: string, k: nat)
    requires IsDecimal(s) && k >= 2
    ensures IsDecimal(Take(s, k))
  {
    var t := Take(s, k);
    if s[0] == '-' {
      assert t[1..] <= s[1..];
    }
  }

  /** `to_ms` (utils.py): the integer spelled by the first 13 characters of
      the decimal nanosecond value. */
  function ToMs(ns: int): int
  {
    TakeKeepsDecimal(Show(ns), KeptChars);
    ParseInt(Take(Show(ns), KeptChars))
  }

  /** Direct epoch-millisecond arithmetic, what the conversion means to do. */
  function ExactMs(ns: int): int {
    ns / NanosPerMilli
  }

  // ---------------------------------------------------------------------
  // Decimal digits

  lemma {:induction false} DigitsRoundTrip(n: nat)
    ensures DigitsValue(Digits(n)) == n
  {
    if n >= 10 {
      var s := Digits(n);
      assert s[..|s| - 1] == Digits(n / 10);
      DigitsRoundTrip(n / 10);
    }
  }

  lemma {:induction false} DigitsLength(n: nat, k: nat)
    requires Pow10(k) <= n < Pow10(k + 1)
    ensures |Digits(n)| == k + 1
  {
    if k > 0 {
      assert n >= 10;
      DigitsLength(n / 10, k - 1);
    }
  }

  /** `n` with its last `k` decimal digits dropped, one digit at a time. */
  function DropDigits(n: nat, k: nat): nat {
    if k == 0 then n else DropDigits(n / 10, k - 1)
  }

  lemma {:induction false} DropDigitsIsDivision(n: nat, k: nat)
    ensures DropDigits(n, k) == n / Pow10(k)
  {
    if k > 0 {
      DropDigitsIsDivision(n / 10, k - 1);
      DivDiv(n, 10, Pow10(k - 1));
    }
  }

  /** Dropping the last `k` characters of the decimal form of `n` spells `n`
      with its last `k` digits dropped. */
  lemma {:induction false} DigitsPrefix(n: nat, k: nat)
    requires k < |Digits(n)|
    ensures Digits(n)[..|Digits(n)| - k] == Digits(DropDigits(n, k))
  {
    if k > 0 {
      var t := Digits(n / 10);
      assert Digits(n) == t + [DigitChar(n % 10)];
      DigitsPrefix(n / 10, k - 1);
    }
  }

  /** The value that `to_ms` returns, for every non-negative input: the value
      itself when it has at most 13 digits, and otherwise the value with all
      digits beyond the 13th dropped. */
  lemma ToMsOfNonNegative(ns: nat)
    ensures var d := |Digits(ns)|;
            ToMs(ns) == if d <= KeptChars then ns else ns / Pow10(d - KeptChars)
  {
    var s := Digits(ns);
    var d := |s|;
    if d <= KeptChars {
      DigitsRoundTrip(ns);
    } else {
      DigitsPrefix(ns, d - KeptChars);
      DigitsRoundTrip(DropDigits(ns, d - KeptChars));
      DropDigitsIsDivision(ns, d - KeptChars);
    }
  }

  /** The value that `to_ms` returns for a negative input: the minus sign takes
      one of the 13 characters, so only 12 digits of the magnitude remain. */
  lemma ToMsOfNegative(ns: int)
    requires ns < 0
    ensures var d := |Digits(-ns)|;
            ToMs(ns) == -(if d <= KeptChars - 1 then -ns else -ns / Pow10(d - (KeptChars - 1)))
  {
    var m := -ns;
    var s := Digits(m);
    var d := |s|;
    assert Show(ns) == "-" + s;
    var t := Take(Show(ns), KeptChars);
    if d <= KeptChars - 1 {
      assert t == "-" + s;
      assert t[1..] == s;
      DigitsRoundTrip(m);
    } else {
      assert t[1..] == s[..d - (d - (KeptChars - 1))];
      DigitsPrefix(m, d - (KeptChars - 1));
      DigitsRoundTrip(DropDigits(m, d - (KeptChars - 1)));
      DropDigitsIsDivision(m, d - (KeptChars - 1));
    }
  }

  /** For every 19-digit nanosecond value (instants from 2001-09-09 to
      2286-11-20) the truncation is exact millisecond arithmetic. */
  lemma ToMsOfNineteenDigits(ns: int)
    requires 1_000_000_000_000_000_000 <= ns < 10_000_000_000_000_000_000
    ensures ToMs(ns) == ExactMs(ns)
  {
    assert Pow10(6) == NanosPerMilli;
    assert Pow10(18) == 1_000_000_000_000_000_000;
    DigitsLength(ns, 18);
    ToMsOfNonNegative(ns);
  }

  /** 2020-01-01T00:00:00Z is 1577836800000 milliseconds after the epoch. */
  lemma ToMsOfNewYear2020()
    ensures ToMs(1_577_836_800_000_000_000) == 1_577_836_800_000
  {
    ToMsOfNineteenDigits(1_577_836_800_000_000_000);
  }

  /** One nanosecond before 2001-09-09T01:46:40Z the value has 18 digits, and
      the 13 kept characters spell ten times the true millisecond count. */
  lemma ToMsBefore2001IsWrong()
    ensures ToMs(999_999_999_999_999_999) == 9_999_999_999_999
    ensures ExactMs(999_999_999_999_999_999) == 999_999_999_999
  {
    assert Pow10(5) == 100_000;
    assert Pow10(17) == 100_000_000_000_000_000;
    DigitsLength(999_999_999_999_999_999, 17);
    ToMsOfNonNegative(999_999_999_999_999_999);
  }
}
