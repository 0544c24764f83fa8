/**
 * The handful of Python string operations the upload handler relies on:
 * `str.lower()`, `str.rsplit(sep, 1)`, `str(int)` and the zero-padded
 * fields of `strftime`. Each formatter comes with the parser that undoes it,
 * so that what a formatter produces is pinned down by a round trip rather
 * than by its own definition.
 */
module Text {
  import opened Wrappers

  // ---------------------------------------------------------------------------
  // Characters and digits

  predicate IsDigit(c: char) { '0' <= c <= '9' }

  predicate AllDigits(s: string) { forall i :: 0 <= i < |s| ==> IsDigit(s[i]) }

  function DigitChar(d: nat): (c: char)
    requires d < 10
    ensures IsDigit(c)
  {
    ('0' as int + d) as char
  }

  function DigitValue(c: char): (d: nat)
    requires IsDigit(c)
    ensures d < 10
  {
    c as int - '0' as int
  }

  function Pow10(k: nat): (p: nat)
    ensures p >= 1
  {
    if k == 0 then 1 else 10 * Pow10(k - 1)
  }

  /** The number a string of decimal digits denotes; the reference reading of every formatter below. */
  function DecimalValue(s: string): nat
    requires AllDigits(s)
  {
    if s == [] then 0 else DecimalValue(s[..|s| - 1]) * 10 + DigitValue(s[|s| - 1])
  }

  // ---------------------------------------------------------------------------
  // str(int)

  /** Python's `str(n)` for a non-negative integer: shortest decimal form. */
  function NatToDecimal(n: nat): (s: string)
    ensures 1 <= |s| && AllDigits(s)
    ensures n == 0 ==> s == "0"
    ensures n > 0 ==> s[0] != '0'
  {
    if n < 10 then [DigitChar(n)] else NatToDecimal(n / 10) + [DigitChar(n % 10)]
  }

  lemma {:induction false} NatToDecimalRoundTrip(n: nat)
    ensures DecimalValue(NatToDecimal(n)) == n
  {
    if n >= 10 {
      var s := NatToDecimal(n / 10);
      NatToDecimalRoundTrip(n / 10);
      assert (s + [DigitChar(n % 10)])[..|s|] == s;
    }
  }

  /** A string of digits in shortest form: no leading zero unless it is `"0"` itself. */
  predicate Canonical(digits: string)
  {
    |digits| >= 1 && AllDigits(digits) && (digits[0] != '0' || |digits| == 1)
  }

  /** Python's `str(n)` for any integer: a minus sign exactly for negatives, then the digits of the magnitude. */
  function IntToDecimal(n: int): (s: string)
    ensures |s| >= 1 && (s[0] == '-' <==> n < 0)
    ensures n < 0 ==> Canonical(s[1..]) && s[1] != '0'
    ensures n >= 0 ==> Canonical(s)
  {
    if n < 0 then
      var digits := NatToDecimal(-n);
      assert ("-" + digits)[1..] == digits;
      "-" + digits
    else NatToDecimal(n)
  }

  /**
   * Reads back a decimal integer in the form `str(int)` writes: an optional
   * minus sign and canonical digits, with no `-0`; `None` on anything else.
   */
  function ParseInt(s: string): Option<int>
  {
    if |s| > 1 && s[0] == '-' && Canonical(s[1..]) && s[1] != '0' then Some(-(DecimalValue(s[1..]) as int))
    else if Canonical(s) then Some(DecimalValue(s))
    else None
  }

  lemma IntToDecimalRoundTrip(n: int)
    ensures ParseInt(IntToDecimal(n)) == Some(n)
  {
    if n < 0 {
      var digits := NatToDecimal(-n);
      NatToDecimalRoundTrip(-n);
      assert ("-" + digits)[1..] == digits;
      assert ParseInt("-" + digits) == Some(-(DecimalValue(digits) as int));
    } else {
      var digits := NatToDecimal(n);
      NatToDecimalRoundTrip(n);
      assert IsDigit(digits[0]);
      assert ParseInt(digits) == Some(DecimalValue(digits));
    }
  }

  /** Canonical digits are the decimal form of the number they denote. */
  lemma {:induction false} CanonicalDigits(digits: string)
    requires Canonical(digits)
    ensures NatToDecimal(DecimalValue(digits)) == digits
    decreases |digits|
  {
    var last := digits[|digits| - 1];
    var init := digits[..|digits| - 1];
    assert digits == init + [last];
    if |digits| == 1 {
      assert init == [];
      assert DecimalValue(digits) == DigitValue(last);
    } else {
      assert init[0] == digits[0];
      CanonicalDigits(init);
      var v := DecimalValue(init);
      assert NatToDecimal(v)[0] != '0';
      var n := DecimalValue(digits);
      assert n == v * 10 + DigitValue(last);
      assert n / 10 == v && n % 10 == DigitValue(last);
    }
  }

  /** The parser accepts only what `str(int)` writes: a text that reads as `n` is `str(n)`. */
  lemma ParseIntCanonical(s: string, n: int)
    requires ParseInt(s) == Some(n)
    ensures s == IntToDecimal(n)
  {
    if |s| > 1 && s[0] == '-' && Canonical(s[1..]) && s[1] != '0' {
      CanonicalDigits(s[1..]);
      assert s == "-" + s[1..];
    } else {
      CanonicalDigits(s);
    }
  }

  // ---------------------------------------------------------------------------
  // Zero-padded fields (strftime's %Y, %m, %d, %H, %M, %S)

  /** The last `width` decimal digits of `n`, padded on the left with zeros. */
  function Padded(n: nat, width: nat): (s: string)
    ensures |s| == width && AllDigits(s)
  {
    if width == 0 then [] else Padded(n / 10, width - 1) + [DigitChar(n % 10)]
  }

  lemma {:induction false} PaddedRoundTrip(n: nat, width: nat)
    requires n < Pow10(width)
    ensures DecimalValue(Padded(n, width)) == n
  {
    if width > 0 {
      var s := Padded(n / 10, width - 1);
      PaddedRoundTrip(n / 10, width - 1);
      assert (s + [DigitChar(n % 10)])[..|s|] == s;
    }
  }

  // ---------------------------------------------------------------------------
  // str.lower()

  /**
   * Lower-casing of one character. Only 'A'..'Z' are mapped; see README for
   * why that is enough for the one comparison the handler makes.
   */
  function LowerChar(c: char): (l: char)
    ensures l == '.' <==> c == '.'
  {
    if 'A' <= c <= 'Z' then (c as int - 'A' as int + 'a' as int) as char else c
  }

  /** `str.lower()` on ASCII: no capital letter remains, and nothing but capitals changes. */
  function Lower(s: string): (r: string)
    ensures |r| == |s|
    ensures forall i {:trigger r[i]} :: 0 <= i < |s| ==> r[i] == LowerChar(s[i])
    ensures forall i {:trigger r[i]} :: 0 <= i < |s| ==> !('A' <= r[i] <= 'Z')
    ensures forall i {:trigger r[i]} :: 0 <= i < |s| && !('A' <= s[i] <= 'Z') ==> r[i] == s[i]
  {
    seq(|s|, i requires 0 <= i < |s| => LowerChar(s[i]))
  }

  /** Lower-casing twice is lower-casing once. */
  lemma LowerIdempotent(s: string)
    ensures Lower(Lower(s)) == Lower(s)
  {
    assert forall i :: 0 <= i < |s| ==> Lower(Lower(s))[i] == Lower(s)[i];
  }

  lemma LowerAppend(a: string, b: string)
    ensures Lower(a + b) == Lower(a) + Lower(b)
  {
    assert forall i :: 0 <= i < |a + b| ==> Lower(a + b)[i] == (Lower(a) + Lower(b))[i];
  }

  predicate EndsWith(s: string, suffix: string)
  {
    |suffix| <= |s| && s[|s| - |suffix|..] == suffix
  }

  // ---------------------------------------------------------------------------
  // str.rsplit(sep, 1)

  /**
   * Python's `s.rsplit(sep, 1)`: `[s]` when `sep` does not occur, otherwise
   * the text before and the text after the LAST occurrence of `sep`.
   */
  function RSplitOnce(s: string, sep: char): (parts: seq<string>)
    ensures |parts| == 1 || |parts| == 2
    ensures |parts| == 1 <==> sep !in s
    ensures |parts| == 1 ==> parts[0] == s
    ensures |parts| == 2 ==> s == parts[0] + [sep] + parts[1] && sep !in parts[1]
    decreases |s|
  {
    if s == [] then [s]
    else if s[|s| - 1] == sep then [s[..|s| - 1], []]
    else
      var init, last := s[..|s| - 1], s[|s| - 1];
      assert s == init + [last];
      var p := RSplitOnce(init, sep);
      if |p| == 1 then [s] else [p[0], p[1] + [last]]
  }

  /** Splitting `a + sep + b` at the last `sep` gives back `a` and `b` whenever `b` holds no `sep`. */
  lemma {:induction false} RSplitOnceOf(a: string, b: string, sep: char)
    requires sep !in b
    ensures RSplitOnce(a + [sep] + b, sep) == [a, b]
    decreases |b|
  {
    var s := a + [sep] + b;
    if b == [] {
      assert s[..|s| - 1] == a;
    } else {
      var b' := b[..|b| - 1];
      assert s[..|s| - 1] == a + [sep] + b';
      assert b == b' + [b[|b| - 1]];
      RSplitOnceOf(a, b', sep);
    }
  }
}
