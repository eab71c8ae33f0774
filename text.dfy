/**
 * Character-level helpers shared by the lesson generator model: Python's
 * `str.strip()`, `str.join`, and decimal digits as `int(...)`, `str(n)` and
 * the `{n:03d}` format use them.  Only ASCII is modelled: Python's notion
 * of whitespace and of a decimal digit is Unicode-wide.
 */
module Text {

  /** Whitespace for `str.strip()`, restricted to ASCII (space, \t, \n, \v, \f, \r and the separators 0x1C-0x1F). */
  predicate IsSpace(c: char) {
    c == ' ' || ('\t' <= c <= '\r') || ('\U{1C}' <= c <= '\U{1F}')
  }

  predicate AllSpace(s: string) {
    forall i :: 0 <= i < |s| ==> IsSpace(s[i])
  }

  /** `s.lstrip()` */
  function StripLeft(s: string): string {
    if |s| > 0 && IsSpace(s[0]) then StripLeft(s[1..]) else s
  }

  /** `s.rstrip()` */
  function StripRight(s: string): string {
    if |s| > 0 && IsSpace(s[|s| - 1]) then StripRight(s[..|s| - 1]) else s
  }

  /** `s.strip()` */
  function Strip(s: string): string {
    StripRight(StripLeft(s))
  }

  /** `lstrip` drops a leading run of whitespace and nothing else. */
  lemma {:induction false} StripLeftSpec(s: string)
    ensures var r := StripLeft(s);
      && |r| <= |s| && r == s[|s| - |r|..]
      && AllSpace(s[..|s| - |r|])
      && (r == [] || !IsSpace(r[0]))
  {
    if |s| > 0 && IsSpace(s[0]) {
      StripLeftSpec(s[1..]);
      var r := StripLeft(s);
      assert s[..|s| - |r|] == [s[0]] + s[1..][..|s| - 1 - |r|];
    }
  }

  /** `rstrip` drops a trailing run of whitespace and nothing else. */
  lemma {:induction false} StripRightSpec(s: string)
    ensures var r := StripRight(s);
      && |r| <= |s| && r == s[..|r|]
      && AllSpace(s[|r|..])
      && (r == [] || !IsSpace(r[|r| - 1]))
  {
    if |s| > 0 && IsSpace(s[|s| - 1]) {
      StripRightSpec(s[..|s| - 1]);
      var r := StripRight(s);
      assert s[|r|..] == s[..|s| - 1][|r|..] + [s[|s| - 1]];
    }
  }

  /**
   * `strip()` removes exactly the whitespace at both ends: the result is a
   * slice of the input with only whitespace around it, whitespace at
   * neither of its ends, and stripping again changes nothing.
   */
  lemma StripSpec(s: string)
    ensures var r := Strip(s);
      && (exists i :: 0 <= i <= |s| - |r| && r == s[i..i + |r|] && AllSpace(s[..i]) && AllSpace(s[i + |r|..]))
      && (r == [] || (!IsSpace(r[0]) && !IsSpace(r[|r| - 1])))
      && Strip(r) == r
  {
    var l := StripLeft(s);
    StripLeftSpec(s);
    var r := StripRight(l);
    StripRightSpec(l);
    var i := |s| - |l|;
    assert r == s[i..i + |r|];
    assert s[i + |r|..] == l[|r|..];
    if r != [] {
      assert r[0] == l[0];
    }
  }

  /** `sep.join(xs)` */
  function Join(sep: string, xs: seq<string>): (r: string)
    ensures |xs| == 1 ==> r == xs[0]
    ensures xs == [] ==> r == []
  {
    if |xs| == 0 then [] else if |xs| == 1 then xs[0] else xs[0] + sep + Join(sep, xs[1..])
  }

  /** Every character of `sep.join(xs)` comes from `sep` or from one of the `xs`. */
  lemma {:induction false} JoinChars(sep: string, xs: seq<string>, c: char)
    requires c !in sep && forall k :: 0 <= k < |xs| ==> c !in xs[k]
    ensures c !in Join(sep, xs)
  {
    if |xs| > 1 {
      JoinChars(sep, xs[1..], c);
    }
  }

  // ----- decimal digits -----

  predicate IsDigit(c: char) {
    '0' <= c <= '9'
  }

  predicate AllDigits(s: string) {
    forall i :: 0 <= i < |s| ==> IsDigit(s[i])
  }

  function DigitChar(d: nat): (c: char)
    requires d < 10
    ensures IsDigit(c) && c as int - '0' as int == d
  {
    ('0' as int + d) as char
  }

  /** `int(s)` for a string of decimal digits (leading zeros allowed). */
  function DecimalValue(s: string): nat
    requires AllDigits(s)
  {
    if s == [] then 0 else DecimalValue(s[..|s| - 1]) * 10 + (s[|s| - 1] as int - '0' as int)
  }

  /** `str(n)` for a natural number: shortest decimal spelling. */
  function NatToDecimal(n: nat): (s: string)
    ensures |s| >= 1 && AllDigits(s)
    ensures |s| > 1 ==> s[0] != '0'
    decreases n
  {
    if n < 10 then [DigitChar(n)] else NatToDecimal(n / 10) + [DigitChar(n % 10)]
  }

  /** Reading the decimal spelling of `n` back gives `n`. */
  lemma {:induction false} DecimalRoundTrip(n: nat)
    ensures DecimalValue(NatToDecimal(n)) == n
    decreases n
  {
    if n >= 10 {
      DecimalRoundTrip(n / 10);
      var s := NatToDecimal(n);
      assert s[..|s| - 1] == NatToDecimal(n / 10);
    }
  }

  function Zeros(k: nat): (z: string)
    ensures |z| == k && AllDigits(z)
    ensures forall i :: 0 <= i < k ==> z[i] == '0'
  {
    if k == 0 then [] else Zeros(k - 1) + ['0']
  }

  /** Leading zeros do not change the value `int(...)` reads. */
  lemma {:induction false} LeadingZerosValue(k: nat, s: string)
    requires AllDigits(s)
    ensures AllDigits(Zeros(k) + s) && DecimalValue(Zeros(k) + s) == DecimalValue(s)
    decreases |s|
  {
    var t := Zeros(k) + s;
    if s == [] {
      assert t == Zeros(k);
      ZerosValue(k);
    } else {
      LeadingZerosValue(k, s[..|s| - 1]);
      assert t[..|t| - 1] == Zeros(k) + s[..|s| - 1];
    }
  }

  lemma {:induction false} ZerosValue(k: nat)
    ensures DecimalValue(Zeros(k)) == 0
  {
    if k > 0 {
      ZerosValue(k - 1);
      assert Zeros(k)[..k - 1] == Zeros(k - 1);
    }
  }

  /** `f"{n:03d}"` for a natural number. */
  function Pad3(n: nat): string {
    var d := NatToDecimal(n);
    if |d| < 3 then Zeros(3 - |d|) + d else d
  }

  /** At least three characters, all of them digits. */
  lemma Pad3Digits(n: nat)
    ensures |Pad3(n)| >= 3 && AllDigits(Pad3(n))
  {
    var d := NatToDecimal(n);
    if |d| < 3 {
      var z := Zeros(3 - |d|);
      assert forall i :: 0 <= i < |z + d| ==> (z + d)[i] == if i < |z| then z[i] else d[i - |z|];
    }
  }

  /** The padded form is all digits, at least three of them, reads back as `n`, and pads no more than needed. */
  lemma Pad3Spec(n: nat)
    ensures var p := Pad3(n); |p| >= 3 && AllDigits(p) && DecimalValue(p) == n
    ensures var p := Pad3(n); |p| > 3 ==> p[0] != '0'
  {
    var d := NatToDecimal(n);
    DecimalRoundTrip(n);
    if |d| < 3 {
      LeadingZerosValue(3 - |d|, d);
    }
  }

  /** The longest prefix of `s` made of decimal digits: the match of the regular expression `^(\d+)`, or empty. */
  function LeadingDigits(s: string): (d: string)
    ensures d <= s && AllDigits(d)
    ensures |d| == |s| || !IsDigit(s[|d|])
  {
    if |s| > 0 && IsDigit(s[0]) then [s[0]] + LeadingDigits(s[1..]) else []
  }

  /** The leading digit run of `d + rest` is exactly `d` when `rest` does not continue it. */
  lemma {:induction false} LeadingDigitsOfConcat(d: string, rest: string)
    requires AllDigits(d)
    requires rest == [] || !IsDigit(rest[0])
    ensures LeadingDigits(d + rest) == d
  {
    if d != [] {
      assert (d + rest)[1..] == d[1..] + rest;
      LeadingDigitsOfConcat(d[1..], rest);
    }
  }
}
