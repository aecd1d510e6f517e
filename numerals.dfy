/** The C library's atoi, as the flag tokenizer uses it for stack sizes and the debug level. */
module Numerals {

  predicate IsDigit(c: char) { '0' <= c <= '9' }

  /** isspace() in the C locale. */
  predicate IsSpace(c: char)
  {
    c == ' ' || c == '\t' || c == '\n' || c == '\U{000B}' || c == '\U{000C}' || c == '\r'
  }

  predicate AllDigits(s: string) { forall i :: 0 <= i < |s| ==> IsDigit(s[i]) }

  function DigitValue(c: char): (d: nat)
    requires IsDigit(c)
    ensures d < 10
  {
    (c as int - '0' as int) as nat
  }

  function DigitChar(d: nat): (c: char)
    requires d < 10
    ensures IsDigit(c) && DigitValue(c) == d
  {
    ('0' as int + d) as char
  }

  /** The longest prefix of `s` made of decimal digits. */
  function LeadingDigits(s: string): (ds: string)
    ensures ds <= s && AllDigits(ds)
    ensures |ds| == |s| || !IsDigit(s[|ds|])
  {
    if |s| > 0 && IsDigit(s[0]) then [s[0]] + LeadingDigits(s[1..]) else []
  }

  /** The value of a string of decimal digits, most significant first. */
  function DigitsValue(ds: string): nat
    requires AllDigits(ds)
  {
    if ds == [] then 0 else DigitsValue(ds[..|ds| - 1]) * 10 + DigitValue(ds[|ds| - 1])
  }

  function SkipSpace(s: string): (t: string)
    ensures |t| <= |s|
    ensures t == [] || !IsSpace(t[0])
  {
    if |s| > 0 && IsSpace(s[0]) then SkipSpace(s[1..]) else s
  }

  /** What is left after the white space is the end of the string, and only white space was skipped. */
  lemma {:induction false} SkipSpaceSuffix(s: string)
    ensures var t := SkipSpace(s);
            t == s[|s| - |t|..] && forall i :: 0 <= i < |s| - |t| ==> IsSpace(s[i])
  {
    if |s| > 0 && IsSpace(s[0]) {
      var t := SkipSpace(s[1..]);
      SkipSpaceSuffix(s[1..]);
      assert s[1..][|s| - 1 - |t|..] == s[|s| - |t|..];
      forall i | 0 < i < |s| - |t| ensures IsSpace(s[i]) {
        assert s[i] == s[1..][i - 1];
      }
    }
  }

  /**
   * atoi(): leading white space is skipped, then an optional sign, then the
   * value of the decimal digits that follow; 0 when there are none.
   */
  function Atoi(s: string): (n: int)
    ensures n < 0 ==> |SkipSpace(s)| > 1 && SkipSpace(s)[0] == '-' && IsDigit(SkipSpace(s)[1])
  {
    var t := SkipSpace(s);
    if |t| > 0 && t[0] == '-' then -(DigitsValue(LeadingDigits(t[1..])) as int)
    else if |t| > 0 && t[0] == '+' then DigitsValue(LeadingDigits(t[1..]))
    else DigitsValue(LeadingDigits(t))
  }

  /** The decimal spelling of `n`, without sign or leading zeros. */
  function Decimal(n: nat): (s: string)
    ensures |s| > 0 && AllDigits(s)
  {
    if n < 10 then [DigitChar(n)] else Decimal(n / 10) + [DigitChar(n % 10)]
  }

  lemma {:induction false} LeadingDigitsOfDigits(ds: string, rest: string)
    requires AllDigits(ds)
    requires rest == [] || !IsDigit(rest[0])
    ensures LeadingDigits(ds + rest) == ds
  {
    if ds != [] {
      assert (ds + rest)[1..] == ds[1..] + rest;
      LeadingDigitsOfDigits(ds[1..], rest);
    } else {
      assert ds + rest == rest;
    }
  }

  /** atoi stops at the first character that is not a digit. */
  lemma {:induction false} AtoiOfDigits(ds: string, rest: string)
    requires |ds| > 0 && AllDigits(ds)
    requires rest == [] || !IsDigit(rest[0])
    ensures Atoi(ds + rest) == DigitsValue(ds)
  {
    var s := ds + rest;
    assert s[0] == ds[0] && IsDigit(s[0]);
    assert SkipSpace(s) == s;
    LeadingDigitsOfDigits(ds, rest);
  }

  lemma {:induction false} DigitsValueOfDecimal(n: nat)
    ensures DigitsValue(Decimal(n)) == n
  {
    if n >= 10 {
      var s := Decimal(n);
      assert s[..|s| - 1] == Decimal(n / 10);
      DigitsValueOfDecimal(n / 10);
    }
  }

  /** Round trip: atoi reads back every decimal spelling, whatever non-digit follows. */
  lemma AtoiOfDecimal(n: nat, rest: string)
    requires rest == [] || !IsDigit(rest[0])
    ensures Atoi(Decimal(n) + rest) == n
  {
    AtoiOfDigits(Decimal(n), rest);
    DigitsValueOfDecimal(n);
  }

  /** Leading white space is skipped, and nothing more. */
  lemma {:induction false} SkipSpaceOf(ws: string, t: string)
    requires forall i :: 0 <= i < |ws| ==> IsSpace(ws[i])
    requires t == [] || !IsSpace(t[0])
    ensures SkipSpace(ws + t) == t
  {
    if ws == [] {
      assert ws + t == t;
    } else {
      assert (ws + t)[0] == ws[0];
      assert (ws + t)[1..] == ws[1..] + t;
      SkipSpaceOf(ws[1..], t);
    }
  }

  /** White space before the number changes nothing. */
  lemma AtoiAfterSpace(ws: string, t: string)
    requires forall i :: 0 <= i < |ws| ==> IsSpace(ws[i])
    requires t == [] || !IsSpace(t[0])
    ensures Atoi(ws + t) == Atoi(t)
  {
    SkipSpaceOf(ws, t);
    SkipSpaceOf([], t);
    assert [] + t == t;
  }

  /** atoi after white space and a '-': the value of the digits, negated; the digits end at the first non-digit. */
  lemma AtoiNegative(ws: string, n: nat, rest: string)
    requires forall i :: 0 <= i < |ws| ==> IsSpace(ws[i])
    requires rest == [] || !IsDigit(rest[0])
    ensures Atoi(ws + ("-" + Decimal(n) + rest)) == -(n as int)
  {
    var t := "-" + Decimal(n) + rest;
    AtoiAfterSpace(ws, t);
    SignedDigits('-', Decimal(n), rest);
    SkipSpaceOf([], t);
    assert [] + t == t;
    LeadingDigitsOfDigits(Decimal(n), rest);
    DigitsValueOfDecimal(n);
  }

  /** atoi after white space and a '+': the value of the digits. */
  lemma AtoiPositive(ws: string, n: nat, rest: string)
    requires forall i :: 0 <= i < |ws| ==> IsSpace(ws[i])
    requires rest == [] || !IsDigit(rest[0])
    ensures Atoi(ws + ("+" + Decimal(n) + rest)) == n
  {
    var t := "+" + Decimal(n) + rest;
    AtoiAfterSpace(ws, t);
    SignedDigits('+', Decimal(n), rest);
    SkipSpaceOf([], t);
    assert [] + t == t;
    LeadingDigitsOfDigits(Decimal(n), rest);
    DigitsValueOfDecimal(n);
  }

  lemma SignedDigits(sign: char, ds: string, rest: string)
    ensures var t := [sign] + ds + rest; |t| > 0 && t[0] == sign && t[1..] == ds + rest
  {
    assert ([sign] + ds + rest)[1..] == ds + rest;
  }

  /**
   * Without digits, atoi gives 0: after white space and an optional sign,
   * what follows does not start with a digit.
   */
  lemma AtoiNoDigits(ws: string, sign: string, t: string)
    requires forall i :: 0 <= i < |ws| ==> IsSpace(ws[i])
    requires sign == "" || sign == "-" || sign == "+"
    requires t == [] || !IsDigit(t[0])
    requires sign == "" && t != [] ==> !IsSpace(t[0]) && t[0] != '-' && t[0] != '+'
    ensures Atoi(ws + sign + t) == 0
  {
    var u := sign + t;
    assert ws + sign + t == ws + u;
    AtoiAfterSpace(ws, u);
    SkipSpaceOf([], u);
    assert [] + u == u;
    if sign != "" {
      assert u[1..] == t;
    } else {
      assert u == t;
    }
  }
}
