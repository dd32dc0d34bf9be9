/**
 * Decimal text for integers: the ASCII part of what Python's `int(text)` accepts
 * and of what `str(n)` writes. Every number the client turns into text, or text
 * into a number, goes through here.
 */
module Decimal {
  import opened Wrappers

  predicate IsDigit(c: char) {
    '0' <= c <= '9'
  }

  function DigitValue(c: char): (d: nat)
    requires IsDigit(c)
    ensures d < 10
  {
    c as int - '0' as int
  }

  function DigitChar(d: nat): (c: char)
    requires d < 10
    ensures IsDigit(c) && DigitValue(c) == d
  {
    ('0' as int + d) as char
  }

  predicate AllDigits(s: string) {
    forall i :: 0 <= i < |s| ==> IsDigit(s[i])
  }

  /** A run of digits with no superfluous leading zero, the only form `str(n)` writes. */
  predicate IsCanonicalDigits(s: string) {
    |s| > 0 && AllDigits(s) && (s[0] == '0' ==> |s| == 1)
  }

  /** The value of a run of digits, most significant digit first. */
  function DigitsValue(s: string): nat
    requires AllDigits(s)
  {
    if |s| == 0 then 0 else 10 * DigitsValue(s[..|s| - 1]) + DigitValue(s[|s| - 1])
  }

  /** `str(n)` for a natural number. */
  function NatToString(n: nat): (s: string)
    ensures IsCanonicalDigits(s)
    ensures s[0] == '0' <==> n == 0
  {
    if n < 10 then [DigitChar(n)] else NatToString(n / 10) + [DigitChar(n % 10)]
  }

  /** `str(i)` for any integer: a minus sign in front of the magnitude when negative. */
  function IntToString(i: int): (s: string)
    ensures |s| > 0
    ensures forall k :: 0 <= k < |s| ==> s[k] == '-' || IsDigit(s[k])
  {
    if i < 0 then "-" + NatToString(-i) else NatToString(i)
  }

  /** A sign of at most one character, `+` or `-`, as `int()` allows in front of the digits. */
  predicate IsSign(p: string) {
    p == [] || p == "+" || p == "-"
  }

  /**
   * The texts the model of `int()` accepts: an optional sign, then one or more
   * ASCII digits, and nothing else.
   */
  predicate IsIntegerLiteral(s: string) {
    exists k :: 0 <= k < |s| && IsSign(s[..k]) && AllDigits(s[k..])
  }

  /** The two shapes of an integer literal: signed with digits after, or digits alone. */
  lemma {:induction false} IntegerLiteralShape(s: string)
    ensures IsIntegerLiteral(s)
        <==> (|s| > 0 && (if s[0] == '+' || s[0] == '-' then |s| > 1 && AllDigits(s[1..]) else AllDigits(s)))
  {
    if |s| > 0 {
      if s[0] == '+' || s[0] == '-' {
        if |s| > 1 && AllDigits(s[1..]) {
          assert IsSign(s[..1]);
        }
      } else if AllDigits(s) {
        assert s[..0] == [] && s[0..] == s;
      }
    }
    if IsIntegerLiteral(s) {
      var k :| 0 <= k < |s| && IsSign(s[..k]) && AllDigits(s[k..]);
      if k == 0 {
        assert s[k..] == s;
        assert IsDigit(s[k..][0]);
      } else {
        assert s[..k] == [s[0]];
      }
    }
  }

  /**
   * `int(text)` on the ASCII subset; `None` stands for the `ValueError` it raises.
   * It accepts exactly the integer literals.
   */
  function ParseInteger(s: string): (r: Option<int>)
    ensures r.Some? <==> IsIntegerLiteral(s)
  {
    IntegerLiteralShape(s);
    if |s| > 0 && (s[0] == '+' || s[0] == '-') then
      if |s| > 1 && AllDigits(s[1..]) then
        var magnitude: int := DigitsValue(s[1..]);
        Some(if s[0] == '-' then -magnitude else magnitude)
      else
        None
    else if |s| > 0 && AllDigits(s) then
      Some(DigitsValue(s))
    else
      None
  }

  /** Reading back what `str` wrote gives the number again. */
  lemma {:induction false} DigitsValueOfNatToString(n: nat)
    ensures DigitsValue(NatToString(n)) == n
  {
    var s := NatToString(n);
    if n >= 10 {
      var p := NatToString(n / 10);
      assert s[..|s| - 1] == p;
      DigitsValueOfNatToString(n / 10);
    }
  }

  lemma {:induction false} DigitsValuePositive(s: string)
    requires |s| > 0 && AllDigits(s) && s[0] != '0'
    ensures DigitsValue(s) > 0
  {
    if |s| > 1 {
      var p := s[..|s| - 1];
      assert p[0] == s[0];
      DigitsValuePositive(p);
    }
  }

  /** Writing back what was read gives the text again, when the text was canonical. */
  lemma {:induction false} NatToStringOfDigitsValue(s: string)
    requires IsCanonicalDigits(s)
    ensures NatToString(DigitsValue(s)) == s
  {
    var n := DigitsValue(s);
    var p := s[..|s| - 1];
    var d := DigitValue(s[|s| - 1]);
    if |s| == 1 {
      assert DigitsValue(p) == 0;
      assert n == d;
    } else {
      assert p[0] == s[0];
      DigitsValuePositive(p);
      NatToStringOfDigitsValue(p);
      assert n == 10 * DigitsValue(p) + d;
      assert n / 10 == DigitsValue(p) && n % 10 == d;
      assert s == p + [s[|s| - 1]];
    }
  }

  /** `int(str(i)) == i` for every integer. */
  lemma {:induction false} ParseIntegerOfIntToString(i: int)
    ensures ParseInteger(IntToString(i)) == Some(i)
  {
    if i < 0 {
      var s := IntToString(i);
      assert s[1..] == NatToString(-i);
      DigitsValueOfNatToString(-i);
    } else {
      DigitsValueOfNatToString(i);
    }
  }

  /** A zero in front of a digit run does not change its value. */
  lemma {:induction false} DigitsValueLeadingZero(s: string)
    requires AllDigits(s)
    ensures AllDigits("0" + s)
    ensures DigitsValue("0" + s) == DigitsValue(s)
  {
    var z := "0" + s;
    assert forall i :: 0 < i < |z| ==> z[i] == s[i - 1];
    if |s| > 0 {
      var p := s[..|s| - 1];
      DigitsValueLeadingZero(p);
      assert z[..|z| - 1] == "0" + p;
      assert z[|z| - 1] == s[|s| - 1];
    }
  }

  /** `int()` ignores a zero in front of the digits, after the sign if there is one. */
  lemma ParseIntegerLeadingZero(sign: string, s: string)
    requires IsSign(sign) && |s| > 0 && AllDigits(s)
    ensures ParseInteger(sign + "0" + s).Some?
    ensures ParseInteger(sign + "0" + s) == ParseInteger(sign + s)
  {
    if sign == [] {
      assert sign + "0" + s == "0" + s && sign + s == s;
      UnsignedLeadingZero(s);
    } else {
      SignedLeadingZero(sign[0], s);
    }
  }

  lemma UnsignedLeadingZero(s: string)
    requires |s| > 0 && AllDigits(s)
    ensures ParseInteger("0" + s) == Some(DigitsValue(s))
    ensures ParseInteger(s) == Some(DigitsValue(s))
  {
    DigitsValueLeadingZero(s);
  }

  lemma SignedLeadingZero(sign: char, s: string)
    requires (sign == '+' || sign == '-') && |s| > 0 && AllDigits(s)
    ensures ParseInteger([sign] + "0" + s).Some?
    ensures ParseInteger([sign] + "0" + s) == ParseInteger([sign] + s)
  {
    DigitsValueLeadingZero(s);
    assert ([sign] + "0" + s)[1..] == "0" + s;
    assert ([sign] + s)[1..] == s;
  }

  /** `int()` reads a digit run the same with or without a leading `+`. */
  lemma ParseIntegerPlus(s: string)
    requires |s| > 0 && AllDigits(s)
    ensures ParseInteger("+" + s).Some?
    ensures ParseInteger("+" + s) == ParseInteger(s)
  {
    assert ("+" + s)[1..] == s;
  }
}
