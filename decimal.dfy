/**
 * Decimal text of 64-bit integers: the rendering a valid nullable integer
 * gets in JSON, and the parser that reads it (and database strings) back.
 */
module Decimal {
  import opened Wrappers
  import opened GoInt

  predicate IsDigit(c: char) {
    '0' <= c <= '9'
  }

  predicate AllDigits(s: string) {
    forall i :: 0 <= i < |s| ==> IsDigit(s[i])
  }

  /**
   * A digit string with no superfluous leading zero: "0" itself, or
   * digits that start with 1..9.
   */
  predicate CanonicalDigits(s: string) {
    |s| >= 1 && AllDigits(s) && (|s| > 1 ==> s[0] != '0')
  }

  /** The one spelling of an integer the printer produces: no '+', no "-0", no leading zeros. */
  predicate Canonical(s: string) {
    if |s| > 0 && s[0] == '-' then CanonicalDigits(s[1..]) && s[1..] != "0"
    else CanonicalDigits(s)
  }

  function DigitValue(c: char): (d: nat)
    requires IsDigit(c)
    ensures d < 10
  {
    c as int - '0' as int
  }

  function DigitChar(d: nat): (c: char)
    requires d < 10
    ensures IsDigit(c) && DigitValue(c) == d
  {
    ('0' as int + d) as char
  }

  /** The decimal digits of `n`, most significant first. */
  function NatText(n: nat): (s: string)
    ensures CanonicalDigits(s)
    ensures s == "0" <==> n == 0
    decreases n
  {
    if n < 10 then [DigitChar(n)] else NatText(n / 10) + [DigitChar(n % 10)]
  }

  /** The number a digit string denotes. */
  function NatValue(s: string): nat
    requires AllDigits(s)
    decreases |s|
  {
    if s == [] then 0 else NatValue(s[..|s| - 1]) * 10 + DigitValue(s[|s| - 1])
  }

  /** Decimal text of an integer: a '-' before the digits of a negative number. */
  function FormatInt(n: int): (s: string)
    ensures Canonical(s)
    ensures |s| >= 1 && (s[0] == '-' <==> n < 0)
  {
    if n < 0 then "-" + NatText(-n) else NatText(n)
  }

  function Pow10(k: nat): (p: nat)
    ensures p >= 1
  {
    if k == 0 then 1 else 10 * Pow10(k - 1)
  }

  /**
   * Reads signed decimal text as an int64: an optional '-', then one or
   * more digits (leading zeros allowed), denoting a value within the int64
   * range; `None` otherwise. A '+' sign is not accepted.
   */
  function ParseInt64(s: string): (r: Option<int64>)
    ensures r.Some? <==>
      (|s| >= 1 &&
       if s[0] == '-' then |s| >= 2 && AllDigits(s[1..]) && NatValue(s[1..]) <= -MinInt64
       else AllDigits(s) && NatValue(s) <= MaxInt64)
    ensures r.Some? ==> r.value == if s[0] == '-' then -(NatValue(s[1..]) as int) else NatValue(s)
    ensures r.Some? ==> |s| >= 1 && (s[0] == '-' || IsDigit(s[0])) && AllDigits(s[1..])
    ensures r.Some? ==> s[0] == '-' ==> |s| >= 2 && r.value <= 0
    ensures r.Some? ==> IsDigit(s[0]) ==> r.value >= 0
    ensures 1 <= |s| <= 18 && AllDigits(s) ==> r.Some?
    ensures 2 <= |s| <= 19 && s[0] == '-' && AllDigits(s[1..]) ==> r.Some?
  {
    var negative := |s| > 0 && s[0] == '-';
    var digits := if negative then s[1..] else s;
    if |digits| == 0 || !AllDigits(digits) then None
    else
      NatValueBound(digits);
      Pow10Of18();
      assert |digits| <= 18 ==> Pow10(|digits|) <= Pow10(18) by {
        if |digits| <= 18 { Pow10Monotone(|digits|, 18); }
      }
      var magnitude: int := NatValue(digits);
      var n := if negative then -magnitude else magnitude;
      if MinInt64 <= n <= MaxInt64 then Some(n) else None
  }

  lemma Pow10Of18()
    ensures Pow10(18) == 1_000_000_000_000_000_000
  {
    assert Pow10(1) == 10;
    assert Pow10(2) == 100;
    assert Pow10(3) == 1000;
    assert Pow10(4) == 10000;
    assert Pow10(5) == 100000;
    assert Pow10(6) == 1000000;
    assert Pow10(7) == 10000000;
    assert Pow10(8) == 100000000;
    assert Pow10(9) == 1000000000;
    assert Pow10(10) == 10000000000;
    assert Pow10(11) == 100000000000;
    assert Pow10(12) == 1000000000000;
    assert Pow10(13) == 10000000000000;
    assert Pow10(14) == 100000000000000;
    assert Pow10(15) == 1000000000000000;
    assert Pow10(16) == 10000000000000000;
    assert Pow10(17) == 100000000000000000;
    assert Pow10(18) == 1000000000000000000;
  }

  lemma {:induction false} Pow10Monotone(j: nat, k: nat)
    requires j <= k
    ensures Pow10(j) <= Pow10(k)
    decreases k
  {
    if j < k {
      Pow10Monotone(j, k - 1);
    }
  }

  /** A string of k digits denotes a number below 10^k. */
  lemma {:induction false} NatValueBound(s: string)
    requires AllDigits(s)
    ensures NatValue(s) < Pow10(|s|)
    decreases |s|
  {
    if s != [] {
      NatValueBound(s[..|s| - 1]);
    }
  }

  lemma {:induction false} NatValueOfText(n: nat)
    ensures NatValue(NatText(n)) == n
    decreases n
  {
    if n >= 10 {
      var s := NatText(n / 10);
      NatValueOfText(n / 10);
      var t := s + [DigitChar(n % 10)];
      assert t[..|t| - 1] == s;
    }
  }

  lemma {:induction false} NatValuePositive(s: string)
    requires CanonicalDigits(s) && s != "0"
    ensures NatValue(s) >= 1
    decreases |s|
  {
    if |s| > 1 {
      var p := s[..|s| - 1];
      assert p[0] == s[0];
      if |p| > 1 {
        NatValuePositive(p);
      } else {
        assert p == [s[0]] && NatValue(p) == DigitValue(s[0]);
      }
    }
  }

  lemma {:induction false} TextOfNatValue(s: string)
    requires CanonicalDigits(s)
    ensures NatText(NatValue(s)) == s
    decreases |s|
  {
    if |s| > 1 {
      var p := s[..|s| - 1];
      var last := s[|s| - 1];
      assert p[0] == s[0];
      assert CanonicalDigits(p);
      NatValuePositive(p);
      TextOfNatValue(p);
      var n := NatValue(s);
      assert n == NatValue(p) * 10 + DigitValue(last);
      assert n / 10 == NatValue(p) && n % 10 == DigitValue(last);
      assert DigitChar(DigitValue(last)) == last;
      assert s == p + [last];
    }
  }

  /** Printing an int64 and reading it back gives the same number. */
  lemma {:induction false} ParseOfFormat(n: int64)
    ensures ParseInt64(FormatInt(n)) == Some(n)
  {
    var s := FormatInt(n);
    if n < 0 {
      NatValueOfText(-(n as int));
      assert s[1..] == NatText(-(n as int));
    } else {
      NatValueOfText(n);
    }
  }

  /**
   * Conversely, canonical text that parses to `n` is exactly what the
   * printer produces for `n`: the printed form is the unique canonical one.
   */
  lemma {:induction false} FormatOfParse(s: string, n: int64)
    requires Canonical(s) && ParseInt64(s) == Some(n)
    ensures FormatInt(n) == s
  {
    if |s| > 0 && s[0] == '-' {
      var digits := s[1..];
      TextOfNatValue(digits);
      NatValuePositive(digits);
      assert s == "-" + digits;
    } else {
      TextOfNatValue(s);
    }
  }

  /** The printed text of a number is never the JSON literal `null`. */
  lemma FormatIsNotNull(n: int)
    ensures FormatInt(n) != "null"
  {
  }
}
