/**
 * Decimal numerals over ASCII digits: Python's `int(s)` on a run of digits
 * and `str(n)` / f-string formatting of a non-negative integer.
 */
module Decimal {

  predicate IsDigit(c: char) {
    '0' <= c <= '9'
  }

  predicate IsDigits(s: string) {
    forall i :: 0 <= i < |s| ==> IsDigit(s[i])
  }

  /** A numeral as `str` prints it: no leading zero unless it is "0". */
  predicate IsCanonical(s: string) {
    |s| >= 1 && IsDigits(s) && (s[0] == '0' ==> |s| == 1)
  }

  function DigitValue(c: char): (d: nat)
    requires IsDigit(c)
    ensures d < 10
  {
    c as int - '0' as int
  }

  function DigitChar(d: nat): (c: char)
    requires d < 10
    ensures IsDigit(c) && DigitValue(c) == d
  {
    ('0' as int + d) as char
  }

  /** `int(s)` for a string of ASCII digits; leading zeros are ignored. */
  function Value(s: string): nat
    requires IsDigits(s)
  {
    if |s| == 0 then 0 else 10 * Value(s[..|s| - 1]) + DigitValue(s[|s| - 1])
  }

  /** `str(n)`: the canonical numeral of `n`, which `int` reads back as `n`. */
  function NatToString(n: nat): (s: string)
    ensures IsCanonical(s)
    ensures Value(s) == n
  {
    if n < 10 then [DigitChar(n)]
    else
      var s := NatToString(n / 10) + [DigitChar(n % 10)];
      assert s[..|s| - 1] == NatToString(n / 10);
      s
  }

  /** A numeral whose value is zero is made of zeros only. */
  lemma {:induction false} ValueZero(s: string)
    requires IsDigits(s) && Value(s) == 0
    ensures forall i :: 0 <= i < |s| ==> s[i] == '0'
  {
    if |s| > 0 {
      ValueZero(s[..|s| - 1]);
      forall i | 0 <= i < |s| ensures s[i] == '0' {
        if i < |s| - 1 {
          assert s[..|s| - 1][i] == s[i];
        }
      }
    }
  }

  /**
   * The other round trip: printing the value of a numeral gives the numeral
   * back exactly when it is canonical, so `int` then `str` rewrites "01" as "1".
   */
  lemma {:induction false} NatToStringOfValue(s: string)
    requires IsDigits(s) && |s| >= 1
    ensures NatToString(Value(s)) == s <==> IsCanonical(s)
  {
    if IsCanonical(s) {
      if |s| > 1 {
        var init := s[..|s| - 1];
        assert init[0] == s[0];
        assert IsCanonical(init);
        NatToStringOfValue(init);
        if Value(init) == 0 {
          ValueZero(init);
          assert false;
        }
        var n := Value(s);
        assert n / 10 == Value(init) && n % 10 == DigitValue(s[|s| - 1]);
        assert DigitChar(n % 10) == s[|s| - 1];
        assert s == init + [s[|s| - 1]];
      }
    }
  }

  /** `str` is injective, because `int` inverts it. */
  lemma NatToStringInjective(a: nat, b: nat)
    requires NatToString(a) == NatToString(b)
    ensures a == b
  {
  }

  /**
   * A name made of a fixed prefix, a layer number and a dot-separated rest
   * determines both the number and the rest: `p.3.x` and `p.31.y` differ.
   */
  lemma IndexedNameInjective(p: string, a: nat, s: string, b: nat, t: string)
    requires p + NatToString(a) + "." + s == p + NatToString(b) + "." + t
    ensures a == b && s == t
  {
    var na, nb := NatToString(a), NatToString(b);
    var x, y := p + na + "." + s, p + nb + "." + t;
    var m := if |na| <= |nb| then |na| else |nb|;
    assert x[|p| + m] == y[|p| + m];
    assert na == x[|p|..|p| + |na|] == y[|p|..|p| + |nb|] == nb;
    NatToStringInjective(a, b);
    assert s == x[|p| + |na| + 1..] == y[|p| + |nb| + 1..] == t;
  }
}
