/** Decimal rendering of integers, as Python's f-strings produce it in the
    file names (`sample_{i}.jpg`) and spreadsheet column names
    (`Sample_{id + 1}_...`). */
module Decimal {

  predicate IsDigit(c: char) { '0' <= c <= '9' }

  function DigitChar(d: nat): (c: char)
    requires d < 10
    ensures IsDigit(c)
  {
    ('0' as int + d) as char
  }

  /** The decimal digits of `n`, most significant first, with no leading zero. */
  function NatToString(n: nat): (s: string)
    ensures |s| >= 1
    ensures forall k :: 0 <= k < |s| ==> IsDigit(s[k])
    ensures n >= 10 ==> |s| >= 2
  {
    if n < 10 then [DigitChar(n)] else NatToString(n / 10) + [DigitChar(n % 10)]
  }

  /** `str(i)` for a Python int: a minus sign before the digits of a negative number. */
  function IntToString(i: int): (s: string)
    ensures |s| >= 1
    ensures forall k :: 0 <= k < |s| ==> IsNumeral(s[k])
    ensures IsDigit(s[0]) <==> i >= 0
  {
    if i < 0 then "-" + NatToString(-i) else NatToString(i)
  }

  /** Characters that may appear in `IntToString`'s output. */
  predicate IsNumeral(c: char) { c == '-' || IsDigit(c) }

  /** Different numbers have different decimal renderings. */
  lemma {:induction false} NatToStringInjective(m: nat, n: nat)
    requires NatToString(m) == NatToString(n)
    ensures m == n
  {
    var s := NatToString(m);
    if m < 10 && n < 10 {
      assert s[0] == DigitChar(m) == DigitChar(n);
    } else if m >= 10 && n >= 10 {
      var k := |s| - 1;
      assert s == NatToString(m / 10) + [DigitChar(m % 10)];
      assert s == NatToString(n / 10) + [DigitChar(n % 10)];
      assert DigitChar(m % 10) == s[k] == DigitChar(n % 10);
      assert NatToString(m / 10) == s[..k] == NatToString(n / 10);
      NatToStringInjective(m / 10, n / 10);
    }
  }

  lemma IntToStringInjective(i: int, j: int)
    requires IntToString(i) == IntToString(j)
    ensures i == j
  {
    if i < 0 && j < 0 {
      assert NatToString(-i) == IntToString(i)[1..] == IntToString(j)[1..] == NatToString(-j);
      NatToStringInjective(-i, -j);
    } else if i >= 0 && j >= 0 {
      NatToStringInjective(i, j);
    }
  }

  /** The character that follows a prefix `p + a` in `p + a + t`. */
  lemma CharAt(p: string, a: string, t: string)
    ensures |t| >= 1 ==> (p + a + t)[|p| + |a|] == t[0]
  {
  }

  /** A rendering followed by a text that starts with neither a digit nor a
      minus sign can be split back into the two: `p + str(i) + t` determines
      `i` and `t`. */
  lemma {:induction false} SplitAfterNumber(p: string, i: int, t: string, j: int, u: string)
    requires |t| >= 1 && !IsNumeral(t[0])
    requires |u| >= 1 && !IsNumeral(u[0])
    requires p + IntToString(i) + t == p + IntToString(j) + u
    ensures i == j && t == u
  {
    var a, b := IntToString(i), IntToString(j);
    var whole := p + a + t;
    assert whole == p + b + u;
    if |a| < |b| {
      CharAt(p, a, t);
      assert false;
    } else if |b| < |a| {
      CharAt(p, b, u);
      assert false;
    } else {
      assert a == whole[|p|..|p| + |a|] == b;
      assert t == whole[|p| + |a|..] == u;
      IntToStringInjective(i, j);
    }
  }
}
