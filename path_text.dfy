/**
 * The two pieces of Python text handling the scripts rely on: `str()` of an
 * integer, and `os.path.join` on POSIX paths whose later parts are relative.
 */
module PathText {

  predicate IsDigit(c: char) { '0' <= c <= '9' }

  function DigitChar(d: nat): (c: char)
    requires d < 10
    ensures IsDigit(c) && DigitValue(c) == d
  {
    ('0' as int + d) as char
  }

  function DigitValue(c: char): nat
    requires IsDigit(c)
  {
    c as int - '0' as int
  }

  /** Decimal digits of `n` without leading zeros, as `str(n)` prints a non-negative int. */
  function NatToString(n: nat): (s: string)
    ensures |s| >= 1
    ensures forall k :: 0 <= k < |s| ==> IsDigit(s[k])
    ensures n >= 10 ==> |s| >= 2
  {
    if n < 10 then [DigitChar(n)] else NatToString(n / 10) + [DigitChar(n % 10)]
  }

  /** The value of a string of decimal digits. */
  function ParseNat(s: string): nat
    requires forall k :: 0 <= k < |s| ==> IsDigit(s[k])
  {
    if s == [] then 0 else ParseNat(s[..|s| - 1]) * 10 + DigitValue(s[|s| - 1])
  }

  /** `str(i)` for a Python int: a minus sign, then the digits of the magnitude. */
  function IntToString(i: int): (s: string)
    ensures |s| >= 1
    ensures forall k :: 0 <= k < |s| ==> s[k] == '-' || IsDigit(s[k])
    ensures '_' !in s && '/' !in s && ',' !in s
  {
    if i < 0 then "-" + NatToString(-i) else NatToString(i)
  }

  predicate IsNumeral(s: string)
  {
    if |s| > 0 && s[0] == '-' then forall k :: 1 <= k < |s| ==> IsDigit(s[k])
    else forall k :: 0 <= k < |s| ==> IsDigit(s[k])
  }

  /** The int a numeral written by `IntToString` denotes. */
  function ParseInt(s: string): int
    requires IsNumeral(s)
  {
    if |s| > 0 && s[0] == '-' then -(ParseNat(s[1..]) as int) else ParseNat(s)
  }

  lemma {:induction false} ParseNatToString(n: nat)
    ensures ParseNat(NatToString(n)) == n
  {
    if n >= 10 {
      ParseNatToString(n / 10);
      var s := NatToString(n);
      assert s[..|s| - 1] == NatToString(n / 10);
    }
  }

  /** Reading back what `str()` wrote gives the original int. */
  lemma IntToStringRoundTrip(i: int)
    ensures IsNumeral(IntToString(i)) && ParseInt(IntToString(i)) == i
  {
    var s := IntToString(i);
    if i < 0 {
      ParseNatToString(-i);
      assert s[1..] == NatToString(-i);
    } else {
      ParseNatToString(i);
      assert IsDigit(s[0]);
    }
  }

  /** Distinct ints print differently. */
  lemma IntToStringInjective(i: int, j: int)
    requires IntToString(i) == IntToString(j)
    ensures i == j
  {
    IntToStringRoundTrip(i);
    IntToStringRoundTrip(j);
  }

  /**
   * `os.path.join(a, b)` for a relative `b`: a separator is inserted unless
   * `a` is empty or already ends with one.
   */
  function Join(a: string, b: string): string
  {
    if a == [] || a[|a| - 1] == '/' then a + b else a + "/" + b
  }

  /** The joined path starts with the directory and ends with the name. */
  lemma JoinParts(a: string, b: string)
    ensures |Join(a, b)| >= |a| + |b|
    ensures Join(a, b)[..|a|] == a && Join(a, b)[|Join(a, b)| - |b|..] == b
  {
  }

  /** A join ends with the last character of a non-empty second component. */
  lemma JoinLast(a: string, b: string)
    requires b != []
    ensures |Join(a, b)| > 0 && Join(a, b)[|Join(a, b)| - 1] == b[|b| - 1]
  {
    JoinParts(a, b);
    var j := Join(a, b);
    assert j[|j| - 1] == j[|j| - |b|..][|b| - 1];
  }

  /** Joining onto the same directory never maps two names to one path. */
  lemma JoinInjective(a: string, x: string, y: string)
    requires Join(a, x) == Join(a, y)
    ensures x == y
  {
    JoinParts(a, x);
    JoinParts(a, y);
    var n := |Join(a, x)| - |x|;
    assert x == Join(a, x)[n..];
  }

  /** Splitting at the last separator: separator-free tails agree, and so do the heads. */
  lemma SplitAtLastSeparator(a: string, x: string, b: string, y: string, c: char)
    requires c !in x && c !in y
    requires a + [c] + x == b + [c] + y
    ensures a == b && x == y
  {
    var u := a + [c] + x;
    if |x| < |y| {
      LastSeparatorPosition(a, x, b, y, c);
      assert false;
    } else if |y| < |x| {
      LastSeparatorPosition(b, y, a, x, c);
      assert false;
    }
    assert a == u[..|a|] == b;
    assert x == u[|a| + 1..] == y;
  }

  /** A shorter separator-free tail puts the separator where the longer tail has none. */
  lemma LastSeparatorPosition(a: string, x: string, b: string, y: string, c: char)
    requires c !in y && |x| < |y|
    ensures a + [c] + x != b + [c] + y
  {
    var u, v := a + [c] + x, b + [c] + y;
    if |u| == |v| {
      assert u[|u| - |x| - 1] == c;
      assert v[|v| - |x| - 1] == y[|y| - |x| - 1];
    }
  }
}
