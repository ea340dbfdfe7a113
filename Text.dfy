/**
 * The text forms the job worker produces: JavaScript's decimal rendering of
 * the numbers it interpolates into filter directives, and `Array.join`.
 * Each rendering comes with its inverse, so that the round trips can be proved.
 */
module Text {
  import opened Wrappers

  predicate IsDigit(c: char) {
    '0' <= c <= '9'
  }

  predicate AllDigits(s: string) {
    forall i :: 0 <= i < |s| ==> IsDigit(s[i])
  }

  function DigitChar(d: nat): (c: char)
    requires d < 10
    ensures IsDigit(c) && c as int - '0' as int == d
  {
    ('0' as int + d) as char
  }

  function DigitValue(c: char): nat
    requires IsDigit(c)
  {
    c as int - '0' as int
  }

  /** Decimal digits of `n`, most significant first, without leading zeros. */
  function NatToString(n: nat): (s: string)
    ensures |s| > 0 && AllDigits(s)
    ensures |s| > 1 ==> s[0] != '0'
    decreases n
  {
    if n < 10 then [DigitChar(n)] else NatToString(n / 10) + [DigitChar(n % 10)]
  }

  /** Value of a string of decimal digits. */
  function DigitsValue(s: string): nat
    requires AllDigits(s)
  {
    if s == [] then 0 else DigitsValue(s[..|s| - 1]) * 10 + DigitValue(s[|s| - 1])
  }

  /** `${i}` for an integer-valued JavaScript number below 10^21 in magnitude (beyond it JavaScript writes `1e+21`). */
  function IntToString(i: int): string {
    if i < 0 then "-" + NatToString(-i) else NatToString(i)
  }

  /**
   * `${x}` for x = t / 10: JavaScript prints no fractional part when x is whole
   * (`2`, not `2.0`) and otherwise one digit after the point (`1.5`, `-0.5`),
   * as long as x is below 10^21 in magnitude (beyond it JavaScript writes `1e+21`).
   */
  function TenthsToString(t: int): string {
    if t < 0 then "-" + UnsignedTenthsToString(-t) else UnsignedTenthsToString(t)
  }

  function UnsignedTenthsToString(u: nat): string {
    NatToString(u / 10) + (if u % 10 == 0 then "" else "." + [DigitChar(u % 10)])
  }

  function ParseNat(s: string): (r: Option<nat>)
    ensures r.Some? <==> |s| > 0 && AllDigits(s)
  {
    if |s| > 0 && AllDigits(s) then Some(DigitsValue(s)) else None
  }

  function ParseInt(s: string): Option<int> {
    if |s| > 0 && s[0] == '-' then
      match ParseNat(s[1..])
      case Some(n) => Some(-(n as int))
      case None => None
    else
      match ParseNat(s)
      case Some(n) => Some(n as int)
      case None => None
  }

  /** Reads a decimal with at most one fractional digit, in tenths. */
  function ParseTenths(s: string): Option<int> {
    if |s| > 0 && s[0] == '-' then
      match ParseUnsignedTenths(s[1..])
      case Some(n) => Some(-(n as int))
      case None => None
    else
      match ParseUnsignedTenths(s)
      case Some(n) => Some(n as int)
      case None => None
  }

  function ParseUnsignedTenths(s: string): Option<nat> {
    if |s| >= 2 && s[|s| - 2] == '.' && IsDigit(s[|s| - 1]) then
      match ParseNat(s[..|s| - 2])
      case Some(n) => Some(n * 10 + DigitValue(s[|s| - 1]))
      case None => None
    else
      match ParseNat(s)
      case Some(n) => Some(n * 10)
      case None => None
  }

  lemma {:induction false} DigitsValueOfNatToString(n: nat)
    ensures DigitsValue(NatToString(n)) == n
    decreases n
  {
    if n >= 10 {
      var prefix := NatToString(n / 10);
      var s := prefix + [DigitChar(n % 10)];
      assert s[..|s| - 1] == prefix;
      DigitsValueOfNatToString(n / 10);
    }
  }

  lemma NatRoundTrip(n: nat)
    ensures ParseNat(NatToString(n)) == Some(n)
  {
    DigitsValueOfNatToString(n);
  }

  lemma IntRoundTrip(i: int)
    ensures ParseInt(IntToString(i)) == Some(i)
  {
    if i < 0 {
      var s := IntToString(i);
      assert s[1..] == NatToString(-i);
      NatRoundTrip(-i);
    } else {
      NatRoundTrip(i);
    }
  }

  lemma UnsignedTenthsRoundTrip(u: nat)
    ensures ParseUnsignedTenths(UnsignedTenthsToString(u)) == Some(u)
    ensures |UnsignedTenthsToString(u)| > 0 && IsDigit(UnsignedTenthsToString(u)[0])
  {
    var whole := NatToString(u / 10);
    var s := UnsignedTenthsToString(u);
    NatRoundTrip(u / 10);
    if u % 10 == 0 {
      assert s == whole;
      assert |s| >= 2 ==> IsDigit(s[|s| - 2]);
    } else {
      assert s == whole + ['.', DigitChar(u % 10)];
      assert s[..|s| - 2] == whole;
    }
  }

  lemma TenthsRoundTrip(t: int)
    ensures ParseTenths(TenthsToString(t)) == Some(t)
  {
    UnsignedTenthsRoundTrip(if t < 0 then -t else t);
    if t < 0 {
      var s := TenthsToString(t);
      assert s[1..] == UnsignedTenthsToString(-t);
    }
  }

  /** No rendered number contains `sep` unless `sep` is a digit, a point or a minus sign. */
  lemma NumbersAvoid(sep: char, i: int, t: int)
    requires !IsDigit(sep) && sep != '.' && sep != '-'
    ensures sep !in IntToString(i) && sep !in TenthsToString(t)
  {
    var u := if t < 0 then -t else t;
    var digits := NatToString(u / 10);
    assert sep !in digits;
    if u % 10 != 0 {
      assert UnsignedTenthsToString(u) == digits + ['.', DigitChar(u % 10)];
    }
    assert sep !in NatToString(if i < 0 then -i else i);
  }

  /** `xs.join(sep)`. */
  function Join(xs: seq<string>, sep: char): string {
    if |xs| == 0 then ""
    else if |xs| == 1 then xs[0]
    else xs[0] + [sep] + Join(xs[1..], sep)
  }

  lemma JoinCons(x: string, xs: seq<string>, sep: char)
    requires |xs| > 0
    ensures Join([x] + xs, sep) == x + [sep] + Join(xs, sep)
  {
    assert ([x] + xs)[1..] == xs;
  }

  lemma JoinFour(xs: seq<string>, sep: char)
    requires |xs| == 4
    ensures Join(xs, sep) == xs[0] + [sep] + xs[1] + [sep] + xs[2] + [sep] + xs[3]
  {
    assert xs == [xs[0]] + xs[1..];
    assert xs[1..] == [xs[1]] + xs[2..];
    assert xs[2..] == [xs[2]] + xs[3..];
    assert xs[3..] == [xs[3]];
    JoinCons(xs[0], xs[1..], sep);
    JoinCons(xs[1], xs[2..], sep);
    JoinCons(xs[2], xs[3..], sep);
  }

  /** Index of the first `c` in `s`, or `|s|` when there is none. */
  function IndexOf(s: string, c: char): (i: nat)
    ensures i <= |s|
    ensures i < |s| ==> s[i] == c
    ensures forall j :: 0 <= j < i ==> s[j] != c
  {
    if |s| == 0 then 0 else if s[0] == c then 0 else 1 + IndexOf(s[1..], c)
  }

  /** `s.split(sep)`: the pieces between occurrences of `sep`. */
  function Split(s: string, sep: char): (parts: seq<string>)
    ensures |parts| > 0
    decreases |s|
  {
    var i := IndexOf(s, sep);
    if i == |s| then [s] else [s[..i]] + Split(s[i + 1..], sep)
  }

  lemma IndexOfAfterFree(a: string, c: char, b: string)
    requires c !in a
    ensures IndexOf(a + [c] + b, c) == |a|
  {
    var s := a + [c] + b;
    assert s[|a|] == c;
    forall j | 0 <= j < |a| ensures s[j] != c {
      assert s[j] == a[j];
    }
  }

  /** Splitting a joined list recovers it, as long as no piece contains the separator. */
  lemma {:induction false} SplitJoin(xs: seq<string>, sep: char)
    requires |xs| > 0
    requires forall k :: 0 <= k < |xs| ==> sep !in xs[k]
    ensures Split(Join(xs, sep), sep) == xs
    decreases |xs|
  {
    if |xs| == 1 {
      assert IndexOf(xs[0], sep) == |xs[0]|;
    } else {
      var rest := Join(xs[1..], sep);
      var s := xs[0] + [sep] + rest;
      IndexOfAfterFree(xs[0], sep, rest);
      assert s[..|xs[0]|] == xs[0];
      assert s[|xs[0]| + 1..] == rest;
      SplitJoin(xs[1..], sep);
      assert xs == [xs[0]] + xs[1..];
    }
  }
}
