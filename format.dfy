/** Rendering of numbers as the generator prints them: `String(n)` of an integral
    number and `toFixed(2)` of a money amount held in integer cents, each with a
    parser that reads the text back. */
module Format {
  import opened BudgetTypes

  predicate IsDigit(c: char)
  {
    '0' <= c <= '9'
  }

  predicate AllDigits(s: string)
  {
    forall i :: 0 <= i < |s| ==> IsDigit(s[i])
  }

  function DigitChar(d: nat): (c: char)
    requires d < 10
    ensures IsDigit(c) && DigitValue(c) == d
  {
    ('0' as int + d) as char
  }

  function DigitValue(c: char): (d: nat)
    requires IsDigit(c)
    ensures d < 10
  {
    c as int - '0' as int
  }

  /** Decimal digits of `n`, most significant first, without leading zeros. */
  function NatToString(n: nat): (s: string)
    ensures |s| >= 1 && AllDigits(s)
    ensures s[0] == '0' ==> n == 0
    decreases n
  {
    if n < 10 then [DigitChar(n)] else NatToString(n / 10) + [DigitChar(n % 10)]
  }

  /** The value of a string of decimal digits, most significant first. */
  function DigitsValue(s: string): nat
    requires AllDigits(s)
  {
    if |s| == 0 then 0 else DigitsValue(s[..|s| - 1]) * 10 + DigitValue(s[|s| - 1])
  }

  function ParseNat(s: string): Option<nat>
  {
    if |s| > 0 && AllDigits(s) then Some(DigitsValue(s)) else None
  }

  lemma {:induction false} NatToStringValue(n: nat)
    ensures DigitsValue(NatToString(n)) == n
    decreases n
  {
    if n >= 10 {
      var s := NatToString(n / 10);
      var t := s + [DigitChar(n % 10)];
      assert t[..|t| - 1] == s;
      NatToStringValue(n / 10);
    }
  }

  lemma NatRoundTrip(n: nat)
    ensures ParseNat(NatToString(n)) == Some(n)
  {
    NatToStringValue(n);
  }

  /** `String(i)` of an integral number: a minus sign before the digits of a negative value. */
  function IntToString(i: int): (s: string)
    ensures |s| >= 1 && (s[0] == '-' <==> i < 0)
    ensures AllDigits(if i < 0 then s[1..] else s)
  {
    if i < 0 then
      var d := NatToString(-i);
      assert ("-" + d)[1..] == d;
      "-" + d
    else NatToString(i)
  }

  function ParseInt(s: string): Option<int>
  {
    if |s| > 0 && s[0] == '-' then
      match ParseNat(s[1..])
      case Some(v) => if v > 0 then Some(-(v as int)) else None
      case None => None
    else
      match ParseNat(s)
      case Some(v) => Some(v)
      case None => None
  }

  lemma IntRoundTrip(i: int)
    ensures ParseInt(IntToString(i)) == Some(i)
  {
    if i < 0 {
      var d := NatToString(-i);
      assert IntToString(i) == "-" + d;
      assert ("-" + d)[0] == '-' && ("-" + d)[1..] == d;
      NatRoundTrip(-i);
      assert ParseNat(d) == Some(-i);
    } else {
      NatRoundTrip(i);
      assert IntToString(i) == NatToString(i);
    }
  }

  function Abs(c: int): nat
  {
    if c < 0 then -c else c
  }

  /** `(c / 100).toFixed(2)`: an optional minus sign, the whole part, a point and exactly two digits. */
  function Fixed2(c: int): (s: string)
    ensures |s| >= 4 && s[|s| - 3] == '.' && IsDigit(s[|s| - 2]) && IsDigit(s[|s| - 1])
    ensures s[0] == '-' <==> c < 0
    ensures var start := if c < 0 then 1 else 0; start < |s| - 3 && AllDigits(s[start..|s| - 3])
  {
    var a := Abs(c);
    var sign, whole := if c < 0 then "-" else "", NatToString(a / 100);
    var s := sign + whole + "." + [DigitChar(a % 100 / 10), DigitChar(a % 100 % 10)];
    assert s[|sign|..|s| - 3] == whole;
    assert s[0] == if c < 0 then '-' else whole[0];
    s
  }

  /** Reads back a whole part, a point and two digits, as cents. */
  function ParseUnsignedFixed2(body: string): Option<nat>
  {
    if |body| < 4 || body[|body| - 3] != '.' || !IsDigit(body[|body| - 2]) || !IsDigit(body[|body| - 1]) then None
    else
      match ParseNat(body[..|body| - 3])
      case None => None
      case Some(whole) => Some(whole * 100 + DigitValue(body[|body| - 2]) * 10 + DigitValue(body[|body| - 1]))
  }

  /** Reads back a string of the shape `Fixed2` produces, as cents. */
  function ParseFixed2(s: string): Option<int>
  {
    if |s| > 0 && s[0] == '-' then
      match ParseUnsignedFixed2(s[1..])
      case None => None
      case Some(v) => Some(-(v as int))
    else
      match ParseUnsignedFixed2(s)
      case None => None
      case Some(v) => Some(v)
  }

  lemma ParseUnsignedFixed2Parts(q: nat, x: nat, y: nat)
    requires x < 10 && y < 10
    ensures ParseUnsignedFixed2(NatToString(q) + "." + [DigitChar(x), DigitChar(y)]) == Some(q * 100 + x * 10 + y)
  {
    var w := NatToString(q);
    var body := w + "." + [DigitChar(x), DigitChar(y)];
    assert body[..|body| - 3] == w;
    assert body[|body| - 3] == '.' && body[|body| - 2] == DigitChar(x) && body[|body| - 1] == DigitChar(y);
    NatRoundTrip(q);
  }

  lemma CentsDigits(a: nat)
    ensures a == a / 100 * 100 + a % 100 / 10 * 10 + a % 100 % 10
  {
    var q, r := a / 100, a % 100;
    assert a == q * 100 + r;
    assert r == r / 10 * 10 + r % 10;
  }

  lemma UnsignedFixed2RoundTrip(a: nat)
    ensures ParseUnsignedFixed2(NatToString(a / 100) + "." + [DigitChar(a % 100 / 10), DigitChar(a % 100 % 10)]) == Some(a)
  {
    var r := a % 100;
    var x, y := r / 10, r % 10;
    assert x < 10 && y < 10;
    CentsDigits(a);
    ParseUnsignedFixed2Parts(a / 100, x, y);
  }

  lemma Fixed2RoundTrip(c: int)
    ensures ParseFixed2(Fixed2(c)) == Some(c)
  {
    var a := Abs(c);
    var w := NatToString(a / 100);
    var body := w + "." + [DigitChar(a % 100 / 10), DigitChar(a % 100 % 10)];
    var s := Fixed2(c);
    UnsignedFixed2RoundTrip(a);
    if c < 0 {
      assert s == "-" + body;
      assert s[0] == '-' && s[1..] == body;
    } else {
      assert s == body;
      assert s[0] == w[0];
    }
  }

  /** A money amount as printed: `$` followed by `toFixed(2)`. */
  function Money(c: int): (s: string)
    ensures |s| >= 5 && s[0] == '$' && s[|s| - 3] == '.'
  {
    "$" + Fixed2(c)
  }

  function ParseMoney(s: string): Option<int>
  {
    if |s| > 0 && s[0] == '$' then ParseFixed2(s[1..]) else None
  }

  lemma MoneyRoundTrip(c: int)
    ensures ParseMoney(Money(c)) == Some(c)
  {
    assert Money(c)[1..] == Fixed2(c);
    Fixed2RoundTrip(c);
  }
}
