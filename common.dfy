/** Shared vocabulary of the model: optional values, the Python exceptions the
    core raises, the handful of Python value semantics the core relies on
    (truthiness, `isinstance(x, int)`, `==`), Python's whitespace for
    `str.strip`, ASCII lower-casing and the decimal text of an integer. */
module Common {

  datatype Option<+T> = None | Some(value: T)

  /** The exceptions the modelled functions raise, with the source's messages. */
  datatype Error =
    | ValueError(message: string)
    | TypeError(message: string)
    | KeyError(key: string)
    | IndexError

  datatype Result<+T> = Ok(value: T) | Err(error: Error)

  /** A Python scalar as it can reach the core: None, bool, int, float or str. */
  datatype PyVal =
    | PNone
    | PBool(b: bool)
    | PInt(i: int)
    | PReal(r: real)
    | PStr(s: string)

  /** Python's truth value test. */
  predicate Truthy(v: PyVal)
  {
    match v
    case PNone => false
    case PBool(b) => b
    case PInt(i) => i != 0
    case PReal(r) => r != 0.0
    case PStr(s) => |s| > 0
  }

  /** `isinstance(v, int)`: `bool` is a subclass of `int` in Python. */
  predicate IsInt(v: PyVal)
  {
    v.PBool? || v.PInt?
  }

  function AsInt(v: PyVal): (n: int)
    requires IsInt(v)
    ensures v.PInt? ==> n == v.i
    ensures v.PBool? ==> n == (if v.b then 1 else 0)
  {
    match v
    case PBool(b) => if b then 1 else 0
    case PInt(i) => i
  }

  /** The numeric value of bools, ints and floats. */
  function Numeric(v: PyVal): Option<real>
  {
    match v
    case PBool(b) => Some(if b then 1.0 else 0.0)
    case PInt(i) => Some(i as real)
    case PReal(r) => Some(r)
    case _ => None
  }

  /** Python's `==` on scalars: numbers compare by value across bool, int and
      float; strings by content; None equals only None. */
  predicate PyEq(a: PyVal, b: PyVal)
  {
    if Numeric(a).Some? && Numeric(b).Some? then Numeric(a).value == Numeric(b).value
    else if a.PStr? && b.PStr? then a.s == b.s
    else a.PNone? && b.PNone?
  }

  lemma PyEqIsEquivalence(a: PyVal, b: PyVal, c: PyVal)
    ensures PyEq(a, a)
    ensures PyEq(a, b) ==> PyEq(b, a)
    ensures PyEq(a, b) && PyEq(b, c) ==> PyEq(a, c)
  {
  }

  /** Characters for which Python's `str.isspace()` holds; `str.strip()` with no
      argument removes exactly these. */
  predicate IsWhitespace(c: char)
  {
    var n := c as int;
    (0x09 <= n <= 0x0D) || (0x1C <= n <= 0x20) || n == 0x85 || n == 0xA0 || n == 0x1680
    || (0x2000 <= n <= 0x200A) || n == 0x2028 || n == 0x2029 || n == 0x202F || n == 0x205F
    || n == 0x3000
  }

  /** `str.lower()` restricted to ASCII letters. */
  function LowerChar(c: char): (r: char)
    ensures 'A' <= c <= 'Z' ==> 'a' <= r <= 'z' && r as int - c as int == 32
    ensures !('A' <= c <= 'Z') ==> r == c
  {
    if 'A' <= c <= 'Z' then (c as int + 32) as char else c
  }

  function Lower(s: string): (r: string)
    ensures |r| == |s|
    ensures forall i :: 0 <= i < |s| ==> r[i] == LowerChar(s[i])
  {
    seq(|s|, i requires 0 <= i < |s| => LowerChar(s[i]))
  }

  predicate IsDigit(c: char)
  {
    '0' <= c <= '9'
  }

  function DigitChar(d: nat): (c: char)
    requires d < 10
    ensures IsDigit(c) && DigitValue(c) == d
  {
    ('0' as int + d) as char
  }

  function DigitValue(c: char): (d: nat)
    requires IsDigit(c)
    ensures d < 10
  {
    c as int - '0' as int
  }

  /** `str(n)` for a non-negative int: its decimal digits, most significant first. */
  function NatToString(n: nat): (s: string)
    ensures |s| > 0
    ensures forall i :: 0 <= i < |s| ==> IsDigit(s[i])
    ensures s[|s| - 1] == DigitChar(n % 10)
  {
    if n < 10 then [DigitChar(n)] else NatToString(n / 10) + [DigitChar(n % 10)]
  }

  /** `str(n)` for any int: a minus sign before the digits of |n| when negative. */
  function IntToString(n: int): (s: string)
    ensures |s| > 0 && s[|s| - 1] == DigitChar(Abs(n) % 10)
    ensures forall i :: 0 <= i < |s| ==> IsDigit(s[i]) || (i == 0 && s[i] == '-')
  {
    if n < 0 then "-" + NatToString(-n) else NatToString(n)
  }

  function Abs(n: int): nat
  {
    if n < 0 then -n else n
  }

  /** Reads a string of decimal digits back as a number (the inverse of NatToString). */
  function ParseNat(s: string): nat
    requires forall i :: 0 <= i < |s| ==> IsDigit(s[i])
  {
    if |s| == 0 then 0 else ParseNat(s[..|s| - 1]) * 10 + DigitValue(s[|s| - 1])
  }

  function ParseInt(s: string): int
    requires |s| > 0
    requires forall i :: 0 <= i < |s| ==> IsDigit(s[i]) || (i == 0 && s[i] == '-')
  {
    if s[0] == '-' then -(ParseNat(s[1..]) as int) else ParseNat(s)
  }

  lemma {:induction false} ParseNatToString(n: nat)
    ensures ParseNat(NatToString(n)) == n
  {
    var s := NatToString(n);
    if n >= 10 {
      ParseNatToString(n / 10);
      assert s[..|s| - 1] == NatToString(n / 10);
    }
  }

  /** The decimal text of an int determines the int. */
  lemma ParseIntToString(n: int)
    ensures ParseInt(IntToString(n)) == n
  {
    if n < 0 {
      var s := IntToString(n);
      ParseNatToString(-n);
      assert s[1..] == NatToString(-n);
      assert s[0] == '-';
    } else {
      ParseNatToString(n);
      var s := NatToString(n);
      assert IsDigit(s[0]);
    }
  }

  lemma IntToStringInjective(m: int, n: int)
    requires IntToString(m) == IntToString(n)
    ensures m == n
  {
    ParseIntToString(m);
    ParseIntToString(n);
  }

  /** The last digit of `str(n)` has the parity of n. */
  lemma LastDigitParity(n: int)
    ensures DigitValue(IntToString(n)[|IntToString(n)| - 1]) % 2 == n % 2
  {
    var a: int := Abs(n);
    assert a == 10 * (a / 10) + a % 10;
    assert (a % 10) % 2 == a % 2;
    if n < 0 {
      assert n == -a;
      assert (-a) % 2 == a % 2;
    }
  }
}
