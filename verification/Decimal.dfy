/** The two decimal printers: `itod` (tcp_server.go) and `uint2decimalStr` (socket.go). They fill a
    fixed buffer from its end with different loops and must agree on every 64-bit value. */
module Decimal {
  import opened Wrappers

  /** Go's uint on a 64-bit platform. */
  type Uint = x: int | 0 <= x < TWO_64

  /** The code of '0'. */
  const ZERO: nat := 48

  // ---------------------------------------------------------------- specification

  /** The decimal digits of a positive number, most significant first; none for zero. */
  function Digits(n: nat): (s: seq<nat>)
    ensures forall i :: 0 <= i < |s| ==> ZERO <= s[i] <= ZERO + 9
    ensures n > 0 ==> s != [] && s[0] != ZERO
  {
    if n == 0 then [] else Digits(n / 10) + [ZERO + n % 10]
  }

  function Decimal(n: nat): seq<nat> { if n == 0 then [ZERO] else Digits(n) }

  predicate IsDecimal(s: seq<nat>) {
    s != [] && forall i :: 0 <= i < |s| ==> ZERO <= s[i] <= ZERO + 9
  }

  /** The value of a digit string. */
  function Value(s: seq<nat>): int {
    if s == [] then 0 else 10 * Value(s[..|s| - 1]) + (s[|s| - 1] - ZERO)
  }

  function Pow10(k: nat): nat { if k == 0 then 1 else 10 * Pow10(k - 1) }

  lemma {:induction false} ValueOfDigits(n: nat)
    ensures Value(Digits(n)) == n
  {
    if n > 0 {
      ValueOfDigits(n / 10);
      var s := Digits(n);
      assert s[..|s| - 1] == Digits(n / 10);
    }
  }

  /** Reading a printed number back gives the number; there is no leading zero. */
  lemma {:induction false} DecimalRoundTrip(n: nat)
    ensures IsDecimal(Decimal(n)) && Value(Decimal(n)) == n
    ensures Decimal(n)[0] == ZERO ==> n == 0 && |Decimal(n)| == 1
  {
    ValueOfDigits(n);
    assert [ZERO][..0] == [];
  }

  /** The printed form is the only one: a digit string without leading zero is the decimal of its value. */
  lemma {:induction false} DecimalIsCanonical(s: seq<nat>)
    requires IsDecimal(s) && (s[0] == ZERO ==> |s| == 1)
    ensures Value(s) >= 0 && Decimal(Value(s)) == s
  {
    var init, last := s[..|s| - 1], s[|s| - 1];
    assert s == init + [last];
    if init == [] {
      assert Value(init) == 0;
      if Value(s) > 0 { assert Digits(Value(s) / 10) == []; }
    } else {
      DecimalIsCanonical(init);
      assert Value(s) / 10 == Value(init) && Value(s) % 10 == last - ZERO;
    }
  }

  lemma {:induction false} DigitsLength(n: nat, k: nat)
    requires n < Pow10(k)
    ensures |Digits(n)| <= k
  {
    if n > 0 {
      assert k > 0;
      DigitsLength(n / 10, k - 1);
    }
  }

  /** Twenty bytes hold any 64-bit value. */
  lemma {:induction false} TwentyDigitsSuffice(n: nat)
    requires n < TWO_64
    ensures |Digits(n)| <= 20
  {
    assert Pow10(4) == 10_000;
    assert Pow10(8) == 1_0000_0000;
    assert Pow10(12) == 1_0000_0000_0000;
    assert Pow10(16) == 1_0000_0000_0000_0000;
    assert Pow10(20) == 1_0000_0000_0000_0000_0000;
    DigitsLength(n, 20);
  }

  // ---------------------------------------------------------------- the printers

  /** `'0' + val - q*10` in wrapping 64-bit arithmetic, then truncated to a byte. */
  function WrappedDigit(val: Uint): (d: nat)
    ensures d == ZERO + val % 10
  {
    var q := val / 10;
    var sum := (ZERO + val) % TWO_64;
    var diff := (sum - q * 10) % TWO_64;
    assert val == q * 10 + val % 10;
    assert diff == ZERO + val % 10 by {
      if ZERO + val >= TWO_64 {
        assert sum == ZERO + val - TWO_64;
        assert sum - q * 10 == ZERO + val % 10 - TWO_64;
      }
    }
    diff % 256
  }

  method Itod(val: Uint) returns (s: seq<nat>)
    ensures s == Decimal(val)
  {
    if val == 0 {
      return [ZERO];
    }
    var b := new nat[32](_ => 0);
    var bp, i := b.Length, val;
    TwentyDigitsSuffice(val);
    while i > 0
      invariant 0 <= i <= val && 0 <= bp <= 32
      invariant |Digits(i)| + (32 - bp) == |Digits(val)|
      invariant Digits(i) + b[bp..] == Digits(val)
    {
      bp := bp - 1;
      b[bp] := ZERO + i % 10;
      assert Digits(i) + b[bp + 1..] == Digits(i / 10) + b[bp..];
      i := i / 10;
    }
    s := b[bp..];
  }

  method Uint2DecimalStr(val: Uint) returns (s: seq<nat>)
    ensures s == Decimal(val)
  {
    if val == 0 {
      return [ZERO];
    }
    var buf := new nat[20](_ => 0);
    var i, v := buf.Length - 1, val;
    TwentyDigitsSuffice(val);
    while v >= 10
      invariant 0 < v <= val && 0 <= i < 20
      invariant |Digits(v)| + (19 - i) == |Digits(val)|
      invariant Digits(v) + buf[i + 1..] == Digits(val)
    {
      var q := v / 10;
      buf[i] := WrappedDigit(v);
      assert |Digits(q)| > 0;
      assert Digits(v) + buf[i + 1..] == Digits(q) + buf[i..];
      i := i - 1;
      v := q;
    }
    buf[i] := WrappedDigit(v);
    assert Digits(v / 10) == [];
    assert Digits(v) + buf[i + 1..] == buf[i..];
    s := buf[i..];
  }

  /** The two printers return the same string for every value. */
  method PrintersAgree(val: Uint) returns (a: seq<nat>, b: seq<nat>)
    ensures a == b && Value(a) == val && |a| <= 20
    ensures a != [] && (a[0] == ZERO ==> val == 0)
  {
    a := Itod(val);
    b := Uint2DecimalStr(val);
    DecimalRoundTrip(val);
    TwentyDigitsSuffice(val);
  }
}
