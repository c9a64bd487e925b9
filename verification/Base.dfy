/** Integer widths, result types and finite sums shared by every component. */
module Base {

  const I64_MAX: int := 0x7FFF_FFFF_FFFF_FFFF
  const I64_MIN: int := -0x8000_0000_0000_0000
  const U64_MAX: int := 0xFFFF_FFFF_FFFF_FFFF
  const I128_MAX: int := 0x7FFF_FFFF_FFFF_FFFF_FFFF_FFFF_FFFF_FFFF
  const I128_MIN: int := -0x8000_0000_0000_0000_0000_0000_0000_0000

  predicate FitsI64(x: int) { I64_MIN <= x <= I64_MAX }

  predicate FitsI128(x: int) { I128_MIN <= x <= I128_MAX }

  datatype Option<+T> = None | Some(value: T) {
    function GetOr(default: T): T { if Some? then value else default }
  }

  datatype Result<+T, +E> = Ok(value: T) | Err(error: E)

  function Min(a: int, b: int): int { if a <= b then a else b }

  function Max(a: int, b: int): int { if a >= b then a else b }

  function Pow10(n: nat): (p: nat)
    ensures p >= 1
  {
    if n == 0 then 1 else 10 * Pow10(n - 1)
  }

  lemma {:induction false} Pow10Adds(m: nat, n: nat)
    ensures Pow10(m + n) == Pow10(m) * Pow10(n)
  {
    if m > 0 {
      Pow10Adds(m - 1, n);
      calc {
        Pow10(m + n);
        10 * Pow10(m - 1 + n);
        10 * (Pow10(m - 1) * Pow10(n));
        (10 * Pow10(m - 1)) * Pow10(n);
      }
    }
  }

  lemma {:induction false} Pow10Grows(m: nat, n: nat)
    requires m <= n
    ensures Pow10(m) <= Pow10(n)
  {
    if m < n { Pow10Grows(m, n - 1); }
  }

  lemma PowersUpTo18()
    ensures Pow10(18) == 1000000000000000000
  {
    assert Pow10(3) == 1000;
    Pow10Adds(3, 3);
    Pow10Adds(6, 6);
    Pow10Adds(12, 6);
  }

  lemma ScaledLess(a: int, b: int, p: int)
    requires 0 <= a <= b && 0 <= p
    ensures 0 <= a * p <= b * p
  {
    assert (b - a) * p >= 0 && a * p >= 0;
  }

  lemma AtMostScaled(a: int, p: int)
    requires 0 <= a && 1 <= p
    ensures a <= a * p
  {
    assert a * (p - 1) >= 0;
  }

  lemma ScaleOrder(a: int, b: int, n: int)
    requires n > 0
    ensures a < b <==> a * n < b * n
  {
    if a < b { assert (b - a) * n > 0; } else { assert (a - b) * n >= 0; }
  }

  lemma Regroup(a: int, f: int, g: int)
    ensures a * f * g == a * (f * g)
  {
  }

  /** f(1) + ... + f(n); order ids start at 1. */
  ghost function Sum(n: nat, f: nat -> int): int {
    if n == 0 then 0 else Sum(n - 1, f) + f(n)
  }

  /** Two sums whose terms agree except at k differ by the change of term k. */
  lemma {:induction false} SumChange(n: nat, f: nat -> int, g: nat -> int, k: nat)
    requires forall i: nat :: 1 <= i <= n && i != k ==> f(i) == g(i)
    ensures Sum(n, g) == Sum(n, f) + (if 1 <= k <= n then g(k) - f(k) else 0)
  {
    if n > 0 { SumChange(n - 1, f, g, k); }
  }

  lemma {:induction false} SumSame(n: nat, f: nat -> int, g: nat -> int)
    requires forall i: nat :: 1 <= i <= n ==> f(i) == g(i)
    ensures Sum(n, g) == Sum(n, f)
  {
    SumChange(n, f, g, 0);
  }

  lemma {:induction false} SumNonNegative(n: nat, f: nat -> int, k: nat)
    requires forall i: nat :: 1 <= i <= n ==> f(i) >= 0
    ensures Sum(n, f) >= 0
    ensures 1 <= k <= n ==> Sum(n, f) >= f(k)
  {
    if n > 0 {
      SumNonNegative(n - 1, f, k);
    }
  }

  /** The sum of f over a finite set. */
  ghost function SetSum<T>(s: set<T>, f: T -> int): int {
    if s == {} then 0 else var x :| x in s; f(x) + SetSum(s - {x}, f)
  }

  /** Any element may be taken out first. */
  lemma {:induction false} SetSumTake<T>(s: set<T>, f: T -> int, x: T)
    requires x in s
    ensures SetSum(s, f) == f(x) + SetSum(s - {x}, f)
    decreases s
  {
    var y :| y in s && SetSum(s, f) == f(y) + SetSum(s - {y}, f);
    if y != x {
      SetSumTake(s - {y}, f, x);
      SetSumTake(s - {x}, f, y);
      assert s - {y} - {x} == s - {x} - {y};
    }
  }

  lemma {:induction false} SetSumSame<T>(s: set<T>, f: T -> int, g: T -> int)
    requires forall x :: x in s ==> f(x) == g(x)
    ensures SetSum(s, f) == SetSum(s, g)
    decreases s
  {
    if s != {} {
      var x :| x in s;
      SetSumTake(s, f, x);
      SetSumTake(s, g, x);
      SetSumSame(s - {x}, f, g);
    }
  }
}
