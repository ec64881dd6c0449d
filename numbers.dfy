/** Integer powers of reals and the facts about them that the engines need. */
module Numbers {

  /** `Math.pow(x, n)` for a natural exponent. */
  function Pow(x: real, n: nat): real
  {
    if n == 0 then 1.0 else x * Pow(x, n - 1)
  }

  function Max(a: real, b: real): (m: real)
    ensures m >= a && m >= b && (m == a || m == b)
  {
    if a >= b then a else b
  }

  function MaxInt(a: int, b: int): (m: int)
    ensures m >= a && m >= b && (m == a || m == b)
  {
    if a >= b then a else b
  }

  function MinInt(a: int, b: int): (m: int)
    ensures m <= a && m <= b && (m == a || m == b)
  {
    if a <= b then a else b
  }

  lemma {:induction false} PowPositive(x: real, n: nat)
    requires x > 0.0
    ensures Pow(x, n) > 0.0
  {
    if n > 0 {
      PowPositive(x, n - 1);
    }
  }

  lemma {:induction false} PowNonNegative(x: real, n: nat)
    requires x >= 0.0
    ensures Pow(x, n) >= 0.0
  {
    if n > 0 {
      PowNonNegative(x, n - 1);
    }
  }

  lemma {:induction false} PowNonZero(x: real, n: nat)
    requires x != 0.0
    ensures Pow(x, n) != 0.0
  {
    if n > 0 {
      PowNonZero(x, n - 1);
    }
  }

  /** For 0 < x < 1 every positive power stays below 1. */
  lemma {:induction false} PowBelowOne(x: real, n: nat)
    requires 0.0 < x < 1.0 && n >= 1
    ensures 0.0 < Pow(x, n) < 1.0
  {
    if n > 1 {
      PowBelowOne(x, n - 1);
      var p := Pow(x, n - 1);
      assert Pow(x, n) == x * p;
      MulStrict(x, p);
      assert p - x * p == (1.0 - x) * p;
      MulStrict(1.0 - x, p);
    }
  }

  /** (1 + i)^n is never 1 for a non-zero rate above -1 and n >= 1. */
  lemma PowNotOne(i: real, n: nat)
    requires i > -1.0 && i != 0.0 && n >= 1
    ensures Pow(1.0 + i, n) != 1.0
  {
    if i > 0.0 {
      PowStrictlyIncreasing(1.0 + i, 0, n);
    } else {
      PowBelowOne(1.0 + i, n);
    }
  }

  lemma {:induction false} PowOne(n: nat)
    ensures Pow(1.0, n) == 1.0
  {
    if n > 0 {
      PowOne(n - 1);
    }
  }

  lemma {:induction false} PowAdd(x: real, a: nat, b: nat)
    ensures Pow(x, a + b) == Pow(x, a) * Pow(x, b)
  {
    if a > 0 {
      PowAdd(x, a - 1, b);
      assert Pow(x, a + b) == x * Pow(x, a - 1 + b);
    }
  }

  /** For x > 1 the powers strictly grow: x^m < x^n when m < n. */
  lemma {:induction false} PowStrictlyIncreasing(x: real, m: nat, n: nat)
    requires x > 1.0 && m < n
    ensures Pow(x, m) < Pow(x, n)
  {
    var p := Pow(x, n - 1);
    PowPositive(x, n - 1);
    assert Pow(x, n) == x * p;
    MulStrict(x - 1.0, p);
    assert x * p - p == (x - 1.0) * p;
    if m < n - 1 {
      PowStrictlyIncreasing(x, m, n - 1);
    }
  }

  lemma MulStrict(a: real, b: real)
    requires a > 0.0 && b > 0.0
    ensures a * b > 0.0
  {
  }

  lemma MulMonotone(a: real, b: real, c: real)
    requires a >= 0.0 && b >= c
    ensures a * b >= a * c
  {
    assert a * b - a * c == a * (b - c);
    assert a * (b - c) >= 0.0;
  }

  /** Bernoulli's inequality: (1 + h)^n >= 1 + n*h for h >= -1. */
  lemma {:induction false} Bernoulli(h: real, n: nat)
    requires h >= -1.0
    ensures Pow(1.0 + h, n) >= 1.0 + (n as real) * h
  {
    if n > 0 {
      Bernoulli(h, n - 1);
      var p := Pow(1.0 + h, n - 1);
      assert p >= 1.0 + ((n - 1) as real) * h;
      MulMonotone(1.0 + h, p, 1.0 + ((n - 1) as real) * h);
      assert (1.0 + h) * (1.0 + ((n - 1) as real) * h)
          == 1.0 + (n as real) * h + ((n - 1) as real) * h * h;
      assert ((n - 1) as real) * h * h >= 0.0;
    }
  }
}
