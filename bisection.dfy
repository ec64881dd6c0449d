/**
 * Bisection on a fixed bracket, as both rate searches of the application
 * run it: k halvings of [a, b] that stop early at a midpoint m with
 * |f(m)| < tol, keep [a, m] when f(a) * f(m) < 0 and [m, b] otherwise, and
 * answer the last midpoint.
 */
module Bisection {
  import opened Numbers

  function Abs(x: real): real { if x < 0.0 then -x else x }

  /** The test x * y < 0 of both searches, stated on the signs of x and y. */
  predicate Opposite(x: real, y: real) { (x < 0.0 && y > 0.0) || (x > 0.0 && y < 0.0) }

  /** The test x * y > 0, stated on the signs of x and y. */
  predicate SameSign(x: real, y: real) { (x < 0.0 && y < 0.0) || (x > 0.0 && y > 0.0) }

  /** The sign predicates are exactly the product tests the source writes. */
  lemma SignTests(x: real, y: real)
    ensures Opposite(x, y) <==> x * y < 0.0
    ensures SameSign(x, y) <==> x * y > 0.0
  {
    if x > 0.0 && y > 0.0 {
      MulStrict(x, y);
    } else if x < 0.0 && y < 0.0 {
      MulStrict(-x, -y);
      assert (-x) * (-y) == x * y;
    } else if x > 0.0 && y < 0.0 {
      MulStrict(x, -y);
      assert x * (-y) == -(x * y);
    } else if x < 0.0 && y > 0.0 {
      MulStrict(-x, y);
      assert (-x) * y == -(x * y);
    } else {
      assert x == 0.0 || y == 0.0;
    }
  }

  /**
   * Reference definition of the bisection loop with `k` halvings left on
   * [a, b]: stop at a midpoint whose objective is below the tolerance,
   * otherwise keep [a, m] when f(a) * f(m) < 0 and [m, b] otherwise, and
   * return the last midpoint.
   */
  function Bisect(f: real -> real, a: real, b: real, k: nat, tol: real): real
    decreases k
  {
    var m := (a + b) / 2.0;
    if k == 0 then m
    else if Abs(f(m)) < tol then m
    else if Opposite(f(a), f(m)) then Bisect(f, a, m, k - 1, tol)
    else Bisect(f, m, b, k - 1, tol)
  }

  /** Every bisection result lies in its starting bracket. */
  lemma {:induction false} BisectInRange(f: real -> real, a: real, b: real, k: nat, tol: real)
    requires a <= b
    ensures a <= Bisect(f, a, b, k, tol) <= b
    decreases k
  {
    var m := (a + b) / 2.0;
    if k > 0 && Abs(f(m)) >= tol {
      if Opposite(f(a), f(m)) {
        BisectInRange(f, a, m, k - 1, tol);
      } else {
        BisectInRange(f, m, b, k - 1, tol);
      }
    }
  }

  /** The bracket a bisection run ends with. */
  datatype Bracket = Bracket(lo: real, hi: real)

  /**
   * The bracket [a, b] that `Bisect` is holding when it returns: the same
   * descent as `Bisect`, step for step.
   */
  function FinalBracket(f: real -> real, a: real, b: real, k: nat, tol: real): (br: Bracket)
    requires a <= b
    ensures a <= br.lo <= br.hi <= b
    decreases k
  {
    var m := (a + b) / 2.0;
    if k == 0 then Bracket(a, b)
    else if Abs(f(m)) < tol then Bracket(a, b)
    else if Opposite(f(a), f(m)) then FinalBracket(f, a, m, k - 1, tol)
    else FinalBracket(f, m, b, k - 1, tol)
  }

  /** A bisection run returns the midpoint of its final bracket. */
  lemma {:induction false} BisectIsMidpoint(f: real -> real, a: real, b: real, k: nat, tol: real)
    requires a <= b
    ensures var br := FinalBracket(f, a, b, k, tol);
      Bisect(f, a, b, k, tol) == (br.lo + br.hi) / 2.0
    decreases k
  {
    var m := (a + b) / 2.0;
    if k > 0 && Abs(f(m)) >= tol {
      if Opposite(f(a), f(m)) {
        BisectIsMidpoint(f, a, m, k - 1, tol);
      } else {
        BisectIsMidpoint(f, m, b, k - 1, tol);
      }
    }
  }

  /** w halved k times. */
  function Halved(w: real, k: nat): real
  {
    if k == 0 then w else Halved(w, k - 1) / 2.0
  }

  /** Halving first and then k times is halving k + 1 times. */
  lemma {:induction false} HalvedShift(w: real, k: nat)
    ensures Halved(w / 2.0, k) == Halved(w, k + 1)
  {
    if k > 0 {
      HalvedShift(w, k - 1);
    }
  }

  /** Halving k times is dividing by 2^k. */
  lemma {:induction false} HalvedIsDivision(w: real, k: nat)
    ensures Halved(w, k) * Pow(2.0, k) == w
  {
    if k > 0 {
      HalvedIsDivision(w, k - 1);
      var h := Halved(w, k - 1);
      var q := Pow(2.0, k - 1);
      assert Pow(2.0, k) == 2.0 * q;
      assert (h / 2.0) * (2.0 * q) == h * q;
    }
  }

  /**
   * A run stops at a midpoint that meets the tolerance, or it has halved
   * its bracket k times.
   */
  lemma {:induction false} BracketWidth(f: real -> real, a: real, b: real, k: nat, tol: real)
    requires a <= b
    ensures var br := FinalBracket(f, a, b, k, tol);
      Abs(f((br.lo + br.hi) / 2.0)) < tol || br.hi - br.lo == Halved(b - a, k)
    decreases k
  {
    var m := (a + b) / 2.0;
    var br := FinalBracket(f, a, b, k, tol);
    if k > 0 && Abs(f(m)) >= tol {
      var left := Opposite(f(a), f(m));
      var lo', hi' := if left then a else m, if left then m else b;
      assert br == FinalBracket(f, lo', hi', k - 1, tol);
      BracketWidth(f, lo', hi', k - 1, tol);
      assert hi' - lo' == (b - a) / 2.0;
      HalvedShift(b - a, k - 1);
    }
  }

  /**
   * The sign change survives the descent: when f(a) != 0 and f(a), f(b)
   * are not of the same strict sign, neither are f at the ends of the
   * final bracket.
   */
  lemma {:induction false} BracketKeepsSignChange(f: real -> real, a: real, b: real, k: nat, tol: real)
    requires a <= b && tol > 0.0 && f(a) != 0.0 && !SameSign(f(a), f(b))
    ensures var br := FinalBracket(f, a, b, k, tol);
      !SameSign(f(br.lo), f(br.hi))
    decreases k
  {
    var m := (a + b) / 2.0;
    if k == 0 || Abs(f(m)) < tol {
      assert FinalBracket(f, a, b, k, tol) == Bracket(a, b);
    } else if Opposite(f(a), f(m)) {
      assert FinalBracket(f, a, b, k, tol) == FinalBracket(f, a, m, k - 1, tol);
      BracketKeepsSignChange(f, a, m, k - 1, tol);
    } else {
      assert FinalBracket(f, a, b, k, tol) == FinalBracket(f, m, b, k - 1, tol);
      BracketKeepsSignChange(f, m, b, k - 1, tol);
    }
  }

  /**
   * What a bisection run on [a, b] with f(a) != 0 and f(a) * f(b) <= 0
   * achieves: its result meets the tolerance, or it is the midpoint of a
   * bracket of width (b - a) halved k times (HalvedIsDivision: (b - a) / 2^k)
   * across which f changes sign.
   */
  lemma BisectBracketsARoot(f: real -> real, a: real, b: real, k: nat, tol: real)
    requires a <= b && tol > 0.0 && f(a) != 0.0 && f(a) * f(b) <= 0.0
    ensures var r := Bisect(f, a, b, k, tol);
      var br := FinalBracket(f, a, b, k, tol);
      a <= r <= b &&
      (Abs(f(r)) < tol ||
       (r == (br.lo + br.hi) / 2.0 &&
        br.hi - br.lo == Halved(b - a, k) &&
        f(br.lo) * f(br.hi) <= 0.0))
  {
    var br := FinalBracket(f, a, b, k, tol);
    SignTests(f(a), f(b));
    BisectInRange(f, a, b, k, tol);
    BisectIsMidpoint(f, a, b, k, tol);
    BracketWidth(f, a, b, k, tol);
    BracketKeepsSignChange(f, a, b, k, tol);
    SignTests(f(br.lo), f(br.hi));
  }
}
