/**
 * The current amortization engine: the French annuity payment, the
 * discounted sum behind VAN (net present value) and TIR (internal rate of
 * return), the bisection search for TIR, and the three-phase payment
 * schedule (total grace, partial grace, amortizing).
 *
 * Rates are monthly and given as fractions (0.01 is 1%). Arithmetic is exact.
 */
module Finance {
  import opened Numbers
  import opened Bisection

  /** One period of a payment schedule. */
  datatype ScheduleRow = ScheduleRow(
    period: int,
    balance: real,           // outstanding balance after this period
    interest: real,          // interest accrued this period
    amort: real,             // principal repaid this period
    basePayment: real,       // the installment before insurance and fees
    desgravamen: real,       // life insurance on the balance
    propertyInsurance: real, // property insurance, monthly share of an annual rate
    monthlyFees: real,       // fixed monthly fees
    totalPayment: real,
    cashflow: real,          // the borrower's signed flow: minus the total payment
    isGrace: bool)

  // ---------------------------------------------------------------------------
  // Rate conversion (only the integer-power step)
  // ---------------------------------------------------------------------------

  /** Effective annual rate of a nominal annual rate capitalized `cap` times a year. */
  function TeaFromTna(annualRate: real, cap: int): real
    requires cap >= 1
  {
    Pow(1.0 + annualRate / (cap as real), cap) - 1.0
  }

  /** Capitalizing once a year leaves the rate unchanged. */
  lemma TeaFromTnaYearly(annualRate: real)
    ensures TeaFromTna(annualRate, 1) == annualRate
  {
    assert Pow(1.0 + annualRate, 1) == (1.0 + annualRate) * Pow(1.0 + annualRate, 0);
  }

  /** Capitalizing more often never yields less: the effective rate is at least the nominal one. */
  lemma TeaAtLeastTna(annualRate: real, cap: int)
    requires cap >= 1 && annualRate >= -(cap as real)
    ensures TeaFromTna(annualRate, cap) >= annualRate
  {
    var h := annualRate / (cap as real);
    Bernoulli(h, cap);
    assert (cap as real) * h == annualRate;
  }

  // ---------------------------------------------------------------------------
  // Payment and discounting
  // ---------------------------------------------------------------------------

  /**
   * `calcCuota`: the French (constant) payment that repays `p` in `n`
   * periods at rate `i`. The power (1+i)^-n is written 1 / (1+i)^n, and
   * a rate above -1 keeps every division defined.
   */
  function CalcCuota(p: real, i: real, n: int): real
    requires i > -1.0
  {
    if n <= 0 then 0.0
    else if i == 0.0 then p / (n as real)
    else
      PowNotOne(i, n);
      PowPositive(1.0 + i, n);
      p * i / (1.0 - 1.0 / Pow(1.0 + i, n))
  }

  /** `n` copies of `x`. */
  function Constant(n: nat, x: real): (s: seq<real>)
    ensures |s| == n && forall k :: 0 <= k < n ==> s[k] == x
  {
    if n == 0 then [] else Constant(n - 1, x) + [x]
  }

  /**
   * The `reduce` of `calcVAN`: the left fold s + cfs[t] / (1+r)^(t+1) from 0,
   * so the flow at index t is discounted t+1 periods.
   */
  function DiscountedSum(cfs: seq<real>, r: real): real
    requires r != -1.0
  {
    if |cfs| == 0 then 0.0
    else
      PowNonZero(1.0 + r, |cfs|);
      DiscountedSum(cfs[..|cfs| - 1], r) + cfs[|cfs| - 1] / Pow(1.0 + r, |cfs|)
  }

  /** Plain sum of a sequence, left to right. */
  function Sum(s: seq<real>): real
  {
    if |s| == 0 then 0.0 else Sum(s[..|s| - 1]) + s[|s| - 1]
  }

  /** `calcVAN`: the principal received now plus the discounted flows. */
  function CalcVAN(principal: real, cfs: seq<real>, cokM: real): (v: real)
    requires cokM != -1.0
    ensures |cfs| == 0 ==> v == principal
  {
    principal + DiscountedSum(cfs, cokM)
  }

  /** At a zero discount rate VAN is the principal plus the undiscounted flows. */
  lemma {:induction false} VanAtZeroRate(principal: real, cfs: seq<real>)
    ensures CalcVAN(principal, cfs, 0.0) == principal + Sum(cfs)
  {
    DiscountedSumAtZero(cfs);
  }

  lemma {:induction false} DiscountedSumAtZero(cfs: seq<real>)
    ensures DiscountedSum(cfs, 0.0) == Sum(cfs)
  {
    if |cfs| > 0 {
      DiscountedSumAtZero(cfs[..|cfs| - 1]);
      PowOne(|cfs|);
    }
  }

  /** Sum over t = 1..n of 1 / (1+i)^t. */
  function DiscountFactorSum(i: real, n: nat): real
    requires i > -1.0
  {
    if n == 0 then 0.0
    else
      PowPositive(1.0 + i, n);
      DiscountFactorSum(i, n - 1) + 1.0 / Pow(1.0 + i, n)
  }

  /** The geometric series behind the annuity: i * sum_{t=1..n} (1+i)^-t == 1 - (1+i)^-n. */
  lemma {:induction false} DiscountFactorSumClosedForm(i: real, n: nat)
    requires i > -1.0
    ensures Pow(1.0 + i, n) > 0.0 && i * DiscountFactorSum(i, n) == 1.0 - 1.0 / Pow(1.0 + i, n)
  {
    PowPositive(1.0 + i, n);
    if n > 0 {
      DiscountFactorSumClosedForm(i, n - 1);
      var q := 1.0 + i;
      var prev := Pow(q, n - 1);
      PowPositive(q, n - 1);
      assert Pow(q, n) == q * prev;
      var g := DiscountFactorSum(i, n - 1);
      assert DiscountFactorSum(i, n) == g + 1.0 / Pow(q, n);
      ClosedFormStep(i, prev, Pow(q, n), g);
    }
  }

  /** One more period of the closed form, on plain reals. */
  lemma ClosedFormStep(i: real, prev: real, next: real, g: real)
    requires i > -1.0 && prev > 0.0 && next == (1.0 + i) * prev
    requires i * g == 1.0 - 1.0 / prev
    ensures i * (g + 1.0 / next) == 1.0 - 1.0 / next
  {
    var q := 1.0 + i;
    assert 1.0 / prev == q / next;
    calc {
      i * (g + 1.0 / next);
      i * g + i / next;
      1.0 - q / next + i / next;
      1.0 - (q - i) / next;
    }
  }

  /** Discounting n equal flows x gives x times the discount-factor sum. */
  lemma {:induction false} DiscountedConstant(n: nat, x: real, i: real)
    requires i > -1.0
    ensures DiscountedSum(Constant(n, x), i) == x * DiscountFactorSum(i, n)
  {
    if n > 0 {
      var g := DiscountFactorSum(i, n - 1);
      var prev := DiscountedSum(Constant(n - 1, x), i);
      DiscountedConstant(n - 1, x, i);
      assert prev == x * g;
      DiscountedConstantStep(n, x, i, g);
    }
  }

  lemma DiscountedConstantStep(n: nat, x: real, i: real, g: real)
    requires i > -1.0 && n > 0 && g == DiscountFactorSum(i, n - 1)
    requires DiscountedSum(Constant(n - 1, x), i) == x * g
    ensures DiscountedSum(Constant(n, x), i) == x * DiscountFactorSum(i, n)
  {
    var s := Constant(n, x);
    assert s[..n - 1] == Constant(n - 1, x);
    PowPositive(1.0 + i, n);
    var P := Pow(1.0 + i, n);
    assert DiscountFactorSum(i, n) == g + 1.0 / P;
    assert DiscountedSum(s, i) == x * g + x / P;
    ScaleSum(x, g, P);
  }

  /** x*g + x/P == x*(g + 1/P). */
  lemma ScaleSum(x: real, g: real, P: real)
    requires P != 0.0
    ensures x * g + x / P == x * (g + 1.0 / P)
  {
  }

  /**
   * What `calcCuota` promises: n >= 1 equal payments of CalcCuota(p, i, n),
   * discounted at i, are worth exactly p.
   */
  lemma CalcCuotaRepaysPrincipal(p: real, i: real, n: int)
    requires i > -1.0 && n >= 1
    ensures DiscountedSum(Constant(n, CalcCuota(p, i, n)), i) == p
  {
    if i == 0.0 {
      RepaysAtZeroRate(p, n);
    } else {
      RepaysAtNonZeroRate(p, i, n);
    }
  }

  lemma RepaysAtZeroRate(p: real, n: int)
    requires n >= 1
    ensures DiscountedSum(Constant(n, CalcCuota(p, 0.0, n)), 0.0) == p
  {
    var q := CalcCuota(p, 0.0, n);
    DiscountedConstant(n, q, 0.0);
    CuotaZeroRate(p, n);
  }

  lemma RepaysAtNonZeroRate(p: real, i: real, n: int)
    requires i > -1.0 && i != 0.0 && n >= 1
    ensures DiscountedSum(Constant(n, CalcCuota(p, i, n)), i) == p
  {
    var q := CalcCuota(p, i, n);
    DiscountedConstant(n, q, i);
    CuotaNonZeroRate(p, i, n);
  }

  lemma CuotaZeroRate(p: real, n: int)
    requires n >= 1
    ensures CalcCuota(p, 0.0, n) * DiscountFactorSum(0.0, n) == p
  {
    DiscountFactorSumAtZero(n);
  }

  lemma CuotaNonZeroRate(p: real, i: real, n: int)
    requires i > -1.0 && i != 0.0 && n >= 1
    ensures CalcCuota(p, i, n) * DiscountFactorSum(i, n) == p
  {
    DiscountFactorSumClosedForm(i, n);
    PowNotOne(i, n);
    PowPositive(1.0 + i, n);
    AnnuityIdentity(p, i, Pow(1.0 + i, n), DiscountFactorSum(i, n));
  }

  /** With d = 1 - 1/P != 0 and i*g == d, the payment p*i/d times g is p. */
  lemma AnnuityIdentity(p: real, i: real, P: real, g: real)
    requires i != 0.0 && P > 0.0 && P != 1.0 && i * g == 1.0 - 1.0 / P
    ensures (1.0 - 1.0 / P) != 0.0 && p * i / (1.0 - 1.0 / P) * g == p
  {
    var d := 1.0 - 1.0 / P;
    var x := p * i / d;
    assert x * d == p * i;
    assert i * (x * g) == x * (i * g);
    assert i * (x * g) == i * p;
    CancelFactor(i, x * g, p);
  }

  lemma {:induction false} DiscountFactorSumAtZero(n: nat)
    ensures DiscountFactorSum(0.0, n) == n as real
  {
    if n > 0 {
      DiscountFactorSumAtZero(n - 1);
      PowOne(n);
    }
  }

  /**
   * A loan priced at its own rate nets to zero: paying CalcCuota(p, i, n)
   * for n >= 1 periods has VAN 0 at the discount rate i.
   */
  lemma VanAtOwnRateIsZero(p: real, i: real, n: int)
    requires i > -1.0 && n >= 1
    ensures CalcVAN(p, Constant(n, -CalcCuota(p, i, n)), i) == 0.0
  {
    CalcCuotaRepaysPrincipal(p, i, n);
    NegatedFlowsCancel(p, CalcCuota(p, i, n), i, n);
  }

  /** If n flows of c are worth p at rate i, receiving p and paying them back nets zero. */
  lemma NegatedFlowsCancel(p: real, c: real, i: real, n: nat)
    requires i > -1.0 && DiscountedSum(Constant(n, c), i) == p
    ensures CalcVAN(p, Constant(n, -c), i) == 0.0
  {
    DiscountedNegated(n, c, -c, i);
  }

  /** Discounting n flows of d = -c gives minus the value of n flows of c. */
  lemma {:induction false} DiscountedNegated(n: nat, c: real, d: real, i: real)
    requires i > -1.0 && d == -c
    ensures DiscountedSum(Constant(n, d), i) == -DiscountedSum(Constant(n, c), i)
  {
    if n == 0 {
      assert Constant(n, d) == [] && Constant(n, c) == [];
    } else {
      DiscountedNegated(n - 1, c, d, i);
      DiscountedNegatedStep(n, c, d, i);
    }
  }

  lemma DiscountedNegatedStep(n: nat, c: real, d: real, i: real)
    requires i > -1.0 && d == -c && n > 0
    requires DiscountedSum(Constant(n - 1, d), i) == -DiscountedSum(Constant(n - 1, c), i)
    ensures DiscountedSum(Constant(n, d), i) == -DiscountedSum(Constant(n, c), i)
  {
    var a := DiscountedSum(Constant(n - 1, c), i);
    var b := DiscountedSum(Constant(n - 1, d), i);
    DiscountedSnoc(n, c, i);
    DiscountedSnoc(n, d, i);
    NegStep(a, b, c, Pow(1.0 + i, n));
  }

  lemma NegStep(a: real, b: real, c: real, P: real)
    requires P > 0.0 && b == -a
    ensures b + (-c) / P == -(a + c / P)
  {
  }

  /** The last of n equal flows is discounted n periods. */
  lemma DiscountedSnoc(n: nat, x: real, i: real)
    requires i > -1.0 && n > 0
    ensures Pow(1.0 + i, n) > 0.0
    ensures DiscountedSum(Constant(n, x), i) == DiscountedSum(Constant(n - 1, x), i) + x / Pow(1.0 + i, n)
  {
    PowPositive(1.0 + i, n);
    assert Constant(n, x)[..n - 1] == Constant(n - 1, x);
  }

  lemma CancelFactor(i: real, a: real, b: real)
    requires i != 0.0 && i * a == i * b
    ensures a == b
  {
    assert i * (a - b) == 0.0;
  }

  // ---------------------------------------------------------------------------
  // TIR by bisection
  // ---------------------------------------------------------------------------

  const TirLo: real := 0.000001
  const TirHi: real := 1.0
  const TirTolerance: real := 0.0000001
  const TirIterations: nat := 200

  /**
   * The objective `f` of `calcTIR`: the same sum as `calcVAN`, as a function
   * of the rate. The search only evaluates it on [1e-6, 1]; at the pole
   * r = -1 it is given the value 0.
   */
  function Objective(principal: real, cfs: seq<real>): real -> real
  {
    r => if r == -1.0 then 0.0 else CalcVAN(principal, cfs, r)
  }

  /** Reference definition of `calcTIR`: -1 when the bracket shows no sign change. */
  function Tir(principal: real, cfs: seq<real>): real
  {
    var f := Objective(principal, cfs);
    if SameSign(f(TirLo), f(TirHi)) then -1.0
    else Bisect(f, TirLo, TirHi, TirIterations, TirTolerance)
  }

  /** `calcTIR`: bisection for the monthly rate at which VAN is zero. */
  method CalcTIR(principal: real, cfs: seq<real>) returns (r: real)
    ensures r == Tir(principal, cfs)
    ensures var f := Objective(principal, cfs);
      r == -1.0 <==> f(TirLo) * f(TirHi) > 0.0
    ensures r != -1.0 ==> TirLo <= r <= TirHi
  {
    var f := Objective(principal, cfs);
    var a, b := TirLo, TirHi;
    var fa, fb := f(a), f(b);
    SignTests(fa, fb);
    if fa * fb > 0.0 {
      return -1.0;
    }
    TirInBracket(principal, cfs);
    var i := 0;
    while i < TirIterations
      invariant 0 <= i <= TirIterations
      invariant Bisect(f, a, b, TirIterations - i, TirTolerance) == Tir(principal, cfs)
    {
      var m := (a + b) / 2.0;
      var fm := f(m);
      if Abs(fm) < TirTolerance {
        return m;
      }
      var fa := f(a);
      SignTests(fa, fm);
      if fa * fm < 0.0 {
        b := m;
      } else {
        a := m;
      }
      i := i + 1;
    }
    r := (a + b) / 2.0;
  }

  /** `calcTIR` answers -1 exactly when f(1e-6) * f(1) > 0, and otherwise a rate in [1e-6, 1]. */
  lemma TirInBracket(principal: real, cfs: seq<real>)
    ensures var f := Objective(principal, cfs);
      Tir(principal, cfs) == -1.0 <==> f(TirLo) * f(TirHi) > 0.0
    ensures Tir(principal, cfs) != -1.0 ==> TirLo <= Tir(principal, cfs) <= TirHi
  {
    var f := Objective(principal, cfs);
    SignTests(f(TirLo), f(TirHi));
    BisectInRange(f, TirLo, TirHi, TirIterations, TirTolerance);
  }

  // ---------------------------------------------------------------------------
  // The payment schedule
  // ---------------------------------------------------------------------------

  /** Insurance and fees billed in every row, and the totals they make. */
  predicate Billed(row: ScheduleRow, propInsAnnual: real, propValue: real, fees: real)
  {
    && row.propertyInsurance == propValue * propInsAnnual / 12.0
    && row.monthlyFees == fees
    && row.totalPayment == row.basePayment + row.desgravamen + row.propertyInsurance + row.monthlyFees
    && row.cashflow == -row.totalPayment
  }

  /**
   * A total-grace row on opening balance `open`: nothing is paid, the
   * interest capitalizes, and desgravamen is charged on the balance before
   * capitalization.
   */
  predicate TotalGraceRow(row: ScheduleRow, open: real, tem: real, desRate: real)
  {
    && row.interest == open * tem
    && row.amort == 0.0
    && row.basePayment == 0.0
    && row.desgravamen == open * desRate
    && row.balance == open + open * tem
  }

  /** A partial-grace row: only the interest is paid and the balance stays. */
  predicate PartialGraceRow(row: ScheduleRow, open: real, tem: real, desRate: real)
  {
    && row.interest == open * tem
    && row.amort == 0.0
    && row.basePayment == row.interest
    && row.desgravamen == open * desRate
    && row.balance == open
  }

  /** An amortizing row: the fixed payment, amortization and balance floored at zero. */
  predicate AmortizingRow(row: ScheduleRow, open: real, cuota: real, tem: real, desRate: real)
  {
    && row.interest == open * tem
    && row.amort == Max(0.0, cuota - row.interest)
    && row.basePayment == cuota
    && row.desgravamen == open * desRate
    && row.balance == Max(0.0, open - row.amort)
  }

  /** Number of rows the source emits. */
  function ScheduleLength(totalMonths: int, graceTotal: nat, gracePartial: nat): nat
  {
    graceTotal + gracePartial + MaxInt(0, totalMonths - graceTotal - gracePartial)
  }

  /** The balance left by the total-grace phase. */
  function PostGraceBalance(principal: real, tem: real, graceTotal: nat): real
  {
    principal * Pow(1.0 + tem, graceTotal)
  }

  /** The installment of the amortizing phase (at least one period is assumed). */
  function PhaseCuota(principal: real, tem: real, totalMonths: int, graceTotal: nat, gracePartial: nat): real
    requires tem > -1.0
  {
    CalcCuota(PostGraceBalance(principal, tem, graceTotal), tem, MaxInt(1, totalMonths - graceTotal - gracePartial))
  }

  /** The inputs of `generateSchedule`. */
  datatype Terms = Terms(
    principal: real, tem: real, totalMonths: int, graceTotal: nat, gracePartial: nat,
    desRate: real, propInsAnnual: real, propValue: real, fees: real)

  /**
   * Row k of `rows` is the row `generateSchedule` emits at period k + 1,
   * given the balance `post` left by the grace phases and the installment
   * `cuota` of the amortizing phase.
   */
  ghost predicate RowFits(t: Terms, rows: seq<ScheduleRow>, k: int, post: real, cuota: real)
    requires 0 <= k < |rows|
  {
    var grace := t.graceTotal + t.gracePartial;
    && rows[k].period == k + 1
    && (rows[k].isGrace <==> k < grace)
    && Billed(rows[k], t.propInsAnnual, t.propValue, t.fees)
    && (if k < t.graceTotal then
          TotalGraceRow(rows[k], PostGraceBalance(t.principal, t.tem, k), t.tem, t.desRate)
        else if k < grace then
          PartialGraceRow(rows[k], post, t.tem, t.desRate)
        else
          AmortizingRow(rows[k], if k == grace then post else rows[k - 1].balance, cuota, t.tem, t.desRate))
  }

  ghost predicate AllRowsFit(t: Terms, rows: seq<ScheduleRow>, post: real, cuota: real)
  {
    forall k :: 0 <= k < |rows| ==> RowFits(t, rows, k, post, cuota)
  }

  /**
   * The schedule `generateSchedule` builds: one row per month (or just the
   * grace rows when grace covers the whole term), each phase's rows as
   * described above.
   */
  ghost predicate IsSchedule(rows: seq<ScheduleRow>, t: Terms)
    requires t.tem > -1.0
  {
    && |rows| == ScheduleLength(t.totalMonths, t.graceTotal, t.gracePartial)
    && AllRowsFit(t, rows, PostGraceBalance(t.principal, t.tem, t.graceTotal),
                  PhaseCuota(t.principal, t.tem, t.totalMonths, t.graceTotal, t.gracePartial))
  }

  /** Appending a row that fits keeps every earlier row fitting. */
  lemma AppendFits(t: Terms, rows: seq<ScheduleRow>, r: ScheduleRow, post: real, cuota: real)
    requires AllRowsFit(t, rows, post, cuota) && RowFits(t, rows + [r], |rows|, post, cuota)
    ensures AllRowsFit(t, rows + [r], post, cuota)
  {
    var rows' := rows + [r];
    forall k | 0 <= k < |rows'|
      ensures RowFits(t, rows', k, post, cuota)
    {
      if k < |rows| {
        assert rows'[k] == rows[k];
        assert k > 0 ==> rows'[k - 1] == rows[k - 1];
        assert RowFits(t, rows, k, post, cuota);
      }
    }
  }

  /** An amortizing row billed like every row fits at the end of the rows before it. */
  lemma AmortizingRowFits(t: Terms, rows: seq<ScheduleRow>, row: ScheduleRow, open: real, post: real, cuota: real)
    requires |rows| >= t.graceTotal + t.gracePartial
    requires open == if |rows| == t.graceTotal + t.gracePartial then post else rows[|rows| - 1].balance
    requires row.period == |rows| + 1 && !row.isGrace
    requires Billed(row, t.propInsAnnual, t.propValue, t.fees)
    requires AmortizingRow(row, open, cuota, t.tem, t.desRate)
    ensures RowFits(t, rows + [row], |rows|, post, cuota)
  {
    var rows' := rows + [row];
    assert rows'[|rows|] == row;
    assert |rows| > 0 ==> rows'[|rows| - 1] == rows[|rows| - 1];
  }

  /** After k capitalizations the balance is principal * (1+tem)^k. */
  lemma CapitalizeStep(principal: real, tem: real, k: nat)
    ensures PostGraceBalance(principal, tem, k) + PostGraceBalance(principal, tem, k) * tem
         == PostGraceBalance(principal, tem, k + 1)
  {
    var p := Pow(1.0 + tem, k);
    assert Pow(1.0 + tem, k + 1) == (1.0 + tem) * p;
    assert principal * p + principal * p * tem == principal * ((1.0 + tem) * p);
  }

  /** `generateSchedule`: the three phases, one after the other. */
  method GenerateSchedule(principal: real, tem: real, totalMonths: int, graceTotal: nat, gracePartial: nat,
                          desRate: real, propInsAnnual: real, propValue: real, fees: real)
    returns (rows: seq<ScheduleRow>)
    requires tem > -1.0
    ensures IsSchedule(rows, Terms(principal, tem, totalMonths, graceTotal, gracePartial,
                                   desRate, propInsAnnual, propValue, fees))
  {
    var t := Terms(principal, tem, totalMonths, graceTotal, gracePartial,
                   desRate, propInsAnnual, propValue, fees);
    ghost var post := PostGraceBalance(principal, tem, graceTotal);
    ghost var cuota := PhaseCuota(principal, tem, totalMonths, graceTotal, gracePartial);
    var bal;
    rows, bal := TotalGracePhase(t, post, cuota);
    rows := PartialGracePhase(t, rows, bal, post, cuota);
    rows := AmortizingPhase(t, rows, bal, post, cuota);
  }

  /** The loop of the first phase: `graceTotal` rows in which the interest capitalizes. */
  method TotalGracePhase(t: Terms, ghost post: real, ghost cuota: real)
    returns (rows: seq<ScheduleRow>, bal: real)
    ensures |rows| == t.graceTotal
    ensures bal == PostGraceBalance(t.principal, t.tem, t.graceTotal)
    ensures AllRowsFit(t, rows, post, cuota)
  {
    rows := [];
    bal := t.principal;
    assert Pow(1.0 + t.tem, 0) == 1.0;
    var i := 1;
    while i <= t.graceTotal
      invariant 1 <= i <= t.graceTotal + 1
      invariant |rows| == i - 1
      invariant bal == PostGraceBalance(t.principal, t.tem, i - 1)
      invariant AllRowsFit(t, rows, post, cuota)
    {
      var interest := bal * t.tem;
      var des := bal * t.desRate;
      CapitalizeStep(t.principal, t.tem, i - 1);
      bal := bal + interest;
      var ins := t.propValue * t.propInsAnnual / 12.0;
      var total := des + ins + t.fees;
      var row := ScheduleRow(i, bal, interest, 0.0, 0.0, des, ins, t.fees, total, -total, true);
      assert RowFits(t, rows + [row], |rows|, post, cuota);
      AppendFits(t, rows, row, post, cuota);
      rows := rows + [row];
      i := i + 1;
    }
  }

  /** The loop of the second phase: `gracePartial` rows that pay only the interest. */
  method PartialGracePhase(t: Terms, rows0: seq<ScheduleRow>, bal: real, ghost post: real, ghost cuota: real)
    returns (rows: seq<ScheduleRow>)
    requires |rows0| == t.graceTotal && bal == post && AllRowsFit(t, rows0, post, cuota)
    ensures |rows| == t.graceTotal + t.gracePartial && rows0 <= rows
    ensures AllRowsFit(t, rows, post, cuota)
  {
    rows := rows0;
    var i := t.graceTotal + 1;
    while i <= t.graceTotal + t.gracePartial
      invariant t.graceTotal + 1 <= i <= t.graceTotal + t.gracePartial + 1
      invariant |rows| == i - 1 && rows0 <= rows
      invariant AllRowsFit(t, rows, post, cuota)
    {
      var interest := bal * t.tem;
      var des := bal * t.desRate;
      var ins := t.propValue * t.propInsAnnual / 12.0;
      var total := interest + des + ins + t.fees;
      var row := ScheduleRow(i, bal, interest, 0.0, interest, des, ins, t.fees, total, -total, true);
      assert RowFits(t, rows + [row], |rows|, post, cuota);
      AppendFits(t, rows, row, post, cuota);
      rows := rows + [row];
      i := i + 1;
    }
  }

  /**
   * The loop of the last phase: the remaining months at the fixed
   * installment computed on the post-grace balance over
   * max(1, totalMonths - graceTotal - gracePartial) periods.
   */
  method AmortizingPhase(t: Terms, rows0: seq<ScheduleRow>, bal0: real, ghost post: real, ghost cuota: real)
    returns (rows: seq<ScheduleRow>)
    requires t.tem > -1.0
    requires post == bal0 && cuota == CalcCuota(bal0, t.tem, MaxInt(1, t.totalMonths - t.graceTotal - t.gracePartial))
    requires |rows0| == t.graceTotal + t.gracePartial && AllRowsFit(t, rows0, post, cuota)
    ensures |rows| == ScheduleLength(t.totalMonths, t.graceTotal, t.gracePartial) && rows0 <= rows
    ensures AllRowsFit(t, rows, post, cuota)
  {
    var grace := t.graceTotal + t.gracePartial;
    var n := MaxInt(1, t.totalMonths - t.graceTotal - t.gracePartial);
    var c := CalcCuota(bal0, t.tem, n);
    var bal := bal0;
    rows := rows0;
    var i := grace + 1;
    while i <= t.totalMonths
      invariant grace + 1 <= i <= MaxInt(grace + 1, t.totalMonths + 1)
      invariant |rows| == i - 1 && rows0 <= rows
      invariant bal == if i == grace + 1 then post else rows[i - 2].balance
      invariant AllRowsFit(t, rows, post, cuota)
    {
      ghost var open := bal;
      var interest := bal * t.tem;
      var amort := c - interest;
      if amort < 0.0 {
        amort := 0.0;
      }
      var des := bal * t.desRate;
      bal := Max(0.0, bal - amort);
      var ins := t.propValue * t.propInsAnnual / 12.0;
      var total := c + des + ins + t.fees;
      var row := ScheduleRow(i, bal, interest, amort, c, des, ins, t.fees, total, -total, false);
      assert AmortizingRow(row, open, c, t.tem, t.desRate);
      AmortizingRowFits(t, rows, row, open, post, cuota);
      AppendFits(t, rows, row, post, cuota);
      rows := rows + [row];
      i := i + 1;
    }
  }

  /**
   * The schedule has one row per month when grace fits in the term; when
   * grace covers the term or more, it has exactly the grace rows.
   */
  lemma ScheduleLengthCases(totalMonths: int, graceTotal: nat, gracePartial: nat)
    ensures totalMonths >= graceTotal + gracePartial ==>
      ScheduleLength(totalMonths, graceTotal, gracePartial) == totalMonths
    ensures totalMonths < graceTotal + gracePartial ==>
      ScheduleLength(totalMonths, graceTotal, gracePartial) == graceTotal + gracePartial
  {
  }

  /**
   * In the amortizing phase the balance never goes below zero and never
   * grows: the amortization is floored at 0 and the new balance at 0.
   */
  lemma AmortizingBalancesShrink(rows: seq<ScheduleRow>, t: Terms, k: int)
    requires t.tem > -1.0 && IsSchedule(rows, t)
    requires t.graceTotal + t.gracePartial < k < |rows|
    requires rows[k - 1].balance >= 0.0
    ensures 0.0 <= rows[k].balance <= rows[k - 1].balance
  {
    assert RowFits(t, rows, k, PostGraceBalance(t.principal, t.tem, t.graceTotal),
                   PhaseCuota(t.principal, t.tem, t.totalMonths, t.graceTotal, t.gracePartial));
  }

  /** Rows of the total-grace phase carry the capitalized balance principal * (1+tem)^period. */
  lemma TotalGraceBalances(rows: seq<ScheduleRow>, t: Terms, k: int)
    requires t.tem > -1.0 && IsSchedule(rows, t)
    requires 0 <= k < t.graceTotal
    ensures rows[k].balance == t.principal * Pow(1.0 + t.tem, k + 1)
    ensures rows[k].basePayment == 0.0 && rows[k].isGrace
  {
    TotalGraceRowAt(t, rows, k, PostGraceBalance(t.principal, t.tem, t.graceTotal),
                    PhaseCuota(t.principal, t.tem, t.totalMonths, t.graceTotal, t.gracePartial));
    CapitalizeStep(t.principal, t.tem, k);
  }

  lemma TotalGraceRowAt(t: Terms, rows: seq<ScheduleRow>, k: int, post: real, cuota: real)
    requires AllRowsFit(t, rows, post, cuota) && 0 <= k < t.graceTotal && k < |rows|
    ensures rows[k].isGrace
    ensures TotalGraceRow(rows[k], PostGraceBalance(t.principal, t.tem, k), t.tem, t.desRate)
  {
    assert RowFits(t, rows, k, post, cuota);
  }

  /**
   * The installments of the amortizing phase, discounted at the monthly
   * rate over max(1, totalMonths - grace) periods, are worth exactly the
   * post-grace balance.
   */
  lemma PhaseCuotaRepaysPostGraceBalance(t: Terms)
    requires t.tem > -1.0
    ensures var n := MaxInt(1, t.totalMonths - t.graceTotal - t.gracePartial);
      DiscountedSum(Constant(n, PhaseCuota(t.principal, t.tem, t.totalMonths, t.graceTotal, t.gracePartial)), t.tem)
        == PostGraceBalance(t.principal, t.tem, t.graceTotal)
  {
    var n := MaxInt(1, t.totalMonths - t.graceTotal - t.gracePartial);
    CalcCuotaRepaysPrincipal(PostGraceBalance(t.principal, t.tem, t.graceTotal), t.tem, n);
  }

  // ---------------------------------------------------------------------------
  // The amortizing phase repays the loan
  // ---------------------------------------------------------------------------

  /** Total amortization of a run of rows, left to right. */
  function AmortTotal(rows: seq<ScheduleRow>): real
  {
    if |rows| == 0 then 0.0 else AmortTotal(rows[..|rows| - 1]) + rows[|rows| - 1].amort
  }

  /** Every discount factor is positive, so their sum is too once there is one. */
  lemma {:induction false} DiscountFactorSumPositive(i: real, n: nat)
    requires i > -1.0
    ensures DiscountFactorSum(i, n) >= 0.0
    ensures n >= 1 ==> DiscountFactorSum(i, n) > 0.0
  {
    if n > 0 {
      DiscountFactorSumPositive(i, n - 1);
      PowPositive(1.0 + i, n);
    }
  }

  /** The French payment on a non-negative principal is non-negative and repays it: payment * sum of factors == p. */
  lemma CuotaNonNegative(p: real, i: real, n: int)
    requires i > -1.0 && n >= 1 && p >= 0.0
    ensures CalcCuota(p, i, n) * DiscountFactorSum(i, n) == p
    ensures CalcCuota(p, i, n) >= 0.0
  {
    CuotaTimesFactors(p, i, n);
    DiscountFactorSumPositive(i, n);
    NonNegativeFactor(CalcCuota(p, i, n), DiscountFactorSum(i, n), p);
  }

  lemma CuotaTimesFactors(p: real, i: real, n: int)
    requires i > -1.0 && n >= 1
    ensures CalcCuota(p, i, n) * DiscountFactorSum(i, n) == p
  {
    if i == 0.0 {
      CuotaZeroRate(p, n);
    } else {
      CuotaNonZeroRate(p, i, n);
    }
  }

  lemma NonNegativeFactor(c: real, d: real, p: real)
    requires d > 0.0 && c * d == p && p >= 0.0
    ensures c >= 0.0
  {
    if c < 0.0 {
      MulStrict(-c, d);
    }
  }

  /**
   * One amortizing month on plain reals: when the opening balance is the
   * payment times the sum of the m remaining discount factors, the
   * interest is below the payment (no floor applies), interest and
   * amortization make up the payment, and the closing balance is the
   * payment times the sum of the m - 1 factors left.
   */
  lemma AmortStep(open: real, cuota: real, tem: real, interest: real, amort: real, balance: real,
                  d: real, d1: real, pw: real)
    requires pw > 0.0 && cuota >= 0.0 && d1 >= 0.0
    requires d == d1 + 1.0 / pw && tem * d == 1.0 - 1.0 / pw && open == cuota * d
    requires interest == open * tem
    requires amort == Max(0.0, cuota - interest)
    requires balance == Max(0.0, open - amort)
    ensures amort == cuota - interest
    ensures balance == open - amort
    ensures balance == cuota * d1
  {
    assert interest == cuota * (tem * d);
    assert cuota - interest == cuota / pw;
    assert cuota / pw >= 0.0;
    assert open - cuota / pw == cuota * d1;
  }

  /** What is still owed with m payments of `cuota` to go: their value discounted at `tem`. */
  function RemainingBalance(cuota: real, tem: real, m: nat): real
    requires tem > -1.0
  {
    cuota * DiscountFactorSum(tem, m)
  }

  lemma RemainingBalanceIs(cuota: real, tem: real, m: nat, d: real)
    requires tem > -1.0 && d == DiscountFactorSum(tem, m)
    ensures RemainingBalance(cuota, tem, m) == cuota * d
  {
  }

  /** An amortizing row opened on what m payments are worth leaves what m - 1 payments are worth. */
  lemma AmortizingRowInClosedForm(row: ScheduleRow, open: real, cuota: real, tem: real, desRate: real, m: nat)
    requires tem > -1.0 && m >= 1 && cuota >= 0.0
    requires AmortizingRow(row, open, cuota, tem, desRate) && open == RemainingBalance(cuota, tem, m)
    ensures row.amort + row.interest == row.basePayment
    ensures row.balance == open - row.amort
    ensures row.balance == RemainingBalance(cuota, tem, m - 1)
  {
    var d, d1, pw := FactorStep(tem, m);
    RemainingBalanceIs(cuota, tem, m, d);
    RemainingBalanceIs(cuota, tem, m - 1, d1);
    AmortStep(open, cuota, tem, row.interest, row.amort, row.balance, d, d1, pw);
  }

  /** An amortizing row's opening balance, as in RowFits. */
  function OpenBalance(rows: seq<ScheduleRow>, k: int, grace: int, post: real): real
    requires grace <= k <= |rows| && 0 <= grace
  {
    if k == grace then post else rows[k - 1].balance
  }

  lemma AmortizingRowAt(t: Terms, rows: seq<ScheduleRow>, k: int, post: real, cuota: real)
    requires AllRowsFit(t, rows, post, cuota) && t.graceTotal + t.gracePartial <= k < |rows|
    ensures AmortizingRow(rows[k], OpenBalance(rows, k, t.graceTotal + t.gracePartial, post), cuota, t.tem, t.desRate)
  {
    assert RowFits(t, rows, k, post, cuota);
  }

  lemma {:induction false} GraceRowsAmortizeNothing(t: Terms, rows: seq<ScheduleRow>, post: real, cuota: real, k: nat)
    requires AllRowsFit(t, rows, post, cuota) && k <= t.graceTotal + t.gracePartial && k <= |rows|
    ensures AmortTotal(rows[..k]) == 0.0
  {
    if k > 0 {
      GraceRowsAmortizeNothing(t, rows, post, cuota, k - 1);
      assert RowFits(t, rows, k - 1, post, cuota);
      assert rows[..k][..k - 1] == rows[..k - 1];
    }
  }

  /** Amortizing row k, given its opening balance in closed form. */
  lemma AmortizingRowClosed(t: Terms, rows: seq<ScheduleRow>, post: real, cuota: real, k: nat)
    requires t.tem > -1.0 && AllRowsFit(t, rows, post, cuota) && cuota >= 0.0
    requires t.graceTotal + t.gracePartial <= k < |rows|
    requires OpenBalance(rows, k, t.graceTotal + t.gracePartial, post) == RemainingBalance(cuota, t.tem, |rows| - k)
    ensures rows[k].amort + rows[k].interest == rows[k].basePayment
    ensures rows[k].balance == OpenBalance(rows, k, t.graceTotal + t.gracePartial, post) - rows[k].amort
    ensures rows[k].balance == RemainingBalance(cuota, t.tem, |rows| - (k + 1))
  {
    AmortizingRowAt(t, rows, k, post, cuota);
    AmortizingRowInClosedForm(rows[k], OpenBalance(rows, k, t.graceTotal + t.gracePartial, post), cuota,
                              t.tem, t.desRate, |rows| - k);
  }

  /** The sums of m and m - 1 discount factors and the power between them. */
  lemma FactorStep(i: real, m: nat) returns (d: real, d1: real, pw: real)
    requires i > -1.0 && m >= 1
    ensures d == DiscountFactorSum(i, m) && d1 == DiscountFactorSum(i, m - 1) && pw == Pow(1.0 + i, m)
    ensures pw > 0.0 && d1 >= 0.0 && d == d1 + 1.0 / pw && i * d == 1.0 - 1.0 / pw
  {
    DiscountFactorSumClosedForm(i, m);
    DiscountFactorSumPositive(i, m - 1);
    d, d1, pw := DiscountFactorSum(i, m), DiscountFactorSum(i, m - 1), Pow(1.0 + i, m);
  }

  /**
   * Through the amortizing rows the opening balance of row k is the
   * payment times the factors still to come, and what has been amortized
   * so far is the post-grace balance minus that opening balance.
   */
  lemma {:induction false} AmortizingRun(t: Terms, rows: seq<ScheduleRow>, post: real, cuota: real, k: nat)
    requires t.tem > -1.0 && AllRowsFit(t, rows, post, cuota) && cuota >= 0.0
    requires t.graceTotal + t.gracePartial <= k <= |rows|
    requires post == RemainingBalance(cuota, t.tem, |rows| - (t.graceTotal + t.gracePartial))
    ensures OpenBalance(rows, k, t.graceTotal + t.gracePartial, post) == RemainingBalance(cuota, t.tem, |rows| - k)
    ensures AmortTotal(rows[..k]) == post - OpenBalance(rows, k, t.graceTotal + t.gracePartial, post)
    decreases k
  {
    var grace := t.graceTotal + t.gracePartial;
    if k == grace {
      GraceRowsAmortizeNothing(t, rows, post, cuota, k);
    } else {
      AmortizingRun(t, rows, post, cuota, k - 1);
      AmortizingRunStep(t, rows, post, cuota, k);
    }
  }

  lemma AmortizingRunStep(t: Terms, rows: seq<ScheduleRow>, post: real, cuota: real, k: nat)
    requires t.tem > -1.0 && AllRowsFit(t, rows, post, cuota) && cuota >= 0.0
    requires t.graceTotal + t.gracePartial < k <= |rows|
    requires OpenBalance(rows, k - 1, t.graceTotal + t.gracePartial, post) == RemainingBalance(cuota, t.tem, |rows| - (k - 1))
    requires AmortTotal(rows[..k - 1]) == post - OpenBalance(rows, k - 1, t.graceTotal + t.gracePartial, post)
    ensures OpenBalance(rows, k, t.graceTotal + t.gracePartial, post) == RemainingBalance(cuota, t.tem, |rows| - k)
    ensures AmortTotal(rows[..k]) == post - OpenBalance(rows, k, t.graceTotal + t.gracePartial, post)
  {
    AmortizingRowClosed(t, rows, post, cuota, k - 1);
    assert rows[..k][..k - 1] == rows[..k - 1];
    assert AmortTotal(rows[..k]) == AmortTotal(rows[..k - 1]) + rows[k - 1].amort;
  }

  /**
   * The schedule repays the loan when the grace months leave at least one
   * amortizing month and the principal is not negative: the last balance
   * is 0, every amortizing row splits its payment into interest and
   * amortization with no floor applied, and the amortizations add up to
   * the post-grace balance.
   */
  lemma ScheduleRepays(rows: seq<ScheduleRow>, t: Terms)
    requires t.tem > -1.0 && IsSchedule(rows, t)
    requires t.principal >= 0.0 && t.graceTotal + t.gracePartial < t.totalMonths
    ensures |rows| == t.totalMonths && rows[|rows| - 1].balance == 0.0
    ensures forall k :: t.graceTotal + t.gracePartial <= k < |rows| ==>
      rows[k].amort + rows[k].interest == rows[k].basePayment
    ensures AmortTotal(rows) == PostGraceBalance(t.principal, t.tem, t.graceTotal)
  {
    var grace := t.graceTotal + t.gracePartial;
    var post := PostGraceBalance(t.principal, t.tem, t.graceTotal);
    var cuota := PhaseCuota(t.principal, t.tem, t.totalMonths, t.graceTotal, t.gracePartial);
    var n := t.totalMonths - grace;
    assert |rows| == t.totalMonths;
    PowPositive(1.0 + t.tem, t.graceTotal);
    assert post >= 0.0 by {
      MulMonotone(Pow(1.0 + t.tem, t.graceTotal), t.principal, 0.0);
    }
    assert MaxInt(1, n) == n;
    CuotaNonNegative(post, t.tem, n);
    assert post == RemainingBalance(cuota, t.tem, n);
    AmortizingRun(t, rows, post, cuota, |rows|);
    assert RemainingBalance(cuota, t.tem, 0) == 0.0;
    assert rows[..|rows|] == rows;
    forall k | grace <= k < |rows|
      ensures rows[k].amort + rows[k].interest == rows[k].basePayment
    {
      AmortizingRun(t, rows, post, cuota, k);
      AmortizingRowClosed(t, rows, post, cuota, k);
    }
  }
}
