/**
 * The older simulation page: its own copy of the French payment, a net
 * present value that leaves the first flow undiscounted, a bisection IRR
 * on [-0.9, 2], the schedule loop with a NONE / TOTAL / PARTIAL grace type,
 * and the handler that validates the form and publishes the preview.
 *
 * The monthly rate comes from a fractional power of the plan's annual rate;
 * it is taken here as an input `tem`.
 */
module LegacySimulate {
  import opened Wrappers
  import opened Numbers
  import opened Bisection
  import Finance

  /** One row of the older schedule. */
  datatype LegacyRow = LegacyRow(n: int, payment: real, interest: real, amortization: real, balance: real)

  /** The grace type chosen on the form. */
  datatype GraceType = GraceNone | GraceTotal | GracePartial

  // ---------------------------------------------------------------------------
  // Payment, NPV, IRR
  // ---------------------------------------------------------------------------

  /** `paymentFrench`. */
  function PaymentFrench(balance: real, r: real, n: int): real
    requires r > -1.0
  {
    if n <= 0 then 0.0
    else if r == 0.0 then balance / (n as real)
    else
      PowNotOne(r, n);
      PowPositive(1.0 + r, n);
      balance * r / (1.0 - 1.0 / Pow(1.0 + r, n))
  }

  /**
   * `paymentFrench` pays off its balance: n >= 1 equal payments, each
   * discounted from the end of its month, are worth exactly the balance.
   * With no periods it asks for nothing.
   */
  lemma PaymentFrenchRepays(balance: real, r: real, n: int)
    requires r > -1.0
    ensures n <= 0 ==> PaymentFrench(balance, r, n) == 0.0
    ensures n >= 1 ==> Finance.DiscountedSum(Finance.Constant(n, PaymentFrench(balance, r, n)), r) == balance
  {
    if n >= 1 {
      assert PaymentFrench(balance, r, n) == Finance.CalcCuota(balance, r, n);
      Finance.CalcCuotaRepaysPrincipal(balance, r, n);
    }
  }

  /** At a zero rate the n payments add up to the balance. */
  lemma PaymentFrenchZeroRate(balance: real, n: int)
    requires n >= 1
    ensures PaymentFrench(balance, 0.0, n) * (n as real) == balance
  {
  }

  /** The NPV of `npvAtRate`: flow t is divided by (1+rate)^t, so flow 0 is not discounted. */
  function Npv(cfs: seq<real>, rate: real): real
    requires rate > -1.0
  {
    if |cfs| == 0 then 0.0
    else
      PowPositive(1.0 + rate, |cfs| - 1);
      Npv(cfs[..|cfs| - 1], rate) + cfs[|cfs| - 1] / Pow(1.0 + rate, |cfs| - 1)
  }

  /** `npvAtRate`: the loop that accumulates the NPV flow by flow. */
  method NpvAtRate(cfs: seq<real>, rate: real) returns (v: real)
    requires rate > -1.0
    ensures v == Npv(cfs, rate)
  {
    v := 0.0;
    var t := 0;
    while t < |cfs|
      invariant 0 <= t <= |cfs|
      invariant v == Npv(cfs[..t], rate)
    {
      assert cfs[..t + 1][..t] == cfs[..t];
      PowPositive(1.0 + rate, t);
      v := v + cfs[t] / Pow(1.0 + rate, t);
      t := t + 1;
    }
    assert cfs[..|cfs|] == cfs;
  }

  /**
   * With the principal as flow 0, this NPV is the current engine's VAN:
   * the principal plus the later flows discounted from the end of their
   * months.
   */
  lemma {:induction false} NpvOfLoan(principal: real, flows: seq<real>, rate: real)
    requires rate > -1.0
    ensures Npv([principal] + flows, rate) == Finance.CalcVAN(principal, flows, rate)
    decreases |flows|
  {
    var cfs := [principal] + flows;
    if |flows| == 0 {
      assert cfs[..0] == [];
      assert Pow(1.0 + rate, 0) == 1.0;
    } else {
      var init := flows[..|flows| - 1];
      assert cfs[..|cfs| - 1] == [principal] + init;
      NpvOfLoan(principal, init, rate);
    }
  }

  const IrrLo: real := -0.9
  const IrrHi: real := 2.0
  const IrrTolerance: real := 0.0000000001
  const IrrIterations: nat := 120

  /** The `npv` closure of `irrMonthly` (only evaluated on rates above -1). */
  function NpvObjective(cfs: seq<real>): real -> real
  {
    rate => if rate > -1.0 then Npv(cfs, rate) else 0.0
  }

  /**
   * Reference definition of `irrMonthly`: an endpoint whose NPV is exactly
   * zero is returned as is, endpoints whose NPVs have a positive product
   * give null, and otherwise the answer is the bisection result.
   */
  function Irr(cfs: seq<real>): Option<real>
  {
    var f := NpvObjective(cfs);
    if f(IrrLo) == 0.0 then Some(IrrLo)
    else if f(IrrHi) == 0.0 then Some(IrrHi)
    else if SameSign(f(IrrLo), f(IrrHi)) then None
    else Some(Bisect(f, IrrLo, IrrHi, IrrIterations, IrrTolerance))
  }

  /** `irrMonthly`: the loop keeps the NPV at `lo` in `fLo` instead of recomputing it. */
  method IrrMonthly(cfs: seq<real>) returns (r: Option<real>)
    ensures r == Irr(cfs)
  {
    ghost var f := NpvObjective(cfs);
    var lo, hi := IrrLo, IrrHi;
    var fLo := NpvAtRate(cfs, lo);
    var fHi := NpvAtRate(cfs, hi);
    if fLo == 0.0 {
      return Some(lo);
    }
    if fHi == 0.0 {
      return Some(hi);
    }
    SignTests(fLo, fHi);
    if fLo * fHi > 0.0 {
      return None;
    }
    var i := 0;
    while i < IrrIterations
      invariant 0 <= i <= IrrIterations
      invariant IrrLo <= lo <= hi <= IrrHi
      invariant fLo == f(lo)
      invariant Bisect(f, lo, hi, IrrIterations - i, IrrTolerance) == Bisect(f, IrrLo, IrrHi, IrrIterations, IrrTolerance)
    {
      var mid := (lo + hi) / 2.0;
      var fMid := NpvAtRate(cfs, mid);
      if Abs(fMid) < IrrTolerance {
        return Some(mid);
      }
      SignTests(fLo, fMid);
      if fLo * fMid < 0.0 {
        hi := mid;
        fHi := fMid;
      } else {
        lo := mid;
        fLo := fMid;
      }
      i := i + 1;
    }
    r := Some((lo + hi) / 2.0);
  }

  /**
   * What `irrMonthly` answers: null exactly when both endpoint NPVs are
   * non-zero with a positive product; an endpoint whose NPV is zero
   * (the low one first); and otherwise a rate in [-0.9, 2].
   */
  lemma IrrOutcome(cfs: seq<real>)
    ensures var f := NpvObjective(cfs);
      Irr(cfs).None? <==> (f(IrrLo) != 0.0 && f(IrrHi) != 0.0 && f(IrrLo) * f(IrrHi) > 0.0)
    ensures Npv(cfs, IrrLo) == 0.0 ==> Irr(cfs) == Some(IrrLo)
    ensures Npv(cfs, IrrLo) != 0.0 && Npv(cfs, IrrHi) == 0.0 ==> Irr(cfs) == Some(IrrHi)
    ensures Irr(cfs).Some? ==> IrrLo <= Irr(cfs).value <= IrrHi
  {
    var f := NpvObjective(cfs);
    SignTests(f(IrrLo), f(IrrHi));
    BisectInRange(f, IrrLo, IrrHi, IrrIterations, IrrTolerance);
  }

  /** The annual TIR from the monthly IRR: null when the IRR is null, (1+irr)^12 - 1 otherwise. */
  function TirAnnual(irr: Option<real>): Option<real>
  {
    match irr
    case None => None
    case Some(i) => Some(Pow(1.0 + i, 12) - 1.0)
  }

  /** Compounding twelve months gives at least twelve times the monthly rate, and never less than -1. */
  lemma TirAnnualBounds(irr: Option<real>)
    requires irr.Some? && irr.value >= -1.0
    ensures TirAnnual(irr).Some?
    ensures TirAnnual(irr).value >= 12.0 * irr.value
    ensures TirAnnual(irr).value >= -1.0
  {
    Bernoulli(irr.value, 12);
    PowNonNegative(1.0 + irr.value, 12);
  }

  // ---------------------------------------------------------------------------
  // The schedule loop
  // ---------------------------------------------------------------------------

  /** The balance after k grace months: capitalized under TOTAL, unchanged otherwise. */
  function GraceBalance(principal: real, r: real, k: nat, gt: GraceType): real
  {
    if gt == GraceTotal then principal * Pow(1.0 + r, k) else principal
  }

  /** Grace month k + 1 (k from 0) for each grace type. */
  predicate GraceRow(row: LegacyRow, principal: real, r: real, k: nat, gt: GraceType)
  {
    match gt
    case GraceTotal =>
      && row.payment == 0.0 && row.amortization == 0.0
      && row.interest == principal * Pow(1.0 + r, k) * r
      && row.balance == principal * Pow(1.0 + r, k + 1)
    case GracePartial =>
      && row.payment == row.interest && row.interest == principal * r
      && row.amortization == 0.0 && row.balance == principal
    case GraceNone =>
      && row.payment == 0.0 && row.interest == 0.0 && row.amortization == 0.0
      && row.balance == principal
  }

  /** A regular month on opening balance `open` at the fixed payment `cuota`. */
  predicate RegularRow(row: LegacyRow, open: real, cuota: real, r: real)
  {
    && row.payment == cuota
    && row.interest == open * r
    && row.amortization == Max(0.0, cuota - row.interest)
    && row.balance == Max(0.0, open - row.amortization)
  }

  /** Row k of the older schedule, given the post-grace balance and the regular payment. */
  ghost predicate LegacyRowFits(rows: seq<LegacyRow>, k: int, principal: real, r: real, g: nat, gt: GraceType,
                                post: real, cuota: real)
    requires 0 <= k < |rows|
  {
    && rows[k].n == k + 1
    && (if k < g then GraceRow(rows[k], principal, r, k, gt)
        else RegularRow(rows[k], if k == g then post else rows[k - 1].balance, cuota, r))
  }

  ghost predicate AllLegacyRowsFit(rows: seq<LegacyRow>, principal: real, r: real, g: nat, gt: GraceType,
                                   post: real, cuota: real)
  {
    forall k :: 0 <= k < |rows| ==> LegacyRowFits(rows, k, principal, r, g, gt, post, cuota)
  }

  /**
   * The schedule of the older page: n rows numbered 1..n, g grace rows of
   * the chosen type, then n - g regular rows at the French payment on the
   * post-grace balance over the remaining months.
   */
  ghost predicate IsLegacySchedule(rows: seq<LegacyRow>, principal: real, r: real, n: nat, g: nat, gt: GraceType)
    requires r > -1.0
  {
    && |rows| == n
    && AllLegacyRowsFit(rows, principal, r, g, gt, GraceBalance(principal, r, g, gt),
                        PaymentFrench(GraceBalance(principal, r, g, gt), r, n - g))
  }

  lemma AppendLegacyFits(rows: seq<LegacyRow>, row: LegacyRow, principal: real, r: real, g: nat, gt: GraceType,
                         post: real, cuota: real)
    requires AllLegacyRowsFit(rows, principal, r, g, gt, post, cuota)
    requires LegacyRowFits(rows + [row], |rows|, principal, r, g, gt, post, cuota)
    ensures AllLegacyRowsFit(rows + [row], principal, r, g, gt, post, cuota)
  {
    var rows' := rows + [row];
    forall k | 0 <= k < |rows'|
      ensures LegacyRowFits(rows', k, principal, r, g, gt, post, cuota)
    {
      if k < |rows| {
        assert rows'[k] == rows[k];
        assert k > 0 ==> rows'[k - 1] == rows[k - 1];
        assert LegacyRowFits(rows, k, principal, r, g, gt, post, cuota);
      }
    }
  }

  lemma RegularRowFits(rows: seq<LegacyRow>, row: LegacyRow, open: real, principal: real, r: real, g: nat,
                       gt: GraceType, post: real, cuota: real)
    requires |rows| >= g
    requires open == if |rows| == g then post else rows[|rows| - 1].balance
    requires row.n == |rows| + 1 && RegularRow(row, open, cuota, r)
    ensures LegacyRowFits(rows + [row], |rows|, principal, r, g, gt, post, cuota)
  {
    var rows' := rows + [row];
    assert rows'[|rows|] == row;
    assert |rows| > 0 ==> rows'[|rows| - 1] == rows[|rows| - 1];
  }

  /** The grace loop of `buildScheduleAndIndicators`. */
  method GraceMonths(principal: real, r: real, g: nat, gt: GraceType, ghost post: real, ghost cuota: real)
    returns (rows: seq<LegacyRow>, balance: real)
    ensures |rows| == g && balance == GraceBalance(principal, r, g, gt)
    ensures AllLegacyRowsFit(rows, principal, r, g, gt, post, cuota)
  {
    rows := [];
    balance := principal;
    assert Pow(1.0 + r, 0) == 1.0;
    var i := 1;
    while i <= g
      invariant 1 <= i <= g + 1 && |rows| == i - 1
      invariant balance == GraceBalance(principal, r, i - 1, gt)
      invariant AllLegacyRowsFit(rows, principal, r, g, gt, post, cuota)
    {
      var interest := balance * r;
      var row;
      if gt == GraceTotal {
        row := LegacyRow(i, 0.0, interest, 0.0, balance + interest);
        Finance.CapitalizeStep(principal, r, i - 1);
        balance := balance + interest;
      } else if gt == GracePartial {
        row := LegacyRow(i, interest, interest, 0.0, balance);
      } else {
        row := LegacyRow(i, 0.0, 0.0, 0.0, balance);
      }
      assert (rows + [row])[|rows|] == row;
      AppendLegacyFits(rows, row, principal, r, g, gt, post, cuota);
      rows := rows + [row];
      i := i + 1;
    }
  }

  /** The regular-month loop of `buildScheduleAndIndicators`. */
  method RegularMonths(rows0: seq<LegacyRow>, balance0: real, principal: real, r: real, n: nat, g: nat,
                       gt: GraceType, ghost post: real, cuota: real)
    returns (rows: seq<LegacyRow>)
    requires g <= n && |rows0| == g && post == balance0
    requires AllLegacyRowsFit(rows0, principal, r, g, gt, post, cuota)
    ensures |rows| == n && rows0 <= rows
    ensures AllLegacyRowsFit(rows, principal, r, g, gt, post, cuota)
  {
    rows := rows0;
    var balance := balance0;
    var remaining := n - g;
    var k := 1;
    while k <= remaining
      invariant 1 <= k <= remaining + 1 && |rows| == g + k - 1 && rows0 <= rows
      invariant balance == if k == 1 then post else rows[|rows| - 1].balance
      invariant AllLegacyRowsFit(rows, principal, r, g, gt, post, cuota)
    {
      var idx := g + k;
      var interest := balance * r;
      var amort := Max(0.0, cuota - interest);
      var newBalance := Max(0.0, balance - amort);
      var row := LegacyRow(idx, cuota, interest, amort, newBalance);
      RegularRowFits(rows, row, balance, principal, r, g, gt, post, cuota);
      AppendLegacyFits(rows, row, principal, r, g, gt, post, cuota);
      rows := rows + [row];
      balance := newBalance;
      k := k + 1;
    }
  }

  /** The schedule part of `buildScheduleAndIndicators`: grace months, then the regular months. */
  method BuildSchedule(principal: real, r: real, n: nat, g: nat, gt: GraceType)
    returns (rows: seq<LegacyRow>, cuota: real)
    requires r > -1.0 && g <= n
    ensures IsLegacySchedule(rows, principal, r, n, g, gt)
    ensures cuota == PaymentFrench(GraceBalance(principal, r, g, gt), r, n - g)
  {
    ghost var post := GraceBalance(principal, r, g, gt);
    ghost var c := PaymentFrench(post, r, n - g);
    var rows0, balance := GraceMonths(principal, r, g, gt, post, c);
    cuota := PaymentFrench(balance, r, n - g);
    rows := RegularMonths(rows0, balance, principal, r, n, g, gt, post, cuota);
  }

  /** Under TOTAL grace the balance after grace month i is principal * (1+r)^i. */
  lemma TotalGraceCapitalizes(rows: seq<LegacyRow>, principal: real, r: real, n: nat, g: nat, k: int)
    requires r > -1.0 && g <= n && IsLegacySchedule(rows, principal, r, n, g, GraceTotal) && 0 <= k < g
    ensures rows[k].payment == 0.0 && rows[k].balance == principal * Pow(1.0 + r, k + 1)
  {
    var post := GraceBalance(principal, r, g, GraceTotal);
    GraceRowAt(rows, principal, r, g, GraceTotal, post, PaymentFrench(post, r, n - g), k);
  }

  lemma GraceRowAt(rows: seq<LegacyRow>, principal: real, r: real, g: nat, gt: GraceType,
                   post: real, cuota: real, k: int)
    requires AllLegacyRowsFit(rows, principal, r, g, gt, post, cuota) && 0 <= k < g && k < |rows|
    ensures GraceRow(rows[k], principal, r, k, gt)
  {
    assert LegacyRowFits(rows, k, principal, r, g, gt, post, cuota);
  }

  /** When grace covers the whole term there are no regular rows: every row is a grace row. */
  lemma FullGraceHasNoRegularRows(rows: seq<LegacyRow>, principal: real, r: real, n: nat, gt: GraceType)
    requires r > -1.0 && IsLegacySchedule(rows, principal, r, n, n, gt)
    ensures forall k :: 0 <= k < |rows| ==> GraceRow(rows[k], principal, r, k, gt)
  {
    var post := GraceBalance(principal, r, n, gt);
    forall k | 0 <= k < |rows|
      ensures GraceRow(rows[k], principal, r, k, gt)
    {
      assert LegacyRowFits(rows, k, principal, r, n, gt, post, PaymentFrench(post, r, 0));
    }
  }

  // ---------------------------------------------------------------------------
  // The regular months repay the loan
  // ---------------------------------------------------------------------------

  /** Total amortization of a run of rows, left to right. */
  function AmortizationTotal(rows: seq<LegacyRow>): real
  {
    if |rows| == 0 then 0.0 else AmortizationTotal(rows[..|rows| - 1]) + rows[|rows| - 1].amortization
  }

  /** A regular row's opening balance, as in LegacyRowFits. */
  function OpenBalance(rows: seq<LegacyRow>, k: int, g: nat, post: real): real
    requires g <= k <= |rows|
  {
    if k == g then post else rows[k - 1].balance
  }

  lemma RegularRowAt(rows: seq<LegacyRow>, principal: real, r: real, g: nat, gt: GraceType,
                     post: real, cuota: real, k: int)
    requires AllLegacyRowsFit(rows, principal, r, g, gt, post, cuota) && g <= k < |rows|
    ensures RegularRow(rows[k], OpenBalance(rows, k, g, post), cuota, r)
  {
    assert LegacyRowFits(rows, k, principal, r, g, gt, post, cuota);
  }

  /** A regular row opened on what m payments are worth leaves what m - 1 payments are worth. */
  lemma RegularRowInClosedForm(row: LegacyRow, open: real, cuota: real, r: real, m: nat)
    requires r > -1.0 && m >= 1 && cuota >= 0.0
    requires RegularRow(row, open, cuota, r) && open == Finance.RemainingBalance(cuota, r, m)
    ensures row.amortization + row.interest == row.payment
    ensures row.balance == open - row.amortization
    ensures row.balance == Finance.RemainingBalance(cuota, r, m - 1)
  {
    var d, d1, pw := Finance.FactorStep(r, m);
    Finance.RemainingBalanceIs(cuota, r, m, d);
    Finance.RemainingBalanceIs(cuota, r, m - 1, d1);
    Finance.AmortStep(open, cuota, r, row.interest, row.amortization, row.balance, d, d1, pw);
  }

  lemma {:induction false} GraceRowsAmortizeNothing(rows: seq<LegacyRow>, principal: real, r: real, g: nat,
                                                    gt: GraceType, post: real, cuota: real, k: nat)
    requires AllLegacyRowsFit(rows, principal, r, g, gt, post, cuota) && k <= g && k <= |rows|
    ensures AmortizationTotal(rows[..k]) == 0.0
  {
    if k > 0 {
      GraceRowsAmortizeNothing(rows, principal, r, g, gt, post, cuota, k - 1);
      GraceRowAt(rows, principal, r, g, gt, post, cuota, k - 1);
      assert rows[..k][..k - 1] == rows[..k - 1];
    }
  }

  lemma RegularRowClosed(rows: seq<LegacyRow>, principal: real, r: real, g: nat, gt: GraceType,
                         post: real, cuota: real, k: nat)
    requires r > -1.0 && AllLegacyRowsFit(rows, principal, r, g, gt, post, cuota) && cuota >= 0.0
    requires g <= k < |rows|
    requires OpenBalance(rows, k, g, post) == Finance.RemainingBalance(cuota, r, |rows| - k)
    ensures rows[k].amortization + rows[k].interest == rows[k].payment
    ensures rows[k].balance == OpenBalance(rows, k, g, post) - rows[k].amortization
    ensures rows[k].balance == Finance.RemainingBalance(cuota, r, |rows| - (k + 1))
  {
    RegularRowAt(rows, principal, r, g, gt, post, cuota, k);
    RegularRowInClosedForm(rows[k], OpenBalance(rows, k, g, post), cuota, r, |rows| - k);
  }

  /**
   * Through the regular months the opening balance of row k is what the
   * payments still to come are worth, and what has been amortized so far
   * is the post-grace balance minus that opening balance.
   */
  lemma {:induction false} RegularRun(rows: seq<LegacyRow>, principal: real, r: real, g: nat, gt: GraceType,
                                      post: real, cuota: real, k: nat)
    requires r > -1.0 && AllLegacyRowsFit(rows, principal, r, g, gt, post, cuota) && cuota >= 0.0
    requires g <= k <= |rows|
    requires post == Finance.RemainingBalance(cuota, r, |rows| - g)
    ensures OpenBalance(rows, k, g, post) == Finance.RemainingBalance(cuota, r, |rows| - k)
    ensures AmortizationTotal(rows[..k]) == post - OpenBalance(rows, k, g, post)
    decreases k
  {
    if k == g {
      GraceRowsAmortizeNothing(rows, principal, r, g, gt, post, cuota, k);
    } else {
      RegularRun(rows, principal, r, g, gt, post, cuota, k - 1);
      RegularRunStep(rows, principal, r, g, gt, post, cuota, k);
    }
  }

  lemma RegularRunStep(rows: seq<LegacyRow>, principal: real, r: real, g: nat, gt: GraceType,
                       post: real, cuota: real, k: nat)
    requires r > -1.0 && AllLegacyRowsFit(rows, principal, r, g, gt, post, cuota) && cuota >= 0.0
    requires g < k <= |rows|
    requires OpenBalance(rows, k - 1, g, post) == Finance.RemainingBalance(cuota, r, |rows| - (k - 1))
    requires AmortizationTotal(rows[..k - 1]) == post - OpenBalance(rows, k - 1, g, post)
    ensures OpenBalance(rows, k, g, post) == Finance.RemainingBalance(cuota, r, |rows| - k)
    ensures AmortizationTotal(rows[..k]) == post - OpenBalance(rows, k, g, post)
  {
    RegularRowClosed(rows, principal, r, g, gt, post, cuota, k - 1);
    assert rows[..k][..k - 1] == rows[..k - 1];
    assert AmortizationTotal(rows[..k]) == AmortizationTotal(rows[..k - 1]) + rows[k - 1].amortization;
  }

  /**
   * With at least one regular month and a non-negative principal the
   * older schedule repays the loan: the last balance is 0, every regular
   * row splits its payment into interest and amortization with no floor
   * applied, and the amortizations add up to the post-grace balance.
   */
  lemma LegacyScheduleRepays(rows: seq<LegacyRow>, principal: real, r: real, n: nat, g: nat, gt: GraceType)
    requires r > -1.0 && IsLegacySchedule(rows, principal, r, n, g, gt)
    requires principal >= 0.0 && g < n
    ensures |rows| == n && rows[|rows| - 1].balance == 0.0
    ensures forall k :: g <= k < |rows| ==> rows[k].amortization + rows[k].interest == rows[k].payment
    ensures AmortizationTotal(rows) == GraceBalance(principal, r, g, gt)
  {
    var post := GraceBalance(principal, r, g, gt);
    var cuota := PaymentFrench(post, r, n - g);
    PowPositive(1.0 + r, g);
    assert post >= 0.0 by {
      MulMonotone(Pow(1.0 + r, g), principal, 0.0);
    }
    assert cuota == Finance.CalcCuota(post, r, n - g);
    Finance.CuotaNonNegative(post, r, n - g);
    assert post == Finance.RemainingBalance(cuota, r, n - g);
    RegularRun(rows, principal, r, g, gt, post, cuota, |rows|);
    assert Finance.RemainingBalance(cuota, r, 0) == 0.0;
    assert rows[..|rows|] == rows;
    forall k | g <= k < |rows|
      ensures rows[k].amortization + rows[k].interest == rows[k].payment
    {
      RegularRun(rows, principal, r, g, gt, post, cuota, k);
      RegularRowClosed(rows, principal, r, g, gt, post, cuota, k);
    }
  }

  // ---------------------------------------------------------------------------
  // Cash flows and the handler
  // ---------------------------------------------------------------------------

  /** The client's flows: +principal at t = 0, then minus each row's payment. */
  function Cashflows(principal: real, rows: seq<LegacyRow>): (cfs: seq<real>)
    ensures |cfs| == |rows| + 1 && cfs[0] == principal
    ensures forall k :: 0 <= k < |rows| ==> cfs[k + 1] == -rows[k].payment
  {
    [principal] + seq(|rows|, k requires 0 <= k < |rows| => -rows[k].payment)
  }

  /** The rate plan fields the preview copies. */
  datatype RatePlan = RatePlan(currency: string, rateType: string, cap: int)

  /** The preview the page shows after a successful calculation. */
  datatype Preview = Preview(
    currency: string, rateType: string, cap: int, tem: real, principal: real, payment: real,
    van: real, tirAnnual: Option<real>, tcea: Option<real>, schedule: seq<LegacyRow>)

  /** Outcome of the form checks: the first failing message, or the accepted term, grace and principal. */
  datatype Checked = Rejected(msg: string) | Accepted(n: nat, g: nat, principal: real)

  const MsgNoClient: string := "Selecciona un cliente."
  const MsgNoProperty: string := "Selecciona una propiedad."
  const MsgNoPlan: string := "Selecciona un plan de tasa (entidad)."
  const MsgBadTerm: string := "Plazo inválido (1 a 480 meses)."
  const MsgBadGrace: string := "Meses de gracia inválidos."
  const MsgBadBonus: string := "Bono inválido."
  const MsgBadPrincipal: string := "El monto financiado (precio - inicial - bono) debe ser > 0."

  predicate TermOk(n: Option<int>) { n.Some? && 0 < n.value <= 480 }
  predicate GraceOk(g: Option<int>, n: int) { g.Some? && 0 <= g.value <= n }
  predicate BonusOk(bonus: Option<real>) { bonus.Some? && bonus.value >= 0.0 }

  /**
   * The checks of `buildScheduleAndIndicators`, in order. Term and grace
   * months are the parsed whole numbers (None when `Number` gives NaN or
   * an infinity); the bonus is the parsed amount when the bonus applies,
   * and 0 otherwise.
   */
  function Validate(hasClient: bool, hasProperty: bool, hasPlan: bool, n: Option<int>, g: Option<int>,
                    bonus: Option<real>, price: real, initial: real): (c: Checked)
    ensures c.Accepted? <==>
      hasClient && hasProperty && hasPlan && TermOk(n) && GraceOk(g, n.value) && BonusOk(bonus) &&
      price - initial - bonus.value > 0.0
    ensures c.Accepted? ==>
      c.n == n.value && c.g == g.value && c.g <= c.n && c.principal == price - initial - bonus.value
    ensures c == Rejected(MsgNoClient) <==> !hasClient
    ensures c == Rejected(MsgNoProperty) <==> hasClient && !hasProperty
    ensures c == Rejected(MsgNoPlan) <==> hasClient && hasProperty && !hasPlan
    ensures c == Rejected(MsgBadTerm) <==> hasClient && hasProperty && hasPlan && !TermOk(n)
    ensures c == Rejected(MsgBadGrace) <==>
      hasClient && hasProperty && hasPlan && TermOk(n) && !GraceOk(g, n.value)
    ensures c == Rejected(MsgBadBonus) <==>
      hasClient && hasProperty && hasPlan && TermOk(n) && GraceOk(g, n.value) && !BonusOk(bonus)
    ensures c == Rejected(MsgBadPrincipal) <==>
      hasClient && hasProperty && hasPlan && TermOk(n) && GraceOk(g, n.value) && BonusOk(bonus) &&
      !(price - initial - bonus.value > 0.0)
  {
    if !hasClient then Rejected(MsgNoClient)
    else if !hasProperty then Rejected(MsgNoProperty)
    else if !hasPlan then Rejected(MsgNoPlan)
    else if !TermOk(n) then Rejected(MsgBadTerm)
    else if !GraceOk(g, n.value) then Rejected(MsgBadGrace)
    else if !BonusOk(bonus) then Rejected(MsgBadBonus)
    else if !(price - initial - bonus.value > 0.0) then Rejected(MsgBadPrincipal)
    else Accepted(n.value, g.value, price - initial - bonus.value)
  }

  /** The preview computed from an accepted form. */
  ghost predicate PreviewFits(p: Preview, plan: RatePlan, tem: real, n: nat, g: nat, gt: GraceType, principal: real)
    requires tem > -1.0
  {
    var post := GraceBalance(principal, tem, g, gt);
    var cfs := Cashflows(principal, p.schedule);
    && p.currency == plan.currency && p.rateType == plan.rateType && p.cap == plan.cap
    && p.tem == tem && p.principal == principal
    && IsLegacySchedule(p.schedule, principal, tem, n, g, gt)
    && p.payment == PaymentFrench(post, tem, n - g)
    && p.van == Npv(cfs, tem)
    && p.tirAnnual == TirAnnual(Irr(cfs))
    && p.tcea == p.tirAnnual
  }

  /** The page state that `buildScheduleAndIndicators` sets. */
  class LegacySimulatePage {
    var msg: Option<string>
    var preview: Option<Preview>

    constructor()
      ensures msg == None && preview == None
    {
      msg := None;
      preview := None;
    }

    /**
     * `buildScheduleAndIndicators`: clears the message and the preview,
     * stops at the first failing check with its message, and otherwise
     * publishes the preview.
     */
    method BuildScheduleAndIndicators(client: bool, property: bool, plan: Option<RatePlan>,
                                      termMonths: Option<int>, graceMonths: Option<int>, gt: GraceType,
                                      applyBonus: bool, bonusAmount: Option<real>,
                                      price: real, initial: real, tem: real)
      requires tem > -1.0
      modifies this
      ensures var bonus := if applyBonus then bonusAmount else Some(0.0);
        match Validate(client, property, plan.Some?, termMonths, graceMonths, bonus, price, initial)
        case Rejected(m) => msg == Some(m) && preview == None
        case Accepted(n, g, principal) =>
          msg == None && preview.Some? && PreviewFits(preview.value, plan.value, tem, n, g, gt, principal)
    {
      msg := None;
      preview := None;
      var bonus := if applyBonus then bonusAmount else Some(0.0);
      var checked := Validate(client, property, plan.Some?, termMonths, graceMonths, bonus, price, initial);
      if checked.Rejected? {
        msg := Some(checked.msg);
        return;
      }
      var n, g, principal := checked.n, checked.g, checked.principal;
      var schedule, cuota := BuildSchedule(principal, tem, n, g, gt);
      var cashflows := Cashflows(principal, schedule);
      var van := NpvAtRate(cashflows, tem);
      var irrM := IrrMonthly(cashflows);
      var tirAnnual := TirAnnual(irrM);
      var tcea := tirAnnual;
      preview := Some(Preview(plan.value.currency, plan.value.rateType, plan.value.cap, tem, principal,
                              cuota, van, tirAnnual, tcea, schedule));
    }
  }
}
