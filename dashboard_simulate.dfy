/**
 * The dashboard simulation page: the ordered form checks of
 * `runSimulation`, how the amount to finance and the fees are composed,
 * the annualized TIR, the values written to the database, the input
 * clamps, and the page state the handler leaves behind.
 *
 * `Number(text)` is a parameter `num` (None when the text reads as NaN or
 * an infinity). The monthly rates `tem` and `cokM` need fractional powers
 * and are inputs.
 */
module DashboardSimulate {
  import opened Wrappers
  import opened Numbers
  import Finance

  /** A property as the page loads it. */
  datatype Property = Property(id: int, price: real, initialPayment: real, currency: string)

  /**
   * The form. A selection is None while the empty option is chosen; the
   * other fields are the raw texts and numbers of the inputs.
   */
  datatype Form = Form(
    client: Option<int>, property: Option<int>, entity: Option<int>,
    termYears: int, rateType: string, annualRate: string, capPerYear: int, cok: string,
    graceTotalMonths: int, gracePartialMonths: int,
    applyBono: bool, bonusAmount: string,
    desgravamen: string, propInsurance: string, portesMensual: string,
    costoNotarial: string, costoRegistral: string, tasacion: string,
    comisionEstudio: string, comisionActivacion: string,
    comisionPeriodica: string, gastosAdmin: string)

  /** `!selection` fails for the empty option and for the id 0. */
  predicate Chosen(sel: Option<int>) { sel.Some? && sel.value != 0 }

  /** `Number(text) || 0`: NaN (and 0) become 0. */
  function OrZero(x: Option<real>): real
  {
    if x.Some? then x.value else 0.0
  }

  /** `properties.find(p => p.id === id)`: the first property with that id. */
  function FindProperty(props: seq<Property>, id: int): (r: Option<Property>)
    ensures r.Some? <==> exists k :: 0 <= k < |props| && props[k].id == id
    ensures r.Some? ==> r.value in props && r.value.id == id
  {
    if |props| == 0 then None
    else if props[0].id == id then Some(props[0])
    else FindProperty(props[1..], id)
  }

  const MsgNoClient: string := "Selecciona un cliente."
  const MsgNoProperty: string := "Selecciona una propiedad."
  const MsgNoEntity: string := "Selecciona una entidad financiera."
  const MsgNoRate: string := "La tasa de interés es obligatoria."
  const MsgPropertyMissing: string := "No se encontró la propiedad seleccionada."
  const MsgBadRate: string := "La tasa debe ser mayor a 0."
  const MsgBadCok: string := "El COK debe ser mayor a 0."
  const MsgGraceTooLong: string := "Los meses de gracia no pueden superar el plazo total."
  const MsgBadPrincipal: string := "El monto a financiar debe ser mayor a 0."

  /** A percentage text that parses to a finite value whose hundredth is positive. */
  predicate PositivePercent(x: Option<real>) { x.Some? && x.value / 100.0 > 0.0 }

  /** Outcome of the checks: the first failing message, or the accepted values. */
  datatype Checked =
    | Rejected(msg: string)
    | Accepted(prop: Property, rate: real, cokA: real, totalMonths: int, gT: nat, gP: nat)

  /** The checks of `runSimulation`, in the order they run. */
  function Validate(form: Form, props: seq<Property>, num: string -> Option<real>): (c: Checked)
    ensures c == Rejected(MsgNoClient) <==> !Chosen(form.client)
    ensures c == Rejected(MsgNoProperty) <==> Chosen(form.client) && !Chosen(form.property)
    ensures c == Rejected(MsgNoEntity) <==>
      Chosen(form.client) && Chosen(form.property) && !Chosen(form.entity)
    ensures c == Rejected(MsgNoRate) <==>
      Chosen(form.client) && Chosen(form.property) && Chosen(form.entity) && form.annualRate == ""
    ensures c == Rejected(MsgPropertyMissing) <==>
      Chosen(form.client) && Chosen(form.property) && Chosen(form.entity) && form.annualRate != "" &&
      FindProperty(props, form.property.value).None?
    ensures c == Rejected(MsgBadRate) <==>
      Chosen(form.client) && Chosen(form.property) && Chosen(form.entity) && form.annualRate != "" &&
      FindProperty(props, form.property.value).Some? && !PositivePercent(num(form.annualRate))
    ensures c == Rejected(MsgBadCok) <==>
      Chosen(form.client) && Chosen(form.property) && Chosen(form.entity) && form.annualRate != "" &&
      FindProperty(props, form.property.value).Some? && PositivePercent(num(form.annualRate)) &&
      !PositivePercent(num(form.cok))
    ensures c == Rejected(MsgGraceTooLong) <==>
      Chosen(form.client) && Chosen(form.property) && Chosen(form.entity) && form.annualRate != "" &&
      FindProperty(props, form.property.value).Some? && PositivePercent(num(form.annualRate)) &&
      PositivePercent(num(form.cok)) &&
      MaxInt(0, form.graceTotalMonths) + MaxInt(0, form.gracePartialMonths) >= form.termYears * 12
    ensures c.Accepted? <==>
      Chosen(form.client) && Chosen(form.property) && Chosen(form.entity) && form.annualRate != "" &&
      FindProperty(props, form.property.value).Some? && PositivePercent(num(form.annualRate)) &&
      PositivePercent(num(form.cok)) &&
      MaxInt(0, form.graceTotalMonths) + MaxInt(0, form.gracePartialMonths) < form.termYears * 12
    ensures c.Rejected? ==> c.msg != MsgBadPrincipal
    ensures c.Accepted? ==>
      && c.prop in props && c.prop.id == form.property.value
      && c.rate == num(form.annualRate).value / 100.0 && c.rate > 0.0
      && c.cokA == num(form.cok).value / 100.0 && c.cokA > 0.0
      && c.totalMonths == form.termYears * 12
      && c.gT == MaxInt(0, form.graceTotalMonths) && c.gP == MaxInt(0, form.gracePartialMonths)
      && c.gT + c.gP < c.totalMonths
  {
    if !Chosen(form.client) then Rejected(MsgNoClient)
    else if !Chosen(form.property) then Rejected(MsgNoProperty)
    else if !Chosen(form.entity) then Rejected(MsgNoEntity)
    else if form.annualRate == "" then Rejected(MsgNoRate)
    else
      var prop := FindProperty(props, form.property.value);
      if prop.None? then Rejected(MsgPropertyMissing)
      else if !PositivePercent(num(form.annualRate)) then Rejected(MsgBadRate)
      else if !PositivePercent(num(form.cok)) then Rejected(MsgBadCok)
      else
        var totalMonths := form.termYears * 12;
        var gT := MaxInt(0, form.graceTotalMonths);
        var gP := MaxInt(0, form.gracePartialMonths);
        if gT + gP >= totalMonths then Rejected(MsgGraceTooLong)
        else Accepted(prop.value, num(form.annualRate).value / 100.0, num(form.cok).value / 100.0,
                      totalMonths, gT, gP)
  }

  /** A grace that reaches the term is only ever reported after every earlier check passed. */
  lemma GraceRejectedLast(form: Form, props: seq<Property>, num: string -> Option<real>)
    requires Validate(form, props, num) == Rejected(MsgGraceTooLong)
    ensures Chosen(form.client) && Chosen(form.property) && Chosen(form.entity)
    ensures FindProperty(props, form.property.value).Some?
    ensures PositivePercent(num(form.annualRate)) && PositivePercent(num(form.cok))
    ensures MaxInt(0, form.graceTotalMonths) + MaxInt(0, form.gracePartialMonths) >= form.termYears * 12
  {
  }

  // ---------------------------------------------------------------------------
  // Amounts
  // ---------------------------------------------------------------------------

  /** The USD to PEN rate: `Number(rate) || 3.75`, so a missing, NaN or zero rate falls back to 3.75. */
  function FxRate(fx: Option<real>): (r: real)
    ensures r != 0.0
    ensures fx.Some? && fx.value != 0.0 ==> r == fx.value
  {
    if fx.Some? && fx.value != 0.0 then fx.value else 3.75
  }

  /** The amounts `runSimulation` derives from the property and the form, in soles. */
  datatype Amounts = Amounts(
    fxRate: real, pricePEN: real, initPEN: real, bonusPEN: real,
    desRate: real, insRate: real, portesTotal: real, costoInicial: real, principal: real)

  /** The bonus in the property's currency: 0 unless the bonus applies. */
  function Bonus(form: Form, num: string -> Option<real>): real
  {
    if form.applyBono then OrZero(num(form.bonusAmount)) else 0.0
  }

  /** The upfront costs added to the amount to finance. */
  function UpfrontCosts(form: Form, num: string -> Option<real>): real
  {
    OrZero(num(form.costoNotarial)) + OrZero(num(form.costoRegistral)) + OrZero(num(form.tasacion)) +
    OrZero(num(form.comisionEstudio)) + OrZero(num(form.comisionActivacion))
  }

  /** The fixed monthly fees passed to the schedule. */
  function MonthlyFees(form: Form, num: string -> Option<real>): real
  {
    OrZero(num(form.portesMensual)) + OrZero(num(form.comisionPeriodica)) + OrZero(num(form.gastosAdmin))
  }

  /**
   * Price, initial payment and bonus are converted to soles with the fetched
   * rate when the property is in USD; the upfront costs are added as they are.
   */
  function ComposeAmounts(prop: Property, form: Form, num: string -> Option<real>, fxLookup: Option<real>)
    : (a: Amounts)
    ensures a.fxRate == (if prop.currency == "USD" then FxRate(fxLookup) else 1.0)
    ensures a.pricePEN == prop.price * a.fxRate && a.initPEN == prop.initialPayment * a.fxRate
    ensures a.bonusPEN == Bonus(form, num) * a.fxRate
    ensures a.principal == a.pricePEN - a.initPEN - a.bonusPEN + a.costoInicial
    ensures a.costoInicial == UpfrontCosts(form, num) && a.portesTotal == MonthlyFees(form, num)
    ensures a.desRate == OrZero(num(form.desgravamen)) / 100.0
    ensures a.insRate == OrZero(num(form.propInsurance)) / 100.0
  {
    var usd := prop.currency == "USD";
    var fx := if usd then FxRate(fxLookup) else 1.0;
    var pricePEN := if usd then prop.price * fx else prop.price;
    var initPEN := if usd then prop.initialPayment * fx else prop.initialPayment;
    var bonus := Bonus(form, num);
    var bonusPEN := if usd then bonus * fx else bonus;
    var costoInicial := UpfrontCosts(form, num);
    Amounts(fx, pricePEN, initPEN, bonusPEN,
            OrZero(num(form.desgravamen)) / 100.0, OrZero(num(form.propInsurance)) / 100.0,
            MonthlyFees(form, num), costoInicial, pricePEN - initPEN - bonusPEN + costoInicial)
  }

  /** For a USD property the converted part is fx * (price - initial - bonus); the costs are not converted. */
  lemma UsdPrincipal(prop: Property, form: Form, num: string -> Option<real>, fxLookup: Option<real>)
    requires prop.currency == "USD"
    ensures var a := ComposeAmounts(prop, form, num, fxLookup);
      a.principal == FxRate(fxLookup) * (prop.price - prop.initialPayment - Bonus(form, num)) +
                     UpfrontCosts(form, num)
  {
    var fx := FxRate(fxLookup);
    assert prop.price * fx - prop.initialPayment * fx - Bonus(form, num) * fx
        == fx * (prop.price - prop.initialPayment - Bonus(form, num));
  }

  /** A PEN property does not depend on the exchange rate at all. */
  lemma PenPrincipalIgnoresFx(prop: Property, form: Form, num: string -> Option<real>,
                              fx1: Option<real>, fx2: Option<real>)
    requires prop.currency != "USD"
    ensures ComposeAmounts(prop, form, num, fx1) == ComposeAmounts(prop, form, num, fx2)
    ensures ComposeAmounts(prop, form, num, fx1).principal ==
      prop.price - prop.initialPayment - Bonus(form, num) + UpfrontCosts(form, num)
  {
  }

  // ---------------------------------------------------------------------------
  // Indicators
  // ---------------------------------------------------------------------------

  /** `tirA`: (1+tirM)^12 - 1 for a positive monthly TIR, and -1 otherwise. */
  function AnnualizeTir(tirM: real): (a: real)
    ensures a > 0.0 <==> tirM > 0.0
    ensures tirM > 0.0 ==> a == Pow(1.0 + tirM, 12) - 1.0 && a >= 12.0 * tirM
    ensures tirM <= 0.0 ==> a == -1.0
  {
    if tirM > 0.0 then
      Bernoulli(tirM, 12);
      Pow(1.0 + tirM, 12) - 1.0
    else -1.0
  }

  /** Index of the first row with `isGrace` false, or -1 when every row is a grace row. */
  function FirstRegular(rows: seq<Finance.ScheduleRow>): (k: int)
    ensures -1 <= k < |rows|
    ensures k >= 0 ==> !rows[k].isGrace && forall j :: 0 <= j < k ==> rows[j].isGrace
    ensures k == -1 ==> forall j :: 0 <= j < |rows| ==> rows[j].isGrace
  {
    if |rows| == 0 then -1
    else if !rows[0].isGrace then 0
    else
      var k := FirstRegular(rows[1..]);
      if k == -1 then -1 else k + 1
  }

  /** `monthlyPayment`: the installment of the first non-grace row, or 0. */
  function MonthlyPayment(rows: seq<Finance.ScheduleRow>): real
  {
    var k := FirstRegular(rows);
    if k >= 0 then rows[k].basePayment else 0.0
  }

  /**
   * On a schedule built by `generateSchedule`, the reported monthly payment
   * is the installment of the amortizing phase, or 0 when grace fills the term.
   */
  lemma MonthlyPaymentIsPhaseCuota(rows: seq<Finance.ScheduleRow>, t: Finance.Terms)
    requires t.tem > -1.0 && Finance.IsSchedule(rows, t)
    ensures t.totalMonths > t.graceTotal + t.gracePartial ==>
      MonthlyPayment(rows) == Finance.PhaseCuota(t.principal, t.tem, t.totalMonths, t.graceTotal, t.gracePartial)
    ensures t.totalMonths <= t.graceTotal + t.gracePartial ==> MonthlyPayment(rows) == 0.0
  {
    var grace := t.graceTotal + t.gracePartial;
    var post := Finance.PostGraceBalance(t.principal, t.tem, t.graceTotal);
    var cuota := Finance.PhaseCuota(t.principal, t.tem, t.totalMonths, t.graceTotal, t.gracePartial);
    var k := FirstRegular(rows);
    if t.totalMonths > grace {
      assert Finance.RowFits(t, rows, grace, post, cuota);
      assert k >= 0;
      assert Finance.RowFits(t, rows, k, post, cuota);
      assert k == grace;
    } else {
      forall j | 0 <= j < |rows| ensures rows[j].isGrace {
        assert Finance.RowFits(t, rows, j, post, cuota);
      }
    }
  }

  // ---------------------------------------------------------------------------
  // Values written to the database
  // ---------------------------------------------------------------------------

  /** `grace_type`: TOTAL when there is total grace, else PARTIAL when there is partial grace, else NONE. */
  function GraceTypeOf(gT: nat, gP: nat): string
  {
    if gT > 0 then "TOTAL" else if gP > 0 then "PARTIAL" else "NONE"
  }

  /** `grace_months`: the total grace when there is any, otherwise the partial grace. */
  function GraceMonthsOf(gT: nat, gP: nat): nat
  {
    if gT > 0 then gT else gP
  }

  /** How a stored (grace_type, grace_months) pair reads back as (total, partial) grace months. */
  function GraceFromRecord(graceType: string, months: nat): (nat, nat)
  {
    if graceType == "TOTAL" then (months, 0)
    else if graceType == "PARTIAL" then (0, months)
    else (0, 0)
  }

  /** The stored pair describes the grace exactly when at most one kind of grace was used. */
  lemma GraceRecordRoundTrip(gT: nat, gP: nat)
    ensures GraceFromRecord(GraceTypeOf(gT, gP), GraceMonthsOf(gT, gP)) == (gT, gP) <==> gT == 0 || gP == 0
  {
  }

  /** `tcea` and `tir` columns: null unless positive. */
  function NullUnlessPositive(x: real): (r: Option<real>)
    ensures r.Some? <==> x > 0.0
    ensures r.Some? ==> r.value == x
  {
    if x > 0.0 then Some(x) else None
  }

  /** The stored TIR is present exactly when the monthly TIR was positive. */
  lemma StoredTirPresentIffPositive(tirM: real)
    ensures NullUnlessPositive(AnnualizeTir(tirM)).Some? <==> tirM > 0.0
  {
  }

  /** One `schedule_rows` record. Columns that older rows lack are optional. */
  datatype StoredRow = StoredRow(
    n: int, payment: real, interest: real, amortization: real, balance: real,
    basePayment: Option<real>, desgravamen: Option<real>, propertyInsurance: Option<real>,
    monthlyFees: Option<real>, totalPayment: Option<real>, cashflow: Option<real>,
    isGracePeriod: Option<bool>)

  /** The record this page writes for a schedule row; `payment` holds the base payment. */
  function EncodeRow(r: Finance.ScheduleRow): (s: StoredRow)
    ensures s.n == r.period && s.payment == r.basePayment && s.basePayment == Some(r.basePayment)
    ensures s.interest == r.interest && s.amortization == r.amort && s.balance == r.balance
    ensures s.desgravamen == Some(r.desgravamen) && s.propertyInsurance == Some(r.propertyInsurance)
    ensures s.monthlyFees == Some(r.monthlyFees) && s.totalPayment == Some(r.totalPayment)
    ensures s.cashflow == Some(r.cashflow) && s.isGracePeriod == Some(r.isGrace)
  {
    StoredRow(r.period, r.basePayment, r.interest, r.amort, r.balance,
              Some(r.basePayment), Some(r.desgravamen), Some(r.propertyInsurance),
              Some(r.monthlyFees), Some(r.totalPayment), Some(r.cashflow), Some(r.isGrace))
  }

  // ---------------------------------------------------------------------------
  // Input clamps
  // ---------------------------------------------------------------------------

  /** The term in years typed into the form: `min(25, max(5, Number(v) || 5))`. */
  function ClampTermYears(v: Option<real>): (y: real)
    ensures 5.0 <= y <= 25.0
    ensures v.Some? && 5.0 <= v.value <= 25.0 ==> y == v.value
    ensures v.None? || v.value == 0.0 ==> y == 5.0
    ensures v.Some? && v.value > 25.0 ==> y == 25.0
    ensures v.Some? && v.value != 0.0 && v.value < 5.0 ==> y == 5.0
  {
    var x := if v.Some? && v.value != 0.0 then v.value else 5.0;
    if x > 25.0 then 25.0 else if x < 5.0 then 5.0 else x
  }

  /** The grace months typed into the form: `max(0, Number(v) || 0)`. */
  function ClampGrace(v: Option<real>): (g: real)
    ensures g >= 0.0
    ensures v.Some? && v.value >= 0.0 ==> g == v.value
    ensures v.None? || v.value <= 0.0 ==> g == 0.0
  {
    Max(0.0, OrZero(v))
  }

  /** Clamping an already clamped value changes nothing. */
  lemma ClampsIdempotent(v: Option<real>)
    ensures ClampTermYears(Some(ClampTermYears(v))) == ClampTermYears(v)
    ensures ClampGrace(Some(ClampGrace(v))) == ClampGrace(v)
  {
  }

  // ---------------------------------------------------------------------------
  // The page
  // ---------------------------------------------------------------------------

  /** `SimResults`. */
  datatype SimResults = SimResults(
    monthlyPayment: real, tem: real, tcea: real, van: real, tirM: real, tirA: real,
    schedule: seq<Finance.ScheduleRow>, principal: real, annualRate: real, rateType: string,
    currency: string, exchangeRateUsed: real, principalPEN: real)

  /** The `loan_simulations` record written after a calculation. */
  datatype SimulationRecord = SimulationRecord(
    clientId: int, propertyId: int, entityId: int, currency: string,
    propertyValue: real, initialPayment: real, bonusAmount: real, principal: real,
    termMonths: int, annualRateUsed: real, rateTypeUsed: string, capitalizationPerYear: int,
    monthlyRate: real, monthlyPayment: real, graceType: string, graceMonths: nat,
    tcea: Option<real>, van: real, tir: Option<real>,
    desgravamenRate: real, propertyInsuranceRate: real, monthlyFeesFixed: real,
    upfrontCostsFixed: real, cokMonthly: real, exchangeRateUsed: real)

  /**
   * What the page hands to the database: the simulation, and its rows,
   * which are sent only once the simulation insert has returned its record
   * (None when they are not sent).
   */
  datatype Insert = Insert(simulation: SimulationRecord, rows: Option<seq<StoredRow>>)

  /** The flows passed to `calcTIR` and `calcVAN`: each row's cashflow. */
  function Cashflows(rows: seq<Finance.ScheduleRow>): (cfs: seq<real>)
    ensures |cfs| == |rows| && forall k :: 0 <= k < |rows| ==> cfs[k] == rows[k].cashflow
  {
    seq(|rows|, k requires 0 <= k < |rows| => rows[k].cashflow)
  }

  /** The schedule `generateSchedule` builds for an accepted form. */
  function TermsOf(c: Checked, a: Amounts, tem: real): Finance.Terms
    requires c.Accepted?
  {
    Finance.Terms(a.principal, tem, c.totalMonths, c.gT, c.gP, a.desRate, a.insRate, a.pricePEN, a.portesTotal)
  }

  /** The results of an accepted form with a positive principal. */
  ghost predicate ResultsFit(r: SimResults, form: Form, c: Checked, a: Amounts, tem: real, cokM: real)
    requires c.Accepted? && tem > -1.0 && cokM > -1.0
  {
    var cfs := Cashflows(r.schedule);
    && Finance.IsSchedule(r.schedule, TermsOf(c, a, tem))
    && r.tirM == Finance.Tir(a.principal, cfs)
    && r.tirA == AnnualizeTir(r.tirM) && r.tcea == r.tirA
    && r.van == Finance.CalcVAN(a.principal, cfs, cokM)
    && r.monthlyPayment == MonthlyPayment(r.schedule)
    && r.tem == tem && r.principal == a.principal && r.principalPEN == a.principal
    && r.annualRate == c.rate && r.rateType == form.rateType && r.currency == c.prop.currency
    && r.exchangeRateUsed == a.fxRate
  }

  /** The records written for `r`. */
  function InsertOf(r: SimResults, form: Form, c: Checked, a: Amounts, cokM: real, inserted: bool): (ins: Insert)
    requires c.Accepted? && Chosen(form.client) && Chosen(form.property) && Chosen(form.entity)
    ensures ins.rows.Some? <==> inserted
    ensures inserted ==> |ins.rows.value| == |r.schedule|
    ensures inserted ==> forall k :: 0 <= k < |r.schedule| ==> ins.rows.value[k] == EncodeRow(r.schedule[k])
    ensures ins.simulation.graceType == GraceTypeOf(c.gT, c.gP)
    ensures ins.simulation.graceMonths == GraceMonthsOf(c.gT, c.gP)
    ensures ins.simulation.tcea == NullUnlessPositive(r.tcea) && ins.simulation.tir == NullUnlessPositive(r.tirA)
  {
    Insert(
      SimulationRecord(
        form.client.value, form.property.value, form.entity.value, "PEN",
        a.pricePEN, a.initPEN, a.bonusPEN, a.principal,
        c.totalMonths, c.rate, form.rateType, form.capPerYear,
        r.tem, r.monthlyPayment, GraceTypeOf(c.gT, c.gP), GraceMonthsOf(c.gT, c.gP),
        NullUnlessPositive(r.tcea), r.van, NullUnlessPositive(r.tirA),
        a.desRate, a.insRate, a.portesTotal, a.costoInicial, cokM, a.fxRate),
      if inserted then Some(seq(|r.schedule|, k requires 0 <= k < |r.schedule| => EncodeRow(r.schedule[k])))
      else None)
  }

  /** The page state `runSimulation` reads and writes. */
  class SimulatePage {
    var error: Option<string>
    var saved: bool
    var results: Option<SimResults>
    var showSchedule: bool
    var loading: bool
    var lastInsert: Option<Insert>

    constructor()
      ensures error == None && !saved && results == None && !showSchedule && !loading && lastInsert == None
    {
      error := None;
      saved := false;
      results := None;
      showSchedule := false;
      loading := false;
      lastInsert := None;
    }

    /** The computation behind `runSimulation`, from the checked form and its amounts to the results shown. */
    static method Simulate(form: Form, c: Checked, a: Amounts, tem: real, cokM: real) returns (r: SimResults)
      requires c.Accepted? && tem > -1.0 && cokM > -1.0
      ensures ResultsFit(r, form, c, a, tem, cokM)
    {
      var schedule := Finance.GenerateSchedule(a.principal, tem, c.totalMonths, c.gT, c.gP,
                                               a.desRate, a.insRate, a.pricePEN, a.portesTotal);
      var cashflows := Cashflows(schedule);
      var tirM := Finance.CalcTIR(a.principal, cashflows);
      var tirA := AnnualizeTir(tirM);
      var tcea := tirA;
      var van := Finance.CalcVAN(a.principal, cashflows, cokM);
      var monthlyPayment := MonthlyPayment(schedule);
      r := SimResults(monthlyPayment, tem, tcea, van, tirM, tirA, schedule, a.principal, c.rate,
                      form.rateType, c.prop.currency, a.fxRate, a.principal);
    }

    /**
     * `runSimulation`. It clears the previous outcome, stops at the first
     * failing check with its message, and otherwise publishes the results.
     * `fxLookup` is the exchange rate the database returns, `planFound`
     * whether a rate plan of the entity exists, and `inserted` whether the
     * simulation insert returned a record; only then are the schedule rows
     * sent and the simulation marked saved.
     */
    method RunSimulation(form: Form, props: seq<Property>, num: string -> Option<real>,
                         fxLookup: Option<real>, tem: real, cokM: real, planFound: bool, inserted: bool)
      requires tem > -1.0 && cokM > -1.0
      modifies this
      ensures !showSchedule
      ensures match Validate(form, props, num)
        case Rejected(m) =>
          error == Some(m) && results == None && !saved && loading == old(loading) &&
          lastInsert == old(lastInsert)
        case Accepted(prop, _, _, _, _, _) =>
          var c := Validate(form, props, num);
          var a := ComposeAmounts(prop, form, num, fxLookup);
          !loading &&
          if a.principal <= 0.0 then
            error == Some(MsgBadPrincipal) && results == None && !saved && lastInsert == old(lastInsert)
          else
            && error == None && results.Some?
            && ResultsFit(results.value, form, c, a, tem, cokM)
            && lastInsert == (if planFound then Some(InsertOf(results.value, form, c, a, cokM, inserted))
                              else old(lastInsert))
            && saved == (planFound && inserted)
    {
      error := None;
      saved := false;
      results := None;
      showSchedule := false;

      var c := Validate(form, props, num);
      if c.Rejected? {
        error := Some(c.msg);
        return;
      }
      loading := true;
      var a := ComposeAmounts(c.prop, form, num, fxLookup);
      if a.principal <= 0.0 {
        loading := false;
        error := Some(MsgBadPrincipal);
        return;
      }
      var r := Simulate(form, c, a, tem, cokM);
      results := Some(r);
      loading := false;
      if planFound {
        lastInsert := Some(InsertOf(r, form, c, a, cokM, inserted));
        saved := inserted;
      }
    }
  }
}
