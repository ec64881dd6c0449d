/**
 * The simulation history page: the decoder of stored schedule rows, the
 * expand/collapse cache of `loadDetail`, the list update of `deleteSim`,
 * the search filter, the collapsed schedule view and the CSV of
 * `exportDetailCSV`.
 */
module SimulationHistory {
  import opened Wrappers
  import opened Strings
  import opened Lists
  import Finance
  import DashboardSimulate
  import Exports

  datatype ClientRef = ClientRef(names: string, lastNames: string, dni: string)
  datatype PropertyRef = PropertyRef(name: string, location: string, currency: string)
  datatype EntityRef = EntityRef(name: string)

  /** A stored simulation with its joined client, property and entity, each possibly null. */
  datatype Simulation = Simulation(
    id: int, createdAt: string, currency: string, principal: real, termMonths: int,
    monthlyPayment: real, monthlyRate: real, tcea: Option<real>, van: Option<real>, tir: Option<real>,
    graceType: string, graceMonths: int, annualRateUsed: real, rateTypeUsed: string,
    propertyValue: real, exchangeRateUsed: real,
    client: Option<ClientRef>, property: Option<PropertyRef>, entity: Option<EntityRef>)

  // ---------------------------------------------------------------------------
  // Decoding stored rows
  // ---------------------------------------------------------------------------

  /** The row decoder of `loadDetail`: missing columns fall back to `payment`, 0 or false. */
  function DecodeRow(r: DashboardSimulate.StoredRow): (d: Finance.ScheduleRow)
    ensures d.period == r.n && d.balance == r.balance && d.interest == r.interest && d.amort == r.amortization
  {
    Finance.ScheduleRow(
      r.n, r.balance, r.interest, r.amortization,
      r.basePayment.GetOr(r.payment),
      r.desgravamen.GetOr(0.0),
      r.propertyInsurance.GetOr(0.0),
      r.monthlyFees.GetOr(0.0),
      r.totalPayment.GetOr(r.payment),
      r.cashflow.GetOr(-r.payment),
      r.isGracePeriod.GetOr(false))
  }

  /** Every row the dashboard simulation writes reads back unchanged. */
  lemma DecodeEncode(row: Finance.ScheduleRow)
    ensures DecodeRow(DashboardSimulate.EncodeRow(row)) == row
  {
  }

  /**
   * A row that has only the five original columns reads as a regular row
   * whose whole payment is the installment and whose flow is its negation.
   */
  lemma DecodeOlderRow(r: DashboardSimulate.StoredRow)
    requires r.basePayment.None? && r.desgravamen.None? && r.propertyInsurance.None?
    requires r.monthlyFees.None? && r.totalPayment.None? && r.cashflow.None? && r.isGracePeriod.None?
    ensures var d := DecodeRow(r);
      && d.basePayment == r.payment && d.totalPayment == r.payment && d.cashflow == -r.payment
      && d.desgravamen == 0.0 && d.propertyInsurance == 0.0 && d.monthlyFees == 0.0
      && !d.isGrace
      && d.totalPayment == d.basePayment + d.desgravamen + d.propertyInsurance + d.monthlyFees
  {
  }

  function DecodeRows(data: seq<DashboardSimulate.StoredRow>): (rows: seq<Finance.ScheduleRow>)
    ensures |rows| == |data| && forall k :: 0 <= k < |data| ==> rows[k] == DecodeRow(data[k])
  {
    seq(|data|, k requires 0 <= k < |data| => DecodeRow(data[k]))
  }

  // ---------------------------------------------------------------------------
  // Expand / collapse
  // ---------------------------------------------------------------------------

  /** `expanded === simId ? null : simId`. */
  function Toggle(expanded: Option<int>, simId: int): (e: Option<int>)
    ensures e == None <==> expanded == Some(simId)
    ensures e != None ==> e == Some(simId)
  {
    if expanded == Some(simId) then None else Some(simId)
  }

  /** Toggling twice restores the state only when nothing, or this simulation, was expanded. */
  lemma ToggleTwice(expanded: Option<int>, simId: int)
    ensures Toggle(Toggle(expanded, simId), simId) == expanded <==> expanded == None || expanded == Some(simId)
  {
  }

  // ---------------------------------------------------------------------------
  // Deleting
  // ---------------------------------------------------------------------------

  /** `sims.filter(s => s.id !== simId)`. */
  function RemoveSimulation(sims: seq<Simulation>, simId: int): seq<Simulation>
  {
    Filter(sims, (s: Simulation) => s.id != simId)
  }

  /**
   * Removing a simulation drops every simulation with that id and keeps
   * every copy of the others, in their original order.
   */
  lemma RemoveSimulationExactly(sims: seq<Simulation>, simId: int)
    ensures forall k :: 0 <= k < |RemoveSimulation(sims, simId)| ==> RemoveSimulation(sims, simId)[k].id != simId
    ensures forall s: Simulation :: s.id != simId ==> multiset(RemoveSimulation(sims, simId))[s] == multiset(sims)[s]
    ensures IsSubsequence(RemoveSimulation(sims, simId), sims)
  {
    var p := (s: Simulation) => s.id != simId;
    forall s: Simulation | s.id != simId
      ensures multiset(RemoveSimulation(sims, simId))[s] == multiset(sims)[s]
    {
      FilterMultiplicity(sims, p, s);
    }
    FilterIsSubsequence(sims, p);
  }

  // ---------------------------------------------------------------------------
  // Search
  // ---------------------------------------------------------------------------

  /**
   * The `filtered` predicate: the lowercased search (not trimmed) occurs in a
   * lowercased client name, last name, property name or entity name, or in
   * the dni as it is. A null relation matches nothing.
   */
  predicate Matches(s: Simulation, search: string)
  {
    var q := ToLower(search);
    || (s.client.Some? && (Contains(ToLower(s.client.value.names), q) ||
                           Contains(ToLower(s.client.value.lastNames), q) ||
                           Contains(s.client.value.dni, q)))
    || (s.property.Some? && Contains(ToLower(s.property.value.name), q))
    || (s.entity.Some? && Contains(ToLower(s.entity.value.name), q))
  }

  function FilterSimulations(sims: seq<Simulation>, search: string): seq<Simulation>
  {
    Filter(sims, (s: Simulation) => Matches(s, search))
  }

  /** An empty search keeps exactly the simulations with at least one non-null relation. */
  lemma EmptySearchKeepsLinked(s: Simulation)
    ensures Matches(s, "") <==> s.client.Some? || s.property.Some? || s.entity.Some?
  {
    if s.client.Some? {
      ContainsEmpty(ToLower(s.client.value.names));
    }
    if s.property.Some? {
      ContainsEmpty(ToLower(s.property.value.name));
    }
    if s.entity.Some? {
      ContainsEmpty(ToLower(s.entity.value.name));
    }
  }

  /** The search is case-blind: only its lowercased form matters. */
  lemma SearchIgnoresCase(s: Simulation, search: string)
    ensures Matches(s, ToLower(search)) == Matches(s, search)
  {
    ToLowerIdempotent(search);
  }

  /** Narrowing: whatever a search matches, any search contained in it (after lowercasing) matches too. */
  lemma SearchNarrows(s: Simulation, wide: string, narrow: string)
    requires Contains(ToLower(narrow), ToLower(wide)) && Matches(s, narrow)
    ensures Matches(s, wide)
  {
    var q, q2 := ToLower(wide), ToLower(narrow);
    if s.client.Some? && Contains(ToLower(s.client.value.names), q2) {
      ContainsTransitive(ToLower(s.client.value.names), q2, q);
    } else if s.client.Some? && Contains(ToLower(s.client.value.lastNames), q2) {
      ContainsTransitive(ToLower(s.client.value.lastNames), q2, q);
    } else if s.client.Some? && Contains(s.client.value.dni, q2) {
      ContainsTransitive(s.client.value.dni, q2, q);
    } else if s.property.Some? && Contains(ToLower(s.property.value.name), q2) {
      ContainsTransitive(ToLower(s.property.value.name), q2, q);
    } else {
      ContainsTransitive(ToLower(s.entity.value.name), q2, q);
    }
  }

  /** The filtered list keeps the matching simulations in their original order. */
  lemma FilterSimulationsInOrder(sims: seq<Simulation>, search: string)
    ensures IsSubsequence(FilterSimulations(sims, search), sims)
    ensures forall k :: 0 <= k < |FilterSimulations(sims, search)| ==> Matches(FilterSimulations(sims, search)[k], search)
  {
    FilterIsSubsequence(sims, (s: Simulation) => Matches(s, search));
  }

  // ---------------------------------------------------------------------------
  // The collapsed schedule
  // ---------------------------------------------------------------------------

  const CollapsedRows: nat := 6

  /** `rows.slice(0, full ? undefined : 6)`. */
  function VisibleRows(rows: seq<Finance.ScheduleRow>, full: bool): (v: seq<Finance.ScheduleRow>)
    ensures v <= rows
    ensures full ==> v == rows
    ensures !full ==> |v| == if |rows| < CollapsedRows then |rows| else CollapsedRows
  {
    if full || |rows| <= CollapsedRows then rows else rows[..CollapsedRows]
  }

  /** The count shown in the "... y k periodos más" note, when the note is shown. */
  function HiddenCount(rows: seq<Finance.ScheduleRow>, full: bool): (k: Option<nat>)
    ensures k.Some? <==> !full && |rows| > CollapsedRows
  {
    if !full && |rows| > CollapsedRows then Some(|rows| - CollapsedRows) else None
  }

  /** The visible rows and the note account for every row: nothing is lost or counted twice. */
  lemma CollapsedViewAccountsForAll(rows: seq<Finance.ScheduleRow>, full: bool)
    ensures |VisibleRows(rows, full)| + HiddenCount(rows, full).GetOr(0) == |rows|
  {
  }

  // ---------------------------------------------------------------------------
  // exportDetailCSV
  // ---------------------------------------------------------------------------

  const DetailHeader: seq<string> :=
    ["N°", "Tipo", "Interés", "Amortización", "Cuota", "Desgravamen", "Seg.Inmueble", "Portes", "Saldo", "Flujo"]

  /** A JavaScript truthiness test on a nullable number: null and 0 are falsy. */
  predicate Truthy(x: Option<real>) { x.Some? && x.value != 0.0 }

  function ClientLabel(sim: Simulation): string
  {
    if sim.client.Some? then sim.client.value.names + " " + sim.client.value.lastNames else "Cliente"
  }

  /**
   * The rows of `exportDetailCSV`: title, a blank line, ten summary lines,
   * a blank line, the header, then one line per schedule row. TCEA and TIR
   * show "N/D" when falsy, VAN only when null.
   */
  function DetailLines(sim: Simulation, rows: seq<Finance.ScheduleRow>, fm: Exports.Formats, date: string -> string)
    : (lines: seq<seq<string>>)
    ensures |lines| == 14 + |rows|
    ensures lines[0] == [Exports.Title] && lines[1] == [] && lines[12] == [] && lines[13] == DetailHeader
    ensures lines[4] == ["Cliente:", ClientLabel(sim)]
    ensures lines[9] == ["TCEA:", if Truthy(sim.tcea) then fm.fmtPs(sim.tcea.value) else "N/D"]
    ensures lines[10] == ["VAN:", if sim.van.Some? then "S/ " + fm.n2(sim.van.value) else "N/D"]
    ensures lines[11] == ["TIR:", if Truthy(sim.tir) then fm.fmtPs(sim.tir.value) else "N/D"]
    ensures forall k :: 0 <= k < |rows| ==> lines[14 + k] == Exports.DataCells(rows[k], fm.n2)
  {
    DetailMeta(sim, fm, date) + seq(|rows|, k requires 0 <= k < |rows| => Exports.DataCells(rows[k], fm.n2))
  }

  /** The fourteen lines above the schedule in `exportDetailCSV`. */
  function DetailMeta(sim: Simulation, fm: Exports.Formats, date: string -> string): (meta: seq<seq<string>>)
    ensures |meta| == 14
  {
    [[Exports.Title],
     [],
     ["ID:", IntToString(sim.id)],
     ["Fecha:", date(sim.createdAt)],
     ["Cliente:", ClientLabel(sim)],
     ["Inmueble:", if sim.property.Some? then sim.property.value.name else "—"],
     ["Entidad:", if sim.entity.Some? then sim.entity.value.name else "—"],
     ["Principal:", "S/ " + fm.n2(sim.principal)],
     ["TEM:", fm.fmtP(sim.monthlyRate)],
     ["TCEA:", if Truthy(sim.tcea) then fm.fmtPs(sim.tcea.value) else "N/D"],
     ["VAN:", if sim.van.Some? then "S/ " + fm.n2(sim.van.value) else "N/D"],
     ["TIR:", if Truthy(sim.tir) then fm.fmtPs(sim.tir.value) else "N/D"],
     [],
     DetailHeader]
  }

  /** A zero TCEA prints "N/D", while a zero VAN prints as an amount. */
  lemma ZeroTceaHiddenZeroVanShown(sim: Simulation, rows: seq<Finance.ScheduleRow>, fm: Exports.Formats,
                                    date: string -> string)
    requires sim.tcea == Some(0.0) && sim.van == Some(0.0)
    ensures DetailLines(sim, rows, fm, date)[9][1] == "N/D"
    ensures DetailLines(sim, rows, fm, date)[10][1] == "S/ " + fm.n2(0.0)
  {
  }

  /** The detail CSV text. */
  function DetailCsv(sim: Simulation, rows: seq<Finance.ScheduleRow>, fm: Exports.Formats, date: string -> string)
    : string
  {
    Exports.Csv(DetailLines(sim, rows, fm, date))
  }

  // ---------------------------------------------------------------------------
  // The page
  // ---------------------------------------------------------------------------

  /** The page state that `loadDetail` and `deleteSim` update. */
  class HistoryPage {
    var sims: seq<Simulation>
    var expanded: Option<int>
    var detail: map<int, seq<Finance.ScheduleRow>>
    var loadingDetail: Option<int>
    var deleting: Option<int>

    constructor(sims0: seq<Simulation>)
      ensures sims == sims0 && expanded == None && detail == map[] && loadingDetail == None && deleting == None
    {
      sims := sims0;
      expanded := None;
      detail := map[];
      loadingDetail := None;
      deleting := None;
    }

    /**
     * `loadDetail`: a simulation whose rows are cached only toggles the
     * expansion; otherwise the fetched rows (None when the query returned no
     * data) are decoded and cached, and the simulation is expanded.
     */
    method LoadDetail(simId: int, fetched: Option<seq<DashboardSimulate.StoredRow>>)
      modifies this
      ensures sims == old(sims) && deleting == old(deleting)
      ensures simId in old(detail) ==>
        expanded == Toggle(old(expanded), simId) && detail == old(detail) && loadingDetail == old(loadingDetail)
      ensures simId !in old(detail) ==>
        && expanded == Some(simId) && loadingDetail == None
        && detail == (if fetched.Some? then old(detail)[simId := DecodeRows(fetched.value)] else old(detail))
    {
      if simId in detail {
        expanded := Toggle(expanded, simId);
        return;
      }
      loadingDetail := Some(simId);
      if fetched.Some? {
        detail := detail[simId := DecodeRows(fetched.value)];
      }
      loadingDetail := None;
      expanded := Some(simId);
    }

    /**
     * `deleteSim`: nothing happens without confirmation; otherwise the
     * simulation leaves the list and is collapsed if it was expanded.
     */
    method DeleteSim(simId: int, confirmed: bool)
      modifies this
      ensures detail == old(detail) && loadingDetail == old(loadingDetail)
      ensures !confirmed ==> sims == old(sims) && expanded == old(expanded) && deleting == old(deleting)
      ensures confirmed ==>
        && sims == RemoveSimulation(old(sims), simId)
        && expanded == (if old(expanded) == Some(simId) then None else old(expanded))
        && deleting == None
    {
      if !confirmed {
        return;
      }
      deleting := Some(simId);
      sims := RemoveSimulation(sims, simId);
      if expanded == Some(simId) {
        expanded := None;
      }
      deleting := None;
    }
  }
}
