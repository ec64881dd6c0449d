/**
 * The two exports of a simulation: the semicolon-separated CSV lines of
 * `exportExcel` and the table rows of `exportPDF`. Number and percentage
 * formatting are parameters.
 */
module Exports {
  import opened Strings
  import Finance
  import DashboardSimulate

  /** The display formatters: two decimals, a percentage, a short percentage. */
  datatype Formats = Formats(n2: real -> string, fmtP: real -> string, fmtPs: real -> string)

  const Title: string := "SIMULACIÓN HOGARFIN – CRÉDITO MIVIVIENDA"
  const ExcelHeader: seq<string> :=
    ["N°", "Tipo", "Interés", "Amortización", "Cuota", "Desgravamen", "Seg.Inmueble", "Portes", "Saldo Final", "Flujo"]

  /** The byte order mark U+FEFF that starts the CSV text. */
  const Bom: char := 0xFEFF as char

  /** The currency symbol of the CSV amounts. */
  function Symbol(cur: string): string
  {
    if cur == "USD" then "$" else "S/"
  }

  /** The cells of one schedule row: period, kind, then the eight amounts in header order. */
  function DataCells(s: Finance.ScheduleRow, n2: real -> string): (cells: seq<string>)
    ensures |cells| == |ExcelHeader| == 10
    ensures cells[0] == IntToString(s.period)
    ensures cells[1] == "GRACIA" <==> s.isGrace
    ensures cells[1] == "NORMAL" <==> !s.isGrace
    ensures cells[2..] == [n2(s.interest), n2(s.amort), n2(s.basePayment), n2(s.desgravamen),
                           n2(s.propertyInsurance), n2(s.monthlyFees), n2(s.balance), n2(s.cashflow)]
  {
    [IntToString(s.period), if s.isGrace then "GRACIA" else "NORMAL",
     n2(s.interest), n2(s.amort), n2(s.basePayment), n2(s.desgravamen),
     n2(s.propertyInsurance), n2(s.monthlyFees), n2(s.balance), n2(s.cashflow)]
  }

  /**
   * The rows of `exportExcel`: title, a blank line, ten summary lines, a
   * blank line, the header, then one line per schedule row in order.
   */
  function ExcelLines(r: DashboardSimulate.SimResults, cur: string, bank: string, client: string, prop: string,
                      fm: Formats): (lines: seq<seq<string>>)
    ensures |lines| == 14 + |r.schedule|
    ensures lines[0] == [Title] && lines[1] == [] && lines[12] == [] && lines[13] == ExcelHeader
    ensures lines[2] == ["Cliente:", client] && lines[3] == ["Inmueble:", prop] && lines[4] == ["Entidad:", bank]
    ensures lines[8] == ["TCEA:", if r.tcea > 0.0 then fm.fmtPs(r.tcea) else "N/D"]
    ensures lines[10] == ["TIR mensual:", if r.tirM > 0.0 then fm.fmtPs(r.tirM) else "N/D"]
    ensures forall k :: 0 <= k < |r.schedule| ==> lines[14 + k] == DataCells(r.schedule[k], fm.n2)
  {
    var sym := Symbol(cur);
    [[Title],
     [],
     ["Cliente:", client],
     ["Inmueble:", prop],
     ["Entidad:", bank],
     ["Moneda:", "PEN (calculado)"],
     ["Principal:", sym + " " + fm.n2(r.principal)],
     ["TEM:", fm.fmtP(r.tem)],
     ["TCEA:", if r.tcea > 0.0 then fm.fmtPs(r.tcea) else "N/D"],
     ["VAN:", sym + " " + fm.n2(r.van)],
     ["TIR mensual:", if r.tirM > 0.0 then fm.fmtPs(r.tirM) else "N/D"],
     ["Cuota:", sym + " " + fm.n2(r.monthlyPayment)],
     [],
     ExcelHeader]
    + seq(|r.schedule|, k requires 0 <= k < |r.schedule| => DataCells(r.schedule[k], fm.n2))
  }

  /** Each row's cells joined with ";". */
  function LineTexts(lines: seq<seq<string>>): (texts: seq<string>)
    ensures |texts| == |lines| && forall k :: 0 <= k < |lines| ==> texts[k] == Join(lines[k], ";")
  {
    seq(|lines|, k requires 0 <= k < |lines| => Join(lines[k], ";"))
  }

  /** The CSV text: the byte order mark, then the lines joined with "\n", nothing quoted or escaped. */
  function Csv(lines: seq<seq<string>>): (text: string)
    ensures |text| >= 1 && text[0] == Bom
    ensures text[1..] == Join(LineTexts(lines), "\n")
  {
    [Bom] + Join(LineTexts(lines), "\n")
  }

  /** No cell holds a line break or a semicolon. */
  predicate PlainCells(lines: seq<seq<string>>)
  {
    forall k, j :: 0 <= k < |lines| && 0 <= j < |lines[k]| ==> '\n' !in lines[k][j] && ';' !in lines[k][j]
  }

  /**
   * When no cell holds a separator, splitting the text after the mark at
   * "\n" and each line at ";" gives back every non-empty row's cells.
   */
  lemma CsvReadsBack(lines: seq<seq<string>>)
    requires |lines| >= 1 && PlainCells(lines)
    ensures |Split(Csv(lines)[1..], '\n')| == |lines|
    ensures forall k :: 0 <= k < |lines| && |lines[k]| >= 1 ==>
      Split(Split(Csv(lines)[1..], '\n')[k], ';') == lines[k]
  {
    var texts := LineTexts(lines);
    forall k | 0 <= k < |lines|
      ensures '\n' !in texts[k]
    {
      JoinAvoids(lines[k], ";", '\n');
    }
    SplitJoin(texts, '\n');
    assert Split(Csv(lines)[1..], '\n') == texts;
    forall k | 0 <= k < |lines| && |lines[k]| >= 1
      ensures Split(texts[k], ';') == lines[k]
    {
      SplitJoin(lines[k], ';');
    }
  }

  /** Nothing is escaped: a client name with a ";" spills into an extra cell. */
  lemma SemicolonInClientSplitsCell(r: DashboardSimulate.SimResults, cur: string, bank: string, a: string,
                                    b: string, prop: string, fm: Formats)
    requires ';' !in a && ';' !in b
    ensures var lines := ExcelLines(r, cur, bank, a + ";" + b, prop, fm);
      Split(LineTexts(lines)[2], ';') == ["Cliente:", a, b]
  {
    SplitClientLine("Cliente:", a, b, ';');
  }

  /** A two-cell line whose second cell holds the separator joins and splits into three cells. */
  lemma SplitClientLine(head: string, a: string, b: string, sep: char)
    requires sep !in head && sep !in a && sep !in b
    ensures Split(Join([head, a + [sep] + b], [sep]), sep) == [head, a, b]
  {
    assert Join([head, a + [sep] + b], [sep]) == head + [sep] + (a + [sep] + b);
    SplitThree(head, a, b, sep);
  }

  /** Three separator-free parts around two separators split into those three parts. */
  lemma SplitThree(a: string, b: string, c: string, sep: char)
    requires sep !in a && sep !in b && sep !in c
    ensures Split(a + [sep] + (b + [sep] + c), sep) == [a, b, c]
  {
    SplitCons(a, b + [sep] + c, sep);
    SplitCons(b, c, sep);
    UpToOfPart(c, [], sep);
  }

  // ---------------------------------------------------------------------------
  // exportPDF
  // ---------------------------------------------------------------------------

  const GraceBadge: string := " <span class=\"badge\">G</span>"

  /** The opening tag: class "grace" on grace rows, an empty class otherwise. */
  function RowOpen(isGrace: bool): string
  {
    "<tr class=\"" + (if isGrace then "grace" else "") + "\">\n"
  }

  function AmountCell(x: string): string
  {
    "<td>S/ " + x + "</td>\n"
  }

  /** The first cell: the period, followed by the G badge on grace rows. */
  function PeriodCell(period: int, isGrace: bool): string
  {
    "<td>" + IntToString(period) + (if isGrace then GraceBadge else "") + "</td>\n"
  }

  /** The amount cells and the closing tag. */
  function RowTail(s: Finance.ScheduleRow, n2: real -> string): string
  {
    AmountCell(n2(s.interest)) + AmountCell(n2(s.amort)) + AmountCell(n2(s.basePayment)) +
    AmountCell(n2(s.desgravamen)) + AmountCell(n2(s.propertyInsurance)) + AmountCell(n2(s.balance)) +
    "<td><strong>S/ " + n2(s.cashflow) + "</strong></td>\n</tr>"
  }

  /** One `<tr>` of the PDF table. */
  function PdfRow(s: Finance.ScheduleRow, n2: real -> string): string
  {
    RowOpen(s.isGrace) + PeriodCell(s.period, s.isGrace) + RowTail(s, n2)
  }

  /** The rows joined with "", in schedule order. */
  function PdfRows(rows: seq<Finance.ScheduleRow>, n2: real -> string): string
  {
    if |rows| == 0 then "" else PdfRow(rows[0], n2) + PdfRows(rows[1..], n2)
  }

  lemma ConcatAssoc(a: string, b: string, c: string)
    ensures a + (b + c) == a + b + c
  {
  }

  lemma PrefixWithin(a: string, b: string, c: string, t: string)
    ensures StartsWith(a + (b + c) + t, a + b)
  {
    assert (a + (b + c) + t)[..|a + b|] == a + b;
  }

  lemma StartsWithTrans(s: string, p: string, q: string)
    requires StartsWith(s, p) && StartsWith(p, q)
    ensures StartsWith(s, q)
  {
  }

  /** The opening tags differ at index 11: 'g' on grace rows, '"' on the others. */
  lemma RowOpenShapes()
    ensures StartsWith(RowOpen(true), "<tr class=\"grace\">")
    ensures |RowOpen(false)| > 11 && RowOpen(false)[11] == '"'
    ensures "<tr class=\"grace\">"[11] == 'g'
  {
    assert RowOpen(true) == "<tr class=\"grace\">\n";
    assert RowOpen(false) == "<tr class=\"\">\n";
  }

  lemma PeriodCellShape(period: int, isGrace: bool)
    ensures isGrace ==> PeriodCell(period, isGrace) == ("<td>" + IntToString(period) + GraceBadge) + "</td>\n"
    ensures !isGrace ==> PeriodCell(period, isGrace) == ("<td>" + IntToString(period) + "</td>") + "\n"
  {
    var i := IntToString(period);
    if isGrace {
      ConcatAssoc("<td>" + i + GraceBadge, "</td>", "\n");
    } else {
      assert "<td>" + i + "" == "<td>" + i;
      assert "</td>\n" == "</td>" + "\n";
      ConcatAssoc("<td>" + i, "</td>", "\n");
    }
  }

  /**
   * A row opens with class "grace" exactly when it is a grace row; a grace
   * row carries the G badge after its period, any other row nothing.
   */
  lemma PdfRowMarksGrace(s: Finance.ScheduleRow, n2: real -> string)
    ensures StartsWith(PdfRow(s, n2), "<tr class=\"grace\">") <==> s.isGrace
    ensures s.isGrace ==> StartsWith(PdfRow(s, n2), RowOpen(true) + ("<td>" + IntToString(s.period) + GraceBadge))
    ensures !s.isGrace ==> StartsWith(PdfRow(s, n2), RowOpen(false) + ("<td>" + IntToString(s.period) + "</td>"))
  {
    var open := RowOpen(s.isGrace);
    var tail := RowTail(s, n2);
    var i := IntToString(s.period);
    PeriodCellShape(s.period, s.isGrace);
    RowOpenShapes();
    if s.isGrace {
      PrefixWithin(open, "<td>" + i + GraceBadge, "</td>\n", tail);
      StartsWithTrans(PdfRow(s, n2), open + ("<td>" + i + GraceBadge), open);
      StartsWithTrans(PdfRow(s, n2), open, "<tr class=\"grace\">");
    } else {
      PrefixWithin(open, "<td>" + i + "</td>", "\n", tail);
      assert PdfRow(s, n2)[11] == open[11];
    }
  }

  /** The rows of two schedules in sequence are the rows of the first followed by those of the second. */
  lemma {:induction false} PdfRowsAppend(a: seq<Finance.ScheduleRow>, b: seq<Finance.ScheduleRow>, n2: real -> string)
    ensures PdfRows(a + b, n2) == PdfRows(a, n2) + PdfRows(b, n2)
    decreases |a|
  {
    if |a| == 0 {
      assert a + b == b;
    } else {
      assert (a + b)[1..] == a[1..] + b;
      PdfRowsAppend(a[1..], b, n2);
      var h := PdfRow(a[0], n2);
      assert PdfRows(a + b, n2) == h + PdfRows(a[1..] + b, n2);
      assert PdfRows(a, n2) == h + PdfRows(a[1..], n2);
      ConcatAssoc(h, PdfRows(a[1..], n2), PdfRows(b, n2));
    }
  }

  /** Row k of the schedule is emitted after the rows before it and before the rows after it. */
  lemma PdfRowsInOrder(rows: seq<Finance.ScheduleRow>, k: int, n2: real -> string)
    requires 0 <= k < |rows|
    ensures PdfRows(rows, n2) == PdfRows(rows[..k], n2) + PdfRow(rows[k], n2) + PdfRows(rows[k + 1..], n2)
  {
    AroundIndex(rows, k);
    PdfRowsAround(rows[..k], rows[k], rows[k + 1..], n2);
  }

  lemma PdfRowsAround(pre: seq<Finance.ScheduleRow>, x: Finance.ScheduleRow, rest: seq<Finance.ScheduleRow>, n2: real -> string)
    ensures PdfRows(pre + ([x] + rest), n2) == PdfRows(pre, n2) + PdfRow(x, n2) + PdfRows(rest, n2)
  {
    var mid := [x] + rest;
    PdfRowsAppend(pre, mid, n2);
    assert mid[0] == x && mid[1..] == rest;
    var h := PdfRow(x, n2);
    assert PdfRows(mid, n2) == h + PdfRows(rest, n2);
    ConcatAssoc(PdfRows(pre, n2), h, PdfRows(rest, n2));
  }

  lemma AroundIndex<T>(s: seq<T>, k: int)
    requires 0 <= k < |s|
    ensures s == s[..k] + ([s[k]] + s[k + 1..])
    ensures ([s[k]] + s[k + 1..])[0] == s[k] && ([s[k]] + s[k + 1..])[1..] == s[k + 1..]
  {
  }
}
