/** frontend/src/components/reports/SummaryReport.jsx: the field renaming, the
    title for the selected type, and the margin and cost ratios with their bars.
    A field missing from the response is `None` (JavaScript `undefined`); a
    ratio is `None` where JavaScript computes NaN. */
module SummaryReport {
  import opened Base
  import opened ReportViews

  datatype SummaryView = SummaryView(
    kind: Option<string>, start: Option<string>, end: Option<string>,
    sales: Option<int>, purchases: Option<int>, profit: Option<int>, cogs: Option<int>)

  datatype FetchOutcome = Fetched(raw: RawReport) | Failed

  /** The `normalized` object literal. */
  function Normalize(raw: RawReport): (v: SummaryView)
    ensures v.kind == raw.kind && v.start == raw.start && v.end == raw.end
    ensures v.sales == raw.salesTotal && v.purchases == raw.purchasesTotal
    ensures v.profit == raw.grossProfitApprox && v.cogs == raw.cogsApprox
  {
    SummaryView(raw.kind, raw.start, raw.end, raw.salesTotal, raw.purchasesTotal, raw.grossProfitApprox, raw.cogsApprox)
  }

  function AfterFetch(previous: Option<SummaryView>, outcome: FetchOutcome): (r: Option<SummaryView>)
    ensures outcome.Failed? ==> r == previous
    ensures outcome.Fetched? ==> r == Some(Normalize(outcome.raw))
  {
    match outcome
    case Failed => previous
    case Fetched(raw) => Some(Normalize(raw))
  }

  /** `getReportTitle` for the selected report type. */
  function Title(reportType: string): (t: string)
    ensures reportType == "day" <==> t == "Daily Summary"
    ensures reportType == "week" <==> t == "Weekly Summary"
    ensures reportType == "month" <==> t == "Monthly Summary"
    ensures reportType == "year" <==> t == "Yearly Summary"
    ensures reportType !in {"day", "week", "month", "year"} <==> t == "Summary Report"
  {
    match reportType
    case "day" => "Daily Summary"
    case "week" => "Weekly Summary"
    case "month" => "Monthly Summary"
    case "year" => "Yearly Summary"
    case _ => "Summary Report"
  }

  /** `report.sales > 0`, false for a missing value. */
  predicate HasSales(v: SummaryView) {
    v.sales.Some? && v.sales.value > 0
  }

  /** `part / sales × 100` when sales are positive, else 0; `None` for NaN. */
  function Ratio(part: Option<int>, v: SummaryView): (r: Option<real>)
    ensures !HasSales(v) ==> r == Some(0.0)
    ensures HasSales(v) ==> (r.Some? <==> part.Some?)
    ensures HasSales(v) && part.Some? ==> r.value * (v.sales.value as real) == (part.value as real) * 100.0
  {
    if !HasSales(v) then Some(0.0)
    else if part.None? then None
    else Some((part.value as real) / (v.sales.value as real) * 100.0)
  }

  /** The profit margin in percent. */
  function Margin(v: SummaryView): Option<real> {
    Ratio(v.profit, v)
  }

  /** Cost versus revenue in percent. */
  function CostRatio(v: SummaryView): Option<real> {
    Ratio(v.purchases, v)
  }

  /** A bar width: `min(ratio, 100)` when sales are positive, else 0. */
  function BarWidth(part: Option<int>, v: SummaryView): (w: Option<real>)
    ensures w.Some? ==> w.value <= 100.0
    ensures Ratio(part, v).Some? && Ratio(part, v).value <= 100.0 ==> w == Ratio(part, v)
    ensures Ratio(part, v).Some? && Ratio(part, v).value > 100.0 ==> w == Some(100.0)
    ensures w.None? <==> Ratio(part, v).None?
  {
    match Ratio(part, v)
    case None => None
    case Some(x) => Some(if HasSales(v) && x > 100.0 then 100.0 else x)
  }

  /** "Operating at a loss" is shown unless the profit is present and positive. */
  predicate ShowsLoss(v: SummaryView) {
    !(v.profit.Some? && v.profit.value > 0)
  }

  /** With a non-negative cost of goods, the margin never exceeds 100%, so its
      bar is the margin itself. */
  lemma MarginAtMostHundred(a: Aggregates, kind: string, start: string, end: string)
    requires a.cogs.GetOr(0) >= 0
    ensures var v := Normalize(Encode(SummaryBody(kind, start, end, FiguresOf(a))));
            HasSales(v) ==> Margin(v).value <= 100.0 && BarWidth(v.profit, v) == Margin(v)
  {
    var v := Normalize(Encode(SummaryBody(kind, start, end, FiguresOf(a))));
    if HasSales(v) {
      var s := v.sales.value as real;
      var p := v.profit.value as real;
      assert p <= s;
      assert Margin(v).value * s == p * 100.0;
      assert Margin(v).value * s <= 100.0 * s;
    }
  }

  /** For a summary the server produced, the loss banner shows exactly when the
      cost of goods is at least the sales. */
  lemma LossMeansCostCoversSales(a: Aggregates, kind: string, start: string, end: string)
    ensures ShowsLoss(Normalize(Encode(SummaryBody(kind, start, end, FiguresOf(a))))) <==> a.sales.GetOr(0) <= a.cogs.GetOr(0)
  {
  }
}
