/** frontend/src/components/reports/DayReport.jsx: the day report is the raw
    response with its fields renamed, and a failed fetch keeps what was shown. */
module DayReport {
  import opened Base
  import opened ReportViews

  /** The normalised day report. */
  datatype DayView = DayView(totalSales: Option<int>, totalPurchases: Option<int>, grossProfit: Option<int>, cogs: Option<int>, date: Option<string>)

  datatype FetchOutcome = Fetched(raw: RawReport) | Failed

  /** The `normalized` object literal. */
  function Normalize(raw: RawReport): (v: DayView)
    ensures v.totalSales == raw.salesTotal && v.totalPurchases == raw.purchasesTotal
    ensures v.grossProfit == raw.grossProfitApprox && v.cogs == raw.cogsApprox
    ensures v.date == raw.date
  {
    DayView(raw.salesTotal, raw.purchasesTotal, raw.grossProfitApprox, raw.cogsApprox, raw.date)
  }

  /** `fetchReport`: the report state after the request settles. */
  function AfterFetch(previous: Option<DayView>, outcome: FetchOutcome): (r: Option<DayView>)
    ensures outcome.Failed? ==> r == previous
    ensures outcome.Fetched? ==> r == Some(Normalize(outcome.raw))
  {
    match outcome
    case Failed => previous
    case Fetched(raw) => Some(Normalize(raw))
  }

  /** The three amounts on the cards: sales, purchases and gross profit. */
  function Cards(v: DayView): seq<string> {
    [ShownAmount(v.totalSales), ShownAmount(v.totalPurchases), ShownAmount(v.grossProfit)]
  }

  /** A response missing every figure shows 0.00 on every card. */
  lemma MissingFiguresShowZero(date: Option<string>)
    ensures Cards(Normalize(RawReport(None, date, None, None, None, None, None, None))) == ["0.00", "0.00", "0.00"]
  {
  }

  /** What the day view sends is shown in full: the date it printed, and a
      gross profit equal to sales minus cost of goods. */
  lemma ShowsDayEndReport(param: Option<string>, today: Calendar.Date, ledger: Ledger)
    requires Calendar.Valid(today)
    requires DayEndReport(param, today, ledger).Success?
    ensures var q := ParseQueryDate(param, today).value;
            var v := Normalize(Encode(DayEndReport(param, today, ledger).body));
            && v.date == Some(Calendar.IsoFormat(q))
            && v.totalSales.Some? && v.cogs.Some?
            && v.grossProfit == Some(v.totalSales.value - v.cogs.value)
            && Cards(v)[0] == Fixed2(FiguresOf(ledger(q, q)).salesTotal)
  {
  }
}
