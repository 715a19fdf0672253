/** frontend/src/components/reports/PeriodReport.jsx: the client-side range
    guard, the field renaming, and the inclusive day count. The two date
    inputs are dates, or `None` when an input is cleared (an invalid `Date`,
    which every comparison treats as false). */
module PeriodReport {
  import opened Base
  import opened Calendar
  import opened ReportViews

  datatype PeriodView = PeriodView(
    totalSales: Option<int>, totalPurchases: Option<int>, grossProfit: Option<int>, cogs: Option<int>,
    start: Option<string>, end: Option<string>)

  datatype FetchOutcome = Fetched(raw: RawReport) | Failed

  /** `new Date(startDate) > new Date(endDate)`: the request is not sent. */
  predicate Aborts(start: Option<Date>, end: Option<Date>)
    requires start.Some? ==> Valid(start.value)
    requires end.Some? ==> Valid(end.value)
  {
    start.Some? && end.Some? && Ordinal(start.value) > Ordinal(end.value)
  }

  /** The `normalized` object literal. */
  function Normalize(raw: RawReport): (v: PeriodView)
    ensures v.totalSales == raw.salesTotal && v.totalPurchases == raw.purchasesTotal
    ensures v.grossProfit == raw.grossProfitApprox && v.cogs == raw.cogsApprox
    ensures v.start == raw.start && v.end == raw.end
  {
    PeriodView(raw.salesTotal, raw.purchasesTotal, raw.grossProfitApprox, raw.cogsApprox, raw.start, raw.end)
  }

  /** `fetchReport`: an aborted or failed request leaves the report as it was. */
  function Generate(start: Option<Date>, end: Option<Date>, previous: Option<PeriodView>, outcome: FetchOutcome): (r: Option<PeriodView>)
    requires start.Some? ==> Valid(start.value)
    requires end.Some? ==> Valid(end.value)
    ensures Aborts(start, end) || outcome.Failed? ==> r == previous
    ensures !Aborts(start, end) && outcome.Fetched? ==> r == Some(Normalize(outcome.raw))
  {
    if Aborts(start, end) then previous
    else match outcome
      case Failed => previous
      case Fetched(raw) => Some(Normalize(raw))
  }

  /** The shown day count, `ceil((end - start) / 1 day) + 1`; `None` (NaN) when an input is cleared. */
  function DayCount(start: Option<Date>, end: Option<Date>): (n: Option<int>)
    requires start.Some? ==> Valid(start.value)
    requires end.Some? ==> Valid(end.value)
    ensures n.Some? <==> start.Some? && end.Some?
  {
    if start.Some? && end.Some? then Some(Ordinal(end.value) - Ordinal(start.value) + 1) else None
  }

  /** The count is the inclusive number of calendar days: going back one day
      fewer than the count from the end date lands on the start date, and no
      other number of steps does. */
  lemma DayCountMeaning(start: Date, end: Date, k: nat)
    requires Valid(start) && Valid(end)
    requires !Aborts(Some(start), Some(end))
    ensures DayCount(Some(start), Some(end)).value >= 1
    ensures MinusDays(end, DayCount(Some(start), Some(end)).value - 1) == Some(start)
    ensures MinusDays(end, k) == Some(start) <==> DayCount(Some(start), Some(end)) == Some(k + 1)
  {
    MinusDaysTo(end, start, k);
    MinusDaysTo(end, start, Ordinal(end) - Ordinal(start));
  }

  /** Whenever a request goes out for two dates, the count is at least one day;
      equal dates give exactly one. */
  lemma DayCountPositive(start: Date, end: Date)
    requires Valid(start) && Valid(end)
    requires !Aborts(Some(start), Some(end))
    ensures DayCount(Some(start), Some(end)).value >= 1
    ensures start == end ==> DayCount(Some(start), Some(end)) == Some(1)
  {
  }

  /** The client guard and the server's `end < start` check agree: a range the
      page sends is one the period view accepts, and the only range it holds
      back is one the view would reject. */
  lemma GuardMatchesPeriodView(start: Date, end: Date, today: Date, ledger: Ledger)
    requires Valid(start) && Valid(end) && Valid(today)
    ensures !Aborts(Some(start), Some(end)) <==> PeriodReport(Some(IsoFormat(start)), Some(IsoFormat(end)), today, ledger).Success?
  {
    PeriodAcceptsOrderedRanges(start, end, today, ledger);
  }

  /** The week summary window spans a seven-day count. */
  lemma WeekWindowSpansSevenDays(q: Date)
    requires Valid(q) && SummaryWindow("week", q).Range?
    ensures var w := SummaryWindow("week", q);
            DayCount(Some(w.start), Some(w.end)) == Some(7)
  {
    WeekWindow(q);
    var w := SummaryWindow("week", q);
    assert Ordinal(w.end) - Ordinal(w.start) + 1 == 7;
  }
}
