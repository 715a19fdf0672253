/** The report endpoints of backend/reports/views.py: query-date parsing, the
    400 responses, the date window of each summary type and the figures each
    response carries. The ORM sums are an input (`ledger`); `today` stands for
    `timezone.localdate()`. */
module ReportViews {
  import opened Base
  import opened Calendar

  /** The three sums over invoices dated in a closed range, in cents; `None`
      where the aggregate matched no row. */
  datatype Aggregates = Aggregates(sales: Option<int>, purchases: Option<int>, cogs: Option<int>)

  /** The ORM sums for invoices dated from the first date to the second. */
  type Ledger = (Date, Date) -> Aggregates

  /** The figures of every report body. */
  datatype Figures = Figures(salesTotal: int, purchasesTotal: int, cogsApprox: int, grossProfitApprox: int)

  datatype Body =
    | DayBody(date: string, figures: Figures)
    | PeriodBody(start: string, end: string, figures: Figures)
    | SummaryBody(kind: string, start: string, end: string, figures: Figures)

  /** `ServerError`: an exception the view does not catch. */
  datatype Response = Success(body: Body) | BadRequest(detail: string) | ServerError

  /** The figures of a range: absent sums read as 0 and gross profit is sales minus cost of goods. */
  function FiguresOf(a: Aggregates): (f: Figures)
    ensures f.grossProfitApprox == f.salesTotal - f.cogsApprox
    ensures f.salesTotal == a.sales.GetOr(0) && f.purchasesTotal == a.purchases.GetOr(0) && f.cogsApprox == a.cogs.GetOr(0)
  {
    var sales := a.sales.GetOr(0);
    var purchases := a.purchases.GetOr(0);
    var cogs := a.cogs.GetOr(0);
    Figures(sales, purchases, cogs, sales - cogs)
  }

  /** `_parse_date`: a missing or empty parameter means today; otherwise the
      `YYYY-MM-DD` date, or `None` when it does not parse. */
  function ParseQueryDate(param: Option<string>, today: Date): (r: Option<Date>)
    requires Valid(today)
    ensures r.Some? ==> Valid(r.value)
    ensures param.None? || param.value == "" ==> r == Some(today)
    ensures param.Some? && param.value != "" ==> r == ParseDate(param.value)
  {
    if param.None? || param.value == "" then Some(today) else ParseDate(param.value)
  }

  /** Every date the reports print is read back by `_parse_date` as that date. */
  lemma QueryDateRoundTrip(d: Date, today: Date)
    requires Valid(d) && Valid(today)
    ensures ParseQueryDate(Some(IsoFormat(d)), today) == Some(d)
  {
    IsoFormatRoundTrip(d);
  }

  /** `DayEndReportView.get`. */
  function DayEndReport(param: Option<string>, today: Date, ledger: Ledger): (r: Response)
    requires Valid(today)
    ensures r.BadRequest? <==> ParseQueryDate(param, today).None?
    ensures !r.ServerError?
    ensures r.Success? ==> var q := ParseQueryDate(param, today).value;
                           r.body == DayBody(IsoFormat(q), FiguresOf(ledger(q, q)))
  {
    match ParseQueryDate(param, today)
    case None => BadRequest("Invalid date format. Use YYYY-MM-DD.")
    case Some(q) => Success(DayBody(IsoFormat(q), FiguresOf(ledger(q, q))))
  }

  /** `PeriodReportView.get`: both dates must parse and the end may not precede the start. */
  function PeriodReport(startParam: Option<string>, endParam: Option<string>, today: Date, ledger: Ledger): (r: Response)
    requires Valid(today)
    ensures !r.ServerError?
    ensures r.Success? <==> && ParseQueryDate(startParam, today).Some?
                            && ParseQueryDate(endParam, today).Some?
                            && !Before(ParseQueryDate(endParam, today).value, ParseQueryDate(startParam, today).value)
    ensures r.Success? ==> var s, e := ParseQueryDate(startParam, today).value, ParseQueryDate(endParam, today).value;
                           r.body == PeriodBody(IsoFormat(s), IsoFormat(e), FiguresOf(ledger(s, e)))
  {
    var s := ParseQueryDate(startParam, today);
    var e := ParseQueryDate(endParam, today);
    if s.None? || e.None? then BadRequest("Provide valid start and end dates in YYYY-MM-DD.")
    else if Before(e.value, s.value) then BadRequest("end must be >= start.")
    else Success(PeriodBody(IsoFormat(s.value), IsoFormat(e.value), FiguresOf(ledger(s.value, e.value))))
  }

  /** The period view accepts exactly the ranges whose end ordinal is not below
      the start ordinal; in particular a single-day range. */
  lemma PeriodAcceptsOrderedRanges(s: Date, e: Date, today: Date, ledger: Ledger)
    requires Valid(s) && Valid(e) && Valid(today)
    ensures PeriodReport(Some(IsoFormat(s)), Some(IsoFormat(e)), today, ledger).Success? <==> Ordinal(s) <= Ordinal(e)
  {
    QueryDateRoundTrip(s, today);
    QueryDateRoundTrip(e, today);
    BeforeIffOrdinal(e, s);
  }

  // ---------------------------------------------------------------------------
  // Summary windows

  datatype Window = Range(start: Date, end: Date) | UnknownType | Overflow

  /** `(type or 'day').lower()`. */
  function SummaryType(param: Option<string>): string {
    Lower(if param.None? || param.value == "" then "day" else param.value)
  }

  /** The `if`/`elif` chain of `QuickSummaryView.get`. `Overflow` is where date
      arithmetic leaves the calendar (`OverflowError` for a week before
      0001-01-07, `ValueError` for the month after December 9999). */
  function SummaryWindow(kind: string, q: Date): (w: Window)
    requires Valid(q)
    ensures w.Range? ==> Valid(w.start) && Valid(w.end) && Ordinal(w.start) <= Ordinal(q) <= Ordinal(w.end)
    ensures w.UnknownType? <==> kind != "day" && kind != "week" && kind != "month" && kind != "year"
  {
    if kind == "day" then Range(q, q)
    else if kind == "week" then
      match MinusDays(q, 6)
      case Some(start) => Range(start, q)
      case None => Overflow
    else if kind == "month" then
      var start := Date(q.year, q.month, 1);
      if q.month == 12 && q.year + 1 > MaxYear then Overflow
      else
        var next := if q.month == 12 then Date(q.year + 1, 1, 1) else Date(q.year, q.month + 1, 1);
        match PrevDay(next)
        case Some(end) => Range(start, end)
        case None => Overflow
    else if kind == "year" then
      var end := Date(q.year, 12, 31);
      YearEnd(q.year);
      WithinYear(q);
      Range(Date(q.year, 1, 1), end)
    else UnknownType
  }

  /** The week is the seven days ending on the query date; it overflows only
      within the first six days of the calendar. */
  lemma WeekWindow(q: Date)
    requires Valid(q)
    ensures SummaryWindow("week", q).Overflow? <==> Ordinal(q) <= 6
    ensures SummaryWindow("week", q).Range? ==>
              SummaryWindow("week", q).end == q && Ordinal(q) - Ordinal(SummaryWindow("week", q).start) + 1 == 7
  {
  }

  /** The month window runs from the 1st to the month's last day; only
      December 9999 fails. */
  lemma MonthWindow(q: Date)
    requires Valid(q)
    ensures SummaryWindow("month", q).Overflow? <==> q.year == MaxYear && q.month == 12
    ensures SummaryWindow("month", q).Range? ==>
              SummaryWindow("month", q) == Range(Date(q.year, q.month, 1), Date(q.year, q.month, DaysInMonth(q.year, q.month)))
  {
  }

  /** The year window is January 1st to December 31st and never fails. */
  lemma YearWindow(q: Date)
    requires Valid(q)
    ensures SummaryWindow("year", q) == Range(Date(q.year, 1, 1), Date(q.year, 12, 31))
  {
  }

  /** `QuickSummaryView.get`: the date is checked before the type. */
  function QuickSummary(typeParam: Option<string>, dateParam: Option<string>, today: Date, ledger: Ledger): (r: Response)
    requires Valid(today)
    ensures ParseQueryDate(dateParam, today).None? ==> r == BadRequest("Invalid date.")
    ensures ParseQueryDate(dateParam, today).Some? ==>
              var w := SummaryWindow(SummaryType(typeParam), ParseQueryDate(dateParam, today).value);
              && (r.BadRequest? <==> w.UnknownType?)
              && (r.ServerError? <==> w.Overflow?)
              && (r.Success? ==> r.body == SummaryBody(SummaryType(typeParam), IsoFormat(w.start), IsoFormat(w.end),
                                                       FiguresOf(ledger(w.start, w.end))))
  {
    SummaryResponse(SummaryType(typeParam), dateParam, today, ledger)
  }

  /** The response of `QuickSummaryView.get` once the type is lower-cased. */
  function SummaryResponse(typ: string, dateParam: Option<string>, today: Date, ledger: Ledger): Response
    requires Valid(today)
  {
    match ParseQueryDate(dateParam, today)
    case None => BadRequest("Invalid date.")
    case Some(q) =>
      match SummaryWindow(typ, q)
      case UnknownType => BadRequest("Invalid type. Use day, week, month, or year.")
      case Overflow => ServerError
      case Range(start, end) => Success(SummaryBody(typ, IsoFormat(start), IsoFormat(end), FiguresOf(ledger(start, end))))
  }

  /** The type is matched case-insensitively: two spellings that lower-case
      alike get the same response, whatever the date and the ledger; a missing
      or empty type is the day summary. */
  lemma SummaryTypeIgnoresCase(a: string, b: string, dateParam: Option<string>, today: Date, ledger: Ledger)
    requires Valid(today)
    requires a != "" && b != "" && Lower(a) == Lower(b)
    ensures QuickSummary(Some(a), dateParam, today, ledger) == QuickSummary(Some(b), dateParam, today, ledger)
    ensures QuickSummary(None, dateParam, today, ledger) == QuickSummary(Some(""), dateParam, today, ledger)
            == QuickSummary(Some("day"), dateParam, today, ledger)
  {
    assert SummaryType(Some(a)) == SummaryType(Some(b));
  }

  /** A type is accepted exactly when its lower-cased spelling is one of the four. */
  lemma {:induction false} SummaryTypeAccepted(param: string, q: Date)
    requires Valid(q) && param != ""
    ensures SummaryWindow(SummaryType(Some(param)), q).UnknownType?
            <==> Lower(param) !in {"day", "week", "month", "year"}
    ensures SummaryType(Some(SummaryType(Some(param)))) == SummaryType(Some(param))
  {
    LowerIdempotent(param);
  }

  /** A day summary reports the same window and figures as the day view. */
  lemma DaySummaryMatchesDayReport(dateParam: Option<string>, today: Date, ledger: Ledger)
    requires Valid(today)
    requires ParseQueryDate(dateParam, today).Some?
    ensures var q := ParseQueryDate(dateParam, today).value;
            && DayEndReport(dateParam, today, ledger) == Success(DayBody(IsoFormat(q), FiguresOf(ledger(q, q))))
            && QuickSummary(None, dateParam, today, ledger) == Success(SummaryBody("day", IsoFormat(q), IsoFormat(q), FiguresOf(ledger(q, q))))
  {
  }

  // ---------------------------------------------------------------------------
  // The JSON the views send

  /** A report response body as the frontend receives it: each key may be absent. */
  datatype RawReport = RawReport(
    kind: Option<string>,
    date: Option<string>,
    start: Option<string>,
    end: Option<string>,
    salesTotal: Option<int>,
    purchasesTotal: Option<int>,
    cogsApprox: Option<int>,
    grossProfitApprox: Option<int>)

  /** The keys each view writes into its `Response`. */
  function Encode(body: Body): (raw: RawReport)
    ensures raw.salesTotal == Some(body.figures.salesTotal) && raw.purchasesTotal == Some(body.figures.purchasesTotal)
    ensures raw.cogsApprox == Some(body.figures.cogsApprox) && raw.grossProfitApprox == Some(body.figures.grossProfitApprox)
    ensures raw.date.Some? <==> body.DayBody?
    ensures raw.start.Some? <==> !body.DayBody?
    ensures raw.kind.Some? <==> body.SummaryBody?
  {
    var f := body.figures;
    var sums := (Some(f.salesTotal), Some(f.purchasesTotal), Some(f.cogsApprox), Some(f.grossProfitApprox));
    match body
    case DayBody(d, _) => RawReport(None, Some(d), None, None, sums.0, sums.1, sums.2, sums.3)
    case PeriodBody(s, e, _) => RawReport(None, None, Some(s), Some(e), sums.0, sums.1, sums.2, sums.3)
    case SummaryBody(k, s, e, _) => RawReport(Some(k), None, Some(s), Some(e), sums.0, sums.1, sums.2, sums.3)
  }
}
