# Inventory Management System: a Dafny model of its business rules

This project models the parts of the Inventory-Management-System (a React
frontend over a Django REST backend) that carry business rules. It leaves out
the page chrome and the network calls. Each core source file becomes one Dafny
module, and two modules are shared:

- `Base`: `Option`/`Result`, finding and filtering with order kept,
  ASCII lower-casing and substring search, decimal digits and `toFixed(2)`.
- `Calendar`: the proleptic Gregorian dates of Python's `datetime.date`.
  It covers ordinals, `d - timedelta(days=n)` with its `OverflowError`,
  date comparison, `isoformat` and `strptime(s, "%Y-%m-%d")`.
- `Catalog`: the product records the frontend receives, and the stock
  percentage that both stock views compute.
- `InvoiceForm` (InvoiceForm.jsx): the draft invoice.
  - Line items are added, removed and edited.
  - Choosing a product fills its prices.
  - A sale has a stock ceiling, and an edit that breaches it is reverted.
  - It also covers the total and the submit payload.
  - The draft is a class `InvoiceDraft`. Its methods are proved against
    pure specification functions such as `EditItem`, and the stock ceiling
    `WithinStock` is proved to be an invariant of every edit.
- `InvoiceModels` (models.py): the tables as a `Database` class.
  - The product table is a map from id to record; invoices and items are
    sequences indexed by primary key.
  - `PurchaseItem.save` applies the quantity delta and updates prices.
  - `SaleItem.save` touches no product.
  - It also covers the `__str__` labels.
- `InvoiceSerializers` (serializers.py): purchase and sale invoice creation.
  These are loops over the items that write to the `Database`.
- `ReportViews` (reports/views.py):
  - `_parse_date`;
  - the day, period and quick-summary views with their 400 responses;
  - the date window of each summary type;
  - the gross-profit formula.

  The ORM sums are an input (`Ledger`), and so is today's date.
- `DayReport`, `PeriodReport`, `SummaryReport`: how the three report pages
  rename the fields, what they derive from them (day count, margin, ratios,
  bar widths, title) and what a failed fetch leaves behind.
- `Dashboard`, `ProductsTable`, `ProductsPage`, `InvoicesList`:
  - the critical-stock test, the stock bands and their colour classes;
  - the dashboard totals and trends;
  - the product search and the product payloads;
  - the invoice list's fallbacks.
- `Pagination`: the 50-row pagination that both tables carry, as a class
  `Pager`.

Money is held as integer cents and percentages as reals. JavaScript's `||`,
`??` and the empty string `''` of an unset product or account are modelled
with `Option`.

## Model

| member | source | states |
|---|---|---|
| Catalog.FindProduct | frontend/src/components/invoices/InvoiceForm.jsx:59 | the found record is in the catalogue and has the id; none is found exactly when no record has it |
| Catalog.PercentageVersus | frontend/src/components/products/ProductsTable.jsx:55 | for a positive minimum, comparing `stock / min × 100` with k is comparing 100·stock with k·min |
| InvoiceForm.QuantityForAppend | frontend/src/components/invoices/InvoiceForm.jsx:74-76 | the per-product requested quantity of a concatenation is the sum of the parts |
| InvoiceForm.QuantityForUpdate | frontend/src/components/invoices/InvoiceForm.jsx:74-76 | replacing one line changes the requested quantity by the difference of the two lines' contributions |
| InvoiceForm.QuantityForRemove | frontend/src/components/invoices/InvoiceForm.jsx:48-49 | removing a line takes away exactly its contribution |
| InvoiceForm.EditItem | frontend/src/components/invoices/InvoiceForm.jsx:53-97 | an edit keeps the number of lines and leaves every other line unchanged |
| InvoiceForm.ProductChoiceOutcome | frontend/src/components/invoices/InvoiceForm.jsx:58-92 | choosing a product sets the price to its selling price for a sale or its buying price for a purchase, and sets the selling price. On a sale whose requested quantity would exceed stock, product and prices are cleared and the quantity is kept |
| InvoiceForm.QuantityEditOutcome | frontend/src/components/invoices/InvoiceForm.jsx:69-86 | a sale quantity edit on a known product is reset to 0 exactly when the summed quantity would exceed stock; otherwise it is applied |
| InvoiceForm.UncheckedEdits | frontend/src/components/invoices/InvoiceForm.jsx:69-73 | purchases, unknown or empty products and price edits are applied without any stock check |
| InvoiceForm.EditKeepsWithinStock | frontend/src/components/invoices/InvoiceForm.jsx:53-97 | on a sale draft, every edit (with a non-negative quantity) preserves "each product's summed quantity ≤ its stock" and non-negative quantities |
| InvoiceForm.AddLineKeepsWithinStock | frontend/src/components/invoices/InvoiceForm.jsx:41-46 | adding a blank line preserves the stock ceiling |
| InvoiceForm.RemoveLineKeepsWithinStock | frontend/src/components/invoices/InvoiceForm.jsx:48-51 | removing a line preserves the stock ceiling |
| InvoiceForm.RemoveLineShape | frontend/src/components/invoices/InvoiceForm.jsx:48-51 | removing an index in range drops exactly that line and keeps the others in order |
| InvoiceForm.SubtotalAppend | frontend/src/components/invoices/InvoiceForm.jsx:100-102 | the subtotal of a concatenation is the sum of the subtotals |
| InvoiceForm.AddLineKeepsTotal | frontend/src/components/invoices/InvoiceForm.jsx:41-46 | a blank line (price 0) leaves the total unchanged |
| InvoiceForm.RemoveLineTotal | frontend/src/components/invoices/InvoiceForm.jsx:99-105 | removing a line lowers the total by quantity × price of that line |
| InvoiceForm.TotalNotFloored | frontend/src/components/invoices/InvoiceForm.jsx:103-104 | a discount above the subtotal gives a negative total |
| InvoiceForm.PayloadItems | frontend/src/components/invoices/InvoiceForm.jsx:124-128 | one payload item per line, in order |
| InvoiceForm.BuildPayload | frontend/src/components/invoices/InvoiceForm.jsx:107-135 | no account gives NoAccount and no items gives NoItems; otherwise the payload holds the items, the discount, the form total and the date for purchases only, with the party field chosen by kind |
| InvoiceForm.PayloadPartyName | frontend/src/components/invoices/InvoiceForm.jsx:120-122 | the party name is the name of the first account in the list with the chosen id, as `accounts.find` gives it, and "" when no account has that id; any non-empty name sent belongs to an account with that id |
| InvoiceForm.PayloadTotalMatchesItems | frontend/src/components/invoices/InvoiceForm.jsx:127-129 | when no line has price 0, `total_amount` equals the payload items' Σ quantity × price minus the discount |
| InvoiceForm.ZeroPriceLineTotalsDisagree | frontend/src/components/invoices/InvoiceForm.jsx:101 | a line with price 0 is sent at its selling price but counted at 0 in `total_amount` |
| InvoiceForm.InvoiceDraft.constructor | frontend/src/components/invoices/InvoiceForm.jsx:8-13 | a new draft holds one blank line, no account and no discount, and satisfies the stock ceiling when the catalogue has no negative stock |
| InvoiceForm.InvoiceDraft.SetDate | frontend/src/components/invoices/InvoiceForm.jsx:8-13 | only the date changes |
| InvoiceForm.InvoiceDraft.SetAccount | frontend/src/components/invoices/InvoiceForm.jsx:8-13 | only the account changes |
| InvoiceForm.InvoiceDraft.SetDiscount | frontend/src/components/invoices/InvoiceForm.jsx:8-13 | only the discount changes |
| InvoiceForm.InvoiceDraft.AddItem | frontend/src/components/invoices/InvoiceForm.jsx:41-46 | the lines gain one blank line at the end; the stock invariant is kept |
| InvoiceForm.InvoiceDraft.RemoveItem | frontend/src/components/invoices/InvoiceForm.jsx:48-51 | the lines become `RemoveLine` of the old lines, one shorter for an index in range; the stock invariant is kept |
| InvoiceForm.InvoiceDraft.ChangeItem | frontend/src/components/invoices/InvoiceForm.jsx:53-97 | the lines become `EditItem` of the old lines; the stock invariant is kept |
| InvoiceForm.InvoiceDraft.CalculateTotal | frontend/src/components/invoices/InvoiceForm.jsx:99-105 | returns Σ quantity × price minus the discount |
| InvoiceForm.InvoiceDraft.Submit | frontend/src/components/invoices/InvoiceForm.jsx:107-135 | no chosen account gives NoAccount and an empty item list NoItems; otherwise a payload whose `total_amount` is the draft's subtotal minus its discount (what `calculateTotal` returns), whose discount is the draft's, with one item per line and the party field chosen by kind; and this agrees with `BuildPayload` of the draft |
| InvoiceModels.ApplyPurchase | backend/invoices/models.py:29-33 | stock moves by new − old quantity, the buying price becomes the item price, the selling price is overwritten only by a positive one, and the other fields are kept |
| InvoiceModels.Database.constructor | backend/invoices/models.py:7-57 | the product table as given and empty invoice tables |
| InvoiceModels.Database.GetProduct | backend/invoices/serializers.py:59 | returns the stored row |
| InvoiceModels.Database.SaveProduct | backend/invoices/serializers.py:75 | writes the whole row and nothing else |
| InvoiceModels.Database.AddPurchaseInvoice | backend/invoices/serializers.py:34 | appends the invoice and returns its key; nothing else changes |
| InvoiceModels.Database.SetPurchaseTotal | backend/invoices/serializers.py:39-40 | only that invoice's total changes |
| InvoiceModels.Database.AddSaleInvoice | backend/invoices/serializers.py:54 | appends the invoice and returns its key; nothing else changes |
| InvoiceModels.Database.SetSaleTotal | backend/invoices/serializers.py:77-78 | only that invoice's total changes |
| InvoiceModels.Database.SavePurchaseItem | backend/invoices/models.py:23-34 | an unknown key changes nothing. A new row is appended with the old quantity taken as 0, and an existing row is replaced. In both cases the product becomes `ApplyPurchase` of the instance the item holds |
| InvoiceModels.Database.SaveSaleItem | backend/invoices/models.py:59-61 | stores the row; the product table is unchanged |
| InvoiceModels.PurchaseInvoiceLabel | backend/invoices/models.py:12-13 | the label is "Purchase #", then the id, then " - " and the supplier name: the text between prefix and suffix is the id's decimal digits reading back as the id, or "None" for an unsaved row |
| InvoiceModels.SaleInvoiceLabel | backend/invoices/models.py:48-49 | the label is "Invoice #", then the id, then " - " and the customer name: the text between prefix and suffix is the id's decimal digits reading back as the id, or "None" for an unsaved row |
| InvoiceModels.ItemLabel | backend/invoices/models.py:37-38 | the label is the product name, " x ", and then decimal digits that read back as the quantity |
| InvoiceModels.PurchaseLabelsDistinguishIds | backend/invoices/models.py:12-13 | two saved purchase invoices of one supplier get different labels |
| InvoiceModels.SaleLabelsDistinguishIds | backend/invoices/models.py:48-49 | two saved sale invoices of one customer get different labels |
| InvoiceModels.ItemLabelsDistinguishQuantities | backend/invoices/models.py:64-65 | the item label determines the quantity |
| InvoiceSerializers.PurchaseRows | backend/invoices/serializers.py:36-37 | one item row per input line, carrying the line's product, quantity and prices |
| InvoiceSerializers.AfterPurchase | backend/invoices/models.py:28-34 | the intended product table after a purchase, with each line applied to the current row; the product keys are kept |
| InvoiceSerializers.PurchaseStockAccumulates | backend/invoices/models.py:29-30 | with fresh rows, each product's stock rises by the summed quantity of its lines |
| InvoiceSerializers.PurchaseAsWrittenKeepsLastLine | backend/invoices/serializers.py:36-37 | as written, a purchased product ends at its loaded stock plus its last line's quantity |
| InvoiceSerializers.UnpurchasedProductUnchanged | backend/invoices/serializers.py:36-37 | a product no purchase line names keeps its row |
| InvoiceSerializers.DistinctLinesAgree | backend/invoices/serializers.py:36-37 | when no product repeats, the as-written and the intended stock tables coincide |
| InvoiceSerializers.RepeatedPurchaseLineLost | backend/invoices/serializers.py:36-38 | stock 10 with lines of 2 and 3 for one product ends at 13 as written, not 15 |
| InvoiceSerializers.CreatePurchaseInvoice | backend/invoices/serializers.py:32-41 | appends one invoice whose total is Σ quantity × price (whatever the client sent), one row per line, and the products as written (stale instances) |
| InvoiceSerializers.CreatePurchaseInvoiceFresh | backend/invoices/serializers.py:32-41 | the same with each line's product re-read, so repeated lines accumulate |
| InvoiceSerializers.AfterSale | backend/invoices/serializers.py:73-75 | the product keys are kept |
| InvoiceSerializers.SaleStockAccumulates | backend/invoices/serializers.py:58-75 | each sold product's row equals its old row with stock lowered by its summed quantity |
| InvoiceSerializers.UnsoldProductUnchanged | backend/invoices/serializers.py:56-75 | a product no sale line names keeps its row |
| InvoiceSerializers.SaleMayOversell | backend/invoices/serializers.py:73-75 | selling 3 of a stock of 1 is accepted and leaves −2 |
| InvoiceSerializers.SaleRows | backend/invoices/serializers.py:62-71 | one row per line, with the line's product and quantity, priced at the product's selling price |
| InvoiceSerializers.SaleSubtotalIgnoresClientPrices | backend/invoices/serializers.py:59-63 | two line lists that differ only in client prices give the same sale total |
| InvoiceSerializers.SaleStep | backend/invoices/serializers.py:57-75 | one more line adds its row, its amount and its stock change, and the re-read product still has its original selling price |
| InvoiceSerializers.SellLine | backend/invoices/serializers.py:58-75 | stores the row at the current selling price, lowers the product's stock by the quantity and returns the line amount |
| InvoiceSerializers.CreateSaleInvoice | backend/invoices/serializers.py:51-79 | appends one invoice with total Σ selling price × quantity − discount and discount defaulting to 0, plus one row per line, with the stock of each product lowered by its summed quantity |
| ReportViews.FiguresOf | backend/reports/views.py:39-53 | absent sums read as 0 and gross profit is sales − cogs |
| ReportViews.ParseQueryDate | backend/reports/views.py:12-19 | a missing or empty parameter is today; otherwise the strptime result; every result is a valid date |
| ReportViews.QueryDateRoundTrip | backend/reports/views.py:12-19 | `_parse_date(d.isoformat())` is d |
| ReportViews.DayEndReport | backend/reports/views.py:27-61 | 400 exactly when the date does not parse; otherwise the date and the figures of that day |
| ReportViews.PeriodReport | backend/reports/views.py:69-104 | success exactly when both dates parse and end is not before start; the body holds both dates and the range's figures |
| ReportViews.PeriodAcceptsOrderedRanges | backend/reports/views.py:76-77 | a range of printed dates is accepted exactly when its start ordinal is at most its end ordinal (so start == end is accepted) |
| ReportViews.SummaryWindow | backend/reports/views.py:123-143 | every window is a valid range holding the query date; "unknown type" exactly for a type other than day, week, month and year |
| ReportViews.WeekWindow | backend/reports/views.py:126-129 | the week ends on the query date and spans 7 days; it overflows exactly within the calendar's first six days |
| ReportViews.MonthWindow | backend/reports/views.py:130-138 | the month runs from the 1st to the month's last day; only December 9999 fails |
| ReportViews.YearWindow | backend/reports/views.py:139-141 | January 1st to December 31st of the query year |
| ReportViews.QuickSummary | backend/reports/views.py:117-171 | the date is checked first (400), then the type (400); an overflow is a server error; otherwise the window's figures |
| ReportViews.SummaryTypeIgnoresCase | backend/reports/views.py:117-118 | any two type spellings that lower-case alike get the same response for every date and ledger; a missing or empty type answers as "day" |
| ReportViews.SummaryTypeAccepted | backend/reports/views.py:118-143 | a non-empty type is refused as unknown exactly when its lower-cased spelling is none of the four; lower-casing the lowered type changes nothing |
| ReportViews.DaySummaryMatchesDayReport | backend/reports/views.py:123-125 | a day summary reports the same window and figures as the day view |
| ReportViews.Encode | backend/reports/views.py:55-61 | each body carries all four figures, and the date, start/end and type keys of its view |
| DayReport.Normalize | frontend/src/components/reports/DayReport.jsx:14-20 | each field is renamed from its raw counterpart and the date is kept |
| DayReport.AfterFetch | frontend/src/components/reports/DayReport.jsx:10-28 | a failed fetch leaves the previous report; a successful one shows the normalised response |
| DayReport.MissingFiguresShowZero | frontend/src/components/reports/DayReport.jsx:61-79 | missing figures are shown as "0.00" |
| DayReport.ShowsDayEndReport | frontend/src/components/reports/DayReport.jsx:14-20 | the page shows the day view's date and figures |
| PeriodReport.Normalize | frontend/src/components/reports/PeriodReport.jsx:22-29 | the figures are renamed, and start and end are kept |
| PeriodReport.Generate | frontend/src/components/reports/PeriodReport.jsx:11-38 | start after end, or a failed fetch, leaves the previous report; otherwise the normalised response |
| PeriodReport.DayCount | frontend/src/components/reports/PeriodReport.jsx:127 | a count exists exactly when both dates do |
| PeriodReport.DayCountMeaning | frontend/src/components/reports/PeriodReport.jsx:127 | for an accepted range the count is the inclusive number of calendar days: stepping back count − 1 days from the end date gives the start date, and no other number of steps does |
| PeriodReport.DayCountPositive | frontend/src/components/reports/PeriodReport.jsx:127 | an accepted range counts at least one day, and equal dates count 1 |
| PeriodReport.GuardMatchesPeriodView | frontend/src/components/reports/PeriodReport.jsx:12-15 | the page's guard lets through exactly the ranges the period view accepts |
| PeriodReport.WeekWindowSpansSevenDays | frontend/src/components/reports/PeriodReport.jsx:127 | the day count of a week summary's window is 7 |
| SummaryReport.Normalize | frontend/src/components/reports/SummaryReport.jsx:17-25 | type, start and end are kept, and the figures are renamed |
| SummaryReport.AfterFetch | frontend/src/components/reports/SummaryReport.jsx:11-34 | a failed fetch leaves the previous report |
| SummaryReport.Title | frontend/src/components/reports/SummaryReport.jsx:36-44 | "Daily Summary" exactly for "day", "Weekly Summary" for "week", "Monthly Summary" for "month", "Yearly Summary" for "year", and "Summary Report" exactly for any other type |
| SummaryReport.Ratio | frontend/src/components/reports/SummaryReport.jsx:153 | 0 without sales; otherwise ratio × sales = part × 100 |
| SummaryReport.BarWidth | frontend/src/components/reports/SummaryReport.jsx:158-161 | never above 100; the ratio when that is at most 100, else 100 |
| SummaryReport.MarginAtMostHundred | frontend/src/components/reports/SummaryReport.jsx:153 | with non-negative cogs the margin of a served summary is at most 100 |
| SummaryReport.LossMeansCostCoversSales | frontend/src/components/reports/SummaryReport.jsx:189-191 | "Operating at a loss" shows exactly when sales ≤ cogs |
| Pagination.TotalPages | frontend/src/components/products/ProductsTable.jsx:8 | zero pages exactly for no rows; otherwise ⌈n / 50⌉ |
| Pagination.Slice | frontend/src/components/invoices/InvoicesList.jsx:12 | `Array.prototype.slice` on non-negative bounds clamps them to the length |
| Pagination.PageRows | frontend/src/components/products/ProductsTable.jsx:9-10 | a page shows at most 50 rows |
| Pagination.RowOnItsPage | frontend/src/components/products/ProductsTable.jsx:8-10 | row i is shown on page i / 50 + 1 at position i % 50, and that page exists |
| Pagination.ExistingPageNonEmpty | frontend/src/components/products/ProductsTable.jsx:8-10 | every page from 1 to the page count shows at least one row |
| Pagination.FirstPagesArePrefix | frontend/src/components/products/ProductsTable.jsx:8-10 | the first k pages laid end to end are the first min(50k, n) rows |
| Pagination.PagesPartitionRows | frontend/src/components/products/ProductsTable.jsx:8-10 | all pages laid end to end are exactly the rows |
| Pagination.Pager.constructor | frontend/src/components/products/ProductsTable.jsx:5 | the table starts on page 1 |
| Pagination.Pager.Prev | frontend/src/components/products/ProductsTable.jsx:151 | max(page − 1, 1), and an existing page stays one |
| Pagination.Pager.Next | frontend/src/components/products/ProductsTable.jsx:163 | min(page + 1, pages), and an existing page stays one |
| Pagination.Pager.Reset | frontend/src/components/products/ProductsTable.jsx:12-14 | a changed list goes back to page 1 |
| ProductsPage.BuildPayload | frontend/src/components/products/ProductsPage.jsx:43-55 | an empty name gives no payload; otherwise the name, the unit, the minimum ('' is 0) and zero prices and stock |
| ProductsPage.Submit | frontend/src/components/products/ProductsPage.jsx:42-62 | an update while editing, of the product being edited, and otherwise a create; both carry that payload |
| ProductsPage.EditForm | frontend/src/components/products/ProductsPage.jsx:75-84 | the form takes the product's fields, with "" for a missing name and "pcs" for a missing unit |
| ProductsPage.EditingWipesStock | frontend/src/components/products/ProductsPage.jsx:48-62 | opening a product for editing and saving sends zero prices and zero stock |
| ProductsPage.SubmitKeepingStock | frontend/src/components/products/ProductsPage.jsx:42-62 | the corrected submit: creates as before and updates with the form's prices and stock |
| ProductsPage.EditRoundTripKeepsProduct | frontend/src/components/products/ProductsPage.jsx:75-84 | with the corrected submit, editing and saving without changes sends the product's own prices and stock |
| ProductsPage.FilteredProducts | frontend/src/components/products/ProductsPage.jsx:100-103 | an order-preserving subsequence holding exactly the products that match, each as many times as in the list |
| ProductsPage.KeptIffTermOccurs | frontend/src/components/products/ProductsPage.jsx:100-103 | a product is kept exactly when the lower-cased term occurs in its lower-cased name ('' when missing) |
| ProductsPage.EmptyTermKeepsAll | frontend/src/components/products/ProductsPage.jsx:100-103 | an empty search keeps every product |
| Dashboard.CriticalIffTenfold | frontend/src/pages/Dashboard.jsx:90-94 | for a positive minimum, critical exactly when 10·stock ≤ minimum |
| Dashboard.CriticalProducts | frontend/src/pages/Dashboard.jsx:49 | an order-preserving subsequence holding exactly the critical products, each as many times as in the list |
| Dashboard.TotalStockAppend | frontend/src/pages/Dashboard.jsx:64 | the stock sum of a concatenation is the sum of the parts |
| Dashboard.TotalStockBoundsEach | frontend/src/pages/Dashboard.jsx:64 | with no negative stock, the total is at least each product's stock |
| Dashboard.TotalStockNonNegative | frontend/src/pages/Dashboard.jsx:64 | with no negative stock, the total is non-negative |
| Dashboard.TrendMeaning | frontend/src/pages/Dashboard.jsx:60-61 | trend × yesterday = (today − yesterday) × 100; for a positive yesterday, it is positive exactly on a rise and zero exactly when the values are equal |
| Dashboard.TrendExamples | frontend/src/pages/Dashboard.jsx:60-61 | a value against itself gives 0, every value against 0 (a missing yesterday) gives 0, and 120 against 100 gives 20 |
| Dashboard.ComputeStats | frontend/src/pages/Dashboard.jsx:63-68 | the product count, the stock sum, and today's sales and purchases with missing sums read as 0 |
| Dashboard.StatsTrends | frontend/src/pages/Dashboard.jsx:75-80 | the product and stock trends are always 0; the sales and purchases trends are `calcTrend` of today's and yesterday's sums (missing read as 0), and 0 when yesterday had none |
| Dashboard.AddProduct | frontend/src/pages/Dashboard.jsx:114-128 | an empty name is refused; otherwise a create with the minimum ('' is 0) and zero prices and stock |
| ProductsTable.ClassFollowsLabel | frontend/src/components/products/ProductsTable.jsx:41-61 | the colour class is always the colour of the label, so the two chains have the same bands |
| ProductsTable.Bands | frontend/src/components/products/ProductsTable.jsx:52-61 | for a positive minimum: Healthy ⟺ 10s ≥ 7m, Near Min ⟺ 2s ≥ m and 10s < 7m, Low ⟺ 5s > m > 2s, Critical ⟺ 5s ≤ m |
| ProductsTable.NoMinimumLabel | frontend/src/components/products/ProductsTable.jsx:53 | "No Min Set" exactly when the minimum is missing or 0 |
| ProductsTable.DashboardCriticalIsLabelledCritical | frontend/src/components/products/ProductsTable.jsx:60 | every product the dashboard lists as critical is labelled "Critical" |
| InvoicesList.SafeInvoices | frontend/src/components/invoices/InvoicesList.jsx:9 | a non-array prop is the empty list |
| InvoicesList.PartyNameMeaning | frontend/src/components/invoices/InvoicesList.jsx:82-84 | never blank. A sale shows the customer; a purchase shows the supplier, else the vendor. "N/A" when the invoice has no truthy name for its kind |
| InvoicesList.PartyNameIgnoresOtherSide | frontend/src/components/invoices/InvoicesList.jsx:82-84 | a sale never shows the supplier or vendor, and a purchase never the customer |
| InvoicesList.DisplayedTotal | frontend/src/components/invoices/InvoicesList.jsx:87 | a missing total shows "0.00"; a non-negative one shows digits, a point and two digits that read back as the amount; a negative one (a discount above the subtotal) shows a minus sign followed by digits that read back as its magnitude |
| InvoicesList.ItemCount | frontend/src/components/invoices/InvoicesList.jsx:90 | the items' length, or 0 when there are none |
| InvoicesList.VisibleInvoices | frontend/src/components/invoices/InvoicesList.jsx:10-12 | at most 50 rows; none for a non-array prop |
| InvoicesList.EveryInvoiceIsListed | frontend/src/components/invoices/InvoicesList.jsx:10-12 | every invoice appears on its page, and that page exists |
| InvoicesList.EmptyStateIffNoRows | frontend/src/components/invoices/InvoicesList.jsx:29 | the empty state shows exactly when there are no pages; the controls show exactly for more than 50 invoices |
| InvoicesList.ShowList | frontend/src/components/invoices/InvoicesList.jsx:14-16 | a new list starts on page 1 and shows its first 50 rows |
| Base.Fixed2 | frontend/src/components/invoices/InvoicesList.jsx:87 | `toFixed(2)` of cents: a point and two digits, and the digits read back as the amount (with a leading minus when it is negative) |
| Base.ShownAmount | frontend/src/components/reports/DayReport.jsx:61 | a missing figure shows "0.00" |
| Calendar.PrevDay | backend/reports/views.py:138 | the day before, one ordinal lower; none only before 0001-01-01 |
| Calendar.MinusDays | backend/reports/views.py:128 | n days earlier, n ordinals lower; none (OverflowError) exactly when the ordinal is at most n |
| Calendar.BeforeIffOrdinal | backend/reports/views.py:76 | date comparison is ordinal comparison |
| Calendar.OrdinalInjective | backend/reports/views.py:76 | two valid dates with the same ordinal are the same date |
| Calendar.MinusDaysTo | backend/reports/views.py:128 | `e - timedelta(days=k)` is `s` exactly when `s` is not after `e` and k is the difference of their ordinals |
| Calendar.ParseDate | backend/reports/views.py:17 | every parsed date is a valid calendar date, and its year is the value of the string's four leading digits, which a `-` follows |
| Calendar.CanonicalFields | backend/reports/views.py:17 | for a ten-character accepted string with a digit in the day's tens place, the year, month and day are the values of its digit fields and the separators are `-` |
| Calendar.CanonicalParseIsIsoFormat | backend/reports/views.py:17 | such a string is exactly the isoformat of the date strptime reads from it (the converse of IsoFormatRoundTrip) |
| Calendar.IsoFormatRoundTrip | backend/reports/views.py:17 | strptime reads back every date isoformat writes |

## Left out

- Network and async code: every API call, the loading flags, `alert` and `console`. Each page's fetch appears only as its outcome (`Fetched` or `Failed`).
- React rendering, modals and the JSX markup beyond the stock-band classes; the invoice list's locale date column.
- ORM aggregation in backend/reports/views.py: the sums are the `Ledger` input. This includes the quirk that sale invoices store a date-time while the views filter them by a date.
- `timezone.localdate()` and `new Date()`: today's date is a parameter. The unused time-zone conversions in the day view are not modelled.
- `transaction.atomic` and the database's concurrency; deletions; the Django admin, which may re-save a purchase item with a different product.
- Floating-point money and rounding: amounts are exact integer cents, and `round(x, 2)` is the identity on them.
- Dashboard.TrendMeaning: the trend is the exact real quotient, without `toFixed(1)` rounding to one decimal or its conversion to a string.
- SummaryReport.Ratio: the exact real ratio; `toFixed(2)` on it is not modelled.
- PeriodReport.DayCount: it counts calendar days between valid dates. It does not model JavaScript `Date` parsing of the input strings, time zones, or `NaN` for an unparsable input.
- JavaScript coercions (`parseInt`, `Number`, `parseFloat`): the inputs are already parsed numbers, and an empty field is `None`.
- Calendar.ParseDate: the ASCII `strptime` directives only. Python also accepts Unicode digits for `\d`; they are not modelled. The ensures state the year field directly; month and day are stated for the ten-character canonical form (Calendar.CanonicalFields), not for the one-digit and space-padded forms `%m` and `%d` also accept.
- ReportViews.SummaryType: `.lower()` is modelled on ASCII letters only. Python lowers Unicode too, so a type such as "WEE" followed by the Kelvin sign (U+212A) is the week summary in Python but "unknown type" in the model; ReportViews.SummaryTypeIgnoresCase and ReportViews.SummaryTypeAccepted hold for this ASCII lowering.
- ProductsPage.KeptIffTermOccurs: lower-casing is ASCII only; JavaScript's Unicode `toLowerCase` is not modelled.
- InvoiceForm.InvoiceDraft.ChangeItem: the source writes into line objects it shares with the previous React state. The model replaces the line with a new value, so that aliasing is not captured.
- InvoiceForm.EditKeepsWithinStock: a negative quantity typed into the form could break the ceiling. The invariant is proved for non-negative quantity edits and for catalogues without negative stock.
- The source differs from its written description in three places, and the model follows the source:
  - A selling-price edit is applied on sale invoices too.
  - The payload price falls back with `||`, so a price of 0 falls back as well as a missing one.
  - A stock violation is reported by `alert` only.

## Findings

| source | as written | input that shows it | evidently intended | confidence | as-written member | corrected member |
|---|---|---|---|---|---|---|
| backend/invoices/serializers.py:36-38 with backend/invoices/models.py:28-34 | each purchase item holds the product instance resolved at validation. Its `save` adds the delta to that stale copy and writes the whole row, so for a product listed twice only the last line's quantity reaches the stock | a product with stock 10, purchased in one invoice with lines of 2 and 3: stock ends at 13 | stock ends at 15: the lines accumulate, as they do on the sale path, which re-reads the product | not executed | InvoiceSerializers.RepeatedPurchaseLineLost | InvoiceSerializers.CreatePurchaseInvoiceFresh |
| frontend/src/components/products/ProductsPage.jsx:48-62 | the payload always sends buying price, selling price and stock as 0, also when updating | edit a product with stock 40 and save it unchanged: the update sends stock 0 | an update keeps the product's prices and stock | not executed | ProductsPage.EditingWipesStock | ProductsPage.SubmitKeepingStock |
