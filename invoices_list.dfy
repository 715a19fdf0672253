/** frontend/src/components/invoices/InvoicesList.jsx: which rows the table
    shows and what each row's party, total and item cells read. Dates are
    rendered by the browser's locale formatting, which is not modelled. */
module InvoicesList {
  import opened Base
  import opened Pagination

  /** An invoice record as the list receives it; any key may be missing. */
  datatype InvoiceRow = InvoiceRow(
    id: int,
    customerName: Option<string>,
    supplierName: Option<string>,
    vendorName: Option<string>,
    totalAmount: Option<int>,
    itemCount: Option<nat>)

  /** The `invoices` prop: an array, or anything else. */
  datatype InvoicesProp = Rows(rows: seq<InvoiceRow>) | NotRows

  /** `Array.isArray(invoices) ? invoices : []`. */
  function SafeInvoices(prop: InvoicesProp): (r: seq<InvoiceRow>)
    ensures prop.Rows? ==> r == prop.rows
    ensures prop.NotRows? ==> r == []
  {
    if prop.Rows? then prop.rows else []
  }

  /** A string is truthy in JavaScript when it is present and non-empty. */
  predicate Truthy(s: Option<string>) {
    s.Some? && s.value != ""
  }

  /** The customer or supplier cell: a sale shows the customer, a purchase the
      supplier, else the vendor, and "N/A" when none is truthy. */
  function PartyName(isSale: bool, inv: InvoiceRow): string {
    if isSale then
      if Truthy(inv.customerName) then inv.customerName.value else "N/A"
    else if Truthy(inv.supplierName) then inv.supplierName.value
    else if Truthy(inv.vendorName) then inv.vendorName.value
    else "N/A"
  }

  /** The party cell is never blank, and shows a name the record carries, or "N/A"
      exactly when the record carries none for its kind. */
  lemma PartyNameMeaning(isSale: bool, inv: InvoiceRow)
    ensures PartyName(isSale, inv) != ""
    ensures isSale ==> (PartyName(isSale, inv) == "N/A" && inv.customerName != Some("N/A") <==> !Truthy(inv.customerName))
    ensures isSale && Truthy(inv.customerName) ==> PartyName(isSale, inv) == inv.customerName.value
    ensures !isSale && Truthy(inv.supplierName) ==> PartyName(isSale, inv) == inv.supplierName.value
    ensures !isSale && !Truthy(inv.supplierName) && Truthy(inv.vendorName) ==> PartyName(isSale, inv) == inv.vendorName.value
    ensures !isSale && !Truthy(inv.supplierName) && !Truthy(inv.vendorName) ==> PartyName(isSale, inv) == "N/A"
  {
  }

  /** A sale row never shows the supplier or vendor, and a purchase row never the customer. */
  lemma PartyNameIgnoresOtherSide(inv: InvoiceRow, customer: Option<string>, supplier: Option<string>, vendor: Option<string>)
    ensures PartyName(true, inv.(supplierName := supplier, vendorName := vendor)) == PartyName(true, inv)
    ensures PartyName(false, inv.(customerName := customer)) == PartyName(false, inv)
  {
  }

  /** `Number(invoice.total_amount || 0).toFixed(2)`: a missing or zero total shows "0.00". */
  function DisplayedTotal(inv: InvoiceRow): (r: string)
    ensures inv.totalAmount.None? ==> r == "0.00"
    ensures |r| >= 4 && r[|r| - 3] == '.' && AllDigits(r[|r| - 2..])
    ensures inv.totalAmount.Some? && inv.totalAmount.value >= 0 ==>
              AllDigits(r[..|r| - 3]) && DigitsValue(r[..|r| - 3]) * 100 + DigitsValue(r[|r| - 2..]) == inv.totalAmount.value
    ensures inv.totalAmount.Some? && inv.totalAmount.value < 0 ==>
              r[0] == '-' && AllDigits(r[1..|r| - 3]) && DigitsValue(r[1..|r| - 3]) * 100 + DigitsValue(r[|r| - 2..]) == -inv.totalAmount.value
  {
    ShownAmount(inv.totalAmount)
  }

  /** `invoice.items?.length || 0`. */
  function ItemCount(inv: InvoiceRow): (n: nat)
    ensures inv.itemCount.Some? ==> n == inv.itemCount.value
    ensures inv.itemCount.None? ==> n == 0
  {
    inv.itemCount.GetOr(0)
  }

  /** The rows the table renders on `page`. */
  function VisibleInvoices(prop: InvoicesProp, page: int): (r: seq<InvoiceRow>)
    ensures |r| <= RowsPerPage
    ensures prop.NotRows? ==> r == []
  {
    PageRows(SafeInvoices(prop), page)
  }

  /** Each invoice is rendered on its own page, and a prop that is not an array
      renders the empty state rather than a table. */
  lemma EveryInvoiceIsListed(prop: InvoicesProp, i: nat)
    requires prop.Rows? && i < |prop.rows|
    ensures 1 <= i / RowsPerPage + 1 <= TotalPages(|SafeInvoices(prop)|)
    ensures prop.rows[i] in VisibleInvoices(prop, i / RowsPerPage + 1)
  {
    RowOnItsPage(prop.rows, i);
  }

  /** The heading of the empty state. */
  function EmptyHeading(isSale: bool): string {
    if isSale then "No Sales Yet" else "No Purchases Yet"
  }

  /** The list shows its empty state exactly when there are no rows; the pager's
      controls appear only with more than one page. */
  lemma EmptyStateIffNoRows(prop: InvoicesProp)
    ensures SafeInvoices(prop) == [] <==> TotalPages(|SafeInvoices(prop)|) == 0
    ensures TotalPages(|SafeInvoices(prop)|) > 1 <==> |SafeInvoices(prop)| > RowsPerPage
  {
  }

  /** A fresh list (a new `invoices` or `type`) starts on page 1, which shows its first rows. */
  method ShowList(prop: InvoicesProp) returns (pager: Pager, shown: seq<InvoiceRow>)
    ensures fresh(pager) && pager.currentPage == 1 && pager.rowCount == |SafeInvoices(prop)|
    ensures shown == SafeInvoices(prop)[..Min(RowsPerPage, |SafeInvoices(prop)|)]
  {
    var rows := SafeInvoices(prop);
    pager := new Pager(|rows|);
    shown := PageRows(rows, pager.currentPage);
  }
}
