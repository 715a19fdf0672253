/** The invoice composition engine of frontend/src/components/invoices/InvoiceForm.jsx:
    a draft invoice whose line items are added, removed and edited one step at
    a time, with price auto-fill, the stock ceiling for sales, the running
    total and the submission payload. */
module InvoiceForm {
  import opened Base
  import opened Catalog

  datatype InvoiceKind = Sale | Purchase

  /** One line of the draft. `product` is the chosen product id; `None` is the
      empty choice `''`. Money is in cents. */
  datatype LineItem = LineItem(product: Option<int>, quantity: int, price: int, sellingPrice: int)

  /** The line a new draft starts with and "Add Item" appends. */
  const BlankLine: LineItem := LineItem(None, 1, 0, 0)

  /** An edit of one field of one line (`handleItemChange(index, field, value)`). */
  datatype Edit =
    | SetProduct(choice: Option<int>)
    | SetQuantity(quantity: int)
    | SetPrice(price: int)
    | SetSellingPrice(sellingPrice: int)

  datatype Account = Account(id: int, name: string)

  // ---------------------------------------------------------------------------
  // Adding and removing lines

  /** `handleAddItem`: the lines with one blank line appended. */
  function AddLine(items: seq<LineItem>): seq<LineItem> {
    items + [BlankLine]
  }

  /** `handleRemoveItem`: `items.filter((_, i) => i !== index)`. */
  function RemoveLine(items: seq<LineItem>, index: int): seq<LineItem> {
    if 0 <= index < |items| then items[..index] + items[index + 1..] else items
  }

  // ---------------------------------------------------------------------------
  // Quantities requested per product

  /** What one line contributes to the requested quantity of product `id`. */
  function Contribution(line: LineItem, id: int): int {
    if line.product == Some(id) then line.quantity else 0
  }

  /** The summed quantity of the lines that reference product `id`. */
  function QuantityFor(items: seq<LineItem>, id: int): int {
    if items == [] then 0 else Contribution(items[0], id) + QuantityFor(items[1..], id)
  }

  lemma {:induction false} QuantityForAppend(a: seq<LineItem>, b: seq<LineItem>, id: int)
    ensures QuantityFor(a + b, id) == QuantityFor(a, id) + QuantityFor(b, id)
  {
    if a == [] {
      assert a + b == b;
    } else {
      assert (a + b)[1..] == a[1..] + b;
      QuantityForAppend(a[1..], b, id);
    }
  }

  /** Replacing one line changes the requested quantity by the difference of the two lines' contributions. */
  lemma {:induction false} QuantityForUpdate(items: seq<LineItem>, k: nat, line: LineItem, id: int)
    requires k < |items|
    ensures QuantityFor(items[k := line], id) == QuantityFor(items, id) - Contribution(items[k], id) + Contribution(line, id)
  {
    if k > 0 {
      assert items[k := line][1..] == items[1..][k - 1 := line];
      QuantityForUpdate(items[1..], k - 1, line, id);
    }
  }

  /** Removing line `k` takes away exactly its contribution. */
  lemma QuantityForRemove(items: seq<LineItem>, k: nat, id: int)
    requires k < |items|
    ensures QuantityFor(RemoveLine(items, k), id) == QuantityFor(items, id) - Contribution(items[k], id)
  {
    assert items == items[..k] + ([items[k]] + items[k + 1..]);
    QuantityForAppend(items[..k], [items[k]] + items[k + 1..], id);
    QuantityForAppend([items[k]], items[k + 1..], id);
    QuantityForAppend(items[..k], items[k + 1..], id);
  }

  /** Every line quantity is non-negative (what the quantity input's `min` asks of the user). */
  predicate NonNegative(items: seq<LineItem>) {
    forall i :: 0 <= i < |items| ==> items[i].quantity >= 0
  }

  /** The stock ceiling: for every product id the catalogue resolves, the
      summed quantity of the lines referencing it does not exceed its stock. */
  ghost predicate WithinStock(catalog: seq<Product>, items: seq<LineItem>) {
    forall id :: FindProduct(catalog, id).Some? ==> QuantityFor(items, id) <= FindProduct(catalog, id).value.stock
  }

  // ---------------------------------------------------------------------------
  // Editing a line

  /** `newItems[index][field] = value`. */
  function Assign(line: LineItem, edit: Edit): LineItem {
    match edit
    case SetProduct(c) => line.(product := c)
    case SetQuantity(q) => line.(quantity := q)
    case SetPrice(x) => line.(price := x)
    case SetSellingPrice(x) => line.(sellingPrice := x)
  }

  /** Choosing a catalogue product fills the price (selling price for a sale,
      buying price for a purchase) and the selling price. */
  function AutoFill(kind: InvoiceKind, catalog: seq<Product>, line: LineItem, edit: Edit): LineItem {
    if edit.SetProduct? && edit.choice.Some? then
      match FindProduct(catalog, edit.choice.value)
      case Some(p) => line.(price := if kind == Sale then p.sellingPrice else p.buyingPrice, sellingPrice := p.sellingPrice)
      case None => line
    else line
  }

  /** The sale stock check on the staged lines: a product or quantity edit of a
      line whose product the catalogue knows, pushing that product's summed
      quantity above its stock. */
  predicate ExceedsStock(kind: InvoiceKind, catalog: seq<Product>, staged: seq<LineItem>, index: nat, edit: Edit)
    requires index < |staged|
  {
    && (edit.SetQuantity? || edit.SetProduct?)
    && staged[index].product.Some?
    && kind == Sale
    && FindProduct(catalog, staged[index].product.value).Some?
    && QuantityFor(staged, staged[index].product.value) > FindProduct(catalog, staged[index].product.value).value.stock
  }

  /** The revert after a failed stock check: a quantity edit is reset to 0, a
      product edit clears product, price and selling price. */
  function Revert(line: LineItem, edit: Edit): LineItem {
    if edit.SetQuantity? then line.(quantity := 0) else LineItem(None, line.quantity, 0, 0)
  }

  /** `handleItemChange`: the lines after editing line `index`. */
  function EditItem(kind: InvoiceKind, catalog: seq<Product>, items: seq<LineItem>, index: nat, edit: Edit): (r: seq<LineItem>)
    requires index < |items|
    ensures |r| == |items|
    ensures forall j :: 0 <= j < |items| && j != index ==> r[j] == items[j]
  {
    var staged := items[index := AutoFill(kind, catalog, Assign(items[index], edit), edit)];
    if ExceedsStock(kind, catalog, staged, index, edit) then staged[index := Revert(staged[index], edit)] else staged
  }

  /** Choosing a catalogue product: without a stock violation the line takes
      the product and its prices; with one, the line keeps only its quantity. */
  lemma ProductChoiceOutcome(kind: InvoiceKind, catalog: seq<Product>, items: seq<LineItem>, index: nat, id: int, p: Product)
    requires index < |items|
    requires FindProduct(catalog, id) == Some(p)
    ensures var requested := QuantityFor(items[index := items[index].(product := Some(id))], id);
            var r := EditItem(kind, catalog, items, index, SetProduct(Some(id)));
            if kind == Sale && requested > p.stock then r[index] == LineItem(None, items[index].quantity, 0, 0)
            else r[index] == LineItem(Some(id), items[index].quantity, if kind == Sale then p.sellingPrice else p.buyingPrice, p.sellingPrice)
  {
    var line := items[index].(product := Some(id));
    var filled := AutoFill(kind, catalog, line, SetProduct(Some(id)));
    QuantityForUpdate(items, index, line, id);
    QuantityForUpdate(items, index, filled, id);
  }

  /** A quantity edit on a sale line of a known product is reset to 0 exactly
      when the product's summed quantity would exceed its stock. */
  lemma QuantityEditOutcome(catalog: seq<Product>, items: seq<LineItem>, index: nat, q: int, id: int, p: Product)
    requires index < |items|
    requires items[index].product == Some(id) && FindProduct(catalog, id) == Some(p)
    ensures var r := EditItem(Sale, catalog, items, index, SetQuantity(q));
            if QuantityFor(items[index := items[index].(quantity := q)], id) > p.stock
            then r[index] == items[index].(quantity := 0)
            else r[index] == items[index].(quantity := q)
  {
  }

  /** Purchases, unknown products, empty choices and price edits are never
      checked: the line simply takes the edit (and any auto-fill). */
  lemma UncheckedEdits(kind: InvoiceKind, catalog: seq<Product>, items: seq<LineItem>, index: nat, edit: Edit)
    requires index < |items|
    requires var staged := AutoFill(kind, catalog, Assign(items[index], edit), edit);
             || kind == Purchase
             || edit.SetPrice? || edit.SetSellingPrice?
             || staged.product.None?
             || FindProduct(catalog, staged.product.value).None?
    ensures EditItem(kind, catalog, items, index, edit) == items[index := AutoFill(kind, catalog, Assign(items[index], edit), edit)]
  {
  }

  /** The stock ceiling is an invariant of every edit of a sale draft whose
      quantities stay non-negative. */
  lemma {:induction false} EditKeepsWithinStock(catalog: seq<Product>, items: seq<LineItem>, index: nat, edit: Edit)
    requires index < |items|
    requires WithinStock(catalog, items) && NonNegative(items)
    requires edit.SetQuantity? ==> edit.quantity >= 0
    ensures WithinStock(catalog, EditItem(Sale, catalog, items, index, edit))
    ensures NonNegative(EditItem(Sale, catalog, items, index, edit))
  {
    var line := AutoFill(Sale, catalog, Assign(items[index], edit), edit);
    var staged := items[index := line];
    var r := EditItem(Sale, catalog, items, index, edit);
    forall id | FindProduct(catalog, id).Some?
      ensures QuantityFor(r, id) <= FindProduct(catalog, id).value.stock
    {
      QuantityForUpdate(items, index, line, id);
      if ExceedsStock(Sale, catalog, staged, index, edit) {
        QuantityForUpdate(staged, index, Revert(line, edit), id);
        assert staged[index := Revert(line, edit)] == items[index := Revert(line, edit)];
        QuantityForUpdate(items, index, Revert(line, edit), id);
      } else if line.product == Some(id) && (edit.SetQuantity? || edit.SetProduct?) {
      } else if line.product == Some(id) {
        assert Contribution(line, id) == Contribution(items[index], id);
      }
    }
  }

  /** Adding a blank line keeps the stock ceiling. */
  lemma AddLineKeepsWithinStock(catalog: seq<Product>, items: seq<LineItem>)
    requires WithinStock(catalog, items) && NonNegative(items)
    ensures WithinStock(catalog, AddLine(items)) && NonNegative(AddLine(items))
  {
    forall id | FindProduct(catalog, id).Some?
      ensures QuantityFor(AddLine(items), id) <= FindProduct(catalog, id).value.stock
    {
      QuantityForAppend(items, [BlankLine], id);
    }
  }

  /** Removing a line keeps the stock ceiling. */
  lemma RemoveLineKeepsWithinStock(catalog: seq<Product>, items: seq<LineItem>, index: int)
    requires WithinStock(catalog, items) && NonNegative(items)
    ensures WithinStock(catalog, RemoveLine(items, index)) && NonNegative(RemoveLine(items, index))
  {
    if 0 <= index < |items| {
      forall id | FindProduct(catalog, id).Some?
        ensures QuantityFor(RemoveLine(items, index), id) <= FindProduct(catalog, id).value.stock
      {
        QuantityForRemove(items, index, id);
      }
      forall i | 0 <= i < |RemoveLine(items, index)|
        ensures RemoveLine(items, index)[i].quantity >= 0
      {
        if i >= index {
          assert RemoveLine(items, index)[i] == items[i + 1];
        }
      }
    }
  }

  /** Removing line `index` deletes exactly that line and keeps the others in order. */
  lemma RemoveLineShape(items: seq<LineItem>, index: int)
    requires 0 <= index < |items|
    ensures |RemoveLine(items, index)| == |items| - 1
    ensures forall j :: 0 <= j < index ==> RemoveLine(items, index)[j] == items[j]
    ensures forall j :: index <= j < |items| - 1 ==> RemoveLine(items, index)[j] == items[j + 1]
  {
  }

  // ---------------------------------------------------------------------------
  // Total

  /** Σ quantity × price over the lines (`price || 0`: a missing price counts as 0). */
  function Subtotal(items: seq<LineItem>): int {
    if items == [] then 0 else items[0].quantity * items[0].price + Subtotal(items[1..])
  }

  /** `calculateTotal`: subtotal minus discount, not floored at zero. */
  function Total(items: seq<LineItem>, discount: int): int {
    Subtotal(items) - discount
  }

  lemma {:induction false} SubtotalAppend(a: seq<LineItem>, b: seq<LineItem>)
    ensures Subtotal(a + b) == Subtotal(a) + Subtotal(b)
  {
    if a == [] {
      assert a + b == b;
    } else {
      assert (a + b)[1..] == a[1..] + b;
      SubtotalAppend(a[1..], b);
    }
  }

  /** A blank line (price 0) leaves the total unchanged. */
  lemma AddLineKeepsTotal(items: seq<LineItem>, discount: int)
    ensures Total(AddLine(items), discount) == Total(items, discount)
  {
    SubtotalAppend(items, [BlankLine]);
  }

  /** Removing a line lowers the total by exactly that line's amount. */
  lemma RemoveLineTotal(items: seq<LineItem>, index: int, discount: int)
    requires 0 <= index < |items|
    ensures Total(RemoveLine(items, index), discount) == Total(items, discount) - items[index].quantity * items[index].price
  {
    assert items == items[..index] + ([items[index]] + items[index + 1..]);
    SubtotalAppend(items[..index], [items[index]] + items[index + 1..]);
    SubtotalAppend([items[index]], items[index + 1..]);
    SubtotalAppend(items[..index], items[index + 1..]);
  }

  /** A discount larger than the subtotal gives a negative total. */
  lemma TotalNotFloored(items: seq<LineItem>, discount: int)
    requires discount > Subtotal(items)
    ensures Total(items, discount) < 0
  {
  }

  // ---------------------------------------------------------------------------
  // Submission payload

  datatype SubmitError = NoAccount | NoItems

  /** The party field: `customer_name` for a sale, `supplier_name` for a purchase. */
  datatype Party = CustomerName(name: string) | SupplierName(name: string)

  datatype PayloadItem = PayloadItem(product: Option<int>, quantity: int, price: int)

  datatype Payload = Payload(party: Party, discount: int, items: seq<PayloadItem>, totalAmount: int, date: Option<string>)

  /** One payload item: `price || selling_price`, so a zero price falls back to the selling price. */
  function PayloadItemOf(line: LineItem): PayloadItem {
    PayloadItem(line.product, line.quantity, if line.price != 0 then line.price else line.sellingPrice)
  }

  function PayloadItems(items: seq<LineItem>): (r: seq<PayloadItem>)
    ensures |r| == |items|
    ensures forall i :: 0 <= i < |items| ==> r[i] == PayloadItemOf(items[i])
  {
    if items == [] then [] else [PayloadItemOf(items[0])] + PayloadItems(items[1..])
  }

  /** The party field for the chosen account id: its name, or "" when `accounts` lacks it. */
  function PartyOf(kind: InvoiceKind, accounts: seq<Account>, id: int): Party {
    var chosen := FindFirst(accounts, (a: Account) => a.id == id);
    var name := if chosen.Some? then chosen.value.name else "";
    if kind == Sale then CustomerName(name) else SupplierName(name)
  }

  /** `handleSubmit`'s validation and payload. `account` is the chosen account
      id (`None` for `''`), `accounts` the fetched customer or supplier list. */
  function BuildPayload(kind: InvoiceKind, account: Option<int>, accounts: seq<Account>,
                        items: seq<LineItem>, discount: int, date: string): (r: Result<Payload, SubmitError>)
    ensures account.None? ==> r == Err(NoAccount)
    ensures account.Some? && items == [] ==> r == Err(NoItems)
    ensures r.Ok? <==> account.Some? && items != []
    ensures r.Ok? ==> r.value.items == PayloadItems(items) && r.value.totalAmount == Total(items, discount)
    ensures r.Ok? ==> r.value.discount == discount
    ensures r.Ok? ==> r.value.date == if kind == Purchase && date != "" then Some(date) else None
    ensures r.Ok? ==> (r.value.party.CustomerName? <==> kind == Sale)
  {
    if account.None? then Err(NoAccount)
    else if items == [] then Err(NoItems)
    else
      Ok(Payload(
        PartyOf(kind, accounts, account.value),
        discount,
        PayloadItems(items),
        Total(items, discount),
        if kind != Sale && date != "" then Some(date) else None))
  }

  /** The party name is the name of the first account with the chosen id
      (`accounts.find`), or "" when the list lacks it. */
  lemma PayloadPartyName(kind: InvoiceKind, id: int, accounts: seq<Account>, items: seq<LineItem>, discount: int, date: string, k: int)
    requires items != []
    ensures var r := BuildPayload(kind, Some(id), accounts, items, discount, date);
            r.Ok? && (r.value.party.name == "" || exists a :: a in accounts && a.id == id && a.name == r.value.party.name)
    ensures 0 <= k < |accounts| && accounts[k].id == id && (forall j :: 0 <= j < k ==> accounts[j].id != id) ==>
              BuildPayload(kind, Some(id), accounts, items, discount, date).value.party.name == accounts[k].name
    ensures (forall a :: a in accounts ==> a.id != id) ==> BuildPayload(kind, Some(id), accounts, items, discount, date).value.party.name == ""
  {
    if 0 <= k < |accounts| && accounts[k].id == id && (forall j :: 0 <= j < k ==> accounts[j].id != id) {
      var matches := (a: Account) => a.id == id;
      assert accounts[k] in accounts;
      var chosen := FindFirst(accounts, matches);
      var k' :| 0 <= k' < |accounts| && accounts[k'] == chosen.value && forall j :: 0 <= j < k' ==> !matches(accounts[j]);
      assert k' == k;
    }
  }

  /** Σ quantity × price over the payload items. */
  function PayloadSum(items: seq<PayloadItem>): int {
    if items == [] then 0 else items[0].quantity * items[0].price + PayloadSum(items[1..])
  }

  /** When every line has a non-zero price, the payload's `total_amount` equals
      its items' sum minus the discount. */
  lemma {:induction false} PayloadTotalMatchesItems(items: seq<LineItem>, discount: int)
    requires forall i :: 0 <= i < |items| ==> items[i].price != 0
    ensures PayloadSum(PayloadItems(items)) - discount == Total(items, discount)
  {
    if items != [] {
      assert PayloadItems(items)[1..] == PayloadItems(items[1..]);
      PayloadTotalMatchesItems(items[1..], 0);
    }
  }

  /** A line with price 0 is sent at its selling price but counted at 0 in
      `total_amount`, so the two disagree. */
  lemma ZeroPriceLineTotalsDisagree(sellingPrice: int)
    requires sellingPrice != 0
    ensures var items := [LineItem(Some(1), 1, 0, sellingPrice)];
            PayloadSum(PayloadItems(items)) == sellingPrice && Total(items, 0) == 0
  {
    var items := [LineItem(Some(1), 1, 0, sellingPrice)];
    assert items[1..] == [];
    assert PayloadItems(items) == [PayloadItem(Some(1), 1, sellingPrice)];
    assert PayloadItems(items)[1..] == [];
    assert Subtotal(items) == 1 * 0 + Subtotal([]);
  }

  // ---------------------------------------------------------------------------
  // The draft, edited in place

  /** The form's `invoiceData` state together with the fetched products and accounts. */
  class InvoiceDraft {
    const kind: InvoiceKind
    const catalog: seq<Product>
    const accounts: seq<Account>
    var date: string
    var account: Option<int>
    var items: seq<LineItem>
    var discount: int

    /** For a sale: quantities non-negative and within stock. */
    ghost predicate StockInvariant()
      reads this
    {
      kind == Sale ==> WithinStock(catalog, items) && NonNegative(items)
    }

    /** A fresh form: today's date, no account, one blank line, no discount. */
    constructor (kind: InvoiceKind, catalog: seq<Product>, accounts: seq<Account>, today: string)
      ensures this.kind == kind && this.catalog == catalog && this.accounts == accounts
      ensures date == today && account == None && items == [BlankLine] && discount == 0
      ensures (forall p :: p in catalog ==> p.stock >= 0) ==> StockInvariant()
    {
      this.kind := kind;
      this.catalog := catalog;
      this.accounts := accounts;
      date := today;
      account := None;
      items := [BlankLine];
      discount := 0;
      new;
      assert forall id :: QuantityFor([BlankLine], id) == 0;
    }

    method SetDate(value: string)
      modifies this
      ensures date == value && account == old(account) && items == old(items) && discount == old(discount)
    {
      date := value;
    }

    method SetAccount(value: Option<int>)
      modifies this
      ensures account == value && date == old(date) && items == old(items) && discount == old(discount)
    {
      account := value;
    }

    method SetDiscount(value: int)
      modifies this
      ensures discount == value && date == old(date) && account == old(account) && items == old(items)
    {
      discount := value;
    }

    method AddItem()
      modifies this
      ensures items == old(items) + [BlankLine]
      ensures date == old(date) && account == old(account) && discount == old(discount)
      ensures old(StockInvariant()) ==> StockInvariant()
    {
      if kind == Sale && StockInvariant() {
        AddLineKeepsWithinStock(catalog, items);
      }
      items := items + [BlankLine];
    }

    method RemoveItem(index: int)
      modifies this
      ensures items == RemoveLine(old(items), index)
      ensures 0 <= index < |old(items)| ==> |items| == |old(items)| - 1
      ensures date == old(date) && account == old(account) && discount == old(discount)
      ensures old(StockInvariant()) ==> StockInvariant()
    {
      if kind == Sale && StockInvariant() {
        RemoveLineKeepsWithinStock(catalog, items, index);
      }
      var kept: seq<LineItem> := [];
      var i := 0;
      while i < |items|
        invariant 0 <= i <= |items|
        invariant kept == if 0 <= index < i then items[..index] + items[index + 1..i] else items[..i]
      {
        if i != index {
          kept := kept + [items[i]];
        }
        i := i + 1;
      }
      assert items[..|items|] == items;
      items := kept;
    }

    /** `handleItemChange`: write the field, auto-fill prices, then run the sale stock check and revert. */
    method ChangeItem(index: nat, edit: Edit)
      requires index < |items|
      modifies this
      ensures items == EditItem(kind, catalog, old(items), index, edit)
      ensures date == old(date) && account == old(account) && discount == old(discount)
      ensures old(StockInvariant()) && (edit.SetQuantity? ==> edit.quantity >= 0) ==> StockInvariant()
    {
      if kind == Sale && StockInvariant() && (edit.SetQuantity? ==> edit.quantity >= 0) {
        EditKeepsWithinStock(catalog, items, index, edit);
      }
      var newItems := items;
      var line := Assign(newItems[index], edit);
      if edit.SetProduct? && edit.choice.Some? {
        var selected := FindProduct(catalog, edit.choice.value);
        if selected.Some? {
          line := line.(price := if kind == Sale then selected.value.sellingPrice else selected.value.buyingPrice);
          line := line.(sellingPrice := selected.value.sellingPrice);
        }
      }
      newItems := newItems[index := line];
      if (edit.SetQuantity? || edit.SetProduct?) && line.product.Some? {
        var productId := line.product.value;
        var selected := FindProduct(catalog, productId);
        if kind == Sale && selected.Some? {
          var totalQty := QuantityFor(newItems, productId);
          if totalQty > selected.value.stock {
            if edit.SetQuantity? {
              newItems := newItems[index := line.(quantity := 0)];
            } else {
              newItems := newItems[index := LineItem(None, line.quantity, 0, 0)];
            }
          }
        }
      }
      items := newItems;
    }

    /** `calculateTotal` on the current state. */
    method CalculateTotal() returns (total: int)
      ensures total == Subtotal(items) - discount
    {
      var subtotal := 0;
      var i := |items|;
      while i > 0
        invariant 0 <= i <= |items|
        invariant subtotal == Subtotal(items[i..])
      {
        i := i - 1;
        assert items[i..][1..] == items[i + 1..];
        subtotal := subtotal + items[i].quantity * items[i].price;
      }
      total := subtotal - discount;
    }

    /** `handleSubmit`: the payload handed to `onSubmit`, or the validation
        failure; `total_amount` is what `calculateTotal` returns. */
    method Submit() returns (r: Result<Payload, SubmitError>)
      ensures account.None? ==> r == Err(NoAccount)
      ensures account.Some? && items == [] ==> r == Err(NoItems)
      ensures r.Ok? <==> account.Some? && items != []
      ensures r.Ok? ==> r.value.totalAmount == Subtotal(items) - discount && r.value.discount == discount
      ensures r.Ok? ==> r.value.items == PayloadItems(items)
      ensures r.Ok? ==> (r.value.party.CustomerName? <==> kind == Sale)
      ensures r == BuildPayload(kind, account, accounts, items, discount, date)
    {
      if account.None? {
        return Err(NoAccount);
      }
      if items == [] {
        return Err(NoItems);
      }
      var total := CalculateTotal();
      r := Ok(Payload(
        PartyOf(kind, accounts, account.value),
        discount,
        PayloadItems(items),
        total,
        if kind != Sale && date != "" then Some(date) else None));
    }
  }
}
