/** `PurchaseInvoiceSerializer.create` and `SaleInvoiceSerializer.create` of
    backend/invoices/serializers.py over the in-memory database: one item row
    per validated item, the server-side totals, and the stock bookkeeping. */
module InvoiceSerializers {
  import opened Base
  import opened InvoiceModels

  /** A validated purchase item; `sellingPrice` is 0 when the client omits it. */
  datatype PurchaseLine = PurchaseLine(product: int, quantity: nat, price: int, sellingPrice: int)

  /** A validated sale item; its `price` is ignored by the server. */
  datatype SaleLine = SaleLine(product: int, quantity: nat, price: int)

  /** Every line names a stored product (what item validation guarantees). */
  predicate KnownPurchaseProducts(products: map<int, Product>, lines: seq<PurchaseLine>) {
    forall i :: 0 <= i < |lines| ==> lines[i].product in products
  }

  predicate KnownSaleProducts(products: map<int, Product>, lines: seq<SaleLine>) {
    forall i :: 0 <= i < |lines| ==> lines[i].product in products
  }

  // ---------------------------------------------------------------------------
  // Purchases

  function PurchaseRow(invoice: nat, line: PurchaseLine): PurchaseItem {
    PurchaseItem(invoice, line.product, line.quantity, line.price, line.sellingPrice)
  }

  /** The item rows a purchase creates, one per line, in order. */
  function PurchaseRows(invoice: nat, lines: seq<PurchaseLine>): (r: seq<PurchaseItem>)
    ensures |r| == |lines|
    ensures forall i :: 0 <= i < |lines| ==> r[i] == PurchaseRow(invoice, lines[i])
  {
    if lines == [] then [] else PurchaseRows(invoice, lines[..|lines| - 1]) + [PurchaseRow(invoice, lines[|lines| - 1])]
  }

  /** Σ quantity × price over the lines. */
  function PurchaseTotal(lines: seq<PurchaseLine>): int {
    if lines == [] then 0
    else PurchaseTotal(lines[..|lines| - 1]) + lines[|lines| - 1].quantity * lines[|lines| - 1].price
  }

  /** Σ quantity over the lines for product `id`. */
  function PurchasedQuantity(lines: seq<PurchaseLine>, id: int): int {
    if lines == [] then 0
    else PurchasedQuantity(lines[..|lines| - 1], id) + (if lines[|lines| - 1].product == id then lines[|lines| - 1].quantity else 0)
  }

  /** The quantity of the last line for product `id`, 0 when there is none. */
  function LastQuantity(lines: seq<PurchaseLine>, id: int): int {
    if lines == [] then 0
    else if lines[|lines| - 1].product == id then lines[|lines| - 1].quantity
    else LastQuantity(lines[..|lines| - 1], id)
  }

  /** The product table after the create as written: each item saves the
      product instance that item validation loaded before any item was saved,
      so a later line of the same product overwrites an earlier one's update. */
  function AfterPurchaseAsWritten(loaded: map<int, Product>, lines: seq<PurchaseLine>): (r: map<int, Product>)
    requires KnownPurchaseProducts(loaded, lines)
    ensures r.Keys == loaded.Keys
  {
    if lines == [] then loaded
    else
      var last := lines[|lines| - 1];
      AfterPurchaseAsWritten(loaded, lines[..|lines| - 1])[last.product :=
        ApplyPurchase(loaded[last.product], last.quantity, 0, last.price, last.sellingPrice)]
  }

  /** The product table when each item saves the product as currently stored. */
  function AfterPurchase(products: map<int, Product>, lines: seq<PurchaseLine>): (r: map<int, Product>)
    requires KnownPurchaseProducts(products, lines)
    ensures r.Keys == products.Keys
  {
    if lines == [] then products
    else
      var last := lines[|lines| - 1];
      var before := AfterPurchase(products, lines[..|lines| - 1]);
      before[last.product := ApplyPurchase(before[last.product], last.quantity, 0, last.price, last.sellingPrice)]
  }

  /** With fresh reads, every line's quantity reaches its product's stock. */
  lemma {:induction false} PurchaseStockAccumulates(products: map<int, Product>, lines: seq<PurchaseLine>, id: int)
    requires KnownPurchaseProducts(products, lines) && id in products
    ensures AfterPurchase(products, lines)[id].stock == products[id].stock + PurchasedQuantity(lines, id)
  {
    if lines != [] {
      PurchaseStockAccumulates(products, lines[..|lines| - 1], id);
    }
  }

  /** As written, only the last line of each product reaches its stock. */
  lemma {:induction false} PurchaseAsWrittenKeepsLastLine(loaded: map<int, Product>, lines: seq<PurchaseLine>, id: int)
    requires KnownPurchaseProducts(loaded, lines) && id in loaded
    ensures AfterPurchaseAsWritten(loaded, lines)[id].stock == loaded[id].stock + LastQuantity(lines, id)
  {
    if lines != [] {
      PurchaseAsWrittenKeepsLastLine(loaded, lines[..|lines| - 1], id);
    }
  }

  /** Lines for pairwise different products. */
  predicate DistinctProducts(lines: seq<PurchaseLine>) {
    forall i, j :: 0 <= i < j < |lines| ==> lines[i].product != lines[j].product
  }

  /** A product no line names keeps its whole row. */
  lemma {:induction false} UnpurchasedProductUnchanged(products: map<int, Product>, lines: seq<PurchaseLine>, id: int)
    requires KnownPurchaseProducts(products, lines) && id in products
    requires forall i :: 0 <= i < |lines| ==> lines[i].product != id
    ensures AfterPurchase(products, lines)[id] == products[id]
    ensures AfterPurchaseAsWritten(products, lines)[id] == products[id]
  {
    if lines != [] {
      UnpurchasedProductUnchanged(products, lines[..|lines| - 1], id);
    }
  }

  /** When no product repeats, the create as written agrees with fresh reads. */
  lemma {:induction false} DistinctLinesAgree(products: map<int, Product>, lines: seq<PurchaseLine>)
    requires KnownPurchaseProducts(products, lines) && DistinctProducts(lines)
    ensures AfterPurchaseAsWritten(products, lines) == AfterPurchase(products, lines)
  {
    if lines != [] {
      var init := lines[..|lines| - 1];
      DistinctLinesAgree(products, init);
      UnpurchasedProductUnchanged(products, init, lines[|lines| - 1].product);
    }
  }

  /** Two lines of one product in one purchase: as written the stock grows by
      the second quantity only; with fresh reads it grows by both. */
  lemma RepeatedPurchaseLineLost()
    ensures var products := map[1 := Product("Rice", "kg", 10, 0, 0, 0)];
            var lines := [PurchaseLine(1, 2, 500, 0), PurchaseLine(1, 3, 500, 0)];
            && AfterPurchaseAsWritten(products, lines)[1].stock == 13
            && AfterPurchase(products, lines)[1].stock == 15
  {
    var products := map[1 := Product("Rice", "kg", 10, 0, 0, 0)];
    var lines := [PurchaseLine(1, 2, 500, 0), PurchaseLine(1, 3, 500, 0)];
    assert lines[..1][..0] == [];
    assert lines[..1] == [PurchaseLine(1, 2, 500, 0)];
    PurchaseAsWrittenKeepsLastLine(products, lines, 1);
    PurchaseStockAccumulates(products, lines, 1);
  }

  /** `PurchaseInvoiceSerializer.create` as written: the product instances were
      resolved from the ids during validation, before the first save. */
  method CreatePurchaseInvoice(db: Database, supplierName: string, date: Option<string>, clientTotal: int, lines: seq<PurchaseLine>)
    returns (id: nat)
    requires KnownPurchaseProducts(db.products, lines)
    modifies db
    ensures id == |old(db.purchaseInvoices)|
    ensures db.purchaseInvoices == old(db.purchaseInvoices) + [PurchaseInvoice(supplierName, date, PurchaseTotal(lines))]
    ensures db.purchaseItems == old(db.purchaseItems) + PurchaseRows(id, lines)
    ensures db.products == AfterPurchaseAsWritten(old(db.products), lines)
    ensures db.saleInvoices == old(db.saleInvoices) && db.saleItems == old(db.saleItems)
  {
    var loaded := db.products;
    id := db.AddPurchaseInvoice(PurchaseInvoice(supplierName, date, clientTotal));
    var total := 0;
    for i := 0 to |lines|
      invariant db.purchaseInvoices == old(db.purchaseInvoices) + [PurchaseInvoice(supplierName, date, clientTotal)]
      invariant KnownPurchaseProducts(loaded, lines[..i])
      invariant db.purchaseItems == old(db.purchaseItems) + PurchaseRows(id, lines[..i])
      invariant db.products == AfterPurchaseAsWritten(loaded, lines[..i])
      invariant total == PurchaseTotal(lines[..i])
      invariant db.saleInvoices == old(db.saleInvoices) && db.saleItems == old(db.saleItems)
    {
      var line := lines[i];
      assert lines[..i + 1][..i] == lines[..i];
      var saved := db.SavePurchaseItem(None, PurchaseRow(id, line), loaded[line.product]);
      total := total + line.quantity * line.price;
    }
    assert lines[..|lines|] == lines;
    db.SetPurchaseTotal(id, total);
  }

  /** The create with each product re-read before its item is saved. */
  method CreatePurchaseInvoiceFresh(db: Database, supplierName: string, date: Option<string>, clientTotal: int, lines: seq<PurchaseLine>)
    returns (id: nat)
    requires KnownPurchaseProducts(db.products, lines)
    modifies db
    ensures id == |old(db.purchaseInvoices)|
    ensures db.purchaseInvoices == old(db.purchaseInvoices) + [PurchaseInvoice(supplierName, date, PurchaseTotal(lines))]
    ensures db.purchaseItems == old(db.purchaseItems) + PurchaseRows(id, lines)
    ensures db.products == AfterPurchase(old(db.products), lines)
    ensures db.saleInvoices == old(db.saleInvoices) && db.saleItems == old(db.saleItems)
  {
    id := db.AddPurchaseInvoice(PurchaseInvoice(supplierName, date, clientTotal));
    var total := 0;
    for i := 0 to |lines|
      invariant db.purchaseInvoices == old(db.purchaseInvoices) + [PurchaseInvoice(supplierName, date, clientTotal)]
      invariant KnownPurchaseProducts(old(db.products), lines[..i])
      invariant db.purchaseItems == old(db.purchaseItems) + PurchaseRows(id, lines[..i])
      invariant db.products == AfterPurchase(old(db.products), lines[..i])
      invariant total == PurchaseTotal(lines[..i])
      invariant db.saleInvoices == old(db.saleInvoices) && db.saleItems == old(db.saleItems)
    {
      var line := lines[i];
      assert lines[..i + 1][..i] == lines[..i];
      var product := db.GetProduct(line.product);
      var saved := db.SavePurchaseItem(None, PurchaseRow(id, line), product);
      total := total + line.quantity * line.price;
    }
    assert lines[..|lines|] == lines;
    db.SetPurchaseTotal(id, total);
  }

  // ---------------------------------------------------------------------------
  // Sales

  /** Σ quantity over the lines for product `id`. */
  function SoldQuantity(lines: seq<SaleLine>, id: int): int {
    if lines == [] then 0
    else SoldQuantity(lines[..|lines| - 1], id) + (if lines[|lines| - 1].product == id then lines[|lines| - 1].quantity else 0)
  }

  /** The product table after the sale: each line re-reads its product and
      lowers its stock, with no availability check. */
  function AfterSale(products: map<int, Product>, lines: seq<SaleLine>): (r: map<int, Product>)
    requires KnownSaleProducts(products, lines)
    ensures r.Keys == products.Keys
  {
    if lines == [] then products
    else
      var last := lines[|lines| - 1];
      var before := AfterSale(products, lines[..|lines| - 1]);
      before[last.product := before[last.product].(stock := before[last.product].stock - last.quantity)]
  }

  /** Each sold product loses exactly its summed quantity (possibly going below
      zero) and keeps every other field; other products are untouched. */
  lemma {:induction false} SaleStockAccumulates(products: map<int, Product>, lines: seq<SaleLine>, id: int)
    requires KnownSaleProducts(products, lines) && id in products
    ensures AfterSale(products, lines)[id] == products[id].(stock := products[id].stock - SoldQuantity(lines, id))
  {
    if lines != [] {
      SaleStockAccumulates(products, lines[..|lines| - 1], id);
    }
  }

  /** A product no sale line names keeps its row. */
  lemma {:induction false} UnsoldProductUnchanged(products: map<int, Product>, lines: seq<SaleLine>, id: int)
    requires KnownSaleProducts(products, lines) && id in products
    requires forall i :: 0 <= i < |lines| ==> lines[i].product != id
    ensures AfterSale(products, lines)[id] == products[id]
  {
    if lines != [] {
      UnsoldProductUnchanged(products, lines[..|lines| - 1], id);
    }
  }

  /** Selling more than is in stock is accepted and drives the stock negative. */
  lemma SaleMayOversell()
    ensures AfterSale(map[7 := Product("Oil", "ltr", 1, 5, 0, 900)], [SaleLine(7, 3, 0)])[7].stock == -2
  {
    var lines := [SaleLine(7, 3, 0)];
    assert lines[..0] == [];
  }

  /** The sale row of a line: priced at the product's selling price. */
  function SaleRow(invoice: nat, products: map<int, Product>, line: SaleLine): SaleItem
    requires line.product in products
  {
    SaleItem(invoice, line.product, line.quantity, products[line.product].sellingPrice)
  }

  function SaleRows(invoice: nat, products: map<int, Product>, lines: seq<SaleLine>): (r: seq<SaleItem>)
    requires KnownSaleProducts(products, lines)
    ensures |r| == |lines|
    ensures forall i :: 0 <= i < |lines| ==> r[i].product == lines[i].product && r[i].quantity == lines[i].quantity
    ensures forall i :: 0 <= i < |lines| ==> r[i].price == products[lines[i].product].sellingPrice
  {
    if lines == [] then []
    else SaleRows(invoice, products, lines[..|lines| - 1]) + [SaleRow(invoice, products, lines[|lines| - 1])]
  }

  /** Σ selling price × quantity over the lines. */
  function SaleSubtotal(products: map<int, Product>, lines: seq<SaleLine>): int
    requires KnownSaleProducts(products, lines)
  {
    if lines == [] then 0
    else SaleSubtotal(products, lines[..|lines| - 1]) + products[lines[|lines| - 1].product].sellingPrice * lines[|lines| - 1].quantity
  }

  /** The client's item prices do not affect the sale total. */
  lemma {:induction false} SaleSubtotalIgnoresClientPrices(products: map<int, Product>, a: seq<SaleLine>, b: seq<SaleLine>)
    requires KnownSaleProducts(products, a) && |a| == |b|
    requires forall i :: 0 <= i < |a| ==> a[i].product == b[i].product && a[i].quantity == b[i].quantity
    ensures KnownSaleProducts(products, b)
    ensures SaleSubtotal(products, a) == SaleSubtotal(products, b)
  {
    if a != [] {
      SaleSubtotalIgnoresClientPrices(products, a[..|a| - 1], b[..|b| - 1]);
    }
  }

  /** One more sale line: its row, its share of the subtotal and its stock
      change, with the re-read product still at its original selling price. */
  lemma SaleStep(invoice: nat, products: map<int, Product>, lines: seq<SaleLine>, i: nat)
    requires KnownSaleProducts(products, lines) && i < |lines|
    ensures KnownSaleProducts(products, lines[..i]) && KnownSaleProducts(products, lines[..i + 1])
    ensures var p := lines[i].product;
            var current := AfterSale(products, lines[..i]);
            && p in current && current[p].sellingPrice == products[p].sellingPrice
            && AfterSale(products, lines[..i + 1]) == current[p := current[p].(stock := current[p].stock - lines[i].quantity)]
            && SaleRows(invoice, products, lines[..i + 1]) == SaleRows(invoice, products, lines[..i]) + [SaleRow(invoice, products, lines[i])]
            && SaleSubtotal(products, lines[..i + 1]) == SaleSubtotal(products, lines[..i]) + products[p].sellingPrice * lines[i].quantity
  {
    assert lines[..i + 1][..i] == lines[..i];
    SaleStockAccumulates(products, lines[..i], lines[i].product);
  }

  /** One iteration of the item loop: re-read the product, store the row at
      its current selling price and lower its stock; returns the line amount. */
  method SellLine(db: Database, invoice: nat, line: SaleLine) returns (amount: int)
    requires line.product in db.products
    modifies db
    ensures var p := old(db.products)[line.product];
            && amount == p.sellingPrice * line.quantity
            && db.saleItems == old(db.saleItems) + [SaleItem(invoice, line.product, line.quantity, p.sellingPrice)]
            && db.products == old(db.products)[line.product := p.(stock := p.stock - line.quantity)]
    ensures db.saleInvoices == old(db.saleInvoices)
    ensures db.purchaseInvoices == old(db.purchaseInvoices) && db.purchaseItems == old(db.purchaseItems)
  {
    var product := db.GetProduct(line.product);
    var quantity := line.quantity;
    var price := product.sellingPrice;
    amount := price * quantity;
    var saved := db.SaveSaleItem(None, SaleItem(invoice, line.product, quantity, price));
    product := product.(stock := product.stock - quantity);
    db.SaveProduct(line.product, product);
  }

  /** `SaleInvoiceSerializer.create`: `discount` is `None` when the client omits it. */
  method CreateSaleInvoice(db: Database, customerName: string, clientTotal: int, discount: Option<int>, lines: seq<SaleLine>)
    returns (id: nat)
    requires KnownSaleProducts(db.products, lines)
    modifies db
    ensures id == |old(db.saleInvoices)|
    ensures db.saleInvoices == old(db.saleInvoices) +
              [SaleInvoice(customerName, SaleSubtotal(old(db.products), lines) - discount.GetOr(0), discount.GetOr(0))]
    ensures db.saleItems == old(db.saleItems) + SaleRows(id, old(db.products), lines)
    ensures db.products == AfterSale(old(db.products), lines)
    ensures db.purchaseInvoices == old(db.purchaseInvoices) && db.purchaseItems == old(db.purchaseItems)
  {
    var off := discount.GetOr(0);
    ghost var products := db.products;
    ghost var items := db.saleItems;
    id := db.AddSaleInvoice(SaleInvoice(customerName, clientTotal, off));
    var total := 0;
    for i := 0 to |lines|
      invariant db.saleInvoices == old(db.saleInvoices) + [SaleInvoice(customerName, clientTotal, off)]
      invariant db.saleItems == items + SaleRows(id, products, lines[..i])
      invariant db.products == AfterSale(products, lines[..i])
      invariant total == SaleSubtotal(products, lines[..i])
      invariant db.purchaseInvoices == old(db.purchaseInvoices) && db.purchaseItems == old(db.purchaseItems)
    {
      SaleStep(id, products, lines, i);
      ghost var rows := SaleRows(id, products, lines[..i]);
      var amount := SellLine(db, id, lines[i]);
      assert db.saleItems == items + (rows + [SaleRow(id, products, lines[i])]);
      total := total + amount;
    }
    assert lines[..|lines|] == lines;
    assert total == SaleSubtotal(products, lines);
    db.SetSaleTotal(id, total - off);
  }
}
