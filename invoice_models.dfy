/** The invoice tables of backend/invoices/models.py and the product table
    they update, as an in-memory database: `PurchaseItem.save` applies the
    quantity delta to stock and refreshes the product's prices, `SaleItem.save`
    only stores its row, and the `__str__` labels. Primary keys are positions
    in the tables; money is in cents. */
module InvoiceModels {
  import opened Base

  /** A product row as the backend stores it. */
  datatype Product = Product(name: string, unit: string, stock: int, minStock: int, buyingPrice: int, sellingPrice: int)

  /** `date` is `None` when the request leaves it out, so that the column's
      default (`timezone.now`, the server clock) applies. */
  datatype PurchaseInvoice = PurchaseInvoice(supplierName: string, date: Option<string>, totalAmount: int)

  /** `quantity` is a `PositiveIntegerField`, which admits 0. */
  datatype PurchaseItem = PurchaseItem(invoice: nat, product: int, quantity: nat, price: int, sellingPrice: int)

  datatype SaleInvoice = SaleInvoice(customerName: string, totalAmount: int, discount: int)

  datatype SaleItem = SaleItem(invoice: nat, product: int, quantity: nat, price: int)

  /** What `PurchaseItem.save` does to the product instance it holds: stock
      moves by the quantity delta, the buying price becomes the item price and
      the selling price is overwritten only by a positive item selling price. */
  function ApplyPurchase(p: Product, quantity: nat, oldQuantity: nat, price: int, sellingPrice: int): (r: Product)
    ensures r.stock - p.stock == quantity - oldQuantity
    ensures r.buyingPrice == price
    ensures r.sellingPrice == if sellingPrice > 0 then sellingPrice else p.sellingPrice
    ensures r.name == p.name && r.unit == p.unit && r.minStock == p.minStock
  {
    var difference := quantity - oldQuantity;
    var withStock := p.(stock := p.stock + difference, buyingPrice := price);
    if sellingPrice > 0 then withStock.(sellingPrice := sellingPrice) else withStock
  }

  class Database {
    var products: map<int, Product>
    var purchaseInvoices: seq<PurchaseInvoice>
    var purchaseItems: seq<PurchaseItem>
    var saleInvoices: seq<SaleInvoice>
    var saleItems: seq<SaleItem>

    /** A database holding `products` and no invoices. */
    constructor (products: map<int, Product>)
      ensures this.products == products
      ensures purchaseInvoices == [] && purchaseItems == [] && saleInvoices == [] && saleItems == []
    {
      this.products := products;
      purchaseInvoices := [];
      purchaseItems := [];
      saleInvoices := [];
      saleItems := [];
    }

    /** `Product.objects.get(id=id)`: a fresh instance of the stored row. */
    method GetProduct(id: int) returns (p: Product)
      requires id in products
      ensures p == products[id]
    {
      p := products[id];
    }

    /** `product.save()`: the whole row is written from the instance. */
    method SaveProduct(id: int, p: Product)
      requires id in products
      modifies this
      ensures products == old(products)[id := p]
      ensures products.Keys == old(products).Keys
      ensures purchaseInvoices == old(purchaseInvoices) && purchaseItems == old(purchaseItems)
      ensures saleInvoices == old(saleInvoices) && saleItems == old(saleItems)
    {
      products := products[id := p];
    }

    /** `PurchaseInvoice.objects.create(...)`. */
    method AddPurchaseInvoice(invoice: PurchaseInvoice) returns (id: nat)
      modifies this
      ensures id == |old(purchaseInvoices)| && purchaseInvoices == old(purchaseInvoices) + [invoice]
      ensures products == old(products) && purchaseItems == old(purchaseItems)
      ensures saleInvoices == old(saleInvoices) && saleItems == old(saleItems)
    {
      id := |purchaseInvoices|;
      purchaseInvoices := purchaseInvoices + [invoice];
    }

    /** `invoice.total_amount = total; invoice.save()`. */
    method SetPurchaseTotal(id: nat, total: int)
      requires id < |purchaseInvoices|
      modifies this
      ensures purchaseInvoices == old(purchaseInvoices)[id := old(purchaseInvoices)[id].(totalAmount := total)]
      ensures products == old(products) && purchaseItems == old(purchaseItems)
      ensures saleInvoices == old(saleInvoices) && saleItems == old(saleItems)
    {
      purchaseInvoices := purchaseInvoices[id := purchaseInvoices[id].(totalAmount := total)];
    }

    /** `SaleInvoice.objects.create(...)`. */
    method AddSaleInvoice(invoice: SaleInvoice) returns (id: nat)
      modifies this
      ensures id == |old(saleInvoices)| && saleInvoices == old(saleInvoices) + [invoice]
      ensures products == old(products) && saleItems == old(saleItems)
      ensures purchaseInvoices == old(purchaseInvoices) && purchaseItems == old(purchaseItems)
    {
      id := |saleInvoices|;
      saleInvoices := saleInvoices + [invoice];
    }

    method SetSaleTotal(id: nat, total: int)
      requires id < |saleInvoices|
      modifies this
      ensures saleInvoices == old(saleInvoices)[id := old(saleInvoices)[id].(totalAmount := total)]
      ensures products == old(products) && saleItems == old(saleItems)
      ensures purchaseInvoices == old(purchaseInvoices) && purchaseItems == old(purchaseItems)
    {
      saleInvoices := saleInvoices[id := saleInvoices[id].(totalAmount := total)];
    }

    /** `PurchaseItem.save()` for an item whose `product` attribute is the
        instance `held` (`None` primary key: a new row). An unknown primary key
        raises `DoesNotExist` before anything is written (`saved` false). */
    method SavePurchaseItem(pk: Option<nat>, item: PurchaseItem, held: Product) returns (saved: bool)
      requires item.product in products
      modifies this
      ensures saved <==> pk.None? || pk.value < |old(purchaseItems)|
      ensures !saved ==> products == old(products) && purchaseItems == old(purchaseItems)
      ensures saved && pk.None? ==> purchaseItems == old(purchaseItems) + [item]
      ensures saved && pk.Some? ==> purchaseItems == old(purchaseItems)[pk.value := item]
      ensures saved ==> products == old(products)[item.product :=
                ApplyPurchase(held, item.quantity, if pk.None? then 0 else old(purchaseItems)[pk.value].quantity,
                              item.price, item.sellingPrice)]
      ensures products.Keys == old(products).Keys
      ensures purchaseInvoices == old(purchaseInvoices)
      ensures saleInvoices == old(saleInvoices) && saleItems == old(saleItems)
    {
      var oldQuantity := 0;
      if pk.Some? {
        if pk.value >= |purchaseItems| {
          return false;
        }
        oldQuantity := purchaseItems[pk.value].quantity;
        purchaseItems := purchaseItems[pk.value := item];
      } else {
        purchaseItems := purchaseItems + [item];
      }
      var difference := item.quantity - oldQuantity;
      var product := held;
      product := product.(stock := product.stock + difference);
      product := product.(buyingPrice := item.price);
      if item.sellingPrice > 0 {
        product := product.(sellingPrice := item.sellingPrice);
      }
      products := products[item.product := product];
      saved := true;
    }

    /** `SaleItem.save()`: stores the row and touches no product. */
    method SaveSaleItem(pk: Option<nat>, item: SaleItem) returns (saved: bool)
      modifies this
      ensures saved <==> pk.None? || pk.value < |old(saleItems)|
      ensures saved && pk.None? ==> saleItems == old(saleItems) + [item]
      ensures saved && pk.Some? ==> saleItems == old(saleItems)[pk.value := item]
      ensures !saved ==> saleItems == old(saleItems)
      ensures products == old(products)
      ensures purchaseInvoices == old(purchaseInvoices) && purchaseItems == old(purchaseItems)
      ensures saleInvoices == old(saleInvoices)
    {
      if pk.Some? {
        if pk.value >= |saleItems| {
          return false;
        }
        saleItems := saleItems[pk.value := item];
      } else {
        saleItems := saleItems + [item];
      }
      saved := true;
    }
  }

  // ---------------------------------------------------------------------------
  // __str__

  /** An f-string rendering of a primary key; an unsaved row has none. */
  function IdText(id: Option<nat>): string {
    if id.Some? then NatToString(id.value) else "None"
  }

  /** `PurchaseInvoice.__str__`. */
  function PurchaseInvoiceLabel(id: Option<nat>, supplierName: string): (r: string)
    ensures IsPrefix("Purchase #", r)
    ensures |r| >= |supplierName| + 13 && r[|r| - |supplierName| - 3..] == " - " + supplierName
    ensures var mid := r[10..|r| - |supplierName| - 3];
            (id.Some? ==> AllDigits(mid) && DigitsValue(mid) == id.value) && (id.None? ==> mid == "None")
  {
    var r := "Purchase #" + IdText(id) + " - " + supplierName;
    assert r[10..|r| - |supplierName| - 3] == IdText(id);
    r
  }

  /** `SaleInvoice.__str__`. */
  function SaleInvoiceLabel(id: Option<nat>, customerName: string): (r: string)
    ensures IsPrefix("Invoice #", r)
    ensures |r| >= |customerName| + 12 && r[|r| - |customerName| - 3..] == " - " + customerName
    ensures var mid := r[9..|r| - |customerName| - 3];
            (id.Some? ==> AllDigits(mid) && DigitsValue(mid) == id.value) && (id.None? ==> mid == "None")
  {
    var r := "Invoice #" + IdText(id) + " - " + customerName;
    assert r[9..|r| - |customerName| - 3] == IdText(id);
    r
  }

  /** `PurchaseItem.__str__` and `SaleItem.__str__`. */
  function ItemLabel(productName: string, quantity: nat): (r: string)
    ensures IsPrefix(productName + " x ", r)
    ensures AllDigits(r[|productName| + 3..]) && DigitsValue(r[|productName| + 3..]) == quantity
  {
    var r := productName + " x " + NatToString(quantity);
    assert r[|productName| + 3..] == NatToString(quantity);
    r
  }

  /** Distinct numbers render differently. */
  lemma RenderingsDiffer(a: nat, b: nat)
    requires a != b
    ensures NatToString(a) != NatToString(b)
  {
  }

  /** Two saved purchase invoices of one supplier get different labels. */
  lemma PurchaseLabelsDistinguishIds(a: nat, b: nat, supplierName: string)
    requires a != b
    ensures PurchaseInvoiceLabel(Some(a), supplierName) != PurchaseInvoiceLabel(Some(b), supplierName)
  {
    var sa, sb := NatToString(a), NatToString(b);
    var la := "Purchase #" + sa + " - " + supplierName;
    var lb := "Purchase #" + sb + " - " + supplierName;
    if |sa| == |sb| {
      RenderingsDiffer(a, b);
      assert la[10..10 + |sa|] == sa;
      assert lb[10..10 + |sb|] == sb;
    } else {
      assert |la| != |lb|;
    }
  }

  /** Two saved sale invoices of one customer get different labels. */
  lemma SaleLabelsDistinguishIds(a: nat, b: nat, customerName: string)
    requires a != b
    ensures SaleInvoiceLabel(Some(a), customerName) != SaleInvoiceLabel(Some(b), customerName)
  {
    var sa, sb := NatToString(a), NatToString(b);
    var la := "Invoice #" + sa + " - " + customerName;
    var lb := "Invoice #" + sb + " - " + customerName;
    if |sa| == |sb| {
      RenderingsDiffer(a, b);
      assert la[9..9 + |sa|] == sa;
      assert lb[9..9 + |sb|] == sb;
    } else {
      assert |la| != |lb|;
    }
  }

  /** The item label determines the quantity. */
  lemma ItemLabelsDistinguishQuantities(productName: string, a: nat, b: nat)
    requires a != b
    ensures ItemLabel(productName, a) != ItemLabel(productName, b)
  {
    var n := |productName| + 3;
    RenderingsDiffer(a, b);
    assert ItemLabel(productName, a)[n..] == NatToString(a);
    assert ItemLabel(productName, b)[n..] == NatToString(b);
  }
}
