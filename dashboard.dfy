/** frontend/src/pages/Dashboard.jsx: the critical-stock test and list, the
    headline totals, the day-over-day trends and the add-product payload. */
module Dashboard {
  import opened Base
  import opened Catalog
  import opened ReportViews
  import ProductsPage

  /** `isCriticalStock`: no minimum is never critical; otherwise at most 10% of it. */
  predicate IsCriticalStock(stock: int, minStock: Option<int>) {
    HasMinimum(minStock) && StockPercentage(stock, minStock.value) <= 10.0
  }

  /** For a positive minimum, critical means ten times the stock is at most the minimum. */
  lemma CriticalIffTenfold(stock: int, minStock: int)
    requires minStock > 0
    ensures IsCriticalStock(stock, Some(minStock)) <==> 10 * stock <= minStock
  {
    PercentageVersus(stock, minStock, 10);
  }

  /** The critical list: the products filtered by `isCriticalStock`, in order. */
  function CriticalProducts(products: seq<Product>): (r: seq<Product>)
    ensures IsSubsequence(r, products)
    ensures forall p :: p in r <==> p in products && IsCriticalStock(p.stock, p.minStock)
    ensures forall i :: 0 <= i < |products| ==>
              multiset(r)[products[i]] == if IsCriticalStock(products[i].stock, products[i].minStock) then multiset(products)[products[i]] else 0
  {
    Filter(products, (p: Product) => IsCriticalStock(p.stock, p.minStock))
  }

  /** `products.reduce((sum, p) => sum + p.stock, 0)`. */
  function TotalStock(products: seq<Product>): int {
    if products == [] then 0 else TotalStock(products[..|products| - 1]) + products[|products| - 1].stock
  }

  lemma {:induction false} TotalStockAppend(a: seq<Product>, b: seq<Product>)
    ensures TotalStock(a + b) == TotalStock(a) + TotalStock(b)
    decreases |b|
  {
    if b == [] {
      assert a + b == a;
    } else {
      assert (a + b)[..|a + b| - 1] == a + b[..|b| - 1];
      TotalStockAppend(a, b[..|b| - 1]);
    }
  }

  /** With no negative stock, the total is at least every single product's stock. */
  lemma {:induction false} TotalStockBoundsEach(products: seq<Product>, i: nat)
    requires i < |products|
    requires forall j :: 0 <= j < |products| ==> products[j].stock >= 0
    ensures TotalStock(products) >= products[i].stock
  {
    var init := products[..|products| - 1];
    if i < |products| - 1 {
      TotalStockBoundsEach(init, i);
    }
    assert TotalStock(init) >= 0 by { TotalStockNonNegative(init); }
  }

  lemma {:induction false} TotalStockNonNegative(products: seq<Product>)
    requires forall j :: 0 <= j < |products| ==> products[j].stock >= 0
    ensures TotalStock(products) >= 0
  {
    if products != [] {
      TotalStockNonNegative(products[..|products| - 1]);
    }
  }

  /** `calcTrend`: a falsy yesterday value gives 0, otherwise the percentage change. */
  function CalcTrend(todayValue: int, yesterdayValue: int): real {
    if yesterdayValue == 0 then 0.0
    else ((todayValue - yesterdayValue) as real) / (yesterdayValue as real) * 100.0
  }

  /** The trend is the change relative to yesterday; its sign follows the change
      when yesterday was positive. */
  lemma TrendMeaning(todayValue: int, yesterdayValue: int)
    requires yesterdayValue != 0
    ensures CalcTrend(todayValue, yesterdayValue) * (yesterdayValue as real) == ((todayValue - yesterdayValue) as real) * 100.0
    ensures yesterdayValue > 0 ==> (CalcTrend(todayValue, yesterdayValue) > 0.0 <==> todayValue > yesterdayValue)
    ensures yesterdayValue > 0 ==> (CalcTrend(todayValue, yesterdayValue) == 0.0 <==> todayValue == yesterdayValue)
  {
    var t := CalcTrend(todayValue, yesterdayValue);
    var y := yesterdayValue as real;
    var d := (todayValue - yesterdayValue) as real;
    assert t * y == d * 100.0;
    if yesterdayValue > 0 {
      if t > 0.0 { assert t * y > 0.0; }
      if d > 0.0 { assert t * y > 0.0; }
    }
  }

  /** A metric compared with itself has trend 0, and so has any value against a
      missing (zero) yesterday value; 120 over 100 is a 20% rise. */
  lemma TrendExamples(x: int)
    ensures CalcTrend(x, x) == 0.0
    ensures CalcTrend(x, 0) == 0.0
    ensures CalcTrend(120, 100) == 20.0
  {
  }

  datatype Trends = Trends(totalProducts: real, totalStock: real, todaySales: real, todayPurchases: real)

  datatype Stats = Stats(totalProducts: nat, totalStock: int, todaySales: int, todayPurchases: int, trends: Trends)

  /** The stats object of `fetchStats`, from the products and today's and
      yesterday's day reports; a missing sum reads as 0. */
  function ComputeStats(products: seq<Product>, today: RawReport, yesterday: RawReport): (s: Stats)
    ensures s.totalProducts == |products| && s.totalStock == TotalStock(products)
    ensures s.todaySales == today.salesTotal.GetOr(0) && s.todayPurchases == today.purchasesTotal.GetOr(0)
  {
    var totalProducts := |products|;
    var totalStock := TotalStock(products);
    var todaySales := today.salesTotal.GetOr(0);
    var todayPurchases := today.purchasesTotal.GetOr(0);
    var yesterdaySales := yesterday.salesTotal.GetOr(0);
    var yesterdayPurchases := yesterday.purchasesTotal.GetOr(0);
    Stats(totalProducts, totalStock, todaySales, todayPurchases,
      Trends(CalcTrend(totalProducts, totalProducts), CalcTrend(totalStock, totalStock),
             CalcTrend(todaySales, yesterdaySales), CalcTrend(todayPurchases, yesterdayPurchases)))
  }

  /** The product-count and stock trends are always 0; the money trends compare
      today with yesterday, and are 0 when yesterday had none. */
  lemma StatsTrends(products: seq<Product>, today: RawReport, yesterday: RawReport)
    ensures var s := ComputeStats(products, today, yesterday);
            && s.trends.totalProducts == 0.0 && s.trends.totalStock == 0.0
            && s.trends.todaySales == CalcTrend(today.salesTotal.GetOr(0), yesterday.salesTotal.GetOr(0))
            && s.trends.todayPurchases == CalcTrend(today.purchasesTotal.GetOr(0), yesterday.purchasesTotal.GetOr(0))
            && (yesterday.salesTotal.GetOr(0) == 0 ==> s.trends.todaySales == 0.0)
            && (yesterday.purchasesTotal.GetOr(0) == 0 ==> s.trends.todayPurchases == 0.0)
  {
    TrendExamples(|products|);
    TrendExamples(TotalStock(products));
  }

  /** `handleAddProduct`: the same payload as the products page, always a create. */
  function AddProduct(form: ProductsPage.ProductForm): (r: Option<ProductsPage.Request>)
    ensures r.None? <==> form.name == ""
    ensures r.Some? ==> r.value.Create? && r.value.payload.buyingPrice == 0 && r.value.payload.sellingPrice == 0 && r.value.payload.stock == 0
    ensures r.Some? ==> r.value.payload.minStock == form.minStock.GetOr(0)
  {
    ProductsPage.Submit(None, form)
  }
}
