/** The product records the frontend receives from `GET /products/`, as every
    page holds them: a read-only snapshot of the catalogue, and the stock
    percentage both stock views compute from it. */
module Catalog {
  import opened Base

  /** A catalogue product. `name`, `unit` and `minStock` may be missing from a
      record (the pages guard against each); money is in cents. */
  datatype Product = Product(
    id: int,
    name: Option<string>,
    unit: Option<string>,
    minStock: Option<int>,
    buyingPrice: int,
    sellingPrice: int,
    stock: int)

  /** `products.find(p => p.id === id)`: the first record with that id. */
  function FindProduct(catalog: seq<Product>, id: int): (r: Option<Product>)
    ensures r.Some? ==> r.value in catalog && r.value.id == id
    ensures r.None? <==> forall p :: p in catalog ==> p.id != id
  {
    FindFirst(catalog, (p: Product) => p.id == id)
  }

  /** `!minStock || minStock === 0` fails: there is a minimum to compare against. */
  predicate HasMinimum(minStock: Option<int>) {
    minStock.Some? && minStock.value != 0
  }

  /** `(stock / minStock) * 100`. */
  function StockPercentage(stock: int, minStock: int): real
    requires minStock != 0
  {
    (stock as real) / (minStock as real) * 100.0
  }

  /** For a positive minimum, comparing the percentage with `k` is comparing
      `100 × stock` with `k × minStock`. */
  lemma PercentageVersus(stock: int, minStock: int, k: int)
    requires minStock > 0
    ensures StockPercentage(stock, minStock) >= k as real <==> 100 * stock >= k * minStock
    ensures StockPercentage(stock, minStock) > k as real <==> 100 * stock > k * minStock
  {
    var m := minStock as real;
    var p := StockPercentage(stock, minStock);
    assert p * m == 100.0 * (stock as real);
    assert (k * minStock) as real == (k as real) * m;
    assert (100 * stock) as real == 100.0 * (stock as real);
    if p >= k as real {
      assert p * m >= (k as real) * m;
    }
    if p > k as real {
      assert p * m > (k as real) * m;
    }
    if 100 * stock >= k * minStock {
      assert p * m >= (k as real) * m;
    }
  }
}
