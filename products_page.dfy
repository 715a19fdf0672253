/** frontend/src/components/products/ProductsPage.jsx: the product search, the
    add/edit form with its defaults, and the create or update request it sends.
    The Dashboard's add-product form builds the same payload. */
module ProductsPage {
  import opened Base
  import opened Catalog

  /** The form state; `minStock` is `None` for the empty input `''`. */
  datatype ProductForm = ProductForm(name: string, unit: string, minStock: Option<int>, buyingPrice: int, sellingPrice: int, stock: int)

  /** `initialFormData`. */
  const InitialForm: ProductForm := ProductForm("", "pcs", None, 0, 0, 0)

  datatype ProductPayload = ProductPayload(name: string, unit: string, minStock: int, buyingPrice: int, sellingPrice: int, stock: int)

  /** `api.products.update(id, payload)` or `api.products.create(payload)`. */
  datatype Request = Create(payload: ProductPayload) | Update(id: int, payload: ProductPayload)

  /** The payload literal: an empty minimum becomes 0, and prices and stock are always 0. */
  function BuildPayload(form: ProductForm): (r: Option<ProductPayload>)
    ensures r.None? <==> form.name == ""
    ensures r.Some? ==> r.value == ProductPayload(form.name, form.unit, form.minStock.GetOr(0), 0, 0, 0)
  {
    if form.name == "" then None
    else Some(ProductPayload(form.name, form.unit, if form.minStock.None? then 0 else form.minStock.value, 0, 0, 0))
  }

  /** `handleSubmit`: no request for an empty name; otherwise an update of the
      product being edited, or a create. */
  function Submit(editing: Option<Product>, form: ProductForm): (r: Option<Request>)
    ensures r.None? <==> form.name == ""
    ensures r.Some? ==> r.value.payload == BuildPayload(form).value
    ensures r.Some? ==> (r.value.Update? <==> editing.Some?)
    ensures r.Some? && editing.Some? ==> r.value.id == editing.value.id
  {
    match BuildPayload(form)
    case None => None
    case Some(payload) => if editing.Some? then Some(Update(editing.value.id, payload)) else Some(Create(payload))
  }

  /** `handleEdit`: the form filled from the product, with defaults for missing fields. */
  function EditForm(p: Product): (f: ProductForm)
    ensures f.name == p.name.GetOr("") && f.unit == p.unit.GetOr("pcs") && f.minStock == p.minStock
    ensures f.buyingPrice == p.buyingPrice && f.sellingPrice == p.sellingPrice && f.stock == p.stock
  {
    ProductForm(p.name.GetOr(""), p.unit.GetOr("pcs"), p.minStock, p.buyingPrice, p.sellingPrice, p.stock)
  }

  /** Opening a product for editing and saving it unchanged sends an update
      whose stock and prices are 0, whatever the product held. */
  lemma EditingWipesStock(p: Product)
    requires p.name.Some? && p.name.value != ""
    ensures Submit(Some(p), EditForm(p)) == Some(Update(p.id, ProductPayload(p.name.value, p.unit.GetOr("pcs"), p.minStock.GetOr(0), 0, 0, 0)))
  {
  }

  /** The submit with the edited product's stock and prices carried over from
      the form on update; a create still starts from zero. */
  function SubmitKeepingStock(editing: Option<Product>, form: ProductForm): (r: Option<Request>)
    ensures r.None? <==> form.name == ""
    ensures r.Some? ==> (r.value.Update? <==> editing.Some?)
    ensures r.Some? && editing.None? ==> r == Submit(editing, form)
  {
    match BuildPayload(form)
    case None => None
    case Some(payload) =>
      if editing.Some? then Some(Update(editing.value.id, payload.(buyingPrice := form.buyingPrice, sellingPrice := form.sellingPrice, stock := form.stock)))
      else Some(Create(payload))
  }

  /** With the corrected submit, saving an unchanged edit form sends back the
      product's own name, unit, minimum, prices and stock. */
  lemma EditRoundTripKeepsProduct(p: Product)
    requires p.name.Some? && p.name.value != ""
    ensures var r := SubmitKeepingStock(Some(p), EditForm(p));
            && r.Some? && r.value == Update(p.id, r.value.payload)
            && r.value.payload == ProductPayload(p.name.value, p.unit.GetOr("pcs"), p.minStock.GetOr(0), p.buyingPrice, p.sellingPrice, p.stock)
  {
  }

  // ---------------------------------------------------------------------------
  // Search

  /** `p.name?.toLowerCase() || ''`. */
  function SearchName(p: Product): string {
    Lower(p.name.GetOr(""))
  }

  predicate Matches(p: Product, term: string) {
    Contains(SearchName(p), Lower(term))
  }

  /** `filteredProducts`. */
  function FilteredProducts(products: seq<Product>, term: string): (r: seq<Product>)
    ensures IsSubsequence(r, products)
    ensures forall p :: p in r <==> p in products && Matches(p, term)
    ensures forall i :: 0 <= i < |products| ==>
              multiset(r)[products[i]] == if Matches(products[i], term) then multiset(products)[products[i]] else 0
  {
    Filter(products, (p: Product) => Matches(p, term))
  }

  /** A product is kept exactly when the lower-cased term occurs somewhere in its lower-cased name. */
  lemma KeptIffTermOccurs(products: seq<Product>, term: string, p: Product)
    requires p in products
    ensures p in FilteredProducts(products, term) <==> exists i :: OccursAt(SearchName(p), Lower(term), i)
  {
    assert p in FilteredProducts(products, term) <==> Matches(p, term);
    ContainsIff(SearchName(p), Lower(term));
    assert Matches(p, term) <==> Contains(SearchName(p), Lower(term));
  }

  /** An empty search keeps every product, in order. */
  lemma {:induction false} EmptyTermKeepsAll(products: seq<Product>)
    ensures FilteredProducts(products, "") == products
  {
    if products != [] {
      EmptyTermKeepsAll(products[1..]);
      assert IsPrefix("", SearchName(products[0]));
    }
  }
}
