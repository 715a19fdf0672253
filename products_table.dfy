/** frontend/src/components/products/ProductsTable.jsx: the stock status label
    and its colour class; the table's pagination is the shared pager. */
module ProductsTable {
  import opened Base
  import opened Catalog
  import Dashboard

  /** `getStockStatusLabel`. */
  function StockStatusLabel(stock: int, minStock: Option<int>): string {
    if !HasMinimum(minStock) then "No Min Set"
    else
      var percentage := StockPercentage(stock, minStock.value);
      if percentage >= 70.0 then "Healthy"
      else if percentage >= 50.0 then "Near Min"
      else if percentage > 20.0 then "Low"
      else "Critical"
  }

  /** `getStockLevelClass`. */
  function StockLevelClass(stock: int, minStock: Option<int>): string {
    if !HasMinimum(minStock) then "text-gray-400"
    else
      var percentage := StockPercentage(stock, minStock.value);
      if percentage >= 70.0 then "text-green-500 dark:text-green-400 font-semibold"
      else if percentage >= 50.0 then "text-yellow-500 dark:text-yellow-400 font-semibold"
      else if percentage > 20.0 then "text-orange-500 dark:text-orange-400 font-semibold"
      else "text-red-500 dark:text-red-400 font-semibold"
  }

  /** The colour that goes with each label. */
  function ColourOf(status: string): string {
    match status
    case "Healthy" => "text-green-500 dark:text-green-400 font-semibold"
    case "Near Min" => "text-yellow-500 dark:text-yellow-400 font-semibold"
    case "Low" => "text-orange-500 dark:text-orange-400 font-semibold"
    case "Critical" => "text-red-500 dark:text-red-400 font-semibold"
    case _ => "text-gray-400"
  }

  /** The two if-chains draw the same band boundaries: the class is always the label's colour. */
  lemma ClassFollowsLabel(stock: int, minStock: Option<int>)
    ensures StockLevelClass(stock, minStock) == ColourOf(StockStatusLabel(stock, minStock))
  {
  }

  /** For a positive minimum, each band is an integer inequality. */
  lemma Bands(stock: int, minStock: int)
    requires minStock > 0
    ensures StockStatusLabel(stock, Some(minStock)) == "Healthy" <==> 10 * stock >= 7 * minStock
    ensures StockStatusLabel(stock, Some(minStock)) == "Near Min" <==> 2 * stock >= minStock && 10 * stock < 7 * minStock
    ensures StockStatusLabel(stock, Some(minStock)) == "Low" <==> 5 * stock > minStock && 2 * stock < minStock
    ensures StockStatusLabel(stock, Some(minStock)) == "Critical" <==> 5 * stock <= minStock
  {
    PercentageVersus(stock, minStock, 70);
    PercentageVersus(stock, minStock, 50);
    PercentageVersus(stock, minStock, 20);
  }

  /** A missing or zero minimum is labelled "No Min Set" and nothing else is. */
  lemma NoMinimumLabel(stock: int, minStock: Option<int>)
    ensures StockStatusLabel(stock, minStock) == "No Min Set" <==> !HasMinimum(minStock)
  {
  }

  /** Every product the dashboard lists as critical is labelled "Critical" here. */
  lemma DashboardCriticalIsLabelledCritical(stock: int, minStock: Option<int>)
    requires Dashboard.IsCriticalStock(stock, minStock)
    ensures StockStatusLabel(stock, minStock) == "Critical"
  {
  }
}
