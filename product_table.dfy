/**
 * The product table (src/components/products/ProductTable.tsx): one row per product
 * with a stock badge decided by the product's own threshold, a one-line summary of
 * its variants, and Edit and Delete actions handed to the page.
 */
module ProductTable {
  import opened Wrappers
  import opened Seqs
  import opened Text
  import StockList

  datatype Variant = Variant(name: string, value: string)

  /** A product of the back office; `variants` is an optional field. */
  datatype Product = Product(id: string, name: string, sku: string, image: string, category: string,
                             price: real, costPrice: real, stock: int, lowStockThreshold: int,
                             barcode: string, variants: Option<seq<Variant>>)

  datatype BadgeVariant = Destructive | Warning | Default

  datatype StockBadge = StockBadge(caption: string, variant: BadgeVariant)

  /** `getStockStatus(stock, threshold)`. */
  function StockBadgeFor(stock: int, threshold: int): StockBadge
  {
    if stock == 0 then StockBadge("Out of Stock", Destructive)
    else if stock <= threshold then StockBadge("Low Stock", Warning)
    else StockBadge("In Stock", Default)
  }

  /**
   * Exactly one of the three badges for every input, each with its own variant:
   * out at stock 0 whatever the threshold, low for a nonzero stock at or below the
   * threshold, in stock above it.
   */
  lemma StockBadgeSpec(stock: int, threshold: int)
    ensures StockBadgeFor(stock, threshold) in {StockBadge("Out of Stock", Destructive),
                                                StockBadge("Low Stock", Warning),
                                                StockBadge("In Stock", Default)}
    ensures StockBadgeFor(stock, threshold).caption == "Out of Stock" <==> stock == 0
    ensures StockBadgeFor(stock, threshold).caption == "Low Stock" <==> stock != 0 && stock <= threshold
    ensures StockBadgeFor(stock, threshold).caption == "In Stock" <==> stock != 0 && stock > threshold
  {
  }

  /**
   * With the stock item's minimum as the threshold, the badge agrees with the stock
   * screen's out and low statuses; its "In Stock" covers both high and normal.
   */
  lemma AgreesWithStockStatus(item: StockList.StockItem)
    ensures StockBadgeFor(item.currentStock, item.minStock).caption == "Out of Stock" <==>
              StockList.Status(item) == StockList.Out
    ensures StockBadgeFor(item.currentStock, item.minStock).caption == "Low Stock" <==>
              StockList.Status(item) == StockList.Low
    ensures StockBadgeFor(item.currentStock, item.minStock).caption == "In Stock" <==>
              StockList.Status(item) in {StockList.High, StockList.Normal}
  {
    StockList.StatusCharacterisation(item);
  }

  function VariantValue(v: Variant): string
  {
    v.value
  }

  /** The line under the product name: the variant values in order, or nothing when there are none. */
  function VariantSummary(p: Product): Option<string>
  {
    if p.variants.Some? && |p.variants.value| > 0 then Some(Join(Map(p.variants.value, VariantValue), ", "))
    else None
  }

  /**
   * The summary is shown exactly for a non-empty variant list; a single variant
   * shows just its value, and one more variant at the end adds ", " and its value.
   */
  lemma VariantSummarySpec(p: Product, v: Variant)
    ensures VariantSummary(p).Some? <==> p.variants.Some? && p.variants.value != []
    ensures p.variants == Some([v]) ==> VariantSummary(p) == Some(v.value)
    ensures p.variants.Some? && p.variants.value != [] ==>
              VariantSummary(p.(variants := Some(p.variants.value + [v])))
              == Some(VariantSummary(p).value + ", " + v.value)
  {
    if p.variants.Some? {
      var vs := p.variants.value;
      assert Map(vs + [v], VariantValue) == Map(vs, VariantValue) + [v.value];
      JoinAppend(Map(vs, VariantValue), v.value, ", ");
    }
  }

  /** What the row's menu hands to the page. */
  datatype RowAction = Edit(product: Product) | Delete(productId: string)

  datatype ProductRow = ProductRow(product: Product, summary: Option<string>, badge: StockBadge,
                                   onEdit: RowAction, onDelete: RowAction)

  datatype TableView = NoProductsFound | Rows(rows: seq<ProductRow>)

  function RowFor(p: Product): ProductRow
  {
    ProductRow(p, VariantSummary(p), StockBadgeFor(p.stock, p.lowStockThreshold), Edit(p), Delete(p.id))
  }

  /**
   * "No products found" exactly for an empty list; otherwise one row per product in
   * order, badged by its own stock and threshold, whose Edit passes the product and
   * whose Delete passes its id.
   */
  function RenderTable(products: seq<Product>): (v: TableView)
    ensures v == NoProductsFound <==> products == []
    ensures v.Rows? ==> |v.rows| == |products|
    ensures v.Rows? ==> forall k :: 0 <= k < |products| ==>
              && v.rows[k].product == products[k]
              && v.rows[k].badge == StockBadgeFor(products[k].stock, products[k].lowStockThreshold)
              && v.rows[k].summary == VariantSummary(products[k])
              && v.rows[k].onEdit == Edit(products[k])
              && v.rows[k].onDelete == Delete(products[k].id)
  {
    if |products| == 0 then NoProductsFound else Rows(Map(products, RowFor))
  }
}
