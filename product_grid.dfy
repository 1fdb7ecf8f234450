/**
 * The POS product grid (src/components/pos/ProductGrid.tsx): a constant catalog,
 * filtered by the selected category and a case-insensitive name search; a click on
 * a card hands that product to the page that owns the cart.
 */
module ProductGrid {
  import opened Seqs
  import opened Text

  /** A catalog entry; the emoji picture is left out. */
  datatype Product = Product(id: int, name: string, price: real, category: string, stock: int)

  /** The twelve products on sale. */
  function Catalog(): (r: seq<Product>)
    ensures |r| == 12
  {
    [ Product(1, "Espresso", 3.50, "beverages", 50),
      Product(2, "Cappuccino", 4.50, "beverages", 45),
      Product(3, "Latte", 4.00, "beverages", 40),
      Product(4, "Croissant", 3.00, "food", 20),
      Product(5, "Sandwich", 6.50, "food", 15),
      Product(6, "Muffin", 2.50, "food", 25),
      Product(7, "USB Cable", 12.00, "electronics", 30),
      Product(8, "Earbuds", 25.00, "electronics", 18),
      Product(9, "T-Shirt", 19.99, "clothing", 35),
      Product(10, "Cap", 14.99, "accessories", 22),
      Product(11, "Iced Tea", 3.00, "beverages", 60),
      Product(12, "Bagel", 2.75, "food", 18) ]
  }

  /** Catalog ids are unique and every price is positive. */
  lemma CatalogWellFormed()
    ensures forall i, j :: 0 <= i < j < |Catalog()| ==> Catalog()[i].id != Catalog()[j].id
    ensures forall i :: 0 <= i < |Catalog()| ==> Catalog()[i].price > 0.0
  {
    var c := Catalog();
    assert forall i :: 0 <= i < |c| ==> c[i].id == i + 1 && c[i].price > 0.0;
  }

  predicate MatchesCategory(selected: string, p: Product)
  {
    selected == "all" || p.category == selected
  }

  predicate MatchesSearch(query: string, p: Product)
  {
    Contains(Lower(p.name), Lower(query))
  }

  /** The grid's filter for the selected category and search text. */
  function Shown(selected: string, query: string): Product -> bool
  {
    p => MatchesCategory(selected, p) && MatchesSearch(query, p)
  }

  function FilteredProducts(selected: string, query: string): seq<Product>
  {
    Filter(Catalog(), Shown(selected, query))
  }

  /**
   * A catalog product is shown exactly when it matches both the category and the
   * search; what is shown keeps the catalog's order.
   */
  lemma FilteredProductsSpec(selected: string, query: string)
    ensures forall k :: 0 <= k < |Catalog()| ==>
              (Catalog()[k] in FilteredProducts(selected, query) <==>
               MatchesCategory(selected, Catalog()[k]) && MatchesSearch(query, Catalog()[k]))
    ensures forall k :: 0 <= k < |FilteredProducts(selected, query)| ==>
              FilteredProducts(selected, query)[k] in Catalog()
    ensures IsSubsequence(FilteredProducts(selected, query), Catalog())
  {
    var r := FilteredProducts(selected, query);
    forall k | 0 <= k < |Catalog()| && Catalog()[k] in r
      ensures Shown(selected, query)(Catalog()[k])
    {
      var j :| 0 <= j < |r| && r[j] == Catalog()[k];
    }
    FilterIsSubsequence(Catalog(), Shown(selected, query));
  }

  /** "All Items" with an empty search shows the whole catalog. */
  lemma AllWithEmptySearch()
    ensures FilteredProducts("all", "") == Catalog()
  {
    forall k | 0 <= k < |Catalog()|
      ensures Shown("all", "")(Catalog()[k])
    {
      EmptyIsContained(Lower(Catalog()[k].name));
    }
    FilterAll(Catalog(), Shown("all", ""));
  }

  /** What a click on a card passes to `onAddToCart`. */
  datatype AddToCart = AddToCart(id: int, name: string, price: real)

  /** One card of the grid and the request its click raises. */
  datatype Card = Card(name: string, price: real, stock: int, onClick: AddToCart)

  function CardFor(p: Product): Card
  {
    Card(p.name, p.price, p.stock, AddToCart(p.id, p.name, p.price))
  }

  /** The grid: one card per shown product, in order, each passing exactly its product's id, name and price. */
  function Cards(selected: string, query: string): (r: seq<Card>)
    ensures |r| == |FilteredProducts(selected, query)|
    ensures forall k :: 0 <= k < |r| ==>
              var p := FilteredProducts(selected, query)[k];
              r[k].onClick == AddToCart(p.id, p.name, p.price) && r[k].name == p.name && r[k].price == p.price
  {
    Map(FilteredProducts(selected, query), CardFor)
  }

  function InCategory(category: string): Product -> bool
  {
    (p: Product) => p.category == category
  }

  /** With an empty search a category shows exactly its products. */
  lemma EmptySearchIsCategory(category: string)
    requires category != "all"
    ensures FilteredProducts(category, "") == Filter(Catalog(), InCategory(category))
  {
    forall k | 0 <= k < |Catalog()|
      ensures Shown(category, "")(Catalog()[k]) == InCategory(category)(Catalog()[k])
    {
      EmptyIsContained(Lower(Catalog()[k].name));
    }
    FilterCongruent(Catalog(), Shown(category, ""), InCategory(category));
  }
}
