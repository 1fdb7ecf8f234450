/**
 * The purchase-order form (src/components/inventory/PurchaseOrderForm.tsx): the
 * buyer picks a supplier, adds product lines from a fixed catalog, edits their
 * quantities or removes them, and sees the running subtotal. The fresh line id
 * (`Date.now()`) and what `parseInt` makes of the quantity text are parameters; a
 * quantity is `None` where `parseInt` gives NaN, as it does for a number input's
 * ".5", and NaN then spreads to the line's amount and to the subtotal.
 */
module PurchaseOrder {
  import opened Wrappers
  import opened Seqs

  datatype OrderItem = OrderItem(id: string, productId: string, productName: string, sku: string,
                                 quantity: Option<int>, unitPrice: real)

  datatype CatalogProduct = CatalogProduct(id: string, name: string, sku: string, price: real)

  const MockProducts: seq<CatalogProduct> := [
    CatalogProduct("1", "Wireless Mouse", "SKU-001", 25.0),
    CatalogProduct("2", "USB-C Cable", "SKU-002", 12.0),
    CatalogProduct("3", "Laptop Stand", "SKU-003", 45.0),
    CatalogProduct("4", "Mechanical Keyboard", "SKU-004", 89.0),
    CatalogProduct("5", "Monitor 27\"", "SKU-005", 299.0)
  ]

  function ProductIdIs(id: string): CatalogProduct -> bool
  {
    (p: CatalogProduct) => p.id == id
  }

  /** `mockProducts.find((p) => p.id === id)`. */
  function FindProduct(id: string): Option<CatalogProduct>
  {
    Find(MockProducts, ProductIdIs(id))
  }

  /** A product is found exactly when the catalog lists its id, and the one found has that id. */
  lemma FindProductSpec(id: string)
    ensures FindProduct(id).Some? <==> exists k :: 0 <= k < |MockProducts| && MockProducts[k].id == id
    ensures FindProduct(id).Some? ==> FindProduct(id).value in MockProducts && FindProduct(id).value.id == id
  {
    if FindProduct(id).None? {
      assert forall k :: 0 <= k < |MockProducts| ==> !ProductIdIs(id)(MockProducts[k]);
    }
  }

  /** `item.quantity * item.unitPrice`: NaN (`None`) for a NaN quantity. */
  function LineTotal(item: OrderItem): (r: Option<real>)
    ensures r.Some? <==> item.quantity.Some?
    ensures r.Some? ==> r.value == item.quantity.value as real * item.unitPrice
  {
    if item.quantity.Some? then Some(item.quantity.value as real * item.unitPrice) else None
  }

  /** The amount of a line whose quantity is a number; a NaN line counts 0 here. */
  function CountedLineTotal(item: OrderItem): real
  {
    if item.quantity.Some? then item.quantity.value as real * item.unitPrice else 0.0
  }

  /** Every line's quantity is a number. */
  predicate AllCounted(items: seq<OrderItem>)
  {
    forall k :: 0 <= k < |items| ==> items[k].quantity.Some?
  }

  /**
   * `items.reduce((sum, item) => sum + item.quantity * item.unitPrice, 0)`, left to
   * right from 0: once one term is NaN the sum stays NaN.
   */
  function Subtotal(items: seq<OrderItem>): Option<real>
  {
    if items == [] then Some(0.0)
    else
      var before := Subtotal(items[..|items| - 1]);
      var line := LineTotal(items[|items| - 1]);
      if before.Some? && line.Some? then Some(before.value + line.value) else None
  }

  /** The subtotal is a number exactly when every quantity is, and it is then the sum of the line amounts. */
  lemma {:induction false} SubtotalSpec(items: seq<OrderItem>)
    ensures Subtotal(items).Some? <==> AllCounted(items)
    ensures Subtotal(items).Some? ==> Subtotal(items).value == Sum(items, CountedLineTotal)
  {
    if items != [] {
      var init, last := items[..|items| - 1], items[|items| - 1];
      SubtotalSpec(init);
      assert items == init + [last];
      SumAppend(init, [last], CountedLineTotal);
      assert AllCounted(items) <==> AllCounted(init) && last.quantity.Some? by {
        assert forall k :: 0 <= k < |init| ==> init[k] == items[k];
      }
    }
  }

  function LineIdIsNot(id: string): OrderItem -> bool
  {
    (item: OrderItem) => item.id != id
  }

  function LineIdIs(id: string): OrderItem -> bool
  {
    (item: OrderItem) => item.id == id
  }

  /** `items.filter((item) => item.id !== id)`. */
  function WithoutLine(items: seq<OrderItem>, id: string): seq<OrderItem>
  {
    Filter(items, LineIdIsNot(id))
  }

  function Requantify(id: string, newQuantity: int): OrderItem -> OrderItem
  {
    (item: OrderItem) => if item.id == id then item.(quantity := Some(newQuantity)) else item
  }

  /** `items.map((item) => item.id === id ? { ...item, quantity: newQuantity } : item)`. */
  function WithQuantity(items: seq<OrderItem>, id: string, newQuantity: int): seq<OrderItem>
  {
    Map(items, Requantify(id, newQuantity))
  }

  /**
   * The empty order costs nothing; a new line at the end adds exactly quantity times
   * unit price, and a NaN line, or a subtotal that is already NaN, gives NaN.
   */
  lemma SubtotalAppend(items: seq<OrderItem>, item: OrderItem)
    ensures Subtotal([]) == Some(0.0)
    ensures Subtotal(items + [item]).Some? <==> Subtotal(items).Some? && item.quantity.Some?
    ensures Subtotal(items + [item]).Some? ==>
              Subtotal(items + [item]).value == Subtotal(items).value + item.quantity.value as real * item.unitPrice
  {
    assert (items + [item])[..|items|] == items;
  }

  /**
   * Removing a line id drops every line with that id and keeps every other line in
   * its order. A numeric subtotal drops by exactly the removed lines' amounts, and
   * the subtotal is a number afterwards exactly when every remaining line has one,
   * so removing the only NaN lines brings it back.
   */
  lemma WithoutLineSpec(items: seq<OrderItem>, id: string)
    ensures IsSubsequence(WithoutLine(items, id), items)
    ensures forall k :: 0 <= k < |WithoutLine(items, id)| ==> WithoutLine(items, id)[k].id != id
    ensures forall k :: 0 <= k < |items| && items[k].id != id ==> items[k] in WithoutLine(items, id)
    ensures Subtotal(items).Some? ==>
              && Subtotal(WithoutLine(items, id)).Some?
              && Subtotal(WithoutLine(items, id)).value + Sum(Filter(items, LineIdIs(id)), CountedLineTotal)
                 == Subtotal(items).value
    ensures Subtotal(WithoutLine(items, id)).Some? <==>
              forall k :: 0 <= k < |items| && items[k].quantity.None? ==> items[k].id == id
  {
    var rest := WithoutLine(items, id);
    FilterIsSubsequence(items, LineIdIsNot(id));
    SumFilterSplit(items, LineIdIsNot(id), LineIdIs(id), CountedLineTotal);
    SubtotalSpec(items);
    SubtotalSpec(rest);
    if AllCounted(items) {
      assert AllCounted(rest) by {
        forall k | 0 <= k < |rest| ensures rest[k].quantity.Some? {
          assert rest[k] in items;
        }
      }
    }
  }

  /**
   * A quantity edit changes only the quantity of the lines with that id: the order
   * keeps its length, every other field, and the lines with other ids; a quantity
   * of 0 stays a line.
   */
  lemma WithQuantitySpec(items: seq<OrderItem>, id: string, newQuantity: int)
    ensures |WithQuantity(items, id, newQuantity)| == |items|
    ensures forall k :: 0 <= k < |items| ==>
              var r := WithQuantity(items, id, newQuantity)[k];
              && r.id == items[k].id && r.productId == items[k].productId
              && r.productName == items[k].productName && r.sku == items[k].sku
              && r.unitPrice == items[k].unitPrice
              && r.quantity == (if items[k].id == id then Some(newQuantity) else items[k].quantity)
  {
  }

  /**
   * A quantity typed into a line's own field (`parseInt(text) || 0`) is always a
   * number, so the subtotal is a number afterwards exactly when every NaN line was
   * one of the edited ones.
   */
  lemma {:induction false} WithQuantityRepairs(items: seq<OrderItem>, id: string, newQuantity: int)
    ensures Subtotal(WithQuantity(items, id, newQuantity)).Some? <==>
              forall k :: 0 <= k < |items| && items[k].quantity.None? ==> items[k].id == id
  {
    var r := WithQuantity(items, id, newQuantity);
    SubtotalSpec(r);
    WithQuantitySpec(items, id, newQuantity);
    assert AllCounted(r) <==> forall k :: 0 <= k < |items| && items[k].quantity.None? ==> items[k].id == id by {
      assert forall k :: 0 <= k < |items| ==> (r[k].quantity.Some? <==> items[k].id == id || items[k].quantity.Some?);
    }
  }

  /** The form's state. */
  class PurchaseOrderForm {
    var supplier: string
    var expectedDate: string
    var notes: string
    var items: seq<OrderItem>
    var selectedProduct: string
    var quantity: string

    /** An empty form. */
    constructor ()
      ensures supplier == "" && expectedDate == "" && notes == ""
      ensures items == [] && selectedProduct == "" && quantity == ""
      ensures !CanSaveDraft() && !CanSubmit()
    {
      supplier, expectedDate, notes := "", "", "";
      items, selectedProduct, quantity := [], "", "";
    }

    /** Submit Order is enabled. */
    predicate CanSubmit()
      reads this
      ensures CanSubmit() <==> supplier != "" && CanSaveDraft()
    {
      supplier != "" && |items| != 0
    }

    /** Save as Draft is enabled. */
    predicate CanSaveDraft()
      reads this
      ensures CanSaveDraft() <==> items != []
    {
      |items| != 0
    }

    method SelectSupplier(s: string)
      modifies this
      ensures supplier == s
      ensures items == old(items) && selectedProduct == old(selectedProduct) && quantity == old(quantity)
      ensures expectedDate == old(expectedDate) && notes == old(notes)
    {
      supplier := s;
    }

    method SelectProduct(id: string)
      modifies this
      ensures selectedProduct == id
      ensures items == old(items) && supplier == old(supplier) && quantity == old(quantity)
      ensures expectedDate == old(expectedDate) && notes == old(notes)
    {
      selectedProduct := id;
    }

    method EnterQuantity(text: string)
      modifies this
      ensures quantity == text
      ensures items == old(items) && supplier == old(supplier) && selectedProduct == old(selectedProduct)
      ensures expectedDate == old(expectedDate) && notes == old(notes)
    {
      quantity := text;
    }

    /**
     * Add Item: nothing happens without a selected product, without a quantity, or
     * for a product the catalog does not list; otherwise exactly one line is
     * appended, never merged with an existing line of the same product, and both
     * inputs are cleared. `parsedQuantity` is `parseInt(quantity)`, kept even when it
     * is NaN (`None`), in which case the subtotal shown becomes NaN.
     */
    method AddItem(newId: string, parsedQuantity: Option<int>) returns (added: bool)
      modifies this
      ensures added <==> old(selectedProduct) != "" && old(quantity) != "" && FindProduct(old(selectedProduct)).Some?
      ensures added ==>
                var p := FindProduct(old(selectedProduct)).value;
                && items == old(items) + [OrderItem(newId, p.id, p.name, p.sku, parsedQuantity, p.price)]
                && p.id == old(selectedProduct)
                && selectedProduct == "" && quantity == ""
      ensures added ==> CanSaveDraft()
                        && (Subtotal(items).Some? <==> Subtotal(old(items)).Some? && parsedQuantity.Some?)
      ensures !added ==> items == old(items) && selectedProduct == old(selectedProduct) && quantity == old(quantity)
      ensures supplier == old(supplier) && expectedDate == old(expectedDate) && notes == old(notes)
    {
      if selectedProduct == "" || quantity == "" {
        return false;
      }
      var product := FindProduct(selectedProduct);
      if product.None? {
        return false;
      }
      FindProductSpec(selectedProduct);
      var p := product.value;
      SubtotalAppend(items, OrderItem(newId, p.id, p.name, p.sku, parsedQuantity, p.price));
      items := items + [OrderItem(newId, p.id, p.name, p.sku, parsedQuantity, p.price)];
      selectedProduct := "";
      quantity := "";
      added := true;
    }

    /** The remove button of a line. */
    method RemoveItem(id: string)
      modifies this
      ensures items == WithoutLine(old(items), id)
      ensures supplier == old(supplier) && selectedProduct == old(selectedProduct) && quantity == old(quantity)
      ensures expectedDate == old(expectedDate) && notes == old(notes)
    {
      items := WithoutLine(items, id);
    }

    /** A line's quantity field; `newQuantity` is `parseInt(text) || 0`. */
    method UpdateItemQuantity(id: string, newQuantity: int)
      modifies this
      ensures items == WithQuantity(old(items), id, newQuantity)
      ensures Subtotal(old(items)).Some? ==> Subtotal(items).Some?
      ensures supplier == old(supplier) && selectedProduct == old(selectedProduct) && quantity == old(quantity)
      ensures expectedDate == old(expectedDate) && notes == old(notes)
    {
      WithQuantityRepairs(items, id, newQuantity);
      SubtotalSpec(items);
      items := WithQuantity(items, id, newQuantity);
    }
  }
}
