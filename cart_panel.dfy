/**
 * The POS cart panel (src/components/pos/CartPanel.tsx): it receives the order's
 * lines and the discount percentage as inputs, derives subtotal, discount, tax and
 * total, and turns button presses into requests to the page that owns the cart.
 * What the page does with those requests is not part of this model.
 */
module CartPanel {
  import opened Wrappers
  import opened Seqs

  /** One line of the current order. */
  datatype CartItem = CartItem(id: int, name: string, price: real, quantity: int)

  /** The fixed sales tax rate, 8%. */
  const TaxRate: real := 0.08

  /** What one line costs: unit price times quantity. */
  function LineAmount(item: CartItem): real
  {
    item.price * item.quantity as real
  }

  /** The sum of the line amounts. */
  function Subtotal(items: seq<CartItem>): real
  {
    Sum(items, LineAmount)
  }

  datatype Totals = Totals(subtotal: real, discountAmount: real, taxAmount: real, total: real)

  /**
   * Subtotal, then the percentage discount (used as given, never clamped), then 8%
   * tax on the discounted base, then the total.
   */
  function ComputeTotals(items: seq<CartItem>, discount: real): (t: Totals)
    ensures t.total == t.subtotal - t.discountAmount + t.taxAmount
    ensures t.total == (t.subtotal - t.discountAmount) * 1.08
    ensures t.subtotal == 0.0 ==> t.discountAmount == 0.0 && t.taxAmount == 0.0 && t.total == 0.0
  {
    var subtotal := Subtotal(items);
    var discountAmount := subtotal * discount / 100.0;
    var taxAmount := (subtotal - discountAmount) * TaxRate;
    Totals(subtotal, discountAmount, taxAmount, subtotal - discountAmount + taxAmount)
  }

  /** Adding a line at the end adds exactly its amount to the subtotal; the empty cart has subtotal 0. */
  lemma SubtotalAppend(items: seq<CartItem>, item: CartItem)
    ensures Subtotal([]) == 0.0
    ensures Subtotal(items + [item]) == Subtotal(items) + item.price * item.quantity as real
  {
    SumAppend(items, [item], LineAmount);
  }

  /** The discount amount is the percentage of the subtotal, whatever the percentage. */
  lemma DiscountAmountFormula(items: seq<CartItem>, discount: real)
    ensures ComputeTotals(items, discount).subtotal == Subtotal(items)
    ensures ComputeTotals(items, discount).discountAmount == Subtotal(items) * discount / 100.0
  {
  }

  /** With a positive discount on a positive subtotal, the tax is strictly less than 8% of the raw subtotal. */
  lemma TaxIsOnDiscountedBase(items: seq<CartItem>, discount: real)
    requires discount > 0.0 && Subtotal(items) > 0.0
    ensures ComputeTotals(items, discount).taxAmount < Subtotal(items) * TaxRate
    ensures ComputeTotals(items, discount).discountAmount == Subtotal(items) * discount / 100.0
  {
    var s := Subtotal(items);
    assert s * discount > 0.0;
  }

  /**
   * For a discount between 0 and 100 and lines whose prices and quantities are
   * not negative, the total lies between 0 and 1.08 times the subtotal.
   */
  lemma TotalBounds(items: seq<CartItem>, discount: real)
    requires 0.0 <= discount <= 100.0
    requires forall k :: 0 <= k < |items| ==> items[k].price >= 0.0 && items[k].quantity >= 0
    ensures 0.0 <= ComputeTotals(items, discount).total <= 1.08 * Subtotal(items)
  {
    forall k | 0 <= k < |items|
      ensures LineAmount(items[k]) >= 0.0
    {
      var q := items[k].quantity as real;
      assert items[k].price * q >= 0.0;
    }
    SumNonNegative(items, LineAmount);
    var s := Subtotal(items);
    assert 0.0 <= s * discount <= s * 100.0;
  }

  /**
   * The worked example: two lines at 4.00 x 2 and 3.00 x 1 with 10% off give
   * subtotal 11.00, discount 1.10, tax 0.792 and total 10.692.
   */
  lemma ExampleTotals()
    ensures ComputeTotals([CartItem(1, "A", 4.0, 2), CartItem(2, "B", 3.0, 1)], 10.0)
         == Totals(11.0, 1.1, 0.792, 10.692)
  {
    var items := [CartItem(1, "A", 4.0, 2), CartItem(2, "B", 3.0, 1)];
    assert items[1..][1..] == [];
    assert Subtotal(items) == 8.0 + Sum(items[1..], LineAmount);
  }

  /** The requests the panel raises; the page that owns the cart decides what they do. */
  datatype CartEvent =
    | UpdateQuantity(id: int, quantity: int)
    | RemoveItem(id: int)
    | ClearCart
    | HoldBill
    | PayNow
    | DiscountChange(discount: real)
    | CustomerPhoneChange(phone: string)
    | ClearCustomer

  /** One rendered line: its text and the requests its three buttons raise. */
  datatype ItemRow = ItemRow(name: string, unitPrice: real, quantity: int, lineAmount: real,
                             onMinus: CartEvent, onPlus: CartEvent, onRemove: CartEvent)

  /** What the panel shows for given props. */
  datatype CartView = CartView(
    headerCount: nat,
    rows: seq<ItemRow>,
    showsEmptyNotice: bool,
    discountRow: Option<real>,
    subtotal: real,
    taxAmount: real,
    total: real,
    holdEnabled: bool,
    clearEnabled: bool,
    payEnabled: bool,
    showsClearCustomer: bool,
    customerLine: Option<string>)

  function Row(item: CartItem): ItemRow
  {
    ItemRow(item.name, item.price, item.quantity, LineAmount(item),
            UpdateQuantity(item.id, item.quantity - 1),
            UpdateQuantity(item.id, item.quantity + 1),
            RemoveItem(item.id))
  }

  /** A JavaScript string is truthy when it is not empty. */
  predicate Truthy(s: Option<string>)
  {
    s.Some? && s.value != ""
  }

  function RenderCart(items: seq<CartItem>, discount: real, customerPhone: string,
                      customerName: Option<string>): (v: CartView)
    ensures v.headerCount == |items|
    ensures |v.rows| == |items|
    ensures forall k :: 0 <= k < |items| ==>
              && v.rows[k].onMinus == UpdateQuantity(items[k].id, items[k].quantity - 1)
              && v.rows[k].onPlus == UpdateQuantity(items[k].id, items[k].quantity + 1)
              && v.rows[k].onRemove == RemoveItem(items[k].id)
              && v.rows[k].lineAmount == items[k].price * items[k].quantity as real
              && v.rows[k].name == items[k].name && v.rows[k].unitPrice == items[k].price
              && v.rows[k].quantity == items[k].quantity
    ensures v.subtotal == Subtotal(items)
    ensures v.discountRow.Some? <==> discount > 0.0
    ensures v.discountRow.Some? ==> v.discountRow.value == Subtotal(items) * discount / 100.0
    ensures v.taxAmount == (Subtotal(items) - Subtotal(items) * discount / 100.0) * TaxRate
    ensures v.total == v.subtotal - Subtotal(items) * discount / 100.0 + v.taxAmount
    ensures v.total == (Subtotal(items) - Subtotal(items) * discount / 100.0) * 1.08
    ensures v.showsClearCustomer <==> customerPhone != ""
    ensures v.holdEnabled <==> items != []
    ensures v.clearEnabled <==> items != []
    ensures v.payEnabled <==> items != []
    ensures v.showsEmptyNotice <==> items == []
    ensures v.customerLine.Some? <==> customerName.Some? && customerName.value != ""
    ensures v.customerLine.Some? ==> v.customerLine == customerName
  {
    var t := ComputeTotals(items, discount);
    CartView(
      |items|,
      Map(items, Row),
      |items| == 0,
      if discount > 0.0 then Some(t.discountAmount) else None,
      t.subtotal,
      t.taxAmount,
      t.total,
      |items| != 0,
      |items| != 0,
      |items| != 0,
      customerPhone != "",
      if Truthy(customerName) then customerName else None)
  }

  /** The header counts lines, not units: two units of one product show as one item. */
  lemma HeaderCountsLines(item: CartItem)
    requires item.quantity == 2
    ensures RenderCart([item], 0.0, "", None).headerCount == 1
  {
  }
}
