/**
 * The receipt dialog (src/components/pos/ReceiptPreview.tsx). It renders props it
 * is given; the clock reading behind the receipt number is a parameter, and the
 * printed date is not modelled.
 */
module Receipt {
  import opened Wrappers
  import opened Text
  import CartPanel
  import Payment

  /** `RCP-${Date.now().toString().slice(-8)}` for the clock reading `now` in milliseconds. */
  function ReceiptNumber(now: nat): string
  {
    "RCP-" + TakeLast(Decimal(now), 8)
  }

  /**
   * The receipt number is "RCP-" followed by the last eight digits of the clock
   * reading, or all of them when there are fewer; with at least eight digits it has
   * twelve characters.
   */
  lemma ReceiptNumberFormat(now: nat)
    ensures ReceiptNumber(now)[..4] == "RCP-"
    ensures |ReceiptNumber(now)| == 4 + (if |Decimal(now)| < 8 then |Decimal(now)| else 8)
    ensures ReceiptNumber(now)[4..] == Decimal(now)[|Decimal(now)| - (|ReceiptNumber(now)| - 4)..]
    ensures now >= 10_000_000 ==> |ReceiptNumber(now)| == 12
  {
    var d := Decimal(now);
    assert ReceiptNumber(now) == "RCP-" + TakeLast(d, 8);
    if now >= 10_000_000 {
      assert Pow10(7) == 10_000_000;
      DecimalLength(now, 7);
    }
  }

  /** One item line: `{quantity}x {name}` and the line amount. */
  datatype ReceiptLine = ReceiptLine(quantity: int, name: string, amount: real)

  datatype ReceiptView = ReceiptView(
    number: string,
    lines: seq<ReceiptLine>,
    subtotal: real,
    discountLine: Option<real>,
    tax: real,
    total: real,
    paymentMethod: string,
    amountPaid: real,
    changeLine: Option<real>)

  function Line(item: CartPanel.CartItem): ReceiptLine
  {
    ReceiptLine(item.quantity, item.name, CartPanel.LineAmount(item))
  }

  function LinesOf(items: seq<CartPanel.CartItem>): (r: seq<ReceiptLine>)
    ensures |r| == |items|
    ensures forall k :: 0 <= k < |items| ==>
              r[k] == ReceiptLine(items[k].quantity, items[k].name, items[k].price * items[k].quantity as real)
  {
    if items == [] then [] else [Line(items[0])] + LinesOf(items[1..])
  }

  /** The discount line: shown for a positive discount, with the amount recomputed from the subtotal. */
  function DiscountLine(subtotal: real, discount: real): (r: Option<real>)
    ensures r.Some? <==> discount > 0.0
    ensures r.Some? ==> r.value == subtotal * discount / 100.0
  {
    if discount > 0.0 then Some(subtotal * discount / 100.0) else None
  }

  /**
   * The receipt for the given props: one line per item in cart order; a discount
   * line only for a positive discount, recomputed from the subtotal; a change line
   * only for positive change; everything else as passed in.
   */
  function RenderReceipt(now: nat, items: seq<CartPanel.CartItem>, subtotal: real, discount: real,
                         tax: real, total: real, paymentMethod: string, amountPaid: real,
                         change: real): (v: ReceiptView)
    ensures v.number == ReceiptNumber(now)
    ensures |v.lines| == |items|
    ensures forall k :: 0 <= k < |items| ==>
              v.lines[k] == ReceiptLine(items[k].quantity, items[k].name, items[k].price * items[k].quantity as real)
    ensures v.discountLine.Some? <==> discount > 0.0
    ensures v.discountLine.Some? ==> v.discountLine.value == subtotal * discount / 100.0
    ensures v.changeLine.Some? <==> change > 0.0
    ensures v.changeLine.Some? ==> v.changeLine.value == change
    ensures v.subtotal == subtotal && v.tax == tax && v.total == total
    ensures v.paymentMethod == paymentMethod && v.amountPaid == amountPaid
  {
    ReceiptView(
      ReceiptNumber(now),
      LinesOf(items),
      subtotal,
      DiscountLine(subtotal, discount),
      tax,
      total,
      paymentMethod,
      amountPaid,
      if change > 0.0 then Some(change) else None)
  }

  /** Given the cart's own subtotal, the receipt's discount line shows the same amount as the cart panel. */
  lemma DiscountLineMatchesCart(items: seq<CartPanel.CartItem>, discount: real)
    requires discount > 0.0
    ensures DiscountLine(CartPanel.Subtotal(items), discount)
         == Some(CartPanel.ComputeTotals(items, discount).discountAmount)
  {
    CartPanel.DiscountAmountFormula(items, discount);
  }

  /**
   * A card or wallet payment pays exactly the total, so with change computed as
   * amount paid minus total the receipt shows no change line.
   */
  lemma ExactPaymentShowsNoChange(now: nat, items: seq<CartPanel.CartItem>, subtotal: real,
                                  discount: real, tax: real, total: real, paymentMethod: string,
                                  tender: Payment.PaymentMethod, cashAmount: real)
    requires tender != Payment.Cash
    ensures var paid := Payment.AmountPaid(tender, cashAmount, total);
      RenderReceipt(now, items, subtotal, discount, tax, total, paymentMethod, paid,
                    Payment.Change(paid, total)).changeLine == None
  {
    Payment.CompletionCoversTotal(tender, cashAmount, total);
  }
}
