/**
 * The plan change dialog (src/components/billing/PlanUpgradeModal.tsx): a price
 * table of four plans in a fixed order, a guard that renders nothing for a plan
 * key the table does not know, and a view that reads as an upgrade exactly when
 * the new plan comes later in the order.
 */
module PlanUpgrade {
  import opened Wrappers
  import opened Seqs
  import opened Text

  datatype PlanDetails = PlanDetails(price: int, features: seq<string>)

  const PlanTable: map<string, PlanDetails> := map[
    "free" := PlanDetails(0, ["1 Store location", "Up to 100 products", "Basic POS features"]),
    "basic" := PlanDetails(29, ["Up to 3 locations", "Up to 1,000 products", "Advanced POS features",
                                "Inventory management"]),
    "pro" := PlanDetails(79, ["Up to 10 locations", "Unlimited products", "All POS features",
                              "Advanced analytics", "API access"]),
    "enterprise" := PlanDetails(199, ["Unlimited locations", "Unlimited products", "Custom integrations",
                                      "Dedicated support", "SLA guarantee"])
  ]

  const PlanOrder: seq<string> := ["free", "basic", "pro", "enterprise"]

  /** `planOrder.indexOf(newPlan) > planOrder.indexOf(currentPlan)`. */
  predicate IsUpgrade(currentPlan: string, newPlan: string)
  {
    IndexOf(PlanOrder, newPlan) > IndexOf(PlanOrder, currentPlan)
  }

  /** The known plans are exactly the ordered ones. */
  lemma PlanKeysAreOrdered()
    ensures forall key :: key in PlanTable <==> key in PlanOrder
  {
  }

  /**
   * Prices rise strictly along the order, so for two known plans the change is an
   * upgrade exactly when it costs more; a plan changed into itself is a downgrade
   * that costs nothing.
   */
  lemma UpgradeIffDearer(currentPlan: string, newPlan: string)
    requires currentPlan in PlanTable && newPlan in PlanTable
    ensures IsUpgrade(currentPlan, newPlan) <==> PlanTable[newPlan].price - PlanTable[currentPlan].price > 0
    ensures currentPlan == newPlan ==> !IsUpgrade(currentPlan, newPlan)
  {
    assert PlanOrder[0] == "free" && PlanOrder[1] == "basic" && PlanOrder[2] == "pro" && PlanOrder[3] == "enterprise";
    assert IndexOf(PlanOrder, "free") == 0;
    assert IndexOf(PlanOrder, "basic") == 1;
    assert IndexOf(PlanOrder, "pro") == 2;
    assert IndexOf(PlanOrder, "enterprise") == 3;
  }

  /** `s.charAt(0).toUpperCase() + s.slice(1)`. */
  function Capitalize(s: string): (r: string)
    ensures |r| == |s|
    ensures s != [] ==> r[0] == UpperChar(s[0]) && r[1..] == s[1..]
  {
    if s == [] then [] else [UpperChar(s[0])] + s[1..]
  }

  function Abs(n: int): nat
  {
    if n < 0 then -n else n
  }

  datatype ModalEvent = Confirm | OpenChange(open: bool)

  datatype ModalView = ModalView(
    isUpgrade: bool,
    title: string,
    description: string,
    currentPrice: int,
    newPrice: int,
    diffCaption: string,
    diffSign: string,
    diffAmount: nat,
    featuresHeading: string,
    features: seq<string>,
    downgradeNote: bool,
    confirmCaption: string,
    onCancel: seq<ModalEvent>,
    onConfirm: seq<ModalEvent>)

  /**
   * The dialog, or nothing when either key is unknown. The sign and the absolute
   * amount render the price difference itself, the downgrade note shows exactly
   * for a downgrade, Confirm raises `onConfirm` once and then closes, Cancel only
   * closes.
   */
  function RenderModal(currentPlan: string, newPlan: string): (v: Option<ModalView>)
    ensures v.None? <==> currentPlan !in PlanTable || newPlan !in PlanTable
    ensures v.Some? ==>
              var up, diff := IsUpgrade(currentPlan, newPlan), PlanTable[newPlan].price - PlanTable[currentPlan].price;
              && v.value.isUpgrade == up
              && v.value.currentPrice == PlanTable[currentPlan].price && v.value.newPrice == PlanTable[newPlan].price
              && (if v.value.diffSign == "+" then v.value.diffAmount as int else -(v.value.diffAmount as int)) == diff
              && (v.value.diffSign == "+" <==> up)
              && (v.value.downgradeNote <==> !up)
              && v.value.title == (if up then "Upgrade" else "Downgrade") + " to " + Capitalize(newPlan)
              && v.value.features == PlanTable[newPlan].features
              && v.value.onConfirm == [Confirm, OpenChange(false)]
              && v.value.onCancel == [OpenChange(false)]
  {
    if currentPlan !in PlanTable || newPlan !in PlanTable then None
    else
      var current, next := PlanTable[currentPlan], PlanTable[newPlan];
      var up := IsUpgrade(currentPlan, newPlan);
      var diff := next.price - current.price;
      UpgradeIffDearer(currentPlan, newPlan);
      Some(ModalView(
        up,
        (if up then "Upgrade" else "Downgrade") + " to " + Capitalize(newPlan),
        if up then "Unlock more features and grow your business" else "You'll lose access to some features",
        current.price,
        next.price,
        if up then "Additional Cost" else "Savings",
        if up then "+" else "-",
        Abs(diff),
        if up then "New features you'll get:" else "Features you'll keep:",
        next.features,
        !up,
        if up then "Upgrade Now" else "Confirm Downgrade",
        [OpenChange(false)],
        [Confirm, OpenChange(false)]))
  }
}
