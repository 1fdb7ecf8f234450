/**
 * The payment dialog (src/components/pos/PaymentModal.tsx): the cashier picks a
 * tender method, types or picks the cash received, and presses Complete; after a
 * delay the dialog reports the method and the amount paid and clears the cash input.
 * The text field is modelled by what `parseFloat` makes of it: `None` for an empty
 * or unparsable entry, `Some(v)` for a number.
 */
module Payment {
  import opened Wrappers
  import opened Seqs

  datatype PaymentMethod = Cash | Card | Wallet

  /** `parseFloat(cashReceived) || 0`: an empty or unparsable entry counts as 0. */
  function CashAmount(entry: Option<real>): (r: real)
    ensures entry == None ==> r == 0.0
    ensures entry.Some? ==> r == entry.value
    ensures r == 0.0 || entry == Some(r)
  {
    if entry.Some? then entry.value else 0.0
  }

  /** `cashAmount - total`: what the cash exceeds the total by, negative when it falls short. */
  function Change(cashAmount: real, total: real): (r: real)
    ensures total + r == cashAmount
    ensures r >= 0.0 <==> cashAmount >= total
  {
    cashAmount - total
  }

  /** Card and wallet can always complete; cash only when it covers the total. */
  predicate CanComplete(tender: PaymentMethod, cashAmount: real, total: real)
  {
    if tender == Cash then cashAmount >= total else true
  }

  /** The amount reported on completion: the cash received, or exactly the total. */
  function AmountPaid(tender: PaymentMethod, cashAmount: real, total: real): real
  {
    if tender == Cash then cashAmount else total
  }

  /** The change panel is shown for cash once the cash covers the total. */
  predicate ShowsChangePanel(tender: PaymentMethod, cashAmount: real, total: real)
    ensures ShowsChangePanel(tender, cashAmount, total)
        <==> tender == Cash && CanComplete(tender, cashAmount, total)
    ensures ShowsChangePanel(tender, cashAmount, total) ==> Change(cashAmount, total) >= 0.0
  {
    tender == Cash && cashAmount >= total
  }

  /**
   * Card and wallet always complete, cash exactly when it covers the total (the
   * boundary included); whenever completion is allowed the amount paid covers the
   * total, with nothing over for card and wallet; the change panel shows a change
   * that is never negative.
   */
  lemma CompletionCoversTotal(tender: PaymentMethod, cashAmount: real, total: real)
    ensures tender != Cash ==> CanComplete(tender, cashAmount, total)
    ensures tender == Cash ==> (CanComplete(tender, cashAmount, total) <==> cashAmount >= total)
    ensures CanComplete(tender, cashAmount, total) ==> AmountPaid(tender, cashAmount, total) - total >= 0.0
    ensures tender != Cash ==> AmountPaid(tender, cashAmount, total) - total == 0.0
    ensures ShowsChangePanel(tender, cashAmount, total) ==> Change(cashAmount, total) >= 0.0
    ensures tender == Cash ==> AmountPaid(tender, cashAmount, total) - total == Change(cashAmount, total)
  {
  }

  /** `Math.ceil(x)`: the least whole number not below `x`. */
  function Ceil(x: real): int
  {
    if x.Floor as real == x then x.Floor else x.Floor + 1
  }

  lemma CeilBounds(x: real)
    ensures Ceil(x) as real >= x
    ensures (Ceil(x) - 1) as real < x
  {
  }

  /** `Math.ceil(total / m) * m`: the least multiple of `m` not below `total`. */
  function RoundUpTo(total: real, m: int): int
    requires m > 0
  {
    Ceil(total / m as real) * m
  }

  /** `RoundUpTo(t, m)` is not below `t`, and the multiple of `m` before it is below `t`. */
  lemma RoundUpToBounds(t: real, m: int)
    requires m > 0
    ensures RoundUpTo(t, m) as real >= t
    ensures (RoundUpTo(t, m) - m) as real < t
  {
    var mr := m as real;
    var q := t / mr;
    var k := Ceil(q);
    assert RoundUpTo(t, m) == k * m;
    assert RoundUpTo(t, m) - m == (k - 1) * m;
    CeilBounds(q);
    assert q * mr == t;
    MultiplyPreservesOrder(q, k as real, mr);
    MultiplyPreservesStrictOrder((k - 1) as real, q, mr);
    CastProduct(k, m);
    CastProduct(k - 1, m);
    assert ((k - 1) * m) as real < t;
  }

  lemma CastProduct(a: int, b: int)
    ensures (a * b) as real == (a as real) * (b as real)
  {
  }

  lemma MultiplyPreservesOrder(x: real, y: real, c: real)
    requires x <= y && c > 0.0
    ensures x * c <= y * c
  {
  }

  lemma MultiplyPreservesStrictOrder(x: real, y: real, c: real)
    requires x < y && c > 0.0
    ensures x * c < y * c
  {
  }

  /** The four suggestions before filtering: the total rounded up to 1, 10, 20 and 50. */
  function Candidates(total: real): seq<real>
  {
    [Ceil(total) as real, RoundUpTo(total, 10) as real, RoundUpTo(total, 20) as real,
     RoundUpTo(total, 50) as real]
  }

  /**
   * `a.filter((v, i) => a.indexOf(v) === i && v >= total)`, from position `i` on:
   * the first occurrence of every value that is at least `total`.
   */
  function FirstOccurrencesFrom(a: seq<real>, total: real, i: nat): seq<real>
    decreases |a| - i
  {
    if i >= |a| then []
    else (if IndexOf(a, a[i]) == i && a[i] >= total then [a[i]] else [])
         + FirstOccurrencesFrom(a, total, i + 1)
  }

  /** The quick-amount buttons: `.slice(0, 4)` of the filtered candidates. */
  function QuickAmounts(total: real): seq<real>
  {
    Take(FirstOccurrencesFrom(Candidates(total), total, 0), 4)
  }

  predicate StrictlyIncreasing(s: seq<real>)
  {
    forall i, j :: 0 <= i < j < |s| ==> s[i] < s[j]
  }

  /** A whole number is at least `t` exactly when it is at least `Ceil(t)`. */
  lemma CeilIsLeast(t: real, n: int)
    ensures n as real >= t <==> n >= Ceil(t)
  {
    CeilBounds(t);
  }

  /**
   * The relations between the four rounded values: each rounding to a coarser
   * step is at least the one to 10, and when rounding to 50 falls below rounding
   * to 20 it coincides with rounding to 10.
   */
  lemma CandidateOrder(t: real)
    ensures Ceil(t) <= RoundUpTo(t, 10) <= RoundUpTo(t, 20)
    ensures RoundUpTo(t, 10) <= RoundUpTo(t, 50)
    ensures RoundUpTo(t, 50) < RoundUpTo(t, 20) ==> RoundUpTo(t, 50) == RoundUpTo(t, 10)
  {
    var c := Ceil(t);
    RoundUpToBounds(t, 10);
    RoundUpToBounds(t, 20);
    RoundUpToBounds(t, 50);
    CeilIsLeast(t, RoundUpTo(t, 10));
    CeilIsLeast(t, RoundUpTo(t, 10) - 10);
    CeilIsLeast(t, RoundUpTo(t, 20));
    CeilIsLeast(t, RoundUpTo(t, 20) - 20);
    CeilIsLeast(t, RoundUpTo(t, 50));
    CeilIsLeast(t, RoundUpTo(t, 50) - 50);
    MultiplesAboveWhole(c, Ceil(t / 10.0), Ceil(t / 20.0), Ceil(t / 50.0));
  }

  /**
   * The same relations for whole numbers: `10 * k10`, `20 * k20` and `50 * k50` are the
   * least multiples of 10, 20 and 50 not below `c`.
   */
  lemma MultiplesAboveWhole(c: int, k10: int, k20: int, k50: int)
    requires 10 * k10 - 10 < c <= 10 * k10
    requires 20 * k20 - 20 < c <= 20 * k20
    requires 50 * k50 - 50 < c <= 50 * k50
    ensures c <= 10 * k10 <= 20 * k20
    ensures 10 * k10 <= 50 * k50
    ensures 50 * k50 < 20 * k20 ==> 50 * k50 == 10 * k10
  {
    assert k10 - 1 < 2 * k20;
    assert k10 - 1 < 5 * k50;
    if 50 * k50 < 20 * k20 {
      // 50 * k50 lies strictly between two consecutive multiples of 20, so it is
      // 10 below the upper one and 10 above the lower; rounding to 10 cannot stop
      // before it, because 50 * k50 - 10 is below c
      assert 2 * k20 - 2 < 5 * k50 < 2 * k20;
      assert 5 * k50 == 2 * k20 - 1;
      assert 50 * k50 - 10 == 20 * k20 - 20;
      assert 5 * k50 - 1 < k10;
    }
  }

  lemma PrependIncreasing(x: real, s: seq<real>)
    requires StrictlyIncreasing(s)
    requires forall k :: 0 <= k < |s| ==> x < s[k]
    ensures StrictlyIncreasing([x] + s)
  {
    var r := [x] + s;
    forall i, j | 0 <= i < j < |r|
      ensures r[i] < r[j]
    {
      assert r[j] == s[j - 1];
      if i > 0 {
        assert r[i] == s[i - 1];
      }
    }
  }

  /** Position `i` is kept exactly when its value does not occur earlier. */
  lemma FirstOccurrenceStep(a: seq<real>, total: real, i: nat)
    requires i < |a| && a[i] >= total
    ensures FirstOccurrencesFrom(a, total, i)
         == (if a[i] !in a[..i] then [a[i]] else []) + FirstOccurrencesFrom(a, total, i + 1)
  {
    var j := IndexOf(a, a[i]);
    assert a[i] in a;
    if j < i {
      assert a[..i][j] == a[i];
    }
  }

  /** The four positions of a four-value list, each kept exactly when its value does not occur earlier. */
  lemma FirstOccurrencesLast(a: seq<real>, total: real)
    requires |a| == 4 && a[3] >= total
    ensures FirstOccurrencesFrom(a, total, 3)
         == if a[3] != a[0] && a[3] != a[1] && a[3] != a[2] then [a[3]] else []
  {
    FirstOccurrenceStep(a, total, 3);
    assert a[..3] == [a[0], a[1], a[2]];
    assert FirstOccurrencesFrom(a, total, 4) == [];
  }

  lemma FirstOccurrencesThird(a: seq<real>, total: real)
    requires |a| == 4 && a[2] >= total
    ensures FirstOccurrencesFrom(a, total, 2)
         == (if a[2] != a[0] && a[2] != a[1] then [a[2]] else []) + FirstOccurrencesFrom(a, total, 3)
  {
    FirstOccurrenceStep(a, total, 2);
    assert a[..2] == [a[0], a[1]];
  }

  lemma FirstOccurrencesSecond(a: seq<real>, total: real)
    requires |a| == 4 && a[1] >= total
    ensures FirstOccurrencesFrom(a, total, 1)
         == (if a[1] != a[0] then [a[1]] else []) + FirstOccurrencesFrom(a, total, 2)
  {
    FirstOccurrenceStep(a, total, 1);
    assert a[..1] == [a[0]];
  }

  lemma FirstOccurrencesFirst(a: seq<real>, total: real)
    requires |a| == 4 && a[0] >= total
    ensures FirstOccurrencesFrom(a, total, 0) == [a[0]] + FirstOccurrencesFrom(a, total, 1)
  {
    FirstOccurrenceStep(a, total, 0);
    assert a[..0] == [];
  }

  /** The value ordering the rounded candidates satisfy. */
  predicate CandidateShape(a: seq<real>, total: real)
  {
    && |a| == 4
    && a[0] <= a[1] <= a[2] && a[1] <= a[3]
    && (a[3] < a[2] ==> a[3] == a[1])
    && (forall k :: 0 <= k < 4 ==> a[k] >= total)
  }

  /**
   * First-occurrence filtering of four values ordered like the rounded candidates
   * leaves them strictly increasing, starting with the first.
   */
  lemma FirstOccurrencesOfFourIncreasing(a: seq<real>, total: real)
    requires CandidateShape(a, total)
    ensures var r := FirstOccurrencesFrom(a, total, 0);
      1 <= |r| <= 4 && r[0] == a[0] && StrictlyIncreasing(r)
  {
    var r3 := FirstOccurrencesFrom(a, total, 3);
    var r2 := FirstOccurrencesFrom(a, total, 2);
    var r1 := FirstOccurrencesFrom(a, total, 1);
    FirstOccurrencesLast(a, total);
    FirstOccurrencesThird(a, total);
    FirstOccurrencesSecond(a, total);
    FirstOccurrencesFirst(a, total);
    assert forall k :: 0 <= k < |r3| ==> a[2] < r3[k];
    if a[2] != a[0] && a[2] != a[1] {
      PrependIncreasing(a[2], r3);
    }
    assert forall k :: 0 <= k < |r2| ==> a[1] < r2[k];
    if a[1] != a[0] {
      PrependIncreasing(a[1], r2);
    }
    assert forall k :: 0 <= k < |r1| ==> a[0] < r1[k];
    PrependIncreasing(a[0], r1);
  }

  /**
   * From position `i` on, the filtering keeps every value that reaches the total and
   * does not occur before `i`.
   */
  lemma {:induction false} FirstOccurrencesKeep(a: seq<real>, total: real, i: nat, j: nat)
    requires i <= j < |a| && a[j] >= total
    requires IndexOf(a, a[j]) >= i
    ensures a[j] in FirstOccurrencesFrom(a, total, i)
    decreases |a| - i
  {
    var m := IndexOf(a, a[j]);
    if m > i {
      FirstOccurrencesKeep(a, total, i + 1, j);
    }
  }

  /** First-occurrence filtering of values that all reach the total loses none of them. */
  lemma FirstOccurrencesKeepsAll(a: seq<real>, total: real)
    requires forall k :: 0 <= k < |a| ==> a[k] >= total
    ensures forall k :: 0 <= k < |a| ==> a[k] in FirstOccurrencesFrom(a, total, 0)
  {
    forall k | 0 <= k < |a|
      ensures a[k] in FirstOccurrencesFrom(a, total, 0)
    {
      FirstOccurrencesKeep(a, total, 0, k);
    }
  }

  /** Filtering from position `i` on keeps only values found at or after `i`. */
  lemma {:induction false} FirstOccurrencesWithin(a: seq<real>, total: real, i: nat)
    ensures forall x :: x in FirstOccurrencesFrom(a, total, i) ==> x in a[i..]
    decreases |a| - i
  {
    if i < |a| {
      FirstOccurrencesWithin(a, total, i + 1);
      assert a[i..] == [a[i]] + a[i + 1..];
    }
  }

  /**
   * The quick amounts are strictly increasing, so free of duplicates; there are
   * between one and four of them; every one covers the total; the first is the
   * total rounded up to a whole amount, whatever the total; and no candidate is
   * lost, so the `v >= total` test never removes anything.
   */
  lemma QuickAmountsProperties(total: real)
    ensures 1 <= |QuickAmounts(total)| <= 4
    ensures QuickAmounts(total)[0] == Ceil(total) as real
    ensures StrictlyIncreasing(QuickAmounts(total))
    ensures NoDuplicates(QuickAmounts(total))
    ensures forall k :: 0 <= k < |QuickAmounts(total)| ==> QuickAmounts(total)[k] >= total
    ensures forall k :: 0 <= k < 4 ==> Candidates(total)[k] in QuickAmounts(total)
    ensures forall x :: x in QuickAmounts(total) ==> x in Candidates(total)
  {
    var a := Candidates(total);
    CandidateOrder(total);
    CeilBounds(total);
    RoundUpToBounds(total, 10);
    RoundUpToBounds(total, 20);
    RoundUpToBounds(total, 50);
    FirstOccurrencesOfFourIncreasing(a, total);
    FirstOccurrencesKeepsAll(a, total);
    FirstOccurrencesWithin(a, total, 0);
    var r := FirstOccurrencesFrom(a, total, 0);
    assert a[0..] == a;
    assert QuickAmounts(total) == r;
    forall k | 0 <= k < |r|
      ensures r[k] >= total
    {
      assert r[0] <= r[k];
    }
  }

  /** Where the dialog is: waiting for Complete, or waiting for the delay to report a payment. */
  datatype Phase = Ready | Processing(pending: Completion, due: real)

  /** What `onComplete` receives. */
  datatype Completion = Completion(tender: PaymentMethod, amountPaid: real)

  /**
   * The dialog's state. The POS page mounts the dialog once and keeps it mounted,
   * so the method and the cash entry outlive each opening; `total` is a prop that
   * follows the cart. A pending completion keeps the total of its click, as the
   * delayed callback does.
   */
  class PaymentModal {
    var total: real
    var selectedMethod: PaymentMethod
    var cashReceived: Option<real>
    var phase: Phase

    /** A pending completion was allowed when it started: it covers the total, exactly so for card and wallet. */
    predicate Valid()
      reads this
    {
      phase.Processing? ==>
        && phase.pending.amountPaid >= phase.due
        && (phase.pending.tender != Cash ==> phase.pending.amountPaid == phase.due)
    }

    /** The Complete button is enabled. */
    predicate CompleteEnabled()
      reads this
    {
      CanComplete(selectedMethod, CashAmount(cashReceived), total) && !phase.Processing?
    }

    /**
     * The mount, once per visit of the POS page: cash selected, nothing typed, not
     * processing. Later openings start from whatever state the previous one left.
     */
    constructor (total: real)
      ensures this.total == total
      ensures selectedMethod == Cash && cashReceived == None && phase == Ready
      ensures CashAmount(cashReceived) == 0.0
      ensures CompleteEnabled() <==> total <= 0.0
      ensures Valid()
    {
      this.total := total;
      selectedMethod := Cash;
      cashReceived := None;
      phase := Ready;
    }

    /** A tender-method button. */
    method SelectMethod(m: PaymentMethod)
      requires Valid()
      modifies this
      ensures selectedMethod == m
      ensures cashReceived == old(cashReceived) && phase == old(phase) && total == old(total)
      ensures Valid()
    {
      selectedMethod := m;
    }

    /** The cash field changes; `entry` is what `parseFloat` makes of its new text. */
    method EnterCash(entry: Option<real>)
      requires Valid()
      modifies this
      ensures cashReceived == entry
      ensures selectedMethod == old(selectedMethod) && phase == old(phase) && total == old(total)
      ensures Valid()
    {
      cashReceived := entry;
    }

    /** A quick-amount button writes its amount into the cash field, which then covers the total. */
    method PickQuickAmount(amount: real)
      requires Valid()
      requires selectedMethod == Cash
      requires amount in QuickAmounts(total)
      modifies this
      ensures cashReceived == Some(amount)
      ensures selectedMethod == old(selectedMethod) && phase == old(phase) && total == old(total)
      ensures CashAmount(cashReceived) >= total
      ensures phase == Ready ==> CompleteEnabled()
      ensures Valid()
    {
      QuickAmountsProperties(total);
      cashReceived := Some(amount);
    }

    /**
     * Complete: ignored while disabled; otherwise the dialog starts processing and
     * fixes the method and amount it will report.
     */
    method ClickComplete() returns (started: bool)
      requires Valid()
      modifies this
      ensures started == old(CompleteEnabled())
      ensures started ==> phase == Processing(Completion(old(selectedMethod),
                AmountPaid(old(selectedMethod), CashAmount(old(cashReceived)), total)), total)
      ensures !started ==> phase == old(phase)
      ensures selectedMethod == old(selectedMethod) && cashReceived == old(cashReceived) && total == old(total)
      ensures Valid()
    {
      started := CompleteEnabled();
      if started {
        phase := Processing(Completion(selectedMethod,
                   AmountPaid(selectedMethod, CashAmount(cashReceived), total)), total);
      }
    }

    /**
     * The page re-renders the mounted dialog with the current cart total, for a new
     * sale or a changed cart: the selected method, the cash entry and the phase are
     * kept, so a dialog reopened after a card sale starts on card, and a cash entry
     * typed before a cancel is now tested against the new total.
     */
    method TotalChanges(newTotal: real)
      requires Valid()
      modifies this
      ensures total == newTotal
      ensures selectedMethod == old(selectedMethod) && cashReceived == old(cashReceived) && phase == old(phase)
      ensures phase == Ready ==> (CompleteEnabled() <==> CanComplete(selectedMethod, CashAmount(cashReceived), newTotal))
      ensures Valid()
    {
      total := newTotal;
    }

    /** The delay ends: the fixed completion is reported, processing ends and the cash field is cleared. */
    method TimerFires() returns (completed: Completion)
      requires Valid()
      requires phase.Processing?
      modifies this
      ensures completed == old(phase.pending)
      ensures completed.amountPaid >= old(phase.due)
      ensures completed.tender != Cash ==> completed.amountPaid == old(phase.due)
      ensures phase == Ready && cashReceived == None
      ensures selectedMethod == old(selectedMethod) && total == old(total)
      ensures Valid()
    {
      completed := phase.pending;
      phase := Ready;
      cashReceived := None;
    }
  }
}
