/**
 * The expense entry form (src/components/expenses/ExpenseForm.tsx): six inputs, a
 * Save button disabled while a required input is empty, the browser's checks on the
 * amount input, and a submit that applies the same emptiness test before building
 * the record handed to `onSubmit`. Today's date and
 * what `parseFloat` makes of the amount text are parameters; a date is kept as an
 * opaque value.
 */
module ExpenseForm {
  import opened Wrappers
  import Browser

  /** What `onSubmit` receives; `notes` is absent rather than empty. */
  datatype ExpenseFormData = ExpenseFormData(date: string, category: string, description: string,
                                             amount: real, paymentMethod: string, notes: Option<string>)

  /** `notes || undefined`. */
  function NotesField(notes: string): (r: Option<string>)
    ensures r.None? <==> notes == ""
    ensures r.Some? ==> r.value == notes && r.value != ""
  {
    if notes == "" then None else Some(notes)
  }

  /**
   * The amount input's own constraints, `min="0"` and `step="0.01"`, which the
   * browser checks before it lets the form submit: not negative, and a whole
   * number of cents.
   */
  predicate AmountAccepted(x: real)
  {
    x >= 0.0 && Browser.OnStep(x, 0.01)
  }

  class ExpenseEntry {
    var date: string
    var category: string
    var description: string
    var amount: string
    var paymentMethod: string
    var notes: string

    /** The form opens on today's date with every other input empty. */
    constructor (today: string)
      ensures date == today
      ensures category == "" && description == "" && amount == "" && paymentMethod == "" && notes == ""
      ensures SaveDisabled()
    {
      date := today;
      category, description, amount, paymentMethod, notes := "", "", "", "", "";
    }

    /** The Save button's `disabled`. */
    predicate SaveDisabled()
      reads this
      ensures !SaveDisabled() <==> category != "" && description != "" && amount != "" && paymentMethod != ""
    {
      category == "" || description == "" || amount == "" || paymentMethod == ""
    }

    /** The calendar: a cleared selection keeps the previous date. */
    method SelectDate(d: Option<string>)
      modifies this
      ensures date == (if d.Some? then d.value else old(date))
      ensures category == old(category) && description == old(description) && amount == old(amount)
      ensures paymentMethod == old(paymentMethod) && notes == old(notes)
      ensures SaveDisabled() == old(SaveDisabled())
    {
      if d.Some? {
        date := d.value;
      }
    }

    method SetCategory(s: string)
      modifies this
      ensures category == s
      ensures date == old(date) && description == old(description) && amount == old(amount)
      ensures paymentMethod == old(paymentMethod) && notes == old(notes)
    {
      category := s;
    }

    method SetDescription(s: string)
      modifies this
      ensures description == s
      ensures date == old(date) && category == old(category) && amount == old(amount)
      ensures paymentMethod == old(paymentMethod) && notes == old(notes)
    {
      description := s;
    }

    method SetAmount(s: string)
      modifies this
      ensures amount == s
      ensures date == old(date) && category == old(category) && description == old(description)
      ensures paymentMethod == old(paymentMethod) && notes == old(notes)
    {
      amount := s;
    }

    method SetPaymentMethod(s: string)
      modifies this
      ensures paymentMethod == s
      ensures date == old(date) && category == old(category) && description == old(description)
      ensures amount == old(amount) && notes == old(notes)
    {
      paymentMethod := s;
    }

    method SetNotes(s: string)
      modifies this
      ensures notes == s
      ensures date == old(date) && category == old(category) && description == old(description)
      ensures amount == old(amount) && paymentMethod == old(paymentMethod)
      ensures SaveDisabled() == old(SaveDisabled())
    {
      notes := s;
    }

    /**
     * Submit, `parsedAmount` being the number the amount input holds: nothing is
     * handed over exactly when Save is disabled or the browser refuses the amount;
     * otherwise one record carrying the inputs unchanged, the parsed amount, and
     * the notes only when there are some. The form itself is left as it is.
     */
    method HandleSubmit(parsedAmount: real) returns (submitted: Option<ExpenseFormData>)
      ensures submitted.None? <==> SaveDisabled() || !AmountAccepted(parsedAmount)
      ensures submitted.Some? ==> AmountAccepted(submitted.value.amount) && submitted.value.amount >= 0.0
      ensures submitted.Some? ==>
                && submitted.value.date == date && submitted.value.category == category
                && submitted.value.description == description && submitted.value.paymentMethod == paymentMethod
                && submitted.value.amount == parsedAmount
                && submitted.value.notes == NotesField(notes)
    {
      if !AmountAccepted(parsedAmount) {
        return None;
      }
      if category == "" || description == "" || amount == "" || paymentMethod == "" {
        return None;
      }
      submitted := Some(ExpenseFormData(date, category, description, parsedAmount, paymentMethod, NotesField(notes)));
    }
  }
}
