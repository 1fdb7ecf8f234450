/**
 * Tax rates in the tax and currency settings
 * (src/components/settings/TaxCurrencySettings.tsx): a list of named rates of which
 * exactly one is the default, with inputs to add a rate and per-rate buttons to
 * delete it or make it the default. The fresh id (`Date.now()`) and what
 * `parseFloat` makes of the rate text are parameters; toasts are not modelled.
 */
module TaxSettings {
  import opened Seqs

  datatype TaxRate = TaxRate(id: string, name: string, rate: real, isDefault: bool)

  const InitialRates: seq<TaxRate> := [
    TaxRate("1", "Standard Tax", 8.875, true),
    TaxRate("2", "Reduced Tax", 4.5, false),
    TaxRate("3", "Zero Tax", 0.0, false)
  ]

  function RateId(t: TaxRate): string
  {
    t.id
  }

  function IsDefault(t: TaxRate): bool
  {
    t.isDefault
  }

  function HasId(id: string): TaxRate -> bool
  {
    (t: TaxRate) => t.id == id
  }

  function HasOtherId(id: string): TaxRate -> bool
  {
    (t: TaxRate) => t.id != id
  }

  function DefaultCount(rates: seq<TaxRate>): nat
  {
    Count(rates, IsDefault)
  }

  /** The list's invariant: ids are unique and exactly one rate is the default. */
  predicate Valid(rates: seq<TaxRate>)
  {
    UniqueBy(rates, RateId) && DefaultCount(rates) == 1
  }

  predicate Present(rates: seq<TaxRate>, id: string)
  {
    exists k :: 0 <= k < |rates| && rates[k].id == id
  }

  /** Add: a new non-default rate at the end. */
  function AddRate(rates: seq<TaxRate>, newId: string, name: string, rate: real): seq<TaxRate>
  {
    rates + [TaxRate(newId, name, rate, false)]
  }

  /** `taxRates.filter((t) => t.id !== id)`. */
  function DeleteRate(rates: seq<TaxRate>, id: string): seq<TaxRate>
  {
    Filter(rates, HasOtherId(id))
  }

  function DefaultIf(id: string): TaxRate -> TaxRate
  {
    (t: TaxRate) => t.(isDefault := t.id == id)
  }

  /** `taxRates.map((t) => ({ ...t, isDefault: t.id === id }))`. */
  function SetDefault(rates: seq<TaxRate>, id: string): seq<TaxRate>
  {
    Map(rates, DefaultIf(id))
  }

  lemma InitialValid()
    ensures Valid(InitialRates)
  {
    CountSingle(InitialRates, IsDefault, 0);
  }

  /**
   * Set Default makes exactly the rates with that id the default and changes no
   * other field; doing it again changes nothing.
   */
  lemma SetDefaultSpec(rates: seq<TaxRate>, id: string)
    ensures |SetDefault(rates, id)| == |rates|
    ensures forall k :: 0 <= k < |rates| ==>
              (SetDefault(rates, id)[k].isDefault <==> rates[k].id == id)
              && SetDefault(rates, id)[k] == rates[k].(isDefault := rates[k].id == id)
    ensures SetDefault(SetDefault(rates, id), id) == SetDefault(rates, id)
  {
    assert SetDefault(SetDefault(rates, id), id) == SetDefault(rates, id);
  }

  /** Making an existing id the default keeps the invariant; an unknown id leaves no default. */
  lemma SetDefaultPreservesValid(rates: seq<TaxRate>, id: string)
    requires Valid(rates)
    ensures Present(rates, id) ==> Valid(SetDefault(rates, id))
    ensures !Present(rates, id) ==> DefaultCount(SetDefault(rates, id)) == 0
  {
    SetDefaultCount(rates, id);
    if Present(rates, id) {
      SetDefaultKeepsIds(rates, id);
      var i :| 0 <= i < |rates| && rates[i].id == id;
      CountSingle(rates, HasId(id), i);
    } else {
      FilterNone(rates, HasId(id));
    }
  }

  /** After Set Default, the default rates are exactly the rates with that id. */
  lemma SetDefaultCount(rates: seq<TaxRate>, id: string)
    ensures DefaultCount(SetDefault(rates, id)) == Count(rates, HasId(id))
  {
    CountMap(rates, DefaultIf(id), IsDefault, HasId(id));
  }

  /** Set Default changes no id, so unique ids stay unique. */
  lemma SetDefaultKeepsIds(rates: seq<TaxRate>, id: string)
    requires UniqueBy(rates, RateId)
    ensures UniqueBy(SetDefault(rates, id), RateId)
  {
    var r := SetDefault(rates, id);
    assert forall k :: 0 <= k < |rates| ==> r[k].id == rates[k].id;
  }

  /** Deleting removes exactly the rates with that id and keeps the rest in order. */
  lemma DeleteRateSpec(rates: seq<TaxRate>, id: string)
    ensures IsSubsequence(DeleteRate(rates, id), rates)
    ensures forall k :: 0 <= k < |DeleteRate(rates, id)| ==> DeleteRate(rates, id)[k].id != id
    ensures forall k :: 0 <= k < |rates| && rates[k].id != id ==> rates[k] in DeleteRate(rates, id)
  {
    FilterIsSubsequence(rates, HasOtherId(id));
  }

  /**
   * Deleting a non-default rate keeps the invariant; the handler does not protect
   * the default, and deleting it leaves no default rate.
   */
  lemma DeletePreservesValid(rates: seq<TaxRate>, id: string)
    requires Valid(rates)
    ensures (forall k :: 0 <= k < |rates| && rates[k].id == id ==> !rates[k].isDefault) ==> Valid(DeleteRate(rates, id))
    ensures (exists k :: 0 <= k < |rates| && rates[k].id == id && rates[k].isDefault) ==>
              DefaultCount(DeleteRate(rates, id)) == 0
  {
    FilterUniqueBy(rates, HasOtherId(id), RateId);
    if forall k :: 0 <= k < |rates| && rates[k].id == id ==> !rates[k].isDefault {
      CountFilterKeeps(rates, HasOtherId(id), IsDefault);
    } else {
      var i :| 0 <= i < |rates| && rates[i].id == id && rates[i].isDefault;
      var r := DeleteRate(rates, id);
      forall k | 0 <= k < |rates| && k != i
        ensures !IsDefault(rates[k])
      {
        var f := Filter(rates, IsDefault);
        if IsDefault(rates[k]) {
          assert rates[k] in f && rates[i] in f;
          assert rates[k] != rates[i] by {
            assert RateId(rates[k]) != RateId(rates[i]);
          }
          DefaultsAreOne(rates);
        }
      }
      forall k | 0 <= k < |r|
        ensures !IsDefault(r[k])
      {
        var j :| 0 <= j < |rates| && rates[j] == r[k];
        assert j != i;
      }
      FilterNone(r, IsDefault);
    }
  }

  /** With a single default, two different rates are never both default. */
  lemma DefaultsAreOne(rates: seq<TaxRate>)
    requires DefaultCount(rates) == 1
    ensures forall x, y :: x in Filter(rates, IsDefault) && y in Filter(rates, IsDefault) ==> x == y
  {
  }

  /** Adding with an unused id keeps the invariant. */
  lemma AddPreservesValid(rates: seq<TaxRate>, newId: string, name: string, rate: real)
    requires Valid(rates)
    requires !Present(rates, newId)
    ensures Valid(AddRate(rates, newId, name, rate))
  {
    CountAppend(rates, TaxRate(newId, name, rate, false), IsDefault);
  }

  /** The tax-rate part of the settings page. */
  class TaxCurrencySettings {
    var taxRates: seq<TaxRate>
    var newTaxName: string
    var newTaxRate: string

    constructor ()
      ensures taxRates == InitialRates && newTaxName == "" && newTaxRate == ""
      ensures Valid(taxRates)
      ensures !AddEnabled()
    {
      taxRates := InitialRates;
      newTaxName := "";
      newTaxRate := "";
      InitialValid();
    }

    /** The Add button is enabled; the handler applies the same test. */
    predicate AddEnabled()
      reads this
      ensures AddEnabled() <==> |newTaxName| > 0 && |newTaxRate| > 0
    {
      newTaxName != "" && newTaxRate != ""
    }

    method EnterNewTax(name: string, rateText: string)
      modifies this
      ensures newTaxName == name && newTaxRate == rateText && taxRates == old(taxRates)
      ensures AddEnabled() <==> name != "" && rateText != ""
    {
      newTaxName := name;
      newTaxRate := rateText;
    }

    /**
     * Add: nothing happens while either input is empty; otherwise one non-default
     * rate is appended and both inputs are cleared. `parsedRate` is
     * `parseFloat(newTaxRate)`.
     */
    method AddTax(newId: string, parsedRate: real) returns (added: bool)
      requires Valid(taxRates)
      requires !Present(taxRates, newId)
      modifies this
      ensures added <==> old(AddEnabled())
      ensures added ==> taxRates == AddRate(old(taxRates), newId, old(newTaxName), parsedRate)
                        && newTaxName == "" && newTaxRate == "" && !AddEnabled()
      ensures !added ==> taxRates == old(taxRates) && newTaxName == old(newTaxName) && newTaxRate == old(newTaxRate)
      ensures Valid(taxRates)
    {
      added := newTaxName != "" && newTaxRate != "";
      if added {
        AddPreservesValid(taxRates, newId, newTaxName, parsedRate);
        taxRates := AddRate(taxRates, newId, newTaxName, parsedRate);
        newTaxName := "";
        newTaxRate := "";
      }
    }

    /** Delete; the page disables the button of the default rate, the handler itself does not check. */
    method DeleteTax(id: string)
      requires Valid(taxRates)
      modifies this
      ensures taxRates == DeleteRate(old(taxRates), id)
      ensures newTaxName == old(newTaxName) && newTaxRate == old(newTaxRate)
      ensures (forall k :: 0 <= k < |old(taxRates)| && old(taxRates)[k].id == id ==> !old(taxRates)[k].isDefault)
              ==> Valid(taxRates)
    {
      DeletePreservesValid(taxRates, id);
      taxRates := DeleteRate(taxRates, id);
    }

    /** A rate's default switch, in either direction. */
    method SetDefaultOf(id: string)
      requires Valid(taxRates)
      modifies this
      ensures taxRates == SetDefault(old(taxRates), id)
      ensures newTaxName == old(newTaxName) && newTaxRate == old(newTaxRate)
      ensures Present(old(taxRates), id) ==> Valid(taxRates)
    {
      SetDefaultPreservesValid(taxRates, id);
      taxRates := SetDefault(taxRates, id);
    }
  }
}
