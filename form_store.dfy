/**
 * The contact-values store (src/stores/formStore.ts): a list of
 * `{name, email}` records with push, splice-removal and reset, and no bounds.
 */
module FormStores {
  import opened FormTypes
  import opened ArraySplice

  /** The record `addForm` appends. */
  const EmptyValue := FormValue("", "")

  class FormStore {
    var formValues: seq<FormValue>

    /** The store's initial state. */
    constructor ()
      ensures formValues == []
    {
      formValues := [];
    }

    /** Appends one empty record; there is no upper bound. */
    method AddForm()
      modifies this
      ensures formValues == old(formValues) + [EmptyValue]
    {
      formValues := formValues + [EmptyValue];
    }

    /** `splice(index, 1)` on the records; never fails. */
    method RemoveForm(index: int)
      modifies this
      ensures formValues == Splice1(old(formValues), index)
    {
      formValues := Splice1(formValues, index);
    }

    /** Replaces the records by an empty list. */
    method ResetStore()
      modifies this
      ensures formValues == []
    {
      formValues := [];
    }
  }

  /** Unit-test scenario: add, add, remove(0), add, reset, add leaves exactly one empty record. */
  method MixedOperations() returns (values: seq<FormValue>)
    ensures values == [EmptyValue]
  {
    var store := new FormStore();
    store.AddForm();
    store.AddForm();
    store.RemoveForm(0);
    store.AddForm();
    store.ResetStore();
    store.AddForm();
    values := store.formValues;
  }

  /** Unit-test scenario: five additions give five empty records, and a reset then empties the store. */
  method FiveAddsThenReset() returns (filled: seq<FormValue>, afterReset: seq<FormValue>)
    ensures |filled| == 5
    ensures forall i :: 0 <= i < |filled| ==> filled[i] == EmptyValue
    ensures afterReset == []
  {
    var store := new FormStore();
    store.AddForm();
    store.AddForm();
    store.AddForm();
    store.AddForm();
    store.AddForm();
    filled := store.formValues;
    store.ResetStore();
    afterReset := store.formValues;
  }

  /**
   * Unit-test scenario: on three records, `removeForm(-1)` drops the last one and a
   * following `removeForm(100)` changes nothing; `removeForm(0)` on an empty
   * store changes nothing.
   */
  method OutOfRangeRemovals() returns (afterNegative: nat, afterPastEnd: nat, onEmpty: nat)
    ensures afterNegative == 2 && afterPastEnd == 2 && onEmpty == 0
  {
    var store := new FormStore();
    store.AddForm();
    store.AddForm();
    store.AddForm();
    store.RemoveForm(-1);
    afterNegative := |store.formValues|;
    store.RemoveForm(100);
    afterPastEnd := |store.formValues|;
    var empty := new FormStore();
    empty.RemoveForm(0);
    onEmpty := |empty.formValues|;
  }

  /** Unit-test scenario: removing index 2 and then index 1 from five records keeps records 0, 3 and 4. */
  lemma RemoveMiddleTwice(r0: FormValue, r1: FormValue, r2: FormValue, r3: FormValue, r4: FormValue)
    ensures Splice1(Splice1([r0, r1, r2, r3, r4], 2), 1) == [r0, r3, r4]
  {
  }
}
