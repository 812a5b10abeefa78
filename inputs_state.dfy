/**
 * The state behind the form (src/hooks/useInputsState.ts): the inputs
 * being edited and the inputs last loaded, whose difference is the
 * "modified" indicator.
 *
 * The stored state `loadState` reads and the page's query string are
 * parameters of the constructor; saving the state on every change is
 * storage I/O and is left out.
 */
module InputsState {
  import opened JsRuntime
  import opened Types
  import opened InputsCodec

  class InputsStore {
    var inputs: Inputs
    var lastLoadedInputs: Inputs

    /** The inputs differ from the last loaded ones, field by field with `===`. */
    predicate IsDirty()
      reads this
      ensures IsDirty() <==> inputs != lastLoadedInputs || HasNaN(inputs)
    {
      !AreInputsEqual(inputs, lastLoadedInputs)
    }

    /**
     * The stored state overridden by the query string; these are also the
     * last loaded inputs, so nothing is modified unless the stored state
     * holds NaN.
     */
    constructor (query: map<string, string>, stored: Inputs, conv: NumberConversion)
      ensures inputs == ParseInputsFromQuery(query, stored, conv)
      ensures lastLoadedInputs == inputs
      ensures !HasNaN(stored) ==> !IsDirty()
    {
      inputs := ParseInputsFromQuery(query, stored, conv);
      lastLoadedInputs := inputs;
      new;
      AreInputsEqualReflexive(inputs);
    }

    /** `setInputs(next)`: only the edited inputs change. */
    method SetInputs(next: Inputs)
      modifies this
      ensures inputs == next && lastLoadedInputs == old(lastLoadedInputs)
      ensures IsDirty() <==> next != lastLoadedInputs || HasNaN(next)
    {
      inputs := next;
    }

    /** `setInputs(update)`: the updater form, applied to the current inputs. */
    method UpdateInputs(update: Inputs -> Inputs)
      modifies this
      ensures inputs == update(old(inputs)) && lastLoadedInputs == old(lastLoadedInputs)
      ensures IsDirty() <==> inputs != lastLoadedInputs || HasNaN(inputs)
    {
      inputs := update(inputs);
    }

    /** `resetInputs`: both back to the defaults, so nothing is modified. */
    method ResetInputs()
      modifies this
      ensures inputs == DefaultInputs && lastLoadedInputs == DefaultInputs
      ensures !IsDirty()
    {
      inputs := DefaultInputs;
      lastLoadedInputs := DefaultInputs;
      AreInputsEqualReflexive(DefaultInputs);
    }

    /** `loadInputs(next)`: both become `next`; modified only if `next` holds NaN. */
    method LoadInputs(next: Inputs)
      modifies this
      ensures inputs == next && lastLoadedInputs == next
      ensures IsDirty() <==> HasNaN(next)
    {
      inputs := next;
      lastLoadedInputs := next;
      AreInputsEqualReflexive(next);
    }
  }

  /**
   * Starting from the stored defaults, renaming partner A marks the form as
   * modified, and loading a record with that name clears the mark again.
   */
  method RenameThenLoad(conv: NumberConversion) returns (before: bool, afterEdit: bool, afterLoad: bool)
    ensures !before && afterEdit && !afterLoad
  {
    var store := new InputsStore(map[], DefaultInputs, conv);
    before := store.IsDirty();
    store.UpdateInputs((prev: Inputs) => prev.(partnerAName := Some("Alex")));
    afterEdit := store.IsDirty();
    store.LoadInputs(DefaultInputs.(partnerAName := Some("Alex")));
    afterLoad := store.IsDirty();
  }

  /** A finite number in the query string overrides the stored value of its field. */
  method QueryOverridesStoredState(value: string, number: real, stored: Inputs, conv: NumberConversion)
    returns (a1: JsNumber)
    requires Trim(value) == value && value != []
    requires conv.parse(value) == Finite(number)
    ensures a1 == Finite(number)
  {
    var store := new InputsStore(map["a1" := value], stored, conv);
    a1 := store.inputs.a1;
  }
}
