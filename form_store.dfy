/**
 * The persistent recipe form store (createRecipeFormStore in
 * src/lib/stores/recipe-form.store.ts): the current snapshot plus the local
 * storage slot under the store's key, which the store rewrites after every
 * change. The code runs in the browser, so the storage branch is always taken.
 */
module FormStore {
  import opened Wrappers
  import opened Types
  import FormTransitions

  class RecipeFormStore {
    /** The local storage key this store persists under. */
    const storageKey: string
    /** The in-memory snapshot the editor reads. */
    var state: RecipeFormData
    /** What local storage holds under `storageKey`: the last snapshot written, or nothing after a removal. */
    var stored: Option<RecipeFormData>

    /** The stored snapshot mirrors the in-memory one. */
    ghost predicate Persisted()
      reads this
    {
      stored == Some(state)
    }

    /**
     * Reads the slot (a parse failure counts as nothing stored), merges it over
     * `initialData` over the defaults, and writes the result back right away:
     * subscribing the persistence callback runs it once with the initial value.
     */
    constructor (storageKey: string, existing: FormTransitions.StoredEntry, initialData: Option<RecipeFormData>)
      ensures this.storageKey == storageKey
      ensures state == FormTransitions.InitialState(existing, initialData)
      ensures Persisted()
    {
      this.storageKey := storageKey;
      state := FormTransitions.InitialState(existing, initialData);
      stored := Some(FormTransitions.InitialState(existing, initialData));
    }

    /** The persistence subscriber: every new value is written under the key. */
    method Publish(next: RecipeFormData)
      modifies this
      ensures state == next && Persisted()
    {
      state := next;
      stored := Some(next);
    }

    /** The store's raw `set`. */
    method Set(value: RecipeFormData)
      modifies this
      ensures state == value && Persisted()
    {
      Publish(value);
    }

    /** The store's raw `update`. */
    method Update(f: RecipeFormData -> RecipeFormData)
      modifies this
      ensures state == f(old(state)) && Persisted()
    {
      Publish(f(state));
    }

    method AddTag(tag: Tag)
      modifies this
      ensures state == FormTransitions.AddTag(old(state), tag) && Persisted()
    {
      Publish(FormTransitions.AddTag(state, tag));
    }

    method RemoveTag(index: int)
      modifies this
      ensures state == FormTransitions.RemoveTag(old(state), index) && Persisted()
    {
      Publish(FormTransitions.RemoveTag(state, index));
    }

    method ChangeServing(serving: int)
      modifies this
      ensures state == FormTransitions.ChangeServing(old(state), serving) && Persisted()
    {
      Publish(FormTransitions.ChangeServing(state, serving));
    }

    method RemoveServing(serving: int)
      modifies this
      ensures state == FormTransitions.RemoveServing(old(state), serving) && Persisted()
    {
      Publish(FormTransitions.RemoveServing(state, serving));
    }

    method AddIngredient(currentServing: int, allServings: seq<int>)
      modifies this
      ensures state == FormTransitions.AddIngredient(old(state), currentServing, allServings) && Persisted()
    {
      var ingredients := FormTransitions.AppendBlankSlots(state.ingredients, currentServing, allServings);
      Publish(state.(ingredients := ingredients));
    }

    method RemoveIngredient(index: int, currentServing: int, allServings: seq<int>)
      modifies this
      ensures state == FormTransitions.RemoveIngredient(old(state), index, currentServing, allServings) && Persisted()
    {
      if |IngredientsFor(state.ingredients, currentServing)| <= 1 {
        // the guard returns the same snapshot, which is still published
        Publish(state);
      } else {
        var ingredients := FormTransitions.DropSlotEverywhere(state.ingredients, index, allServings);
        Publish(state.(ingredients := ingredients));
      }
    }

    method AddStep()
      modifies this
      ensures state == FormTransitions.AddStep(old(state)) && Persisted()
    {
      Publish(FormTransitions.AddStep(state));
    }

    method RemoveStep(index: int)
      modifies this
      ensures state == FormTransitions.RemoveStep(old(state), index) && Persisted()
    {
      Publish(FormTransitions.RemoveStep(state, index));
    }

    /** Deletes the stored snapshot; the in-memory one is untouched. */
    method ClearStorage()
      modifies this
      ensures state == old(state) && stored == None
    {
      stored := None;
    }

    /** Publishes the defaults, then deletes what that publication stored. */
    method Reset()
      modifies this
      ensures state == FormTransitions.Defaults() && stored == None
    {
      Publish(FormTransitions.Defaults());
      stored := None;
    }
  }

  /** What a new store created under the same key finds in the slot `store` left behind. */
  function EntryOf(slot: Option<RecipeFormData>): FormTransitions.StoredEntry
  {
    if slot.Some? then FormTransitions.Parsed(slot.value) else FormTransitions.Missing
  }

  /**
   * Discards `store` and creates a new one under the same key: the new store
   * starts from whatever the old one left in local storage.
   */
  method Reload(store: RecipeFormStore, initialData: Option<RecipeFormData>) returns (again: RecipeFormStore)
    ensures again.storageKey == store.storageKey && again.Persisted()
    ensures store.Persisted() ==> again.state == store.state
    ensures store.stored == None ==> again.state == FormTransitions.Overlay(FormTransitions.Defaults(), initialData)
  {
    again := new RecipeFormStore(store.storageKey, EntryOf(store.stored), initialData);
  }
}
