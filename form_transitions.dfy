/**
 * The recipe editor's snapshot transitions (src/lib/stores/recipe-form.store.ts),
 * each a pure function from the old snapshot to the new one, and the structural
 * invariant the editor relies on: every serving size has an ingredient list and
 * all of those lists have the same length.
 */
module FormTransitions {
  import opened Wrappers
  import opened Types
  import opened Seqs

  /** The built-in starting snapshot: one serving size of 4, one blank ingredient, one blank step. */
  function Defaults(): RecipeFormData
  {
    RecipeFormData("", "", "", "", "", [], [4], 4, map[4 := [BlankIngredient]], [""])
  }

  /** What local storage held under the key when the store was created. */
  datatype StoredEntry =
    | Missing                          // no item, or an empty string
    | Unparseable                      // JSON.parse threw
    | Parsed(snapshot: RecipeFormData)

  /** Object spread `{ ...base, ...over }` where `over` is either absent or a whole snapshot. */
  function Overlay(base: RecipeFormData, over: Option<RecipeFormData>): RecipeFormData
  {
    if over.Some? then over.value else base
  }

  function PersistedData(entry: StoredEntry): Option<RecipeFormData>
  {
    if entry.Parsed? then Some(entry.snapshot) else None
  }

  /** The merge `{ ...defaultState, ...initialData, ...persistedData }`. */
  function InitialState(entry: StoredEntry, initialData: Option<RecipeFormData>): (s: RecipeFormData)
    ensures entry.Parsed? ==> s == entry.snapshot
    ensures !entry.Parsed? && initialData.Some? ==> s == initialData.value
    ensures !entry.Parsed? && initialData.None? ==> s == Defaults()
  {
    Overlay(Overlay(Defaults(), initialData), PersistedData(entry))
  }

  function AddTag(s: RecipeFormData, tag: Tag): (r: RecipeFormData)
    ensures |r.tags| == |s.tags| + 1 && r.tags[..|s.tags|] == s.tags && r.tags[|s.tags|] == tag
    ensures r.(tags := s.tags) == s
  {
    s.(tags := s.tags + [tag])
  }

  function RemoveTag(s: RecipeFormData, index: int): (r: RecipeFormData)
    ensures 0 <= index < |s.tags| ==> r.tags == s.tags[..index] + s.tags[index + 1..]
    ensures !(0 <= index < |s.tags|) ==> r == s
    ensures r.(tags := s.tags) == s
  {
    s.(tags := RemoveAt(s.tags, index))
  }

  /** Sets the current serving size; membership in `servings` is not checked. */
  function ChangeServing(s: RecipeFormData, serving: int): (r: RecipeFormData)
    ensures r.currentServing == serving && r.(currentServing := s.currentServing) == s
  {
    s.(currentServing := serving)
  }

  function RemoveServing(s: RecipeFormData, serving: int): (r: RecipeFormData)
    ensures (forall x :: x in s.servings ==> x == serving) ==> r == s
    ensures (exists x :: x in s.servings && x != serving) ==>
      && r.servings == Without(s.servings, serving)
      && multiset(r.servings) == multiset(s.servings)[serving := 0]
      && r.ingredients == s.ingredients - {serving}
      && r.servings != []
      && r.currentServing == (if s.currentServing == serving then r.servings[0] else s.currentServing)
      && r.(servings := s.servings, currentServing := s.currentServing, ingredients := s.ingredients) == s
    ensures s.servings != [] ==> r.servings != []
  {
    var newServings := Without(s.servings, serving);
    if newServings == [] then s
    else
      assert newServings[0] in newServings;
      s.(servings := newServings,
         currentServing := if s.currentServing == serving then newServings[0] else s.currentServing,
         ingredients := s.ingredients - {serving})
  }

  /** `n` blank ingredient slots. */
  function Blanks(n: nat): seq<Ingredient>
  {
    if n == 0 then [] else Blanks(n - 1) + [BlankIngredient]
  }

  /** How many slots `addIngredient(current, all)` appends to serving `k`. */
  function AppendCount(k: int, current: int, all: seq<int>): nat
  {
    if k == current then 1 else multiset(all)[k]
  }

  function Servings(all: seq<int>): set<int>
  {
    set x | x in all
  }

  /**
   * The ingredient map after `addIngredient(current, all)`: the current serving gets
   * one blank slot, then every entry of `all` other than `current` gets one more
   * (a missing list starts out empty), and every other key is left alone.
   */
  function SlotsAppended(ingredients: map<int, seq<Ingredient>>, current: int, all: seq<int>): map<int, seq<Ingredient>>
  {
    map k | k in ingredients.Keys + {current} + Servings(all) ::
      IngredientsFor(ingredients, k) + Blanks(AppendCount(k, current, all))
  }

  function AddIngredient(s: RecipeFormData, current: int, all: seq<int>): (r: RecipeFormData)
    ensures r.(ingredients := s.ingredients) == s
  {
    s.(ingredients := SlotsAppended(s.ingredients, current, all))
  }

  /** `r` is the ingredient map once the slots for `current` and for the entries of `done` are appended. */
  ghost predicate AppendedFor(ingredients: map<int, seq<Ingredient>>, current: int, done: seq<int>, r: map<int, seq<Ingredient>>)
  {
    && r.Keys == ingredients.Keys + {current} + Servings(done)
    && forall k :: k in r ==> r[k] == IngredientsFor(ingredients, k) + Blanks(AppendCount(k, current, done))
  }

  lemma AppendedForStep(ingredients: map<int, seq<Ingredient>>, current: int, done: seq<int>, serving: int,
                        before: map<int, seq<Ingredient>>, after: map<int, seq<Ingredient>>)
    requires AppendedFor(ingredients, current, done, before)
    requires serving == current ==> after == before
    requires serving != current ==> after == before[serving := IngredientsFor(before, serving) + [BlankIngredient]]
    ensures AppendedFor(ingredients, current, done + [serving], after)
  {
    assert Servings(done + [serving]) == Servings(done) + {serving};
    assert multiset(done + [serving]) == multiset(done) + multiset{serving};
    forall k | k in after
      ensures after[k] == IngredientsFor(ingredients, k) + Blanks(AppendCount(k, current, done + [serving]))
    {
      if k == serving && k != current {
        AppendedForServing(ingredients, current, done, serving, before);
      } else {
        assert after[k] == before[k];
        assert AppendCount(k, current, done + [serving]) == AppendCount(k, current, done);
      }
    }
  }

  /** Before the loop: the current serving has its one slot. */
  lemma AppendedForStart(ingredients: map<int, seq<Ingredient>>, current: int, r: map<int, seq<Ingredient>>)
    requires r == ingredients[current := IngredientsFor(ingredients, current) + [BlankIngredient]]
    ensures AppendedFor(ingredients, current, [], r)
  {
    assert Servings([]) == {};
    assert Blanks(1) == [BlankIngredient];
  }

  /** The entry being visited gains one slot on top of those it already had. */
  lemma AppendedForServing(ingredients: map<int, seq<Ingredient>>, current: int, done: seq<int>, serving: int,
                           before: map<int, seq<Ingredient>>)
    requires AppendedFor(ingredients, current, done, before)
    requires serving != current
    ensures IngredientsFor(before, serving) + [BlankIngredient]
         == IngredientsFor(ingredients, serving) + Blanks(AppendCount(serving, current, done + [serving]))
  {
    var c := multiset(done)[serving];
    assert multiset(done + [serving])[serving] == c + 1;
    if serving !in before {
      assert serving !in done;
      assert c == 0;
    }
    assert IngredientsFor(before, serving) == IngredientsFor(ingredients, serving) + Blanks(c);
    assert Blanks(c + 1) == Blanks(c) + [BlankIngredient];
  }

  lemma AppendedForAll(ingredients: map<int, seq<Ingredient>>, current: int, all: seq<int>, r: map<int, seq<Ingredient>>)
    requires AppendedFor(ingredients, current, all, r)
    ensures r == SlotsAppended(ingredients, current, all)
  {
    var appended := SlotsAppended(ingredients, current, all);
    assert appended.Keys == r.Keys;
    forall k | k in r
      ensures r[k] == appended[k]
    {
    }
  }

  /** The `forEach` over `allServings` in addIngredient, on a copy of the ingredient map. */
  method AppendBlankSlots(ingredients: map<int, seq<Ingredient>>, current: int, all: seq<int>)
    returns (r: map<int, seq<Ingredient>>)
    ensures r == SlotsAppended(ingredients, current, all)
  {
    r := ingredients;
    if current !in r {
      r := r[current := []];
    }
    r := r[current := r[current] + [BlankIngredient]];
    AppendedForStart(ingredients, current, r);
    for j := 0 to |all|
      invariant AppendedFor(ingredients, current, all[..j], r)
    {
      var serving := all[j];
      ghost var before := r;
      if serving != current {
        if serving !in r {
          r := r[serving := []];
        }
        r := r[serving := r[serving] + [BlankIngredient]];
      }
      AppendedForStep(ingredients, current, all[..j], serving, before, r);
      assert all[..j + 1] == all[..j] + [serving];
    }
    assert all[..|all|] == all;
    AppendedForAll(ingredients, current, all, r);
  }

  /** `n` successive `filter((_, k) => k !== index)` passes over one list. */
  function DropTimes(xs: seq<Ingredient>, index: int, n: nat): seq<Ingredient>
  {
    if n == 0 then xs else RemoveAt(DropTimes(xs, index, n - 1), index)
  }

  /**
   * The ingredient map after the `forEach` of removeIngredient: every list whose
   * serving occurs in `all` loses position `index` once per occurrence; keys are
   * never added or removed.
   */
  function SlotsDropped(ingredients: map<int, seq<Ingredient>>, index: int, all: seq<int>): map<int, seq<Ingredient>>
  {
    map k | k in ingredients :: DropTimes(ingredients[k], index, multiset(all)[k])
  }

  /** Removes slot `index` across servings unless the current serving's list has at most one slot. */
  function RemoveIngredient(s: RecipeFormData, index: int, current: int, all: seq<int>): (r: RecipeFormData)
    ensures |IngredientsFor(s.ingredients, current)| <= 1 ==> r == s
    ensures r.(ingredients := s.ingredients) == s
  {
    if |IngredientsFor(s.ingredients, current)| <= 1 then s
    else s.(ingredients := SlotsDropped(s.ingredients, index, all))
  }

  /** `r` is the ingredient map once the entries of `done` have had position `index` removed. */
  ghost predicate DroppedFor(ingredients: map<int, seq<Ingredient>>, index: int, done: seq<int>, r: map<int, seq<Ingredient>>)
  {
    && r.Keys == ingredients.Keys
    && forall k :: k in r ==> r[k] == DropTimes(ingredients[k], index, multiset(done)[k])
  }

  lemma DroppedForStep(ingredients: map<int, seq<Ingredient>>, index: int, done: seq<int>, serving: int,
                       before: map<int, seq<Ingredient>>, after: map<int, seq<Ingredient>>)
    requires DroppedFor(ingredients, index, done, before)
    requires serving !in before ==> after == before
    requires serving in before ==> after == before[serving := RemoveAt(before[serving], index)]
    ensures DroppedFor(ingredients, index, done + [serving], after)
  {
    forall k | k in after
      ensures after[k] == DropTimes(ingredients[k], index, multiset(done + [serving])[k])
    {
      if k == serving {
        assert multiset(done + [serving])[k] == multiset(done)[k] + 1;
      } else {
        assert multiset(done + [serving])[k] == multiset(done)[k];
      }
    }
  }

  lemma DroppedForAll(ingredients: map<int, seq<Ingredient>>, index: int, all: seq<int>, r: map<int, seq<Ingredient>>)
    requires DroppedFor(ingredients, index, all, r)
    ensures r == SlotsDropped(ingredients, index, all)
  {
    var dropped := SlotsDropped(ingredients, index, all);
    assert dropped.Keys == r.Keys;
    forall k | k in r
      ensures r[k] == dropped[k]
    {
    }
  }

  /** The `forEach` over `allServings` in removeIngredient, on a copy of the ingredient map. */
  method DropSlotEverywhere(ingredients: map<int, seq<Ingredient>>, index: int, all: seq<int>)
    returns (r: map<int, seq<Ingredient>>)
    ensures r == SlotsDropped(ingredients, index, all)
  {
    r := ingredients;
    for j := 0 to |all|
      invariant DroppedFor(ingredients, index, all[..j], r)
    {
      var serving := all[j];
      ghost var before := r;
      if serving in r {
        r := r[serving := RemoveAt(r[serving], index)];
      }
      DroppedForStep(ingredients, index, all[..j], serving, before, r);
      assert all[..j + 1] == all[..j] + [serving];
    }
    assert all[..|all|] == all;
    DroppedForAll(ingredients, index, all, r);
  }

  function AddStep(s: RecipeFormData): (r: RecipeFormData)
    ensures |r.steps| == |s.steps| + 1 && r.steps[..|s.steps|] == s.steps && r.steps[|s.steps|] == ""
    ensures r.(steps := s.steps) == s
  {
    s.(steps := s.steps + [""])
  }

  function RemoveStep(s: RecipeFormData, index: int): (r: RecipeFormData)
    ensures |s.steps| <= 1 || !(0 <= index < |s.steps|) ==> r == s
    ensures |s.steps| > 1 && 0 <= index < |s.steps| ==> r.steps == s.steps[..index] + s.steps[index + 1..]
    ensures r.(steps := s.steps) == s
  {
    if |s.steps| <= 1 then s else s.(steps := RemoveAt(s.steps, index))
  }

  // ---------------------------------------------------------------------------
  // The structural invariant of the editor's snapshot

  /** Every serving size's ingredient list (a missing one read as empty) has the same length. */
  ghost predicate Aligned(s: RecipeFormData)
  {
    forall a, b :: a in s.servings && b in s.servings ==>
      |IngredientsFor(s.ingredients, a)| == |IngredientsFor(s.ingredients, b)|
  }

  /**
   * The snapshot shape the editor works with: at least one serving size, none twice,
   * the current one among them, a non-empty list for each, all lists aligned, and at
   * least one step.
   */
  ghost predicate WellFormed(s: RecipeFormData)
  {
    && s.servings != []
    && Distinct(s.servings)
    && s.currentServing in s.servings
    && (forall k :: k in s.servings ==> k in s.ingredients && s.ingredients[k] != [])
    && Aligned(s)
    && s.steps != []
  }

  lemma DefaultsWellFormed()
    ensures WellFormed(Defaults())
  {
  }

  /** With no repeated entry in `all`, each serving in `{current} + all` gains exactly one blank slot at the end. */
  lemma {:induction false} AddIngredientOnDistinctServings(s: RecipeFormData, current: int, all: seq<int>)
    requires Distinct(all)
    ensures var r := AddIngredient(s, current, all);
      && r.ingredients.Keys == s.ingredients.Keys + {current} + Servings(all)
      && (forall k :: k == current || k in all ==>
            r.ingredients[k] == IngredientsFor(s.ingredients, k) + [BlankIngredient])
      && (forall k :: k in s.ingredients && k != current && k !in all ==>
            r.ingredients[k] == s.ingredients[k])
  {
    forall k | k == current || k in all
      ensures AppendCount(k, current, all) == 1
    {
      if k != current {
        DistinctOccursOnce(all, k);
      }
    }
    assert Blanks(1) == [BlankIngredient];
  }

  /** With no repeated entry in `all` and a current list of two or more, each listed serving loses position `index`. */
  lemma {:induction false} RemoveIngredientOnDistinctServings(s: RecipeFormData, index: int, current: int, all: seq<int>)
    requires Distinct(all)
    requires |IngredientsFor(s.ingredients, current)| > 1
    ensures var r := RemoveIngredient(s, index, current, all);
      && r.ingredients.Keys == s.ingredients.Keys
      && (forall k :: k in s.ingredients && k in all ==>
            r.ingredients[k] == RemoveAt(s.ingredients[k], index))
      && (forall k :: k in s.ingredients && k !in all ==>
            r.ingredients[k] == s.ingredients[k])
  {
    forall k | k in s.ingredients && k in all
      ensures DropTimes(s.ingredients[k], index, multiset(all)[k]) == RemoveAt(s.ingredients[k], index)
    {
      DistinctOccursOnce(all, k);
    }
  }

  lemma AddIngredientKeepsAligned(s: RecipeFormData, current: int)
    requires Aligned(s) && Distinct(s.servings)
    ensures Aligned(AddIngredient(s, current, s.servings))
  {
    AddIngredientOnDistinctServings(s, current, s.servings);
  }

  lemma RemoveIngredientKeepsAligned(s: RecipeFormData, index: int, current: int)
    requires Aligned(s) && Distinct(s.servings)
    ensures Aligned(RemoveIngredient(s, index, current, s.servings))
  {
    var r := RemoveIngredient(s, index, current, s.servings);
    if |IngredientsFor(s.ingredients, current)| > 1 {
      RemoveIngredientOnDistinctServings(s, index, current, s.servings);
      forall a | a in s.servings
        ensures var n := |IngredientsFor(s.ingredients, a)|;
          |IngredientsFor(r.ingredients, a)| == if 0 <= index < n then n - 1 else n
      {
      }
    }
  }

  lemma TagAndStepEditsKeepWellFormed(s: RecipeFormData, tag: Tag, index: int)
    requires WellFormed(s)
    ensures WellFormed(AddTag(s, tag)) && WellFormed(RemoveTag(s, index))
    ensures WellFormed(AddStep(s)) && WellFormed(RemoveStep(s, index))
  {
  }

  lemma ChangeServingKeepsWellFormed(s: RecipeFormData, serving: int)
    requires WellFormed(s) && serving in s.servings
    ensures WellFormed(ChangeServing(s, serving))
  {
  }

  /** changeServing does not check its argument: a size outside `servings` breaks the shape. */
  lemma ChangeServingUnchecked(s: RecipeFormData, serving: int)
    requires serving !in s.servings
    ensures !WellFormed(ChangeServing(s, serving))
  {
  }

  lemma RemoveServingKeepsWellFormed(s: RecipeFormData, serving: int)
    requires WellFormed(s)
    ensures WellFormed(RemoveServing(s, serving))
  {
    var r := RemoveServing(s, serving);
    if exists x :: x in s.servings && x != serving {
      forall x ensures multiset(r.servings)[x] <= 1 {
        assert multiset(r.servings)[x] <= multiset(s.servings)[x];
      }
      assert r.servings[0] in r.servings;
      forall a | a in r.servings
        ensures IngredientsFor(r.ingredients, a) == IngredientsFor(s.ingredients, a)
      {
      }
    }
  }

  lemma AddIngredientKeepsWellFormed(s: RecipeFormData, current: int)
    requires WellFormed(s)
    ensures WellFormed(AddIngredient(s, current, s.servings))
  {
    AddIngredientOnDistinctServings(s, current, s.servings);
    AddIngredientKeepsAligned(s, current);
  }

  /** With the current size and the full serving list, no list drops below one slot. */
  lemma RemoveIngredientKeepsWellFormed(s: RecipeFormData, index: int)
    requires WellFormed(s)
    ensures WellFormed(RemoveIngredient(s, index, s.currentServing, s.servings))
  {
    var current := s.currentServing;
    RemoveIngredientKeepsAligned(s, index, current);
    if |IngredientsFor(s.ingredients, current)| > 1 {
      RemoveIngredientOnDistinctServings(s, index, current, s.servings);
    }
  }

  /** `addIngredient(4, [2, 4])` on two one-slot lists. */
  lemma AddIngredientExample(s: RecipeFormData, a: string, n: string, a2: string, n2: string)
    requires s.ingredients == map[2 := [Ingredient(a, n)], 4 := [Ingredient(a2, n2)]]
    ensures AddIngredient(s, 4, [2, 4]).ingredients
         == map[2 := [Ingredient(a, n), BlankIngredient], 4 := [Ingredient(a2, n2), BlankIngredient]]
  {
    assert Distinct([2, 4]) by {
      assert multiset([2, 4]) == multiset{2, 4};
    }
    AddIngredientOnDistinctServings(s, 4, [2, 4]);
    assert Servings([2, 4]) == {2, 4};
    assert 2 in [2, 4];
    var r := AddIngredient(s, 4, [2, 4]).ingredients;
    TwoKeys(r, [Ingredient(a, n), BlankIngredient], [Ingredient(a2, n2), BlankIngredient]);
  }

  lemma TwoKeys(r: map<int, seq<Ingredient>>, two: seq<Ingredient>, four: seq<Ingredient>)
    requires r.Keys == {2, 4} && r[2] == two && r[4] == four
    ensures r == map[2 := two, 4 := four]
  {
  }

  /** Removing the current size 4 from `[4, 2, 6]` keeps `[2, 6]` in order, so 2 becomes current. */
  lemma RemoveServingExample(s: RecipeFormData)
    requires s.servings == [4, 2, 6] && s.currentServing == 4
    ensures RemoveServing(s, 4).servings == [2, 6] && RemoveServing(s, 4).currentServing == 2
  {
    assert 2 in s.servings && 2 != 4;
    FilteredExample();
  }

  /** The filter on the example list, one element at a time. */
  lemma FilteredExample()
    ensures Without([4, 2, 6], 4) == [2, 6]
  {
    assert [4, 2, 6][1..] == [2, 6];
    assert [2, 6][1..] == [6];
    assert [6][1..] == [];
  }
}
