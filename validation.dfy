/**
 * The recipe form validators (src/lib/utils/recipe-form-validation.ts). The
 * per-step validators report every violation; the whole-form validator reports
 * only the first failing category. Each validator that loops is a method proved
 * equal to a declarative report function, and the report functions carry the
 * properties.
 */
module Validation {
  import opened Wrappers
  import opened Types

  const TitleRequired := "Recipe title is required"
  const NameRequired := "Name is required"
  const AmountRequired := "Amount is required"
  const NoIngredients := "Please add at least one ingredient"
  const StepRequired := "Step description is required"
  const NoSteps := "Please add at least one instruction step"
  const EnterTitle := "Please enter a recipe title"
  const FillIngredientNames := "Please fill in all ingredient names"
  const FillSteps := "Please fill in all steps"

  /** A character `String.prototype.trim` removes: an ECMAScript white space or line terminator. */
  predicate IsWhitespace(c: char)
  {
    || c == '\t' || c == '\n' || c == '\U{000B}' || c == '\U{000C}' || c == '\r' || c == ' '
    || c == '\U{00A0}' || c == '\U{1680}' || ('\U{2000}' <= c <= '\U{200A}')
    || c == '\U{2028}' || c == '\U{2029}' || c == '\U{202F}' || c == '\U{205F}'
    || c == '\U{3000}' || c == '\U{FEFF}'
  }

  /** `!s.trim()`: trimming leaves the empty string. */
  predicate IsBlank(s: string)
  {
    forall k :: 0 <= k < |s| ==> IsWhitespace(s[k])
  }

  /** The per-ingredient error record: `{ name?, amount? }`. */
  datatype FieldErrors = FieldErrors(name: Option<string>, amount: Option<string>)

  /** `ValidationErrors`: every field optional; the index maps are keyed by list position. */
  datatype ValidationErrors = ValidationErrors(
    title: Option<string>,
    ingredients: Option<map<nat, FieldErrors>>,
    steps: Option<map<nat, string>>,
    general: Option<string>)

  /** The object literal `{}`. */
  const NoErrors := ValidationErrors(None, None, None, None)

  /** A record with only `general` set. */
  function General(message: string): ValidationErrors
  {
    NoErrors.(general := Some(message))
  }

  /** JavaScript truthiness of an optional string: present and non-empty. */
  predicate Truthy(s: Option<string>)
  {
    s.Some? && s.value != ""
  }

  /** Title required. */
  function ValidateBasicInfo(title: string): (errors: ValidationErrors)
    ensures errors.title == Some(TitleRequired) <==> IsBlank(title)
    ensures errors.(title := None) == NoErrors
    ensures !IsBlank(title) ==> errors == NoErrors
  {
    if IsBlank(title) then NoErrors.(title := Some(TitleRequired)) else NoErrors
  }

  /** True iff any message is non-empty or either index map has a key; evaluated in the source's order. */
  function HasErrors(errors: ValidationErrors): (b: bool)
    ensures b <==>
      || Truthy(errors.general)
      || Truthy(errors.title)
      || (errors.ingredients.Some? && errors.ingredients.value != map[])
      || (errors.steps.Some? && errors.steps.value != map[])
  {
    if Truthy(errors.general) then true
    else if Truthy(errors.title) then true
    else if errors.ingredients.Some? && |errors.ingredients.value.Keys| > 0 then true
    else if errors.steps.Some? && |errors.steps.value.Keys| > 0 then true
    else false
  }

  // ---------------------------------------------------------------------------
  // validateIngredients

  predicate SlotIncomplete(ingredient: Ingredient)
  {
    IsBlank(ingredient.name) || IsBlank(ingredient.amount)
  }

  function SlotErrors(ingredient: Ingredient): FieldErrors
  {
    FieldErrors(
      if IsBlank(ingredient.name) then Some(NameRequired) else None,
      if IsBlank(ingredient.amount) then Some(AmountRequired) else None)
  }

  /** The report validateIngredients builds, stated as a whole rather than position by position. */
  function IngredientsReport(ingredients: seq<Ingredient>): ValidationErrors
  {
    if ingredients == [] then
      NoErrors.(ingredients := Some(map[]), general := Some(NoIngredients))
    else
      var flagged := map i: nat | i < |ingredients| && SlotIncomplete(ingredients[i]) :: SlotErrors(ingredients[i]);
      NoErrors.(ingredients := if flagged == map[] then None else Some(flagged))
  }

  /** The ingredient index map of a report, absent read as empty. */
  function FlaggedIngredients(errors: ValidationErrors): map<nat, FieldErrors>
  {
    if errors.ingredients.Some? then errors.ingredients.value else map[]
  }

  /** `servingSize` is accepted and never read. */
  method ValidateIngredients(ingredients: seq<Ingredient>, servingSize: int) returns (errors: ValidationErrors)
    ensures errors == IngredientsReport(ingredients)
  {
    var flagged: map<nat, FieldErrors> := map[];
    if |ingredients| == 0 {
      return NoErrors.(ingredients := Some(flagged), general := Some(NoIngredients));
    }
    for i := 0 to |ingredients|
      invariant forall j: nat :: j in flagged <==> j < i && SlotIncomplete(ingredients[j])
      invariant forall j: nat :: j in flagged ==> flagged[j] == SlotErrors(ingredients[j])
    {
      var slot := SlotErrors(ingredients[i]);
      if slot.name.Some? || slot.amount.Some? {
        flagged := flagged[i := slot];
      }
    }
    ghost var expected := map i: nat | i < |ingredients| && SlotIncomplete(ingredients[i]) :: SlotErrors(ingredients[i]);
    assert flagged.Keys == expected.Keys;
    assert flagged == expected;
    if |flagged.Keys| == 0 {
      assert flagged == map[];
      errors := NoErrors;
    } else {
      assert flagged != map[];
      errors := NoErrors.(ingredients := Some(flagged));
    }
  }

  /** A non-empty list: position `i` is flagged iff its name or amount is blank, with exactly the blank fields. */
  lemma IngredientsReportFlags(ingredients: seq<Ingredient>)
    requires ingredients != []
    ensures var errors := IngredientsReport(ingredients);
      && errors.title.None? && errors.steps.None? && errors.general.None?
      && (errors.ingredients.Some? ==> errors.ingredients.value != map[])
      && (forall i: nat :: i in FlaggedIngredients(errors) <==> i < |ingredients| && SlotIncomplete(ingredients[i]))
      && (forall i: nat :: i in FlaggedIngredients(errors) ==>
            && (FlaggedIngredients(errors)[i].name == Some(NameRequired) <==> IsBlank(ingredients[i].name))
            && (FlaggedIngredients(errors)[i].amount == Some(AmountRequired) <==> IsBlank(ingredients[i].amount)))
  {
  }

  /** An empty list reports the general message and still carries the empty index map. */
  lemma EmptyIngredientsReport()
    ensures IngredientsReport([]) == NoErrors.(ingredients := Some(map[]), general := Some(NoIngredients))
    ensures HasErrors(IngredientsReport([]))
  {
  }

  lemma {:induction false} IngredientsHaveErrorsIff(ingredients: seq<Ingredient>)
    requires ingredients != []
    ensures HasErrors(IngredientsReport(ingredients)) <==>
      exists i :: 0 <= i < |ingredients| && SlotIncomplete(ingredients[i])
  {
    if i :| 0 <= i < |ingredients| && SlotIncomplete(ingredients[i]) {
      assert (i as nat) in FlaggedIngredients(IngredientsReport(ingredients));
    }
  }

  // ---------------------------------------------------------------------------
  // validateInstructions

  function InstructionsReport(steps: seq<string>): ValidationErrors
  {
    if steps == [] then
      NoErrors.(steps := Some(map[]), general := Some(NoSteps))
    else
      var flagged := map i: nat | i < |steps| && IsBlank(steps[i]) :: StepRequired;
      NoErrors.(steps := if flagged == map[] then None else Some(flagged))
  }

  function FlaggedSteps(errors: ValidationErrors): map<nat, string>
  {
    if errors.steps.Some? then errors.steps.value else map[]
  }

  method ValidateInstructions(steps: seq<string>) returns (errors: ValidationErrors)
    ensures errors == InstructionsReport(steps)
  {
    var flagged: map<nat, string> := map[];
    if |steps| == 0 {
      return NoErrors.(steps := Some(flagged), general := Some(NoSteps));
    }
    for i := 0 to |steps|
      invariant forall j: nat :: j in flagged <==> j < i && IsBlank(steps[j])
      invariant forall j: nat :: j in flagged ==> flagged[j] == StepRequired
    {
      if IsBlank(steps[i]) {
        flagged := flagged[i := StepRequired];
      }
    }
    ghost var expected := map i: nat | i < |steps| && IsBlank(steps[i]) :: StepRequired;
    assert flagged.Keys == expected.Keys;
    assert flagged == expected;
    if |flagged.Keys| == 0 {
      assert flagged == map[];
      errors := NoErrors;
    } else {
      assert flagged != map[];
      errors := NoErrors.(steps := Some(flagged));
    }
  }

  lemma InstructionsReportFlags(steps: seq<string>)
    requires steps != []
    ensures var errors := InstructionsReport(steps);
      && errors.title.None? && errors.ingredients.None? && errors.general.None?
      && (errors.steps.Some? ==> errors.steps.value != map[])
      && (forall i: nat :: i in FlaggedSteps(errors) <==> i < |steps| && IsBlank(steps[i]))
      && (forall i: nat :: i in FlaggedSteps(errors) ==> FlaggedSteps(errors)[i] == StepRequired)
  {
  }

  lemma EmptyInstructionsReport()
    ensures InstructionsReport([]) == NoErrors.(steps := Some(map[]), general := Some(NoSteps))
    ensures HasErrors(InstructionsReport([]))
  {
  }

  lemma {:induction false} InstructionsHaveErrorsIff(steps: seq<string>)
    requires steps != []
    ensures HasErrors(InstructionsReport(steps)) <==> exists i :: 0 <= i < |steps| && IsBlank(steps[i])
  {
    if i :| 0 <= i < |steps| && IsBlank(steps[i]) {
      assert (i as nat) in FlaggedSteps(InstructionsReport(steps));
    }
  }

  // ---------------------------------------------------------------------------
  // validateCompleteForm

  predicate SomeBlankName(ingredients: seq<Ingredient>)
  {
    exists k :: 0 <= k < |ingredients| && IsBlank(ingredients[k].name)
  }

  predicate SomeBlankStep(steps: seq<string>)
  {
    exists k :: 0 <= k < |steps| && IsBlank(steps[k])
  }

  /** Some listed serving (a missing list read as empty) has an ingredient with a blank name. */
  predicate SomeServingMissesAName(servings: seq<int>, ingredients: map<int, seq<Ingredient>>)
  {
    exists j :: 0 <= j < |servings| && SomeBlankName(IngredientsFor(ingredients, servings[j]))
  }

  /** The first failing category, in the order title, ingredient names, steps. */
  function CompleteFormReport(title: string, servings: seq<int>, ingredients: map<int, seq<Ingredient>>, steps: seq<string>): ValidationErrors
  {
    if IsBlank(title) then General(EnterTitle)
    else if SomeServingMissesAName(servings, ingredients) then General(FillIngredientNames)
    else if SomeBlankStep(steps) then General(FillSteps)
    else NoErrors
  }

  /** `ingredients.some((ing) => !ing.name.trim())`. */
  method AnyBlankName(ingredients: seq<Ingredient>) returns (found: bool)
    ensures found <==> SomeBlankName(ingredients)
  {
    for k := 0 to |ingredients|
      invariant forall k' :: 0 <= k' < k ==> !IsBlank(ingredients[k'].name)
    {
      if IsBlank(ingredients[k].name) {
        return true;
      }
    }
    return false;
  }

  /** `steps.some((step) => !step.trim())`. */
  method AnyBlankStep(steps: seq<string>) returns (found: bool)
    ensures found <==> SomeBlankStep(steps)
  {
    for k := 0 to |steps|
      invariant forall k' :: 0 <= k' < k ==> !IsBlank(steps[k'])
    {
      if IsBlank(steps[k]) {
        return true;
      }
    }
    return false;
  }

  method ValidateCompleteForm(title: string, servings: seq<int>, ingredients: map<int, seq<Ingredient>>, steps: seq<string>)
    returns (errors: ValidationErrors)
    ensures errors == CompleteFormReport(title, servings, ingredients, steps)
  {
    if IsBlank(title) {
      return General(EnterTitle);
    }
    for j := 0 to |servings|
      invariant forall j' :: 0 <= j' < j ==> !SomeBlankName(IngredientsFor(ingredients, servings[j']))
    {
      var blank := AnyBlankName(IngredientsFor(ingredients, servings[j]));
      if blank {
        return General(FillIngredientNames);
      }
    }
    var blankStep := AnyBlankStep(steps);
    if blankStep {
      return General(FillSteps);
    }
    return NoErrors;
  }

  /** The whole-form check sets at most `general`, and has errors exactly when it sets it. */
  lemma CompleteFormOnlyGeneral(title: string, servings: seq<int>, ingredients: map<int, seq<Ingredient>>, steps: seq<string>)
    ensures var errors := CompleteFormReport(title, servings, ingredients, steps);
      && errors.(general := None) == NoErrors
      && (HasErrors(errors) <==> errors.general.Some?)
      && (errors.general.Some? <==>
            IsBlank(title) || SomeServingMissesAName(servings, ingredients) || SomeBlankStep(steps))
  {
  }

  /**
   * Not rejected: blank amounts, a listed serving without a list, an empty list
   * and an empty step list all pass once the title and every name are filled.
   */
  lemma CompleteFormAcceptsSparseForm(title: string, amount: string)
    requires !IsBlank(title)
    ensures CompleteFormReport(title, [2, 4, 6], map[2 := [Ingredient(amount, "salt")], 4 := []], []) == NoErrors
  {
    assert !IsBlank("salt") by { assert !IsWhitespace("salt"[0]); }
    forall j | 0 <= j < 3
      ensures !SomeBlankName(IngredientsFor(map[2 := [Ingredient(amount, "salt")], 4 := []], [2, 4, 6][j]))
    {
    }
  }

  /** A blank title (empty or whitespace only) wins over whatever else the form holds. */
  lemma BlankTitleReportedFirst(title: string, servings: seq<int>, ingredients: map<int, seq<Ingredient>>, steps: seq<string>)
    requires IsBlank(title)
    ensures CompleteFormReport(title, servings, ingredients, steps) == General(EnterTitle)
  {
  }
}
