/**
 * The record shapes of the recipe editor: tags, ingredients and the
 * in-progress form snapshot (src/lib/types.ts).
 */
module Types {
  import opened Wrappers

  /** A tag document; identity is `id`. The optional fields are absent for global tags. */
  datatype Tag = Tag(
    id: string,
    name: string,
    color: string,
    userId: Option<string>,
    isGlobal: Option<bool>,
    createdAt: Option<string>,
    updatedAt: Option<string>)

  /** One ingredient slot of one serving size. */
  datatype Ingredient = Ingredient(amount: string, name: string)

  /** The editor's snapshot; `ingredients` maps a serving size to that size's ingredient list. */
  datatype RecipeFormData = RecipeFormData(
    title: string,
    description: string,
    image: string,
    prepTime: string,
    cookTime: string,
    tags: seq<Tag>,
    servings: seq<int>,
    currentServing: int,
    ingredients: map<int, seq<Ingredient>>,
    steps: seq<string>)

  /** The slot every "add ingredient" appends: `{ amount: '', name: '' }`. */
  const BlankIngredient := Ingredient("", "")

  /** `ingredients[k] || []`: the list stored under `k`, a missing key read as the empty list. */
  function IngredientsFor(ingredients: map<int, seq<Ingredient>>, k: int): seq<Ingredient>
  {
    if k in ingredients then ingredients[k] else []
  }
}
