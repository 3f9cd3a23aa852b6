# Recipe editor core of meal-matrix, in Dafny

This project models the in-house logic of the meal-matrix recipe web application:

- **the recipe form store** (`createRecipeFormStore`): the editor's snapshot (title, tags,
  serving sizes, the current serving size, a map from serving size to ingredient list, steps),
  its named transitions, and the local-storage slot it rewrites after every change;
- **the form validators**: per-field validators that report every violation, a whole-form
  validator that reports the first failing category, and `hasErrors`;
- **the server route gate** (`handle`): resolve, redirect to the login page with `returnTo`,
  or redirect home;
- **the client route gate** (`load`): a redirect to the login page for a signed-out user on a
  non-public path.

Modules:

| file | module | what |
|---|---|---|
| wrappers.dfy | `Wrappers` | `Option` |
| types.dfy | `Types` | `Tag`, `Ingredient`, `RecipeFormData`, `IngredientsFor` (`ingredients[k] \|\| []`) |
| seqs.dfy | `Seqs` | the two `filter` shapes (drop a position, drop a value) and `Distinct` |
| form_transitions.dfy | `FormTransitions` | each transition as a snapshot-to-snapshot function, the two `forEach` loops as methods, the shape invariant `WellFormed` and its preservation lemmas |
| form_store.dfy | `FormStore` | class `RecipeFormStore` with fields `state` and `stored` (the local-storage slot) |
| validation.dfy | `Validation` | the validators: report functions, the loop methods proved equal to them, lemmas |
| server_gate.dfy | `ServerGate` | `Handle` |
| client_gate.dfy | `ClientGate` | `Load` |

Each store method publishes `FormTransitions.X(old(state), …)` and leaves `stored == Some(state)`.
`clearStorage` and `reset` are the two exceptions: both leave the slot empty. A Svelte writable
notifies its subscribers on every `update`, even when the updater returns the same object, so
the guarded no-ops (`removeServing` of the last size, `removeIngredient` of the last slot,
`removeStep` of the last step) still rewrite the slot. `FormStore.Reload` creates a new store
from what an old one left in storage. That is the persistence round trip.

`WellFormed` is the snapshot shape the editor relies on:

- at least one serving size, and no size listed twice;
- the current size is one of them;
- every size has a non-empty ingredient list, and all those lists have the same length;
- at least one step.

The lemmas show which transitions keep this shape and on what terms. `changeServing` keeps it
only when its argument is listed. `addIngredient` and `removeIngredient` keep it when they are
given the snapshot's own serving list (and, for removal, its current size).

`addIngredient` and `removeIngredient` are modelled for every argument, including an
`allServings` with repeated entries. A repeated entry gets one append per occurrence, or loses
position `index` once per occurrence. The distinct-list lemmas state the one-slot behaviour.

Places where the code does something a reader might not expect, and which the model follows:

- `addIngredient` appends only to the current size and the sizes in `allServings`, not to every
  key of the map.
- `validateIngredients([])` also carries an empty `ingredients` map (`{ ingredients: {}, general }`).
- A reset followed by a new store gives the defaults only when no `initialData` is passed;
  otherwise it gives `initialData` (`FormStore.Reload`).
- The session endpoint `/api/auth/session` is public in the server gate but not in the client
  gate (`ClientGate.SessionEndpointNotPublic`).

## Model

| member | source | states |
|---|---|---|
| `FormTransitions.InitialState` | src/lib/stores/recipe-form.store.ts:19-50 | the initial snapshot is a parsed stored snapshot if there is one, else `initialData` if given, else the defaults; an unparseable entry counts as nothing stored |
| `FormTransitions.DefaultsWellFormed` | src/lib/stores/recipe-form.store.ts:19-30 | the built-in defaults (one size 4, current 4, one blank ingredient, one blank step) have the editor's shape |
| `FormTransitions.AddTag` | src/lib/stores/recipe-form.store.ts:71-76 | exactly one tag is appended at the end; the old tags stay as a prefix; no other field changes |
| `FormTransitions.RemoveTag` | src/lib/stores/recipe-form.store.ts:79-84 | an in-range index removes exactly that position; an out-of-range index changes nothing; no other field changes |
| `FormTransitions.ChangeServing` | src/lib/stores/recipe-form.store.ts:87-92 | the current size becomes the argument, unchecked; no other field changes |
| `FormTransitions.ChangeServingUnchecked` | src/lib/stores/recipe-form.store.ts:87-92 | a size that is not listed yields a snapshot outside the editor's shape |
| `FormTransitions.ChangeServingKeepsWellFormed` | src/lib/stores/recipe-form.store.ts:87-92 | a listed size keeps the editor's shape |
| `FormTransitions.RemoveServing` | src/lib/stores/recipe-form.store.ts:95-110 | if every listed size equals `n`, nothing changes; otherwise the sizes become `Without(servings, n)` (the others, in their order and with their multiplicities), key `n` leaves the map, the current size moves to the new first size only if it was `n`, and nothing else changes; a non-empty list never becomes empty |
| `FormTransitions.RemoveServingKeepsWellFormed` | src/lib/stores/recipe-form.store.ts:95-110 | removing a size keeps the editor's shape |
| `FormTransitions.AddIngredient` | src/lib/stores/recipe-form.store.ts:113-144 | only the ingredient map changes |
| `FormTransitions.AppendBlankSlots` | src/lib/stores/recipe-form.store.ts:115-137 | the forEach loop yields the map in which the current size gets one blank slot and each other entry of `allServings` one per occurrence, missing lists starting empty, other keys untouched |
| `FormTransitions.AddIngredientOnDistinctServings` | src/lib/stores/recipe-form.store.ts:113-144 | with no repeated size, every size in `{current} + allServings` gains exactly one blank slot at the end, and every other key keeps its list |
| `FormTransitions.AddIngredientKeepsAligned` | src/lib/stores/recipe-form.store.ts:113-144 | with `allServings` the snapshot's distinct sizes, equal list lengths stay equal |
| `FormTransitions.AddIngredientKeepsWellFormed` | src/lib/stores/recipe-form.store.ts:113-144 | with `allServings` the snapshot's sizes, the editor's shape is kept |
| `FormTransitions.RemoveServingExample` | src/lib/stores/recipe-form.store.ts:95-110 | removing the current size 4 from `[4, 2, 6]` leaves `[2, 6]` in that order and makes 2 current |
| `FormTransitions.FilteredExample` | src/lib/stores/recipe-form.store.ts:97 | the filter turns `[4, 2, 6]` into `[2, 6]` when 4 is removed |
| `FormTransitions.AddIngredientExample` | src/lib/stores/recipe-form.store.ts:113-144 | `addIngredient(4, [2, 4])` on two one-slot lists gives both a trailing blank slot |
| `FormTransitions.RemoveIngredient` | src/lib/stores/recipe-form.store.ts:147-166 | when the current size's list (missing read as empty) has at most one slot, nothing changes; in every case only the ingredient map changes |
| `FormTransitions.DropSlotEverywhere` | src/lib/stores/recipe-form.store.ts:152-159 | the forEach loop yields the map in which each list whose size occurs in `allServings` loses position `index` once per occurrence; keys are never added or removed |
| `FormTransitions.RemoveIngredientOnDistinctServings` | src/lib/stores/recipe-form.store.ts:147-166 | past the guard and with no repeated size, each listed size with a list loses exactly position `index` (nothing when out of range); other keys keep their lists |
| `FormTransitions.RemoveIngredientKeepsAligned` | src/lib/stores/recipe-form.store.ts:147-166 | with `allServings` the snapshot's distinct sizes, equal list lengths stay equal for any index |
| `FormTransitions.RemoveIngredientKeepsWellFormed` | src/lib/stores/recipe-form.store.ts:147-166 | with the current size and the full size list, no list drops below one slot and the shape is kept |
| `FormTransitions.AddStep` | src/lib/stores/recipe-form.store.ts:169-174 | exactly one empty step is appended at the end; nothing else changes |
| `FormTransitions.RemoveStep` | src/lib/stores/recipe-form.store.ts:177-185 | with one step or fewer, or an out-of-range index, nothing changes; otherwise exactly that position goes; nothing else changes |
| `FormTransitions.TagAndStepEditsKeepWellFormed` | src/lib/stores/recipe-form.store.ts:71-185 | the tag edits (lines 71-84) and the step edits (lines 169-185) keep the editor's shape, in particular at least one step |
| `Seqs.RemoveAt` | src/lib/stores/recipe-form.store.ts:82 | `filter((_, i) => i !== index)` removes exactly an in-range position and keeps the others in order; out of range it is the identity |
| `Seqs.Without` | src/lib/stores/recipe-form.store.ts:97 | `filter((s) => s !== serving)` keeps exactly the other values, with their multiplicities, and keeps a first element that differs |
| `Seqs.WithoutAppend` | src/lib/stores/recipe-form.store.ts:97 | filtering a concatenation is the concatenation of the filtered parts, so the kept values stay in their original order |
| `Seqs.WithoutSingle` | src/lib/stores/recipe-form.store.ts:97 | one element is kept exactly when it differs from the removed size; with `WithoutAppend` this pins the filter down element by element |
| `FormStore.RecipeFormStore.constructor` | src/lib/stores/recipe-form.store.ts:17-63 | the store starts from the merged initial snapshot and has already written it to storage |
| `FormStore.RecipeFormStore.Publish` | src/lib/stores/recipe-form.store.ts:55-63 | every new value is written to the storage slot |
| `FormStore.RecipeFormStore.Set` | src/lib/stores/recipe-form.store.ts:52-67 | raw `set` replaces the snapshot and stores it |
| `FormStore.RecipeFormStore.Update` | src/lib/stores/recipe-form.store.ts:52-68 | raw `update` applies the updater and stores the result |
| `FormStore.RecipeFormStore.AddTag` | src/lib/stores/recipe-form.store.ts:71-76 | the snapshot becomes `AddTag` of the old one and is stored |
| `FormStore.RecipeFormStore.RemoveTag` | src/lib/stores/recipe-form.store.ts:79-84 | the snapshot becomes `RemoveTag` of the old one and is stored |
| `FormStore.RecipeFormStore.ChangeServing` | src/lib/stores/recipe-form.store.ts:87-92 | the snapshot becomes `ChangeServing` of the old one and is stored |
| `FormStore.RecipeFormStore.RemoveServing` | src/lib/stores/recipe-form.store.ts:95-110 | the snapshot becomes `RemoveServing` of the old one and is stored, also on the no-op path |
| `FormStore.RecipeFormStore.AddIngredient` | src/lib/stores/recipe-form.store.ts:113-144 | the loop's map replaces the ingredients, giving `AddIngredient` of the old snapshot, which is stored |
| `FormStore.RecipeFormStore.RemoveIngredient` | src/lib/stores/recipe-form.store.ts:147-166 | the guard or the loop gives `RemoveIngredient` of the old snapshot, which is stored |
| `FormStore.RecipeFormStore.AddStep` | src/lib/stores/recipe-form.store.ts:169-174 | the snapshot becomes `AddStep` of the old one and is stored |
| `FormStore.RecipeFormStore.RemoveStep` | src/lib/stores/recipe-form.store.ts:177-185 | the snapshot becomes `RemoveStep` of the old one and is stored |
| `FormStore.RecipeFormStore.ClearStorage` | src/lib/stores/recipe-form.store.ts:188-192 | the storage slot is emptied; the snapshot is untouched |
| `FormStore.RecipeFormStore.Reset` | src/lib/stores/recipe-form.store.ts:195-200 | the snapshot is the defaults and the slot is empty: the defaults are written, then removed |
| `FormStore.Reload` | src/lib/stores/recipe-form.store.ts:32-50 | a new store under the same key restores a stored snapshot exactly; after a removal it starts from `initialData` over the defaults |
| `Validation.ValidateBasicInfo` | src/lib/utils/recipe-form-validation.ts:19-27 | the title error is set exactly when the title is blank, and nothing else is ever set |
| `Validation.HasErrors` | src/lib/utils/recipe-form-validation.ts:127-133 | true iff `general` or `title` is a non-empty string, or either index map is present with a key |
| `Validation.ValidateIngredients` | src/lib/utils/recipe-form-validation.ts:32-63 | the forEach loop and the key deletion give `IngredientsReport`, which does not depend on `servingSize` |
| `Validation.IngredientsReportFlags` | src/lib/utils/recipe-form-validation.ts:43-62 | for a non-empty list, index `i` is flagged iff its name or amount is blank, with a name error iff the name is blank and an amount error iff the amount is blank; the map is dropped when empty; `general` is never set |
| `Validation.EmptyIngredientsReport` | src/lib/utils/recipe-form-validation.ts:36-41 | an empty list gives the general message plus an empty `ingredients` map, and counts as having errors |
| `Validation.IngredientsHaveErrorsIff` | src/lib/utils/recipe-form-validation.ts:43-62 | for a non-empty list, `hasErrors` holds iff some ingredient has a blank name or amount |
| `Validation.ValidateInstructions` | src/lib/utils/recipe-form-validation.ts:68-87 | the forEach loop and the key deletion give `InstructionsReport` |
| `Validation.InstructionsReportFlags` | src/lib/utils/recipe-form-validation.ts:76-86 | for a non-empty list, index `i` is flagged iff step `i` is blank, the map is dropped when empty, and `general` is never set |
| `Validation.EmptyInstructionsReport` | src/lib/utils/recipe-form-validation.ts:71-74 | an empty list gives the general message plus an empty `steps` map, and counts as having errors |
| `Validation.InstructionsHaveErrorsIff` | src/lib/utils/recipe-form-validation.ts:76-86 | for a non-empty list, `hasErrors` holds iff some step is blank |
| `Validation.AnyBlankName` | src/lib/utils/recipe-form-validation.ts:109 | `some` finds a blank ingredient name iff there is one |
| `Validation.AnyBlankStep` | src/lib/utils/recipe-form-validation.ts:116 | `some` finds a blank step iff there is one |
| `Validation.ValidateCompleteForm` | src/lib/utils/recipe-form-validation.ts:92-122 | the early-returning loop gives `CompleteFormReport`: title first, then names in serving order (missing list read as empty), then steps |
| `Validation.CompleteFormOnlyGeneral` | src/lib/utils/recipe-form-validation.ts:100-121 | only `general` is ever set; it is set iff the title is blank, some listed size has a blank name, or some step is blank; `hasErrors` holds iff it is set |
| `Validation.CompleteFormAcceptsSparseForm` | src/lib/utils/recipe-form-validation.ts:107-119 | blank amounts, a listed size with no list, an empty list and an empty step list are not rejected |
| `Validation.BlankTitleReportedFirst` | src/lib/utils/recipe-form-validation.ts:101-104 | any blank title, empty or whitespace only, is the one error reported, whatever the sizes, ingredients and steps hold |
| `ServerGate.Handle` | src/hooks.server.ts:7-32 | redirect 303 to `/login?returnTo=` + encode(path) iff the path is not public and there is no session; redirect 303 to `/` iff the path is `/login` and there is a session; otherwise resolve |
| `ServerGate.PublicRoutesAreExact` | src/hooks.server.ts:5-18 | a path is public iff it equals `/login` or `/api/auth/session`; longer paths are not |
| `ServerGate.LoginAndSessionEndpointReachable` | src/hooks.server.ts:21-31 | `/login` without a session and the session endpoint in either state always resolve |
| `ServerGate.EmptyCookieIsSignedOut` | src/hooks.server.ts:9-12 | an empty cookie value is treated as no cookie |
| `ClientGate.Load` | src/routes/+layout.ts:6-29 | a 303 redirect to `/login?returnTo=` + encode(path) happens iff in the browser, on a path other than `/login`, with the user exactly signed out; otherwise `{}` |
| `ClientGate.NeverRedirectsUnlessSignedOut` | src/routes/+layout.ts:9-28 | outside the browser, or with the user loading or signed in, the result is `{}`, even on `/login` |
| `ClientGate.SessionEndpointNotPublic` | src/routes/+layout.ts:14-26 | only `/login` is public on the client, so a signed-out user on the session endpoint is redirected |

## Left out

- JSON encoding of the stored snapshot. Storage holds the snapshot value itself. Numeric map keys turning into strings is not modelled, and neither is a parsed value that is only part of a snapshot (the object spread would merge it field by field).
- Local-storage write failures (quota) and the `console.error` logging. Every write is assumed to succeed.
- The non-browser branch of the store, where nothing is read or written. The model assumes the browser.
- Svelte subscriber mechanics (`subscribe`, unsubscription, other subscribers). Only the persistence subscriber is modelled, as `Publish`.
- JavaScript numbers. Serving sizes and indices are unbounded integers; NaN and fractional values are not modelled.
- `encodeURIComponent`, the request and cookie objects, and `resolve` are parameters or outcomes. The user object is reduced to a tri-state.
- `Validation.ValidateCompleteForm` takes the four fields it reads (title, servings, ingredients, steps) rather than a whole form object.
- The data access layer (Firestore tag and recipe services), the auth observer and session endpoint, configuration, the icon script and the demo route data. These are asynchronous I/O or static data.
