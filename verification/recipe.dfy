/**
 * A production recipe (Recipe.java): an output item, the amount of each
 * ingredient, the order in which the dispatcher walks the ingredients, and a
 * latency in time steps. Recipes are immutable values.
 */
module Recipes {
  import opened Wrappers

  datatype Recipe = Recipe(output: string, ingredients: map<string, int>, orderedNames: seq<string>, latency: int)

  /** The four-argument constructor keeps the given ingredient order. */
  function NewRecipe(output: string, ingredients: map<string, int>, orderedNames: seq<string>, latency: int): (r: Recipe)
    ensures r.output == output && r.ingredients == ingredients && r.latency == latency
    ensures r.orderedNames == orderedNames
  {
    Recipe(output, ingredients, orderedNames, latency)
  }

  /**
   * The three-argument constructor takes its order from the ingredient map's
   * key set; `keyOrder` is that (hash-determined) iteration order.
   */
  function NewRecipeFromKeys(output: string, ingredients: map<string, int>, keyOrder: seq<string>, latency: int): (r: Recipe)
    requires Enumerates(keyOrder, ingredients.Keys)
    ensures r.output == output && r.ingredients == ingredients && r.latency == latency
    ensures NoDup(r.orderedNames)
    ensures forall n :: n in r.orderedNames <==> n in ingredients
    ensures |r.orderedNames| == |ingredients|
  {
    NoDupCardinality(keyOrder);
    Recipe(output, ingredients, keyOrder, latency)
  }

  /** `getIngredientAmount`: the stored amount, or 0 for an ingredient the recipe does not use. */
  function IngredientAmount(r: Recipe, name: string): (n: int)
    ensures RequiresIngredient(r, name) ==> n == r.ingredients[name]
    ensures !RequiresIngredient(r, name) ==> n == 0
  {
    GetOrZero(r.ingredients, name)
  }

  /** `requiresIngredient`: membership among the ingredient keys. */
  predicate RequiresIngredient(r: Recipe, name: string)
  {
    name in r.ingredients
  }

  /** A recipe with no ingredients is a mine recipe: every amount is 0. */
  lemma NoIngredientsMeansZeroAmounts(r: Recipe, name: string)
    requires r.ingredients == map[]
    ensures IngredientAmount(r, name) == 0 && !RequiresIngredient(r, name)
  {
  }
}
