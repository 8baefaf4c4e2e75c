/**
 * `SimulationParser.validateInput`: the cross-checks run once the recipes
 * and buildings of a configuration have been read. Every ingredient must be
 * a recipe; every recipe of a factory's type must have ingredients, each
 * supplied by one of the factory's sources; a mine's sources must exist.
 *
 * The Java loops walk hash maps and sets, whose order the model leaves open,
 * so the contracts say when a configuration is accepted (exactly when it is
 * consistent) and that a refusal names a real fault, not which of several
 * faults is reported first.
 */
module Validation {
  import opened Wrappers
  import opened Recipes
  import opened Buildings

  // ------------------------------------------------------------- messages

  function UndefinedIngredient(output: string, ingredient: string): Failure
  {
    SimulationException("Recipe " + output + " has undefined ingredient: " + ingredient)
  }

  function NoIngredients(building: string, recipe: string): Failure
  {
    SimulationException("Factory building " + building + " has recipe " + recipe + " with no ingredients")
  }

  function UndefinedSource(building: string, source: string): Failure
  {
    SimulationException("Building " + building + " has undefined source: " + source)
  }

  function NoSource(ingredient: string, recipe: string, building: string): Failure
  {
    SimulationException("No source for ingredient " + ingredient + " required by recipe " + recipe + " for factory " + building)
  }

  /** `recipes.get(name).getIngredients()` on a missing recipe: a null dereference. */
  function NullRecipe(recipe: string): Failure
  {
    RuntimeFailure("null recipe for " + recipe)
  }

  // ---------------------------------------------------------- consistency

  /** Every ingredient of the recipe for `output` is itself a recipe. */
  predicate OwnIngredientsDefined(recipes: map<string, Recipe>, output: string)
    requires output in recipes
  {
    forall ingredient :: ingredient in recipes[output].ingredients ==> ingredient in recipes
  }

  predicate IngredientsDefined(recipes: map<string, Recipe>)
  {
    forall output :: output in recipes ==> OwnIngredientsDefined(recipes, output)
  }

  /**
   * Scanning `sources` in order for `ingredient`, a source that provides it
   * comes before any source that is not a building.
   */
  predicate Supplied(buildings: map<string, Building>, sources: seq<string>, ingredient: string)
  {
    exists i :: 0 <= i < |sources| && sources[i] in buildings && ingredient in ProvidedOutputs(buildings[sources[i]]) &&
      forall k :: 0 <= k < i ==> sources[k] in buildings
  }

  /** The factory `b` can run recipe `name`: it is defined, has ingredients, and each is supplied. */
  predicate RecipeSupplied(buildings: map<string, Building>, recipes: map<string, Recipe>, b: Building, name: string)
  {
    name in recipes && recipes[name].ingredients != map[] &&
    forall ingredient :: ingredient in recipes[name].ingredients ==> Supplied(buildings, b.sources, ingredient)
  }

  predicate SourcesDefined(buildings: map<string, Building>, b: Building)
  {
    forall source :: source in b.sources ==> source in buildings
  }

  /** What `validateInput` checks of one building: factories and mines only. */
  predicate BuildingChecked(buildings: map<string, Building>, recipes: map<string, Recipe>, b: Building)
  {
    match b.kind
    case Factory(_, names) => forall name :: name in names ==> RecipeSupplied(buildings, recipes, b, name)
    case Mine(_, _) => SourcesDefined(buildings, b)
    case _ => true
  }

  predicate Consistent(buildings: map<string, Building>, recipes: map<string, Recipe>)
  {
    IngredientsDefined(recipes) &&
    forall name :: name in buildings ==> BuildingChecked(buildings, recipes, buildings[name])
  }

  // ------------------------------------------------------------- complaints

  predicate IngredientFault(recipes: map<string, Recipe>, f: Failure)
  {
    exists output, ingredient :: output in recipes && ingredient in recipes[output].ingredients &&
      ingredient !in recipes && f == UndefinedIngredient(recipes[output].output, ingredient)
  }

  /** A complaint about supplying `ingredient` to factory `b`: an undefined source, or no source at all. */
  predicate SupplyFault(buildings: map<string, Building>, b: Building, recipe: string, ingredient: string, f: Failure)
  {
    (exists source :: source in b.sources && source !in buildings && f == UndefinedSource(b.name, source)) ||
    f == NoSource(ingredient, recipe, b.name)
  }

  predicate RecipeFault(buildings: map<string, Building>, recipes: map<string, Recipe>, b: Building, name: string, f: Failure)
  {
    if name !in recipes then f == NullRecipe(name)
    else if recipes[name].ingredients == map[] then f == NoIngredients(b.name, name)
    else
      exists ingredient :: ingredient in recipes[name].ingredients &&
        !Supplied(buildings, b.sources, ingredient) && SupplyFault(buildings, b, name, ingredient, f)
  }

  predicate BuildingFault(buildings: map<string, Building>, recipes: map<string, Recipe>, b: Building, f: Failure)
  {
    match b.kind
    case Factory(_, names) =>
      exists name :: name in names && !RecipeSupplied(buildings, recipes, b, name) &&
        RecipeFault(buildings, recipes, b, name, f)
    case Mine(_, _) => exists source :: source in b.sources && source !in buildings && f == UndefinedSource(b.name, source)
    case _ => false
  }

  predicate Complaint(buildings: map<string, Building>, recipes: map<string, Recipe>, f: Failure)
  {
    IngredientFault(recipes, f) ||
    exists name :: name in buildings && BuildingFault(buildings, recipes, buildings[name], f)
  }

  // ------------------------------------------------------------------ checks

  /** The first loop of `validateInput`: each recipe's ingredients must be recipes. */
  method CheckRecipes(recipes: map<string, Recipe>) returns (err: Option<Failure>)
    ensures err.None? <==> IngredientsDefined(recipes)
    ensures err.Some? ==> IngredientFault(recipes, err.value)
  {
    var outputs := EnumerateSet(recipes.Keys);
    var i := 0;
    while i < |outputs|
      invariant 0 <= i <= |outputs|
      invariant forall k :: 0 <= k < i ==> OwnIngredientsDefined(recipes, outputs[k])
    {
      var output := outputs[i];
      assert output in recipes;
      var ingredients := EnumerateSet(recipes[output].ingredients.Keys);
      var j := 0;
      while j < |ingredients|
        invariant 0 <= j <= |ingredients|
        invariant forall k :: 0 <= k < j ==> ingredients[k] in recipes
      {
        if ingredients[j] !in recipes {
          assert ingredients[j] in recipes[output].ingredients;
          return Some(UndefinedIngredient(recipes[output].output, ingredients[j]));
        }
        j := j + 1;
      }
      assert forall ingredient :: ingredient in recipes[output].ingredients ==> ingredient in ingredients;
      i := i + 1;
    }
    assert forall output :: output in recipes ==> output in outputs;
    return None;
  }

  /**
   * The source scan for one ingredient of a factory recipe: an undefined
   * source met first is refused, a providing source ends the scan, and no
   * provider at all is refused.
   */
  method CheckSupply(buildings: map<string, Building>, b: Building, recipe: string, ingredient: string) returns (err: Option<Failure>)
    ensures err.None? <==> Supplied(buildings, b.sources, ingredient)
    ensures err.Some? ==> SupplyFault(buildings, b, recipe, ingredient, err.value)
  {
    var sources := b.sources;
    var i := 0;
    while i < |sources|
      invariant 0 <= i <= |sources|
      invariant forall k :: 0 <= k < i ==> sources[k] in buildings && ingredient !in ProvidedOutputs(buildings[sources[k]])
    {
      if sources[i] !in buildings {
        return Some(UndefinedSource(b.name, sources[i]));
      }
      if ingredient in ProvidedOutputs(buildings[sources[i]]) {
        return None;
      }
      i := i + 1;
    }
    return Some(NoSource(ingredient, recipe, b.name));
  }

  /** One recipe of a factory's type. */
  method CheckRecipe(buildings: map<string, Building>, recipes: map<string, Recipe>, b: Building, name: string)
    returns (err: Option<Failure>)
    ensures err.None? <==> RecipeSupplied(buildings, recipes, b, name)
    ensures err.Some? ==> RecipeFault(buildings, recipes, b, name, err.value)
  {
    if name !in recipes {
      return Some(NullRecipe(name));
    }
    var recipe := recipes[name];
    if recipe.ingredients == map[] {
      return Some(NoIngredients(b.name, name));
    }
    var ingredients := EnumerateSet(recipe.ingredients.Keys);
    var j := 0;
    while j < |ingredients|
      invariant 0 <= j <= |ingredients|
      invariant forall k :: 0 <= k < j ==> Supplied(buildings, b.sources, ingredients[k])
    {
      err := CheckSupply(buildings, b, name, ingredients[j]);
      if err.Some? {
        assert ingredients[j] in recipe.ingredients;
        return err;
      }
      j := j + 1;
    }
    assert forall ingredient :: ingredient in recipe.ingredients ==> ingredient in ingredients;
    return None;
  }

  /** The checks of one building: every recipe of a factory's type, or every source of a mine. */
  method CheckBuilding(buildings: map<string, Building>, recipes: map<string, Recipe>, b: Building) returns (err: Option<Failure>)
    ensures err.None? <==> BuildingChecked(buildings, recipes, b)
    ensures err.Some? ==> BuildingFault(buildings, recipes, b, err.value)
  {
    match b.kind {
      case Factory(_, names) =>
        var i := 0;
        while i < |names|
          invariant 0 <= i <= |names|
          invariant forall k :: 0 <= k < i ==> RecipeSupplied(buildings, recipes, b, names[k])
        {
          err := CheckRecipe(buildings, recipes, b, names[i]);
          if err.Some? {
            return err;
          }
          i := i + 1;
        }
        return None;
      case Mine(_, _) =>
        var i := 0;
        while i < |b.sources|
          invariant 0 <= i <= |b.sources|
          invariant forall k :: 0 <= k < i ==> b.sources[k] in buildings
        {
          if b.sources[i] !in buildings {
            return Some(UndefinedSource(b.name, b.sources[i]));
          }
          i := i + 1;
        }
        return None;
      case _ =>
        return None;
    }
  }

  /** `validateInput`: nothing when the configuration is consistent, otherwise one of its faults. */
  method ValidateInput(buildings: map<string, Building>, recipes: map<string, Recipe>) returns (err: Option<Failure>)
    ensures err.None? <==> Consistent(buildings, recipes)
    ensures err.Some? ==> Complaint(buildings, recipes, err.value)
  {
    err := CheckRecipes(recipes);
    if err.Some? {
      return err;
    }
    var names := EnumerateSet(buildings.Keys);
    var i := 0;
    while i < |names|
      invariant 0 <= i <= |names|
      invariant forall k :: 0 <= k < i ==> names[k] in buildings && BuildingChecked(buildings, recipes, buildings[names[k]])
    {
      assert names[i] in buildings;
      err := CheckBuilding(buildings, recipes, buildings[names[i]]);
      if err.Some? {
        return err;
      }
      i := i + 1;
    }
    assert forall name :: name in buildings ==> name in names;
    return None;
  }

  // ------------------------------------------------------------------ lemmas

  /**
   * In a consistent configuration every ingredient of every recipe a
   * factory can run comes from one of its sources that is a building and
   * lists it among its provided outputs.
   */
  lemma FactoriesSupplied(buildings: map<string, Building>, recipes: map<string, Recipe>, name: string, recipe: string, ingredient: string)
    requires Consistent(buildings, recipes)
    requires name in buildings && buildings[name].kind.Factory? && recipe in buildings[name].kind.typeRecipes
    ensures recipe in recipes && recipes[recipe].ingredients != map[]
    ensures ingredient in recipes[recipe].ingredients ==>
      ingredient in recipes &&
      exists source :: source in buildings[name].sources && source in buildings && ingredient in ProvidedOutputs(buildings[source])
  {
    var b := buildings[name];
    assert BuildingChecked(buildings, recipes, b);
    assert RecipeSupplied(buildings, recipes, b, recipe);
    if ingredient in recipes[recipe].ingredients {
      assert OwnIngredientsDefined(recipes, recipe);
      var i :| 0 <= i < |b.sources| && b.sources[i] in buildings && ingredient in ProvidedOutputs(buildings[b.sources[i]]) &&
        forall k :: 0 <= k < i ==> b.sources[k] in buildings;
      assert b.sources[i] in b.sources;
    }
  }
}
