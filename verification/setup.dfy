/**
 * The "recipes" and "types" sections of a simulation's configuration
 * (SimulationParser.java, `parseRecipes` and `parseTypes`), read from a JSON
 * tree given as a value, as Jackson's `JsonNode` holds it.
 *
 * Each section is specified by a function that folds over the array from
 * the left, one element at a time, as the Java loop does; the methods run
 * the loops and are proved to compute those functions, and the lemmas say
 * what a successful read guarantees and which message an invalid element
 * produces.
 */
module Setup {
  import opened Wrappers
  import opened Naming
  import opened Recipes
  import Commands

  // ------------------------------------------------------------- JSON trees

  /** A JSON tree. An object lists its fields in document order. */
  datatype Json =
    | JObject(fields: seq<(string, Json)>)
    | JArray(items: seq<Json>)
    | JString(text: string)
    | JNumber(number: int)
    | JBool(truth: bool)
    | JNull

  /** The value of the first field called `key`, if there is one. */
  function Lookup(fields: seq<(string, Json)>, key: string): (r: Option<Json>)
    ensures r.None? <==> forall i :: 0 <= i < |fields| ==> fields[i].0 != key
  {
    if fields == [] then None
    else if fields[0].0 == key then Some(fields[0].1)
    else Lookup(fields[1..], key)
  }

  /** `get(key)`, and `has(key)` as `Field(j, key).Some?`: only an object has fields. */
  function Field(j: Json, key: string): (r: Option<Json>)
    ensures !j.JObject? ==> r.None?
  {
    if j.JObject? then Lookup(j.fields, key) else None
  }

  /** Java's `(int)` cast of a whole number: its low 32 bits, read as a signed value. */
  function Int32(n: int): (r: int)
    ensures Commands.MinInt <= r <= Commands.MaxInt
    ensures (r - n) % 0x1_0000_0000 == 0
    ensures Commands.MinInt <= n <= Commands.MaxInt ==> r == n
  {
    (n + 0x8000_0000) % 0x1_0000_0000 - 0x8000_0000
  }

  /**
   * `asInt()`: a number's low 32 bits, 1 or 0 for a boolean, a text read as
   * a 32-bit decimal (0 when it is not one), and 0 for anything else.
   */
  function AsInt(j: Json): int
  {
    match j
    case JNumber(n) => Int32(n)
    case JBool(b) => if b then 1 else 0
    case JString(t) => (match Commands.ParseInt(t) case Some(v) => v case None => 0)
    case _ => 0
  }

  /** `asText()`: a text itself, a number or a boolean as Java writes it, "null", and "" for a container. */
  function AsText(j: Json): string
  {
    match j
    case JString(t) => t
    case JNumber(n) => IntText(n)
    case JBool(b) => if b then "true" else "false"
    case JNull => "null"
    case _ => ""
  }

  /** The names of an object's fields, in document order (`fieldNames()`). */
  function Names(fields: seq<(string, Json)>): (r: seq<string>)
    ensures |r| == |fields| && forall i :: 0 <= i < |fields| ==> r[i] == fields[i].0
  {
    seq(|fields|, i requires 0 <= i < |fields| => fields[i].0)
  }

  // ------------------------------------------------------------ ingredients

  function IngredientFailure(name: string): Failure
  {
    SimulationException("Ingredient name contains invalid character: " + name)
  }

  /**
   * The loop over an ingredients object: every field name must be free of
   * `'`; each name maps to its value's `asInt`, and the names are listed in
   * field order.
   */
  function ReadIngredients(fields: seq<(string, Json)>): Result<(map<string, int>, seq<string>)>
  {
    if fields == [] then Ok((map[], []))
    else
      var last := fields[|fields| - 1];
      match ReadIngredients(fields[..|fields| - 1])
      case Err(e) => Err(e)
      case Ok(read) =>
        if !Commands.NoQuote(last.0) then Err(IngredientFailure(last.0))
        else Ok((read.0[last.0 := AsInt(last.1)], read.1 + [last.0]))
  }

  /** Once the loop has thrown, the later fields change nothing. */
  lemma {:induction false} IngredientsErrStays(fields: seq<(string, Json)>, i: nat)
    requires i <= |fields| && ReadIngredients(fields[..i]).Err?
    ensures ReadIngredients(fields) == ReadIngredients(fields[..i])
    decreases |fields| - i
  {
    if i < |fields| {
      assert fields[..i + 1][..i] == fields[..i];
      IngredientsErrStays(fields, i + 1);
    } else {
      assert fields[..i] == fields;
    }
  }

  /**
   * The ingredients are read exactly when no field name holds `'`; the
   * names are then the field names in order, and they are the amounts' keys.
   */
  lemma {:induction false} IngredientsRead(fields: seq<(string, Json)>)
    ensures ReadIngredients(fields).Ok? <==> forall i :: 0 <= i < |fields| ==> Commands.NoQuote(fields[i].0)
    ensures ReadIngredients(fields).Ok? ==>
      ReadIngredients(fields).value.1 == Names(fields) &&
      ReadIngredients(fields).value.0.Keys == set i | 0 <= i < |fields| :: fields[i].0
  {
    if fields != [] {
      var n := |fields| - 1;
      var init := fields[..n];
      IngredientsRead(init);
      assert forall i :: 0 <= i < n ==> init[i] == fields[i];
      if ReadIngredients(init).Ok? {
        assert Names(fields) == Names(init) + [fields[n].0];
        assert (set i | 0 <= i < |fields| :: fields[i].0) == (set i | 0 <= i < n :: init[i].0) + {fields[n].0};
      }
    }
  }

  /** The first field name that holds `'` decides the message: the loop throws there. */
  lemma FirstQuotedIngredient(fields: seq<(string, Json)>, i: nat)
    requires i < |fields| && !Commands.NoQuote(fields[i].0)
    requires forall k :: 0 <= k < i ==> Commands.NoQuote(fields[k].0)
    ensures ReadIngredients(fields) == Err(IngredientFailure(fields[i].0))
  {
    var init := fields[..i];
    assert forall k :: 0 <= k < i ==> init[k] == fields[k];
    IngredientsRead(init);
    assert fields[..i + 1][..i] == init;
    assert ReadIngredients(fields[..i + 1]) == Err(IngredientFailure(fields[i].0));
    IngredientsErrStays(fields, i + 1);
  }

  /** Without repeated field names, each ingredient's amount is its own field's `asInt`. */
  lemma {:induction false} IngredientAmounts(fields: seq<(string, Json)>)
    requires NoDup(Names(fields)) && ReadIngredients(fields).Ok?
    ensures forall i :: 0 <= i < |fields| ==>
      fields[i].0 in ReadIngredients(fields).value.0 && ReadIngredients(fields).value.0[fields[i].0] == AsInt(fields[i].1)
  {
    if fields != [] {
      var n := |fields| - 1;
      var init := fields[..n];
      assert Names(init) == Names(fields)[..n];
      IngredientAmounts(init);
      forall i | 0 <= i < n
        ensures fields[i].0 != fields[n].0
      {
        assert Names(fields)[i] == fields[i].0;
      }
    }
  }

  /** The ingredient loop of `parseRecipes`. */
  method ParseIngredients(fields: seq<(string, Json)>) returns (r: Result<(map<string, int>, seq<string>)>)
    ensures r == ReadIngredients(fields)
  {
    var amounts: map<string, int> := map[];
    var names: seq<string> := [];
    var i := 0;
    while i < |fields|
      invariant 0 <= i <= |fields|
      invariant ReadIngredients(fields[..i]) == Ok((amounts, names))
    {
      var (name, value) := fields[i];
      assert fields[..i + 1][..i] == fields[..i];
      if !Commands.NoQuote(name) {
        IngredientsErrStays(fields, i + 1);
        return Err(IngredientFailure(name));
      }
      amounts := amounts[name := AsInt(value)];
      names := names + [name];
      i := i + 1;
    }
    assert fields[..i] == fields;
    r := Ok((amounts, names));
  }

  // ---------------------------------------------------------------- recipes

  /** One element of the "recipes" array, checked in the order of the Java loop body up to the duplicate check. */
  function ReadRecipe(j: Json): Result<Recipe>
  {
    match (Field(j, "output"), Field(j, "ingredients"), Field(j, "latency"))
    case (Some(out), Some(ing), Some(lat)) =>
      var output := AsText(out);
      if !Commands.NoQuote(output) then Err(SimulationException("Recipe output contains invalid character: " + output))
      else if !ing.JObject? then Err(SimulationException("Invalid ingredients format for recipe: " + output))
      else
        (match ReadIngredients(ing.fields)
         case Err(e) => Err(e)
         case Ok(read) =>
           if AsInt(lat) < 1 then Err(SimulationException("Latency must be >= 1"))
           else Ok(Recipe(output, read.0, read.1, AsInt(lat))))
    case _ => Err(SimulationException("Recipe missing required field(s)"))
  }

  /** An element the recipe checks accept: every field present, the names free of `'`, an object of ingredients and a latency of at least 1. */
  predicate GoodRecipe(j: Json)
  {
    Field(j, "output").Some? && Field(j, "ingredients").Some? && Field(j, "latency").Some? &&
    Commands.NoQuote(AsText(Field(j, "output").value)) &&
    Field(j, "ingredients").value.JObject? &&
    (forall i :: 0 <= i < |Field(j, "ingredients").value.fields| ==>
       Commands.NoQuote(Field(j, "ingredients").value.fields[i].0)) &&
    AsInt(Field(j, "latency").value) >= 1
  }

  /**
   * An element is accepted exactly when it is good. The recipe read then
   * has the output's text as its name, a latency of at least 1, and its
   * ingredients in field order, each named once in the amounts.
   */
  lemma RecipeRead(j: Json)
    ensures ReadRecipe(j).Ok? <==> GoodRecipe(j)
    ensures ReadRecipe(j).Ok? ==>
      var r := ReadRecipe(j).value;
      var fields := Field(j, "ingredients").value.fields;
      r.output == AsText(Field(j, "output").value) && r.latency == AsInt(Field(j, "latency").value) &&
      r.orderedNames == Names(fields) &&
      r.ingredients.Keys == (set i | 0 <= i < |fields| :: fields[i].0) &&
      SoundRecipe(r.output, r)
  {
    if Field(j, "ingredients").Some? && Field(j, "ingredients").value.JObject? {
      IngredientsRead(Field(j, "ingredients").value.fields);
    }
  }

  /**
   * A recipe the simulation can rely on: stored under its own output, a
   * latency of at least 1, no name holding `'`, and an amount for every
   * listed ingredient.
   */
  predicate SoundRecipe(name: string, r: Recipe)
  {
    r.output == name && r.latency >= 1 && Commands.NoQuote(name) &&
    forall n :: n in r.orderedNames ==> Commands.NoQuote(n) && n in r.ingredients
  }

  /** An element with every field present, good names and ingredients, and a latency below 1 is refused for its latency. */
  lemma LatencyRejected(j: Json)
    requires Field(j, "output").Some? && Field(j, "ingredients").Some? && Field(j, "latency").Some?
    requires Commands.NoQuote(AsText(Field(j, "output").value)) && Field(j, "ingredients").value.JObject?
    requires forall i :: 0 <= i < |Field(j, "ingredients").value.fields| ==>
      Commands.NoQuote(Field(j, "ingredients").value.fields[i].0)
    requires AsInt(Field(j, "latency").value) < 1
    ensures ReadRecipe(j) == Err(SimulationException("Latency must be >= 1"))
  {
    IngredientsRead(Field(j, "ingredients").value.fields);
  }

  /** Each element of the "recipes" array read on its own, in array order. */
  function Entries(items: seq<Json>): (rs: seq<Result<Recipe>>)
    ensures |rs| == |items| && forall i :: 0 <= i < |items| ==> rs[i] == ReadRecipe(items[i])
  {
    seq(|items|, i requires 0 <= i < |items| => ReadRecipe(items[i]))
  }

  /** The outputs of the accepted entries are pairwise different. */
  predicate DistinctOutputs(rs: seq<Result<Recipe>>)
  {
    forall i, k :: 0 <= i < k < |rs| && rs[i].Ok? && rs[k].Ok? ==> rs[i].value.output != rs[k].value.output
  }

  function DuplicateRecipe(output: string): Failure
  {
    SimulationException("Duplicate recipe name: " + output)
  }

  /** The loop over the read entries: the first refused entry throws, and so does an output that is already a key. */
  function Collect(rs: seq<Result<Recipe>>): Result<map<string, Recipe>>
  {
    if rs == [] then Ok(map[])
    else
      match Collect(rs[..|rs| - 1])
      case Err(e) => Err(e)
      case Ok(m) =>
        match rs[|rs| - 1]
        case Err(e) => Err(e)
        case Ok(r) => if r.output in m then Err(DuplicateRecipe(r.output)) else Ok(m[r.output := r])
  }

  /** The loop over the "recipes" array. */
  function ReadRecipes(items: seq<Json>): Result<map<string, Recipe>>
  {
    Collect(Entries(items))
  }

  /** `parseRecipes` before its loop: the section must be present and an array. */
  function RecipesSection(root: Json): Result<map<string, Recipe>>
  {
    match Field(root, "recipes")
    case None => Err(SimulationException("Missing 'recipes' field"))
    case Some(a) => if !a.JArray? then Err(SimulationException("'recipes' field is not an array")) else ReadRecipes(a.items)
  }

  /** Once the loop has thrown, the later entries change nothing. */
  lemma {:induction false} CollectErrStays(rs: seq<Result<Recipe>>, i: nat)
    requires i <= |rs| && Collect(rs[..i]).Err?
    ensures Collect(rs) == Collect(rs[..i])
    decreases |rs| - i
  {
    if i < |rs| {
      assert rs[..i + 1][..i] == rs[..i];
      CollectErrStays(rs, i + 1);
    } else {
      assert rs[..i] == rs;
    }
  }

  /**
   * The entries are collected exactly when every one is accepted and no
   * two have the same output.
   */
  lemma {:induction false} Collected(rs: seq<Result<Recipe>>)
    ensures Collect(rs).Ok? <==> (forall i :: 0 <= i < |rs| ==> rs[i].Ok?) && DistinctOutputs(rs)
  {
    if rs != [] {
      var n := |rs| - 1;
      var init := rs[..n];
      Collected(init);
      assert forall i :: 0 <= i < n ==> init[i] == rs[i];
      if Collect(init).Ok? && rs[n].Ok? {
        CollectedHolds(init);
        var m := Collect(init).value;
        if rs[n].value.output in m {
          var i :| 0 <= i < n && init[i].value.output == rs[n].value.output;
          assert rs[i].value.output == rs[n].value.output;
        }
      }
    }
  }

  /** A collected map holds each entry's recipe under its output, and nothing else. */
  lemma {:induction false} CollectedHolds(rs: seq<Result<Recipe>>)
    requires Collect(rs).Ok?
    ensures forall i :: 0 <= i < |rs| ==> rs[i].Ok? && rs[i].value.output in Collect(rs).value && Collect(rs).value[rs[i].value.output] == rs[i].value
    ensures forall name :: name in Collect(rs).value ==> exists i :: 0 <= i < |rs| && rs[i].value.output == name
  {
    if rs != [] {
      var n := |rs| - 1;
      var init := rs[..n];
      CollectedHolds(init);
      assert forall i :: 0 <= i < n ==> init[i] == rs[i];
    }
  }

  /** Reading a prefix of the array reads a prefix of the entries. */
  lemma EntriesPrefix(items: seq<Json>, i: nat)
    requires i <= |items|
    ensures Entries(items[..i]) == Entries(items)[..i]
  {
  }

  /** The first refused entry decides the message. */
  lemma FirstRefused(rs: seq<Result<Recipe>>, i: nat)
    requires i < |rs| && Collect(rs[..i]).Ok? && rs[i].Err?
    ensures Collect(rs) == Err(rs[i].error)
  {
    assert rs[..i + 1][..i] == rs[..i];
    CollectErrStays(rs, i + 1);
  }

  /** An accepted entry whose output an earlier entry already used is refused as a duplicate. */
  lemma SecondOutput(rs: seq<Result<Recipe>>, i: nat, k: nat)
    requires k < i < |rs| && Collect(rs[..i]).Ok? && rs[i].Ok? && rs[k].Ok?
    requires rs[k].value.output == rs[i].value.output
    ensures Collect(rs) == Err(DuplicateRecipe(rs[i].value.output))
  {
    var init := rs[..i];
    CollectedHolds(init);
    assert init[k] == rs[k];
    assert rs[i].value.output in Collect(init).value;
    assert rs[..i + 1][..i] == init;
    assert Collect(rs[..i + 1]) == Err(DuplicateRecipe(rs[i].value.output));
    CollectErrStays(rs, i + 1);
  }

  /** The first refused element of the array decides the message: the loop throws there. */
  lemma FirstBadRecipe(items: seq<Json>, i: nat)
    requires i < |items| && ReadRecipes(items[..i]).Ok? && ReadRecipe(items[i]).Err?
    ensures ReadRecipes(items) == Err(ReadRecipe(items[i]).error)
  {
    EntriesPrefix(items, i);
    FirstRefused(Entries(items), i);
  }

  /** An accepted element whose output an earlier element already used is refused as a duplicate. */
  lemma DuplicateRejected(items: seq<Json>, i: nat, k: nat)
    requires k < i < |items| && ReadRecipes(items[..i]).Ok?
    requires ReadRecipe(items[i]).Ok? && ReadRecipe(items[k]).Ok?
    requires ReadRecipe(items[k]).value.output == ReadRecipe(items[i]).value.output
    ensures ReadRecipes(items) == Err(DuplicateRecipe(ReadRecipe(items[i]).value.output))
  {
    EntriesPrefix(items, i);
    SecondOutput(Entries(items), i, k);
  }

  /**
   * What the simulation may rely on after a successful read: every recipe
   * is stored under its own output, has a latency of at least 1, and no
   * name in it holds `'`; every listed ingredient has an amount.
   */
  lemma ParsedRecipes(root: Json)
    requires RecipesSection(root).Ok?
    ensures forall name :: name in RecipesSection(root).value ==> SoundRecipe(name, RecipesSection(root).value[name])
  {
    var items := Field(root, "recipes").value.items;
    var rs := Entries(items);
    CollectedHolds(rs);
    forall name | name in RecipesSection(root).value
      ensures SoundRecipe(name, RecipesSection(root).value[name])
    {
      var i :| 0 <= i < |rs| && rs[i].value.output == name;
      RecipeRead(items[i]);
    }
  }

  /** One element of the "recipes" array, as the Java loop body checks it. */
  method ParseRecipe(j: Json) returns (r: Result<Recipe>)
    ensures r == ReadRecipe(j)
  {
    var out := Field(j, "output");
    var ing := Field(j, "ingredients");
    var lat := Field(j, "latency");
    if out.None? || ing.None? || lat.None? {
      return Err(SimulationException("Recipe missing required field(s)"));
    }
    var output := AsText(out.value);
    if !Commands.NoQuote(output) {
      return Err(SimulationException("Recipe output contains invalid character: " + output));
    }
    if !ing.value.JObject? {
      return Err(SimulationException("Invalid ingredients format for recipe: " + output));
    }
    var read := ParseIngredients(ing.value.fields);
    if read.Err? {
      return Err(read.error);
    }
    var latency := AsInt(lat.value);
    if latency < 1 {
      return Err(SimulationException("Latency must be >= 1"));
    }
    r := Ok(Recipe(output, read.value.0, read.value.1, latency));
  }

  /** `parseRecipes`: the recipe table, or the first complaint. */
  method ParseRecipes(root: Json) returns (r: Result<map<string, Recipe>>)
    ensures r == RecipesSection(root)
  {
    var section := Field(root, "recipes");
    if section.None? {
      return Err(SimulationException("Missing 'recipes' field"));
    }
    if !section.value.JArray? {
      return Err(SimulationException("'recipes' field is not an array"));
    }
    var items := section.value.items;
    var recipes: map<string, Recipe> := map[];
    var i := 0;
    while i < |items|
      invariant 0 <= i <= |items|
      invariant Collect(Entries(items)[..i]) == Ok(recipes)
    {
      var next := AddRecipe(items, i, recipes);
      if next.Err? {
        CollectErrStays(Entries(items), i + 1);
        return next;
      }
      recipes := next.value;
      i := i + 1;
    }
    assert Entries(items)[..i] == Entries(items);
    r := Ok(recipes);
  }

  /** One turn of the `parseRecipes` loop: read element `i` and add it, unless it is refused or a duplicate. */
  method AddRecipe(items: seq<Json>, i: nat, recipes: map<string, Recipe>) returns (next: Result<map<string, Recipe>>)
    requires i < |items| && Collect(Entries(items)[..i]) == Ok(recipes)
    ensures next == Collect(Entries(items)[..i + 1])
  {
    ghost var rs := Entries(items);
    assert rs[..i + 1][..i] == rs[..i];
    var recipe := ParseRecipe(items[i]);
    if recipe.Err? {
      return Err(recipe.error);
    }
    var output := recipe.value.output;
    if output in recipes {
      return Err(DuplicateRecipe(output));
    }
    next := Ok(recipes[output := recipe.value]);
  }

  // ------------------------------------------------------------------ types

  /** `BuildingType`: a type name and the names of the recipes its factories can run. */
  datatype BuildingType = BuildingType(name: string, recipes: seq<string>)

  function UndefinedRecipe(name: string): Failure
  {
    SimulationException("Type references undefined recipe: " + name)
  }

  /** The loop over a type's "recipes" array: each element's text must name a recipe. */
  function ReadTypeRecipes(items: seq<Json>, recipes: map<string, Recipe>): Result<seq<string>>
  {
    if items == [] then Ok([])
    else
      var name := AsText(items[|items| - 1]);
      match ReadTypeRecipes(items[..|items| - 1], recipes)
      case Err(e) => Err(e)
      case Ok(names) => if name !in recipes then Err(UndefinedRecipe(name)) else Ok(names + [name])
  }

  lemma {:induction false} TypeRecipesErrStays(items: seq<Json>, recipes: map<string, Recipe>, i: nat)
    requires i <= |items| && ReadTypeRecipes(items[..i], recipes).Err?
    ensures ReadTypeRecipes(items, recipes) == ReadTypeRecipes(items[..i], recipes)
    decreases |items| - i
  {
    if i < |items| {
      assert items[..i + 1][..i] == items[..i];
      TypeRecipesErrStays(items, recipes, i + 1);
    } else {
      assert items[..i] == items;
    }
  }

  /**
   * A type's recipe list is read exactly when every element names a
   * recipe, and is then those names in order.
   */
  lemma {:induction false} TypeRecipesRead(items: seq<Json>, recipes: map<string, Recipe>)
    ensures ReadTypeRecipes(items, recipes).Ok? <==> forall i :: 0 <= i < |items| ==> AsText(items[i]) in recipes
    ensures ReadTypeRecipes(items, recipes).Ok? ==>
      var names := ReadTypeRecipes(items, recipes).value;
      |names| == |items| && forall i :: 0 <= i < |items| ==> names[i] == AsText(items[i])
  {
    if items != [] {
      var n := |items| - 1;
      TypeRecipesRead(items[..n], recipes);
      assert forall i :: 0 <= i < n ==> items[..n][i] == items[i];
    }
  }

  /** The first element that names no recipe decides the message: the loop throws there. */
  lemma FirstUndefinedRecipe(items: seq<Json>, recipes: map<string, Recipe>, i: nat)
    requires i < |items| && AsText(items[i]) !in recipes
    requires forall k :: 0 <= k < i ==> AsText(items[k]) in recipes
    ensures ReadTypeRecipes(items, recipes) == Err(UndefinedRecipe(AsText(items[i])))
  {
    var init := items[..i];
    assert forall k :: 0 <= k < i ==> init[k] == items[k];
    TypeRecipesRead(init, recipes);
    assert items[..i + 1][..i] == init;
    TypeRecipesErrStays(items, recipes, i + 1);
  }

  /** One element of the "types" array; `defined` holds the type names read before it. */
  function ReadType(j: Json, recipes: map<string, Recipe>, defined: set<string>): Result<BuildingType>
  {
    match (Field(j, "name"), Field(j, "recipes"))
    case (Some(n), Some(rs)) =>
      var name := AsText(n);
      if !Commands.NoQuote(name) then Err(SimulationException("Type name contains invalid character: " + name))
      else if name in defined then Err(SimulationException("Duplicate type name: " + name))
      else if !rs.JArray? then Err(SimulationException("Type recipes field is not an array for type: " + name))
      else
        (match ReadTypeRecipes(rs.items, recipes)
         case Err(e) => Err(e)
         case Ok(names) => Ok(BuildingType(name, names)))
    case _ => Err(SimulationException("Type missing required field(s)"))
  }

  /** The loop over the "types" array. */
  function ReadTypes(items: seq<Json>, recipes: map<string, Recipe>): Result<map<string, BuildingType>>
  {
    if items == [] then Ok(map[])
    else
      match ReadTypes(items[..|items| - 1], recipes)
      case Err(e) => Err(e)
      case Ok(m) =>
        match ReadType(items[|items| - 1], recipes, m.Keys)
        case Err(e) => Err(e)
        case Ok(t) => Ok(m[t.name := t])
  }

  /** `parseTypes` before its loop: the section must be present and an array. */
  function TypesSection(root: Json, recipes: map<string, Recipe>): Result<map<string, BuildingType>>
  {
    match Field(root, "types")
    case None => Err(SimulationException("Missing 'types' field"))
    case Some(a) => if !a.JArray? then Err(SimulationException("'types' field is not an array")) else ReadTypes(a.items, recipes)
  }

  lemma {:induction false} TypesErrStays(items: seq<Json>, recipes: map<string, Recipe>, i: nat)
    requires i <= |items| && ReadTypes(items[..i], recipes).Err?
    ensures ReadTypes(items, recipes) == ReadTypes(items[..i], recipes)
    decreases |items| - i
  {
    if i < |items| {
      assert items[..i + 1][..i] == items[..i];
      TypesErrStays(items, recipes, i + 1);
    } else {
      assert items[..i] == items;
    }
  }

  /** A type that is read keeps its name free of `'`, is new, and lists only defined recipes. */
  lemma TypeRead(j: Json, recipes: map<string, Recipe>, defined: set<string>)
    requires ReadType(j, recipes, defined).Ok?
    ensures var t := ReadType(j, recipes, defined).value;
      t.name == AsText(Field(j, "name").value) && Commands.NoQuote(t.name) && t.name !in defined &&
      forall rn :: rn in t.recipes ==> rn in recipes
  {
    TypeRecipesRead(Field(j, "recipes").value.items, recipes);
  }

  /**
   * Every type in a table read from the array is stored under its own name,
   * which holds no `'`, and lists only defined recipes; and the table has
   * one entry per element, so no two elements share a name.
   */
  lemma {:induction false} TypesRead(items: seq<Json>, recipes: map<string, Recipe>)
    requires ReadTypes(items, recipes).Ok?
    ensures var m := ReadTypes(items, recipes).value;
      |m| == |items| &&
      forall name :: name in m ==>
        m[name].name == name && Commands.NoQuote(name) && forall rn :: rn in m[name].recipes ==> rn in recipes
  {
    if items != [] {
      var n := |items| - 1;
      TypesRead(items[..n], recipes);
      TypeRead(items[n], recipes, ReadTypes(items[..n], recipes).value.Keys);
    }
  }

  /** An element naming a recipe that is not defined is refused with that name. */
  lemma UndefinedRecipeRejected(j: Json, recipes: map<string, Recipe>, defined: set<string>, i: nat)
    requires Field(j, "name").Some? && Field(j, "recipes").Some? && Field(j, "recipes").value.JArray?
    requires Commands.NoQuote(AsText(Field(j, "name").value)) && AsText(Field(j, "name").value) !in defined
    requires i < |Field(j, "recipes").value.items|
    requires AsText(Field(j, "recipes").value.items[i]) !in recipes
    requires forall k :: 0 <= k < i ==> AsText(Field(j, "recipes").value.items[k]) in recipes
    ensures ReadType(j, recipes, defined) == Err(UndefinedRecipe(AsText(Field(j, "recipes").value.items[i])))
  {
    FirstUndefinedRecipe(Field(j, "recipes").value.items, recipes, i);
  }

  /** The recipe list of one type. */
  method ParseTypeRecipes(items: seq<Json>, recipes: map<string, Recipe>) returns (r: Result<seq<string>>)
    ensures r == ReadTypeRecipes(items, recipes)
  {
    var names: seq<string> := [];
    var i := 0;
    while i < |items|
      invariant 0 <= i <= |items|
      invariant ReadTypeRecipes(items[..i], recipes) == Ok(names)
    {
      assert items[..i + 1][..i] == items[..i];
      var name := AsText(items[i]);
      if name !in recipes {
        TypeRecipesErrStays(items, recipes, i + 1);
        return Err(UndefinedRecipe(name));
      }
      names := names + [name];
      i := i + 1;
    }
    assert items[..i] == items;
    r := Ok(names);
  }

  /** `parseTypes`: the type table, or the first complaint. */
  method ParseTypes(root: Json, recipes: map<string, Recipe>) returns (r: Result<map<string, BuildingType>>)
    ensures r == TypesSection(root, recipes)
  {
    var section := Field(root, "types");
    if section.None? {
      return Err(SimulationException("Missing 'types' field"));
    }
    if !section.value.JArray? {
      return Err(SimulationException("'types' field is not an array"));
    }
    var items := section.value.items;
    var types: map<string, BuildingType> := map[];
    var i := 0;
    while i < |items|
      invariant 0 <= i <= |items|
      invariant ReadTypes(items[..i], recipes) == Ok(types)
    {
      var next := AddType(items, recipes, i, types);
      if next.Err? {
        TypesErrStays(items, recipes, i + 1);
        return next;
      }
      types := next.value;
      i := i + 1;
    }
    assert items[..i] == items;
    r := Ok(types);
  }

  /** One turn of the `parseTypes` loop: read element `i` and add it, unless it is refused. */
  method AddType(items: seq<Json>, recipes: map<string, Recipe>, i: nat, types: map<string, BuildingType>)
    returns (next: Result<map<string, BuildingType>>)
    requires i < |items| && ReadTypes(items[..i], recipes) == Ok(types)
    ensures next == ReadTypes(items[..i + 1], recipes)
  {
    assert items[..i + 1][..i] == items[..i];
    var t := ParseType(items[i], recipes, types.Keys);
    if t.Err? {
      return Err(t.error);
    }
    next := Ok(types[t.value.name := t.value]);
  }

  /** One element of the "types" array, as the Java loop body checks it. */
  method ParseType(j: Json, recipes: map<string, Recipe>, defined: set<string>) returns (r: Result<BuildingType>)
    ensures r == ReadType(j, recipes, defined)
  {
    var n := Field(j, "name");
    var rs := Field(j, "recipes");
    if n.None? || rs.None? {
      return Err(SimulationException("Type missing required field(s)"));
    }
    var name := AsText(n.value);
    if !Commands.NoQuote(name) {
      return Err(SimulationException("Type name contains invalid character: " + name));
    }
    if name in defined {
      return Err(SimulationException("Duplicate type name: " + name));
    }
    if !rs.value.JArray? {
      return Err(SimulationException("Type recipes field is not an array for type: " + name));
    }
    var names := ParseTypeRecipes(rs.value.items, recipes);
    if names.Err? {
      return Err(names.error);
    }
    r := Ok(BuildingType(name, names.value));
  }
}
