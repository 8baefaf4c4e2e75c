/**
 * The four kinds of building (BasicBuilding.java, MineBuilding.java,
 * FactoryBuilding.java, StorageBuilding.java, DroneBuilding.java) as one
 * value type with a closed variant for the kind-specific state.
 *
 * Every building is owned by the simulation's name-indexed table, and other
 * objects refer to it by `Site` (name, serial, location), so the in-place
 * updates of the Java objects become functions returning the updated value,
 * which the simulation stores back. This module holds the building-local
 * rules; the parts of a building's step that reach other buildings
 * (deliveries, drones, dispatch) live in the simulation module.
 */
module Buildings {
  import opened Wrappers
  import opened Grid
  import opened Recipes
  import opened Requests
  import opened Drones

  /** A storage priority as the exact rational num / den (den > 0 when parsed). */
  datatype Priority = Priority(num: int, den: int)

  datatype Kind =
    | Mine(mine: string, mineRecipe: Recipe)
    | Factory(typeName: string, typeRecipes: seq<string>)
    | Storage(storedItem: string, capacity: int, priority: Priority, outstanding: int)
    | DronePort(fleet: seq<Drone>)

  datatype Building = Building(
    name: string,
    serial: nat,
    sources: seq<string>,
    queue: seq<Request>,
    current: Option<Request>,
    remaining: int,
    storage: map<string, int>,
    location: Option<Coordinate>,
    marked: bool,
    kind: Kind)

  /** How other objects refer to this building. */
  function SiteOf(b: Building): Site
  {
    Site(b.name, b.serial, b.location)
  }

  // ------------------------------------------------------------ construction

  /**
   * The shared constructor: a copy of the source list, an empty queue, no
   * current request, nothing stored, no location, not marked for removal.
   */
  function NewBuilding(name: string, serial: nat, sources: seq<string>, kind: Kind): (b: Building)
    ensures b.name == name && b.serial == serial && b.sources == sources && b.kind == kind
    ensures b.queue == [] && b.current.None? && b.remaining == 0 && b.storage == map[]
    ensures b.location.None? && !b.marked
  {
    Building(name, serial, sources, [], None, 0, map[], None, false, kind)
  }

  /** `StorageBuilding`'s constructor starts with no outstanding requests. */
  function NewStorage(name: string, serial: nat, item: string, capacity: int, priority: Priority, sources: seq<string>): (b: Building)
    ensures b.kind.Storage? && b.kind.outstanding == 0 && b.kind.storedItem == item
    ensures b.kind.capacity == capacity && b.kind.priority == priority
    ensures b.queue == [] && b.current.None? && b.storage == map[] && b.sources == sources
  {
    NewBuilding(name, serial, sources, Storage(item, capacity, priority, 0))
  }

  /** A new drone port has no drones. */
  function NewDronePort(name: string, serial: nat, sources: seq<string>): (b: Building)
    ensures b.kind.DronePort? && b.kind.fleet == []
    ensures b.queue == [] && b.current.None? && b.storage == map[] && b.sources == sources
  {
    NewBuilding(name, serial, sources, DronePort([]))
  }

  // ------------------------------------------------------- shared behaviour

  /** `getQueueLength`: queued requests plus the one in progress. */
  function QueueLength(b: Building): nat
  {
    |b.queue| + (if b.current.Some? then 1 else 0)
  }

  /** `addRequest` of the basic, mine, factory and drone-port buildings: append. */
  function AddRequest(b: Building, r: Request): (b': Building)
    ensures b'.queue == b.queue + [r]
    ensures b' == b.(queue := b'.queue)
  {
    b.(queue := b.queue + [r])
  }

  /** A queue length of zero means an empty queue and nothing in progress; each added request counts once. */
  lemma QueueLengthFacts(b: Building, r: Request)
    ensures QueueLength(b) == 0 <==> b.queue == [] && b.current.None?
    ensures QueueLength(AddRequest(b, r)) == QueueLength(b) + 1
    ensures QueueLength(b) >= |b.queue|
  {
  }

  /** The stock of a storage building: its count of the stored item. */
  function Stock(b: Building): int
    requires b.kind.Storage?
  {
    GetOrZero(b.storage, b.kind.storedItem)
  }

  /**
   * `deliverItem`: the item's count grows by `quantity` (from 0 when absent)
   * and no other count changes. A storage building receiving its own item
   * also lowers its outstanding-request count by `quantity`, never below 0.
   */
  function DeliverItem(b: Building, item: string, quantity: int): (b': Building)
    ensures GetOrZero(b'.storage, item) == GetOrZero(b.storage, item) + quantity
    ensures forall k :: k != item ==> GetOrZero(b'.storage, k) == GetOrZero(b.storage, k)
    ensures b'.storage.Keys == b.storage.Keys + {item}
    ensures b.kind.Storage? && item == b.kind.storedItem ==>
      b'.kind == b.kind.(outstanding := if b.kind.outstanding - quantity < 0 then 0 else b.kind.outstanding - quantity)
    ensures !(b.kind.Storage? && item == b.kind.storedItem) ==> b'.kind == b.kind
    ensures b' == b.(storage := b'.storage, kind := b'.kind)
  {
    var kind :=
      if b.kind.Storage? && item == b.kind.storedItem then
        var o := b.kind.outstanding - quantity;
        b.kind.(outstanding := if o < 0 then 0 else o)
      else b.kind;
    b.(storage := b.storage[item := GetOrZero(b.storage, item) + quantity], kind := kind)
  }

  /** `addSource`: append a source name only when it is not already listed. */
  function AddSource(b: Building, s: string): (b': Building)
    ensures s in b'.sources
    ensures forall x :: x in b'.sources <==> x in b.sources || x == s
    ensures s in b.sources ==> b' == b
    ensures s !in b.sources ==> b'.sources == b.sources + [s]
    ensures NoDup(b.sources) ==> NoDup(b'.sources)
    ensures b' == b.(sources := b'.sources)
  {
    if s in b.sources then b else b.(sources := b.sources + [s])
  }

  /**
   * `canProduce` of each kind: a mine its mined item, a factory the recipes
   * of its type, a storage its stored item, a drone port only "drone".
   */
  predicate CanProduce(b: Building, item: string)
  {
    match b.kind
    case Mine(mine, _) => item == mine
    case Factory(_, recipes) => item in recipes
    case Storage(stored, _, _, _) => item == stored
    case DronePort(_) => item == "drone"
  }

  /** `getProvidedOutputs`: a fresh list; a drone port provides nothing. */
  function ProvidedOutputs(b: Building): seq<string>
  {
    match b.kind
    case Mine(mine, _) => [mine]
    case Factory(_, recipes) => recipes
    case Storage(stored, _, _, _) => [stored]
    case DronePort(_) => []
  }

  /**
   * Outside drone ports, a building can produce exactly what it lists as
   * provided outputs. A drone port can produce "drone" but lists nothing.
   */
  lemma ProvidedOutputsAgreeWithCanProduce(b: Building, item: string)
    ensures !b.kind.DronePort? ==> (CanProduce(b, item) <==> item in ProvidedOutputs(b))
    ensures b.kind.DronePort? ==> ProvidedOutputs(b) == [] && (CanProduce(b, item) <==> item == "drone")
    ensures b.kind.Mine? ==> ProvidedOutputs(b) == [b.kind.mine]
  {
  }

  /**
   * `canBeRemovedImmediately`: a storage building needs an empty queue, no
   * stock and no outstanding requests; every other kind needs an empty queue
   * and nothing in progress.
   */
  predicate CanBeRemovedImmediately(b: Building)
  {
    if b.kind.Storage? then b.queue == [] && Stock(b) == 0 && b.kind.outstanding == 0
    else b.queue == [] && b.current.None?
  }

  /** For every kind but storage, immediate removal is exactly a zero queue length. */
  lemma RemovableIffIdle(b: Building)
    requires !b.kind.Storage?
    ensures CanBeRemovedImmediately(b) <==> QueueLength(b) == 0
  {
  }

  /** `markForRemoval`: only the flag changes. */
  function MarkForRemoval(b: Building): (b': Building)
    ensures b'.marked && b' == b.(marked := true)
  {
    b.(marked := true)
  }

  /**
   * The dispatcher's score for a candidate source asked for `item`: a storage
   * building holding at least one `item` scores minus its stock, every other
   * candidate its queue length.
   */
  function Score(b: Building, item: string): int
  {
    if b.kind.Storage? && b.kind.storedItem == item && Stock(b) > 0 then -Stock(b) else QueueLength(b)
  }

  /** A storage holding the item beats every building scored by queue length. */
  lemma StockedStorageScoresBelowQueues(s: Building, b: Building, item: string)
    requires s.kind.Storage? && s.kind.storedItem == item && Stock(s) > 0
    requires !(b.kind.Storage? && b.kind.storedItem == item && Stock(b) > 0)
    ensures Score(s, item) < Score(b, item)
  {
  }

  // --------------------------------------------------- mine and factory steps

  /** The part of a step a mine or factory takes as `Option`-to-list. */
  function OptList(r: Option<Request>): (s: seq<Request>)
    ensures |s| <= 1
    ensures r.Some? ==> s == [r.value]
    ensures r.None? ==> s == []
  {
    if r.Some? then [r.value] else []
  }

  /**
   * First phase of a mine or factory step: the request in progress loses one
   * step; when that reaches 0 it is completed and returned, and the building
   * is free.
   */
  function Advance(b: Building): (r: (Building, Option<Request>))
    ensures r.1.Some? <==> b.current.Some? && b.remaining == 1
    ensures r.1.Some? ==> r.1.value == SetStatus(b.current.value, Completed) && r.0 == b.(current := None, remaining := 0)
    ensures b.current.Some? && b.remaining > 1 ==> r.0 == b.(remaining := b.remaining - 1)
    ensures !(b.current.Some? && b.remaining > 0) ==> r.0 == b
  {
    if b.current.Some? && b.remaining > 0 then
      if b.remaining - 1 == 0 then (b.(current := None, remaining := 0), Some(SetStatus(b.current.value, Completed)))
      else (b.(remaining := b.remaining - 1), None)
    else (b, None)
  }

  /** `MineBuilding.selectNextRequest`: strictly first in, first out. */
  function SelectFifo(queue: seq<Request>): (r: (Option<Request>, seq<Request>))
    ensures queue == [] ==> r.0.None? && r.1 == []
    ensures queue != [] ==> r.0 == Some(queue[0]) && r.1 == queue[1..]
  {
    if queue == [] then (None, []) else (Some(queue[0]), queue[1..])
  }

  /**
   * Second phase of a mine step. A free mine takes the head of its queue
   * with the mine recipe's latency. A latency-1 request completes at once
   * unless this step already completed one; otherwise it is in progress.
   */
  function MineStart(b: Building, processed: bool): (r: (Building, Option<Request>))
    requires b.kind.Mine?
  {
    if b.current.Some? || b.queue == [] then (b, None)
    else
      var (next, rest) := SelectFifo(b.queue);
      var latency := b.kind.mineRecipe.latency;
      var b1 := b.(queue := rest, remaining := latency);
      if !processed && latency == 1 then (b1.(current := None), Some(SetStatus(next.value, Completed)))
      else (b1.(current := Some(SetStatus(next.value, InProgress))), None)
  }

  datatype StepResult = StepResult(building: Building, completed: seq<Request>)

  /** A whole mine step, as `MineBuilding.step` leaves the mine and what it returns. */
  function MineStep(b: Building): StepResult
    requires b.kind.Mine?
  {
    var (b1, done) := Advance(b);
    var (b2, now) := MineStart(b1, done.Some?);
    StepResult(b2, OptList(done) + OptList(now))
  }

  /**
   * Mine step outcomes: at most one completion; an idle mine is unchanged;
   * a latency-1 head request of a free mine completes in the same step; a
   * request taken right after a completion, or with latency other than 1,
   * is left in progress with the full latency.
   */
  lemma MineStepFacts(b: Building)
    requires b.kind.Mine?
    ensures |MineStep(b).completed| <= 1
    ensures b.queue == [] && b.current.None? ==> MineStep(b) == StepResult(b, [])
    ensures b.current.None? && b.queue != [] && b.kind.mineRecipe.latency == 1 ==>
      MineStep(b).completed == [SetStatus(b.queue[0], Completed)] && MineStep(b).building.queue == b.queue[1..]
    ensures b.current.None? && b.queue != [] && b.kind.mineRecipe.latency != 1 ==>
      MineStep(b).completed == [] && MineStep(b).building.current == Some(SetStatus(b.queue[0], InProgress)) &&
      MineStep(b).building.remaining == b.kind.mineRecipe.latency
    ensures b.current.Some? && b.remaining == 1 && b.queue != [] ==>
      MineStep(b).completed == [SetStatus(b.current.value, Completed)] &&
      MineStep(b).building.current == Some(SetStatus(b.queue[0], InProgress))
    ensures MineStep(b).building.kind == b.kind && MineStep(b).building.storage == b.storage
  {
  }

  /** `n` consecutive mine steps. */
  function MineRun(b: Building, n: nat): Building
    requires b.kind.Mine?
    decreases n
  {
    if n == 0 then b else
      var b1 := MineStep(b).building;
      assert b1.kind == b.kind by { MineStepFacts(b); }
      MineRun(b1, n - 1)
  }

  /**
   * A request in progress with `k` >= 1 steps left stays the current request
   * for the next k - 1 steps, and the k-th step returns it completed.
   */
  lemma {:induction false} MineCompletesAfter(b: Building, k: nat, n: nat)
    requires b.kind.Mine? && b.current.Some? && b.remaining == k >= 1
    requires n < k
    ensures MineRun(b, n).kind == b.kind
    ensures MineRun(b, n).current == b.current && MineRun(b, n).remaining == k - n
    ensures n == k - 1 ==> MineStep(MineRun(b, n)).completed[0] == SetStatus(b.current.value, Completed)
    decreases n
  {
    if n > 0 {
      var b1 := MineStep(b).building;
      MineStepFacts(b);
      assert b1 == b.(remaining := k - 1);
      MineCompletesAfter(b1, k - 1, n - 1);
    }
  }

  /** All ingredients are held in at least the required amounts. */
  predicate IsReady(storage: map<string, int>, ingredients: map<string, int>)
  {
    forall k :: k in ingredients ==> GetOrZero(storage, k) >= ingredients[k]
  }

  /** The index of the first queued request whose recipe is ready. */
  function FirstReady(queue: seq<Request>, storage: map<string, int>): (r: Option<nat>)
    ensures r.Some? ==> r.value < |queue| && IsReady(storage, queue[r.value].recipe.ingredients)
    ensures r.Some? ==> forall j :: 0 <= j < r.value ==> !IsReady(storage, queue[j].recipe.ingredients)
    ensures r.None? ==> forall j :: 0 <= j < |queue| ==> !IsReady(storage, queue[j].recipe.ingredients)
  {
    if queue == [] then None
    else if IsReady(storage, queue[0].recipe.ingredients) then Some(0)
    else match FirstReady(queue[1..], storage)
      case None => None
      case Some(k) => Some(k + 1)
  }

  /** The factory's ingredient check: one pass over the recipe's entries, stopping at the first shortfall. */
  method CheckReady(storage: map<string, int>, ingredients: map<string, int>) returns (ready: bool)
    ensures ready <==> IsReady(storage, ingredients)
  {
    var entries := EnumerateSet(ingredients.Keys);
    ready := true;
    var i := 0;
    while i < |entries|
      invariant 0 <= i <= |entries|
      invariant forall j :: 0 <= j < i ==> GetOrZero(storage, entries[j]) >= ingredients[entries[j]]
    {
      var ingredient := entries[i];
      if GetOrZero(storage, ingredient) < ingredients[ingredient] {
        ready := false;
        assert !IsReady(storage, ingredients);
        return;
      }
      i := i + 1;
    }
    forall k | k in ingredients
      ensures GetOrZero(storage, k) >= ingredients[k]
    {
      assert k in (set x | x in entries);
      var j :| 0 <= j < |entries| && entries[j] == k;
    }
  }

  /**
   * `FactoryBuilding.selectNextRequest`: remove and return the first ready
   * request; the others keep their order. With none ready, nothing changes.
   */
  method SelectReady(queue: seq<Request>, storage: map<string, int>) returns (selected: Option<Request>, rest: seq<Request>)
    ensures FirstReady(queue, storage).None? ==> selected.None? && rest == queue
    ensures FirstReady(queue, storage).Some? ==>
      var i := FirstReady(queue, storage).value;
      selected == Some(queue[i]) && rest == queue[..i] + queue[i + 1..]
  {
    var i := 0;
    while i < |queue|
      invariant 0 <= i <= |queue|
      invariant forall j :: 0 <= j < i ==> !IsReady(storage, queue[j].recipe.ingredients)
    {
      var ready := CheckReady(storage, queue[i].recipe.ingredients);
      if ready {
        FirstReadyIs(queue, storage, i);
        selected := Some(queue[i]);
        rest := queue[..i] + queue[i + 1..];
        return;
      }
      i := i + 1;
    }
    FirstReadyNone(queue, storage);
    selected := None;
    rest := queue;
  }

  lemma {:induction false} FirstReadyIs(queue: seq<Request>, storage: map<string, int>, i: nat)
    requires i < |queue| && IsReady(storage, queue[i].recipe.ingredients)
    requires forall j :: 0 <= j < i ==> !IsReady(storage, queue[j].recipe.ingredients)
    ensures FirstReady(queue, storage) == Some(i)
  {
    if i > 0 {
      FirstReadyIs(queue[1..], storage, i - 1);
    }
  }

  lemma {:induction false} FirstReadyNone(queue: seq<Request>, storage: map<string, int>)
    requires forall j :: 0 <= j < |queue| ==> !IsReady(storage, queue[j].recipe.ingredients)
    ensures FirstReady(queue, storage).None?
  {
    if queue != [] {
      FirstReadyNone(queue[1..], storage);
    }
  }

  /** The storage after a factory takes the ingredients of a recipe: each ingredient count drops by its amount. */
  function Consume(storage: map<string, int>, ingredients: map<string, int>): (s: map<string, int>)
    ensures s.Keys == storage.Keys + ingredients.Keys
    ensures forall k :: k in ingredients ==> s[k] == GetOrZero(storage, k) - ingredients[k]
    ensures forall k :: k in storage && k !in ingredients ==> s[k] == storage[k]
  {
    map k | k in storage.Keys + ingredients.Keys :: if k in ingredients then GetOrZero(storage, k) - ingredients[k] else storage[k]
  }

  /** Consuming a ready recipe from non-negative counts leaves every count non-negative. */
  lemma ConsumeReadyStaysNonNegative(storage: map<string, int>, ingredients: map<string, int>)
    requires IsReady(storage, ingredients)
    requires forall k :: k in storage ==> storage[k] >= 0
    ensures forall k :: k in Consume(storage, ingredients) ==> Consume(storage, ingredients)[k] >= 0
  {
  }

  /** The storage part-way through the consumption loop, once the ingredients in `done` are taken. */
  ghost predicate PartlyConsumed(s: map<string, int>, storage: map<string, int>, ingredients: map<string, int>, done: seq<string>)
  {
    (forall k :: k in done ==> k in ingredients) &&
    (forall k :: k in s <==> k in storage || k in done) &&
    (forall k :: k in s ==> s[k] == if k in done then GetOrZero(storage, k) - ingredients[k] else storage[k])
  }

  /** Taking the next entry's amount extends the loop invariant by that entry. */
  lemma PartlyConsumedStep(s: map<string, int>, storage: map<string, int>, ingredients: map<string, int>, entries: seq<string>, i: nat)
    requires Enumerates(entries, ingredients.Keys) && i < |entries|
    requires PartlyConsumed(s, storage, ingredients, entries[..i])
    ensures PartlyConsumed(s[entries[i] := GetOrZero(s, entries[i]) - ingredients[entries[i]]], storage, ingredients, entries[..i + 1])
  {
    var ingredient := entries[i];
    assert ingredient in ingredients by {
      assert ingredient in (set x | x in entries);
    }
    assert ingredient !in entries[..i];
    assert GetOrZero(s, ingredient) == GetOrZero(storage, ingredient);
    Snoc(entries, i);
  }

  /** Once every entry is taken, the loop's storage is `Consume`'s. */
  lemma PartlyConsumedAll(s: map<string, int>, storage: map<string, int>, ingredients: map<string, int>, entries: seq<string>)
    requires Enumerates(entries, ingredients.Keys)
    requires PartlyConsumed(s, storage, ingredients, entries)
    ensures s == Consume(storage, ingredients)
  {
    forall k
      ensures k in entries <==> k in ingredients
    {
      assert k in entries <==> k in (set x | x in entries);
    }
  }

  /** The factory's consumption loop over the recipe's entries. */
  method ConsumeIngredients(storage: map<string, int>, ingredients: map<string, int>) returns (s: map<string, int>)
    ensures s == Consume(storage, ingredients)
  {
    var entries := EnumerateSet(ingredients.Keys);
    s := storage;
    var i := 0;
    while i < |entries|
      invariant 0 <= i <= |entries|
      invariant PartlyConsumed(s, storage, ingredients, entries[..i])
    {
      var ingredient := entries[i];
      PartlyConsumedStep(s, storage, ingredients, entries, i);
      s := s[ingredient := GetOrZero(s, ingredient) - ingredients[ingredient]];
      i := i + 1;
    }
    assert entries[..i] == entries;
    PartlyConsumedAll(s, storage, ingredients, entries);
  }

  /**
   * Second phase of a factory step. A free factory takes the first ready
   * request with its recipe's latency. Right after a completion the new
   * request is only installed: no status change, no consumption. Otherwise
   * a latency-1 request completes at once without consuming anything, and
   * any other is set in progress and its ingredients are taken.
   */
  function FactoryStart(b: Building, processed: bool): (Building, Option<Request>)
  {
    if b.current.Some? then (b, None)
    else match FirstReady(b.queue, b.storage)
      case None => (b, None)
      case Some(i) =>
        var next := b.queue[i];
        var latency := next.recipe.latency;
        var b1 := b.(queue := b.queue[..i] + b.queue[i + 1..], current := Some(next), remaining := latency);
        if processed then (b1, None)
        else if latency == 1 then (b1.(current := None), Some(SetStatus(next, Completed)))
        else (b1.(current := Some(SetStatus(next, InProgress)), storage := Consume(b.storage, next.recipe.ingredients)), None)
  }

  /** A whole factory step, as `FactoryBuilding.step` leaves the factory and what it returns. */
  function FactoryStep(b: Building): StepResult
  {
    var (b1, done) := Advance(b);
    var (b2, now) := FactoryStart(b1, done.Some?);
    StepResult(b2, OptList(done) + OptList(now))
  }

  /**
   * Factory step outcomes: at most one completion per step; a ready request
   * selected by a free factory with latency 1 completes in that step; with a
   * longer latency its ingredients are taken in exactly the recipe amounts;
   * a request selected right after a completion is installed unchanged and
   * nothing is consumed; with nothing ready the factory only advances.
   */
  lemma FactoryStepFacts(b: Building)
    ensures |FactoryStep(b).completed| <= 1
    ensures FactoryStep(b).building.kind == b.kind && FactoryStep(b).building.sources == b.sources
    ensures b.current.None? && FirstReady(b.queue, b.storage).None? ==> FactoryStep(b) == StepResult(b, [])
    ensures b.current.None? && FirstReady(b.queue, b.storage).Some? ==>
      var i := FirstReady(b.queue, b.storage).value;
      var r := b.queue[i];
      FactoryStep(b).building.queue == b.queue[..i] + b.queue[i + 1..] &&
      (r.recipe.latency == 1 ==> FactoryStep(b).completed == [SetStatus(r, Completed)] && FactoryStep(b).building.storage == b.storage) &&
      (r.recipe.latency != 1 ==> (FactoryStep(b).completed == [] &&
        FactoryStep(b).building.current == Some(SetStatus(r, InProgress)) &&
        FactoryStep(b).building.storage == Consume(b.storage, r.recipe.ingredients)))
    ensures b.current.Some? && b.remaining == 1 ==>
      FactoryStep(b).completed[0] == SetStatus(b.current.value, Completed) &&
      FactoryStep(b).building.storage == b.storage &&
      (FirstReady(b.queue, b.storage).Some? ==>
        FactoryStep(b).building.current == Some(b.queue[FirstReady(b.queue, b.storage).value]))
  {
  }

  /** `n` consecutive factory steps. */
  function FactoryRun(b: Building, n: nat): Building
    decreases n
  {
    if n == 0 then b else FactoryRun(FactoryStep(b).building, n - 1)
  }

  /**
   * A request in progress with `k` >= 1 steps left stays the factory's
   * current request for the next k - 1 steps, and the k-th step returns it
   * completed; the storage does not change meanwhile.
   */
  lemma {:induction false} FactoryCompletesAfter(b: Building, k: nat, n: nat)
    requires b.current.Some? && b.remaining == k >= 1
    requires n < k
    ensures FactoryRun(b, n).current == b.current && FactoryRun(b, n).remaining == k - n
    ensures FactoryRun(b, n).storage == b.storage
    ensures n == k - 1 ==> FactoryStep(FactoryRun(b, n)).completed[0] == SetStatus(b.current.value, Completed)
    decreases n
  {
    if n > 0 {
      var b1 := FactoryStep(b).building;
      assert b1 == b.(remaining := k - 1);
      FactoryCompletesAfter(b1, k - 1, n - 1);
    }
  }

  // ------------------------------------------------------------ storage rules

  /** Ceiling of a / d for d != 0. */
  function CeilDiv(a: int, d: int): int
    requires d != 0
  {
    if d > 0 then -((-a) / d) else -((a) / (-d))
  }

  /** The ceiling is the least q with q * d >= a (for a positive divisor). */
  lemma CeilDivIsLeast(a: int, d: int)
    requires d > 0
    ensures CeilDiv(a, d) * d >= a
    ensures (CeilDiv(a, d) - 1) * d < a
  {
    var q := (-a) / d;
    var r := (-a) % d;
    assert -a == q * d + r && 0 <= r < d;
    assert CeilDiv(a, d) == -q;
    assert -q * d == a + r;
  }

  const IntMax: int := 0x7fff_ffff
  const IntMin: int := -0x8000_0000

  /** Java's `(int)` cast of a double: saturates at the 32-bit bounds. */
  function SaturatingInt(x: int): (r: int)
    ensures IntMin <= r <= IntMax
    ensures IntMin <= x <= IntMax ==> r == x
  {
    if x > IntMax then IntMax else if x < IntMin then IntMin else x
  }

  /**
   * `calculateRemainingSpace`: R = capacity - stock - outstanding + queued
   * requests (+ 1 for a request in progress, which storage never has).
   */
  function RemainingSpace(b: Building): int
    requires b.kind.Storage?
  {
    b.kind.capacity - Stock(b) - b.kind.outstanding + QueueLength(b)
  }

  /**
   * `calculateRequestFrequency`: 0 when R <= 0, otherwise
   * ceil(capacity / (2 * R * priority)). With priority num / den the
   * quotient is capacity * den / (2 * R * num). A zero priority divides by
   * zero in floating point: +infinity, -infinity or NaN, cast to the int
   * bounds or 0.
   */
  function RequestFrequency(b: Building): int
    requires b.kind.Storage? && b.kind.priority.den > 0
  {
    var r := RemainingSpace(b);
    var p := b.kind.priority;
    var cap := b.kind.capacity;
    if r <= 0 then 0
    else if p.num == 0 then (if cap > 0 then IntMax else if cap < 0 then IntMin else 0)
    else SaturatingInt(CeilDiv(cap * p.den, 2 * r * p.num))
  }

  /** `shouldMakeRequest`: a non-zero frequency that divides the time step. */
  predicate ShouldMakeRequest(b: Building, t: int)
    requires b.kind.Storage? && b.kind.priority.den > 0
  {
    RequestFrequency(b) != 0 && t % RequestFrequency(b) == 0
  }

  /**
   * The replenishment rule: never when R <= 0; for a positive priority and
   * R > 0, exactly on the multiples of the least f with 2 * R * num * f >=
   * capacity * den (when that f fits in an int).
   */
  lemma ReplenishmentRule(b: Building, t: int)
    requires b.kind.Storage? && b.kind.priority.den > 0
    ensures RemainingSpace(b) <= 0 ==> !ShouldMakeRequest(b, t)
    ensures RemainingSpace(b) > 0 && b.kind.priority.num > 0 ==>
      var d := 2 * RemainingSpace(b) * b.kind.priority.num;
      var f := CeilDiv(b.kind.capacity * b.kind.priority.den, d);
      f * d >= b.kind.capacity * b.kind.priority.den &&
      (f - 1) * d < b.kind.capacity * b.kind.priority.den &&
      (IntMin <= f <= IntMax ==> (ShouldMakeRequest(b, t) <==> f != 0 && t % f == 0))
  {
    if RemainingSpace(b) > 0 && b.kind.priority.num > 0 {
      var d := 2 * RemainingSpace(b) * b.kind.priority.num;
      assert d > 0 by {
        var r := RemainingSpace(b);
        assert 2 * r > 0;
        MulPositive(2 * r, b.kind.priority.num);
      }
      CeilDivIsLeast(b.kind.capacity * b.kind.priority.den, d);
    }
  }

  lemma MulPositive(a: int, b: int)
    requires a > 0 && b > 0
    ensures a * b > 0
  {
  }

  /**
   * `StorageBuilding.addRequest` without its delivery: a request for another
   * item is refused; any other is appended, and when stock is positive one
   * unit is taken and the request is marked completed (`fast` is then true).
   */
  function StorageAccept(b: Building, r: Request): (res: Result<(Building, bool)>)
    requires b.kind.Storage?
    ensures r.recipe.output != b.kind.storedItem ==> res.Err?
    ensures r.recipe.output == b.kind.storedItem ==> res.Ok?
    ensures res.Ok? ==> (res.value.1 <==> Stock(b) > 0)
    ensures res.Ok? && Stock(b) > 0 ==>
      res.value.0 == b.(queue := b.queue + [SetStatus(r, Completed)],
                        storage := b.storage[b.kind.storedItem := Stock(b) - 1])
    ensures res.Ok? && Stock(b) <= 0 ==> res.value.0 == b.(queue := b.queue + [r])
  {
    if r.recipe.output != b.kind.storedItem then
      Err(RuntimeFailure("Storage building " + b.name + " cannot store item type: " + r.recipe.output))
    else if Stock(b) > 0 then
      Ok((b.(queue := b.queue + [SetStatus(r, Completed)], storage := b.storage[b.kind.storedItem := Stock(b) - 1]), true))
    else Ok((b.(queue := b.queue + [r]), false))
  }

  /** The completed requests of a queue, in order. */
  function CompletedOf(q: seq<Request>): seq<Request>
  {
    if q == [] then []
    else (if q[0].status == Completed then [q[0]] else []) + CompletedOf(q[1..])
  }

  /** The requests of a queue that are not completed, in order. */
  function PendingOf(q: seq<Request>): seq<Request>
  {
    if q == [] then []
    else (if q[0].status == Completed then [] else [q[0]]) + PendingOf(q[1..])
  }

  /** The two parts split the queue: nothing is lost or duplicated, and each part has the right statuses. */
  lemma {:induction false} PartitionFacts(q: seq<Request>)
    ensures multiset(CompletedOf(q)) + multiset(PendingOf(q)) == multiset(q)
    ensures forall r :: r in CompletedOf(q) ==> r.status == Completed
    ensures forall r :: r in PendingOf(q) ==> r.status != Completed
  {
    if q != [] {
      PartitionFacts(q[1..]);
      assert q == [q[0]] + q[1..];
    }
  }

  lemma {:induction false} PartitionAppend(q: seq<Request>, r: Request)
    ensures CompletedOf(q + [r]) == CompletedOf(q) + (if r.status == Completed then [r] else [])
    ensures PendingOf(q + [r]) == PendingOf(q) + (if r.status == Completed then [] else [r])
  {
    var t := q + [r];
    if q == [] {
      assert t == [r] && t[1..] == [];
    } else {
      assert t[0] == q[0];
      assert t[1..] == q[1..] + [r];
      PartitionAppend(q[1..], r);
    }
  }

  /** First phase of a storage step: the iterator loop that moves completed requests out of the queue. */
  method DrainCompleted(q: seq<Request>) returns (done: seq<Request>, rest: seq<Request>)
    ensures done == CompletedOf(q) && rest == PendingOf(q)
  {
    done := [];
    rest := [];
    var i := 0;
    while i < |q|
      invariant 0 <= i <= |q|
      invariant done == CompletedOf(q[..i]) && rest == PendingOf(q[..i])
    {
      Snoc(q, i);
      PartitionAppend(q[..i], q[i]);
      if q[i].status == Completed {
        done := done + [q[i]];
      } else {
        rest := rest + [q[i]];
      }
      i := i + 1;
    }
    assert q[..i] == q;
  }

  /** Every request of a list marked completed. */
  function MarkCompleted(q: seq<Request>): (r: seq<Request>)
    ensures |r| == |q|
    ensures forall i :: 0 <= i < |q| ==> r[i] == SetStatus(q[i], Completed)
  {
    if q == [] then [] else [SetStatus(q[0], Completed)] + MarkCompleted(q[1..])
  }

  /** How many pending requests the stock can serve. */
  function Served(stock: int, pending: nat): (k: nat)
    ensures k <= pending
    ensures stock <= 0 ==> k == 0
    ensures stock > 0 ==> k <= stock && (k == stock || k == pending)
  {
    if stock <= 0 then 0 else if stock < pending then stock else pending
  }

  /**
   * The first two phases of a storage step (the third, replenishment,
   * dispatches requests and lives in the simulation): completed requests
   * are returned first, then queued requests are served in order while
   * stock lasts, one unit each.
   */
  function StorageDrain(b: Building): StepResult
    requires b.kind.Storage?
  {
    var done := CompletedOf(b.queue);
    var rest := PendingOf(b.queue);
    var k := Served(Stock(b), |rest|);
    var storage := if k > 0 then b.storage[b.kind.storedItem := Stock(b) - k] else b.storage;
    StepResult(b.(queue := rest[k..], storage := storage), done + MarkCompleted(rest[..k]))
  }

  /**
   * Storage drain outcomes: every returned request is completed; no request
   * is lost or duplicated between queue and result; the served requests are
   * the first pending ones; stock drops by one per served request and never
   * goes below 0; either every pending request was served or the stock is
   * used up.
   */
  lemma StorageDrainFacts(b: Building)
    requires b.kind.Storage?
    ensures var r := StorageDrain(b);
      (forall x :: x in r.completed ==> x.status == Completed) &&
      |r.completed| + |r.building.queue| == |b.queue| &&
      r.building.queue == PendingOf(b.queue)[|PendingOf(b.queue)| - |r.building.queue|..] &&
      Stock(r.building) == Stock(b) - (|PendingOf(b.queue)| - |r.building.queue|) &&
      (Stock(b) >= 0 ==> Stock(r.building) >= 0) &&
      (r.building.queue == [] || Stock(r.building) <= 0)
    ensures StorageDrain(b).building.kind == b.kind
  {
    StorageDrainCompleted(b);
    StorageDrainCounts(b);
  }

  /** Every request a storage drain returns is completed. */
  lemma StorageDrainCompleted(b: Building)
    requires b.kind.Storage?
    ensures forall x :: x in StorageDrain(b).completed ==> x.status == Completed
  {
    PartitionFacts(b.queue);
    var done := CompletedOf(b.queue);
    var rest := PendingOf(b.queue);
    var k := Served(Stock(b), |rest|);
    forall x | x in StorageDrain(b).completed
      ensures x.status == Completed
    {
      if x !in done {
        var i :| 0 <= i < k && MarkCompleted(rest[..k])[i] == x;
      }
    }
  }

  /** A storage drain keeps every request and takes one unit of stock per request served. */
  lemma StorageDrainCounts(b: Building)
    requires b.kind.Storage?
    ensures var r := StorageDrain(b);
      |r.completed| + |r.building.queue| == |b.queue| &&
      r.building.queue == PendingOf(b.queue)[|PendingOf(b.queue)| - |r.building.queue|..] &&
      Stock(r.building) == Stock(b) - (|PendingOf(b.queue)| - |r.building.queue|) &&
      (Stock(b) >= 0 ==> Stock(r.building) >= 0) &&
      (r.building.queue == [] || Stock(r.building) <= 0)
    ensures StorageDrain(b).building.kind == b.kind
  {
    PartitionFacts(b.queue);
    var done := CompletedOf(b.queue);
    var rest := PendingOf(b.queue);
    assert |multiset(done)| + |multiset(rest)| == |multiset(b.queue)|;
  }

  /**
   * `StorageBuilding.processIngredients`' guard: a completed user request for
   * the item is waiting in the queue, so no new supply request is made.
   */
  predicate HasCompletedUserRequest(b: Building, item: string)
  {
    exists r :: r in b.queue && r.isUser && r.status == Completed && r.recipe.output == item
  }
}
