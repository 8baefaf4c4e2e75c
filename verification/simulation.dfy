/**
 * The simulation object (BasicSimulation.java): the clock, the building
 * table, the request-id counter, the user requests still open, the delayed
 * deliveries and the road map; the time step and its driver loops, and the
 * user commands that build, remove, connect and request.
 *
 * Buildings are values in the name-indexed table (see the buildings
 * module). A user request is recorded in `userRequests` by its id: Java
 * removes it by object identity, and ids are unique because they come from
 * the post-increment counter.
 */
module Simulations {
  import opened Wrappers
  import opened Grid
  import opened Recipes
  import opened Requests
  import opened Buildings
  import opened TopologicalOrder
  import opened RoadNetwork
  import opened Logistics
  import opened Ticks
  import opened Naming

  // ------------------------------------------------------ buildable types

  /**
   * `BuildableType`: a type label ("factory", "storage", "mine", "drone")
   * and the fields of its JSON info object the builder reads, each absent
   * when the object lacks it.
   */
  datatype Buildable = Buildable(
    category: string,
    recipeNames: Option<seq<string>>,
    stores: Option<string>,
    capacity: Option<int>,
    priority: Option<Priority>,
    mine: Option<string>)

  /** The exception `JSONObject` throws for a missing key. */
  function MissingKey(key: string): Failure
  {
    RuntimeFailure("JSONObject[\"" + key + "\"] not found.")
  }

  /**
   * The switch of `buildBuilding` on the type label: the new building,
   * named `name`, without sources or location.
   */
  function Construct(t: Buildable, name: string, serial: nat, recipes: map<string, Recipe>): (r: Result<Building>)
    ensures r.Ok? ==> r.value.name == name && r.value.serial == serial && r.value.sources == []
    ensures r.Ok? ==> r.value.queue == [] && r.value.current.None? && r.value.storage == map[]
    ensures r.Ok? ==> r.value.location.None? && !r.value.marked
    ensures r.Ok? && r.value.kind.Storage? ==> r.value.kind.outstanding == 0 && Some(r.value.kind.priority) == t.priority
    ensures t.category !in {"factory", "storage", "mine", "drone"} ==> r == Err(SimulationException("Unknown building type: " + t.category))
  {
    if t.category == "factory" then
      if t.recipeNames.None? then Err(MissingKey("recipes"))
      else Ok(NewBuilding(name, serial, [], Factory(name, t.recipeNames.value)))
    else if t.category == "storage" then
      if t.stores.None? then Err(MissingKey("stores"))
      else if t.capacity.None? then Err(MissingKey("capacity"))
      else if t.priority.None? then Err(MissingKey("priority"))
      else Ok(NewStorage(name, serial, t.stores.value, t.capacity.value, t.priority.value, []))
    else if t.category == "mine" then
      if t.mine.None? then Err(MissingKey("mine"))
      else if t.mine.value !in recipes then
        Err(SimulationException("Recipe for mined item '" + t.mine.value + "' does not exist"))
      else Ok(NewBuilding(name, serial, [], Mine(t.mine.value, recipes[t.mine.value])))
    else if t.category == "drone" then Ok(NewDronePort(name, serial, []))
    else Err(SimulationException("Unknown building type: " + t.category))
  }

  // ------------------------------------------------------------ the table

  /**
   * The building table: keyed by building name, every serial below the next
   * one to hand out, every storage priority a proper fraction.
   */
  ghost predicate Registry(buildings: map<string, Building>, nextSerial: nat)
  {
    PrioritiesOk(buildings) &&
    forall n :: n in buildings ==> buildings[n].name == n && buildings[n].serial < nextSerial
  }

  lemma TickedRegistry(p: Plant, p': Plant, nextSerial: nat)
    requires Ticked(p, p') && Registry(p.buildings, nextSerial)
    ensures Registry(p'.buildings, nextSerial)
  {
    TickedKeepsPriorities(p, p');
    forall n | n in p'.buildings
      ensures p'.buildings[n].name == n && p'.buildings[n].serial < nextSerial
    {
      assert Persists(p.buildings[n], p'.buildings[n]);
    }
  }

  lemma FleetsOnlyRegistry(bs: map<string, Building>, bs': map<string, Building>, nextSerial: nat)
    requires FleetsOnly(bs, bs') && Registry(bs, nextSerial)
    ensures Registry(bs', nextSerial)
    ensures forall n :: n in bs ==> bs'[n].queue == bs[n].queue && SiteOf(bs'[n]) == SiteOf(bs[n])
  {
  }

  /** A building `checkBuildingsMarkedForRemoval` removes: flagged, and now removable. */
  predicate Doomed(b: Building)
  {
    b.marked && CanBeRemovedImmediately(b)
  }

  /** The table once every doomed building has gone. */
  function Survivors(buildings: map<string, Building>): (r: map<string, Building>)
    ensures forall n :: n in r <==> n in buildings && !Doomed(buildings[n])
    ensures forall n :: n in r ==> r[n] == buildings[n]
  {
    map n | n in buildings && !Doomed(buildings[n]) :: buildings[n]
  }

  /** The doomed buildings' names, in the table's iteration order. */
  method DoomedNames(buildings: map<string, Building>) returns (doomed: seq<string>)
    ensures NoDup(doomed)
    ensures forall n :: n in doomed <==> n in buildings && Doomed(buildings[n])
  {
    var names := EnumerateSet(buildings.Keys);
    doomed := [];
    var i := 0;
    while i < |names|
      invariant 0 <= i <= |names|
      invariant forall n :: n in doomed <==> n in names[..i] && Doomed(buildings[n])
      invariant NoDup(doomed)
    {
      Snoc(names, i);
      if Doomed(buildings[names[i]]) {
        assert names[i] !in names[..i] by {
          assert forall j :: 0 <= j < i ==> names[j] != names[i];
        }
        NoDupAppend(doomed, [names[i]]);
        doomed := doomed + [names[i]];
      }
      i := i + 1;
    }
    assert names[..i] == names;
  }

  /** A road-map connection that starts or ends at the building `s` refers to. */
  predicate Touches(c: Connection, s: Site)
  {
    c.source == s || c.dest == s
  }

  /** The connections of `cs` that touch `s`, in order. */
  method TouchingConnections(cs: seq<Connection>, s: Site) returns (ts: seq<Connection>)
    ensures forall c :: c in ts <==> c in cs && Touches(c, s)
  {
    ts := [];
    var i := 0;
    while i < |cs|
      invariant 0 <= i <= |cs|
      invariant forall c :: c in ts <==> c in cs[..i] && Touches(c, s)
    {
      Snoc(cs, i);
      if Touches(cs[i], s) {
        ts := ts + [cs[i]];
      }
      i := i + 1;
    }
    assert cs[..i] == cs;
  }

  // -------------------------------------------------------- user requests

  /** The `StringBuilder` of collected error messages. */
  function Join(errors: seq<string>): string
  {
    if errors == [] then "" else Join(errors[..|errors| - 1]) + errors[|errors| - 1]
  }

  /** Every collected message is non-empty, so the joined text is empty exactly when none was collected. */
  lemma {:induction false} JoinEmpty(errors: seq<string>)
    requires forall i :: 0 <= i < |errors| ==> errors[i] != ""
    ensures Join(errors) == "" <==> errors == []
    decreases |errors|
  {
    if errors != [] {
      var last := errors[|errors| - 1];
      assert last != "";
      assert |Join(errors)| >= |last| > 0;
    }
  }

  /**
   * The user-request list after a tick: for each completed request, in
   * order, a user request leaves the list (`List.remove` drops the first
   * occurrence of its id).
   */
  function Drop(open: seq<int>, completed: seq<Request>): seq<int>
  {
    if completed == [] then open
    else
      var r := completed[|completed| - 1];
      var rest := Drop(open, completed[..|completed| - 1]);
      if r.isUser then RemoveFirst(rest, r.id) else rest
  }

  /**
   * Dropping only removes entries, keeps a duplicate-free list so, keeps
   * every request that was not completed, and, when ids are unique, leaves
   * no completed user request behind.
   */
  lemma {:induction false} DropFacts(open: seq<int>, completed: seq<Request>)
    ensures forall id :: id in Drop(open, completed) ==> id in open
    ensures forall id :: id in open && (forall r :: r in completed && r.isUser ==> r.id != id) ==>
      id in Drop(open, completed)
    ensures NoDup(open) ==> NoDup(Drop(open, completed))
    ensures NoDup(open) ==> forall r :: r in completed && r.isUser ==> r.id !in Drop(open, completed)
    decreases |completed|
  {
    if completed != [] {
      var init := completed[..|completed| - 1];
      var r := completed[|completed| - 1];
      DropFacts(open, init);
      var rest := Drop(open, init);
      assert forall q :: q in init ==> q in completed;
      assert completed == init + [r];
      if NoDup(open) {
        if r.isUser {
          RemoveFirstNoDup(rest, r.id);
          RemoveFirstAbsent(rest, r.id);
        }
      }
    }
  }

  /** The source graph `getTopOrder` reads: each building's source list. */
  function SourceGraph(bs: map<string, Building>): map<string, seq<string>>
  {
    map n | n in bs :: bs[n].sources
  }

  /**
   * What `getTopOrder` promises of the order it returns for the table: each
   * building at most once and only present ones, every building after its
   * present sources, and every building left out blocked by a source that
   * is left out too.
   */
  ghost predicate TopOrdered(order: seq<string>, bs: map<string, Building>)
  {
    NoDup(order) && (forall x :: x in order ==> x in bs) &&
    SourcesFirst(order, SourceGraph(bs)) && BlockedUnlisted(order, SourceGraph(bs))
  }

  /** The request `handleRequestCommand` creates: a user request with no requestor. */
  predicate UserRequestFor(r: Request, id: int, recipe: Recipe, time: int)
  {
    r.id == id && r.recipe == recipe && r.requestor.None? && r.isUser && r.timeRequested == time
  }

  /** The user request for `item` that `handleRequestCommand` creates, with the counter's current value. */
  function UserRequest(recipes: map<string, Recipe>, time: int, item: string, p: Plant): (r: Request)
    requires item in recipes
    ensures UserRequestFor(r, p.nextId, recipes[item], time) && r.status == WaitingForIngredients
  {
    NewRequest(p.nextId, recipes[item], None, true, time)
  }

  /**
   * The user request was admitted by building `name`, taking the counter's
   * value: `mid` is the plant right after `addRequest`.
   */
  ghost predicate Admitted(recipes: map<string, Recipe>, time: int, name: string, item: string, p: Plant, mid: Plant)
  {
    name in p.buildings && item in recipes &&
    Admit(p.buildings[name], UserRequest(recipes, time, item, p)).Ok? &&
    mid == Plant(p.buildings[name := Admit(p.buildings[name], UserRequest(recipes, time, item, p)).value],
                 p.deliveries, p.nextId + 1)
  }

  /**
   * A user request accepted: admitted into `mid`, after which the building
   * dispatched what `processIngredients` asks of it, traced in `grants`.
   */
  ghost predicate Dispatched(recipes: map<string, Recipe>, time: int, name: string, item: string, p: Plant, mid: Plant,
                             grants: seq<Grant>, p': Plant)
  {
    Admitted(recipes, time, name, item, p, mid) &&
    Follows(recipes, time, name, item, mid.buildings, grants, p'.buildings) && Traced(recipes, time, mid, grants, p')
  }

  /**
   * `building.addRequest` and `building.processIngredients` for a new user
   * request, whose id is the counter's current value: the request joins
   * the queue (a storage building completes it at once from stock; a
   * recipe for another item is refused) and its ingredients are dispatched.
   */
  method AcceptUserRequest(rm: RoadMap, recipes: map<string, Recipe>, time: int, name: string, item: string,
                           p: Plant, fuel: nat)
    returns (p': Plant, err: Option<Failure>, ghost mid: Plant, ghost grants: seq<Grant>)
    requires name in p.buildings && item in recipes
    ensures Evolved(p, p') && p.nextId < p'.nextId
    ensures Admit(p.buildings[name], UserRequest(recipes, time, item, p)).Err? ==>
      err == Some(Admit(p.buildings[name], UserRequest(recipes, time, item, p)).error) &&
      p' == p.(nextId := p.nextId + 1)
    ensures err.None? ==> Dispatched(recipes, time, name, item, p, mid, grants, p')
    ensures err.None? ==>
      var q0 := p.buildings[name].queue;
      var q := p'.buildings[name].queue;
      |q0| < |q| && q[..|q0|] == q0 && UserRequestFor(q[|q0|], p.nextId, recipes[item], time)
  {
    var id := p.nextId;
    var req := UserRequest(recipes, time, item, p);
    var target := p.buildings[name];
    mid, grants := p, [];
    match Admit(target, req)
    case Err(e) =>
      p' := p.(nextId := id + 1);
      return p', Some(e), mid, grants;
    case Ok(added) =>
      AdmitEvolves(p, name, req);
      var p1 := Plant(p.buildings[name := added], p.deliveries, id + 1);
      assert Admitted(recipes, time, name, item, p, p1);
      var e;
      p', e, grants := ProcessIngredients(rm, recipes, time, name, item, p1, fuel);
      mid := p1;
      EvolvedTrans(p, p1, p');
      KeepsHead(p1, p', name, |target.queue|);
      err := e;
  }

  /**
   * `addRequest` for a user request, which nobody is waiting to receive: a
   * storage building completes it from stock when it can and refuses a
   * request for another item; every other building appends it.
   */
  function Admit(b: Building, r: Request): (res: Result<Building>)
    ensures res.Err? <==> b.kind.Storage? && r.recipe.output != b.kind.storedItem
    ensures res.Ok? ==> Evolves(b, res.value) && |res.value.queue| == |b.queue| + 1
    ensures res.Ok? ==> res.value.queue[|b.queue|] == r || res.value.queue[|b.queue|] == SetStatus(r, Completed)
  {
    if b.kind.Storage? then
      match StorageAccept(b, r)
      case Err(e) => Err(e)
      case Ok((b', _)) => Ok(b')
    else Ok(AddRequest(b, r))
  }

  lemma AdmitEvolves(p: Plant, name: string, r: Request)
    requires name in p.buildings && r.id == p.nextId && Admit(p.buildings[name], r).Ok?
    ensures Evolved(p, Plant(p.buildings[name := Admit(p.buildings[name], r).value], p.deliveries, p.nextId + 1))
  {
    var b := p.buildings[name];
    var b' := Admit(b, r).value;
    assert b'.queue[..|b.queue|] == b.queue;
    UpdateEvolves(p, name, b', p.nextId + 1);
  }

  /** A queue that only grows at its end keeps its first `k` entries. */
  lemma KeepsHead(p: Plant, p': Plant, name: string, k: nat)
    requires Evolved(p, p') && name in p.buildings && k < |p.buildings[name].queue|
    ensures k < |p'.buildings[name].queue| && p'.buildings[name].queue[..k + 1] == p.buildings[name].queue[..k + 1]
  {
    assert Evolves(p.buildings[name], p'.buildings[name]);
  }

  const MissingConnections: string := "Cannot process request due to missing connections:\n"

  // ------------------------------------------------------------ simulation

  class Simulation {
    var time: int
    var buildings: map<string, Building>
    const recipes: map<string, Recipe>
    const buildable: map<string, Buildable>
    var nextId: int
    var userRequests: seq<int>
    var deliveries: seq<Delivery>
    var nextSerial: nat
    const roadMap: RoadMap
    /** Only printing reads the verbosity level. */
    var verbosity: int
    /** Time steps per second of the server's real-time loop; 0 is paused. */
    var rate: int

    ghost predicate Valid()
      reads this, roadMap
    {
      roadMap.Valid() && Registry(buildings, nextSerial) &&
      forall t :: t in buildable && buildable[t].priority.Some? ==> buildable[t].priority.value.den > 0
    }

    /** The open user requests are distinct and all drawn from the counter. */
    ghost predicate FreshIds()
      reads this
    {
      NoDup(userRequests) && forall id :: id in userRequests ==> id < nextId
    }

    /**
     * The constructor: time 0, counter 0, no open requests, and every
     * building with a location registered on a new road map, in the table's
     * iteration order.
     */
    constructor (buildings: map<string, Building>, recipes: map<string, Recipe>, buildable: map<string, Buildable>)
      requires PrioritiesOk(buildings) && forall n :: n in buildings ==> buildings[n].name == n
      requires forall t :: t in buildable && buildable[t].priority.Some? ==> buildable[t].priority.value.den > 0
      ensures Valid() && FreshIds()
      ensures this.buildings == buildings && this.recipes == recipes && this.buildable == buildable
      ensures time == 0 && nextId == 0 && userRequests == [] && deliveries == []
      ensures verbosity == 0 && rate == 1
      ensures roadMap.roads == map[] && roadMap.connections == []
      ensures forall n :: n in buildings && buildings[n].location.Some? ==> buildings[n].location.value in roadMap.buildingLocations
      ensures forall c :: c in roadMap.buildingLocations ==>
        exists n :: n in buildings && buildings[n].location == Some(c) && roadMap.buildingLocations[c] == SiteOf(buildings[n])
    {
      var rm := new RoadMap();
      var names := EnumerateSet(buildings.Keys);
      var serial: nat := 0;
      var i := 0;
      while i < |names|
        modifies rm
        invariant 0 <= i <= |names| && rm.Valid()
        invariant rm.roads == map[] && rm.connections == []
        invariant forall j :: 0 <= j < i ==> buildings[names[j]].serial < serial
        invariant forall j :: 0 <= j < i && buildings[names[j]].location.Some? ==>
          buildings[names[j]].location.value in rm.buildingLocations
        invariant forall c :: c in rm.buildingLocations ==>
          exists n :: n in buildings && buildings[n].location == Some(c) && rm.buildingLocations[c] == SiteOf(buildings[n])
      {
        var b := buildings[names[i]];
        rm.AddBuilding(SiteOf(b));
        if b.serial >= serial {
          serial := b.serial + 1;
        }
        i := i + 1;
      }
      this.time := 0;
      this.buildings := buildings;
      this.recipes := recipes;
      this.buildable := buildable;
      this.nextId := 0;
      this.userRequests := [];
      this.deliveries := [];
      this.nextSerial := serial;
      this.roadMap := rm;
      this.verbosity := 0;
      this.rate := 1;
      new;
      forall n | n in buildings
        ensures buildings[n].serial < serial
      {
        var j :| 0 <= j < |names| && names[j] == n;
      }
    }

    /** `setVerbosity`. */
    method SetVerbosity(level: int)
      modifies this
      ensures verbosity == level && rate == old(rate)
      ensures time == old(time) && buildings == old(buildings) && userRequests == old(userRequests)
      ensures nextId == old(nextId) && deliveries == old(deliveries) && nextSerial == old(nextSerial)
    {
      verbosity := level;
    }

    /** `setRate`; `pause` is a rate of 0. */
    method SetRate(r: int)
      modifies this
      ensures rate == r && verbosity == old(verbosity)
      ensures time == old(time) && buildings == old(buildings) && userRequests == old(userRequests)
      ensures nextId == old(nextId) && deliveries == old(deliveries) && nextSerial == old(nextSerial)
    {
      rate := r;
    }

    /** `getNextRequestId`: a post-increment of the counter. */
    method NextRequestId() returns (id: int)
      modifies this
      ensures id == old(nextId) && nextId == old(nextId) + 1
      ensures time == old(time) && buildings == old(buildings) && userRequests == old(userRequests)
      ensures deliveries == old(deliveries) && nextSerial == old(nextSerial)
    {
      id := nextId;
      nextId := nextId + 1;
    }

    /** `addRequest`: records an open user request and advances the counter by one. */
    method AddRequest(r: Request)
      modifies this
      ensures userRequests == old(userRequests) + [r.id] && nextId == old(nextId) + 1
      ensures time == old(time) && buildings == old(buildings)
      ensures deliveries == old(deliveries) && nextSerial == old(nextSerial)
      ensures old(FreshIds()) && r.id == old(nextId) ==> FreshIds()
    {
      if NoDup(userRequests) && (forall id :: id in userRequests ==> id < nextId) && r.id == nextId {
        NoDupAppend(userRequests, [r.id]);
      }
      userRequests := userRequests + [r.id];
      nextId := nextId + 1;
    }

    // -------------------------------------------------------- the time step

    /**
     * `processDelayedDeliveries`: each delivery due now credits its
     * destination, in list order, and leaves the list; later ones stay.
     */
    method ProcessDelayedDeliveries()
      requires Valid()
      modifies this
      ensures Valid()
      ensures deliveries == Later(old(deliveries), time)
      ensures buildings == CreditAll(old(buildings), Due(old(deliveries), time))
      ensures forall d :: d in deliveries ==> d.time > time
      ensures multiset(Due(old(deliveries), time)) + multiset(deliveries) == multiset(old(deliveries))
      ensures time == old(time) && nextId == old(nextId) && userRequests == old(userRequests)
      ensures nextSerial == old(nextSerial)
    {
      var p := Plant(buildings, deliveries, nextId);
      var p' := Arrive(p, time);
      ArriveLeavesNothingDue(p, time);
      DueLaterPartition(p.deliveries, time);
      TickedRegistry(p, p', nextSerial);
      buildings, deliveries := p'.buildings, p'.deliveries;
    }

    /**
     * `performRemoveBuilding`: every connection that starts or ends at the
     * building is removed (complex removal, in list order), then the
     * building leaves the table and its cell is freed of building and road.
     */
    method PerformRemove(name: string)
      requires Valid() && name in buildings
      modifies this, roadMap
      ensures Valid()
      ensures buildings == old(buildings) - {name}
      ensures time == old(time) && nextId == old(nextId) && userRequests == old(userRequests)
      ensures deliveries == old(deliveries) && nextSerial == old(nextSerial)
      ensures forall c :: c in roadMap.connections ==>
        c in old(roadMap.connections) && !Touches(c, SiteOf(old(buildings)[name]))
      ensures forall c :: c in old(roadMap.connections) && !Touches(c, SiteOf(old(buildings)[name])) ==>
        c in roadMap.connections
      ensures old(buildings)[name].location.Some? ==>
        roadMap.buildingLocations == old(roadMap.buildingLocations) - {old(buildings)[name].location.value} &&
        old(buildings)[name].location.value !in roadMap.roads
      ensures old(buildings)[name].location.None? ==> roadMap.buildingLocations == old(roadMap.buildingLocations)
    {
      var b := buildings[name];
      var site := SiteOf(b);
      var all := roadMap.GetConnections();
      var touching := TouchingConnections(all, site);
      var i := 0;
      while i < |touching|
        modifies roadMap
        invariant 0 <= i <= |touching| && roadMap.Valid()
        invariant roadMap.buildingLocations == old(roadMap.buildingLocations)
        invariant forall c :: c in roadMap.connections ==> c in all
        invariant forall c :: c in all && !Touches(c, site) ==> c in roadMap.connections
        invariant forall c :: c in touching[..i] ==> c !in roadMap.connections
      {
        var c := touching[i];
        ghost var before := roadMap.connections;
        ghost var path, used := roadMap.ComplexRemoval(c.source, c.dest);
        if c in before {
          RemoveFirstAbsent(before, c);
        }
        Snoc(touching, i);
        i := i + 1;
      }
      assert touching[..i] == touching;
      buildings := buildings - {name};
      if b.location.Some? {
        roadMap.RemoveBuilding(b.location.value);
        roadMap.RemoveRoad(b.location.value);
      }
    }

    /**
     * `checkBuildingsMarkedForRemoval`: every building that is flagged and
     * can now be removed is removed, in the table's iteration order, and
     * every other building stays as it was.
     */
    method CheckBuildingsMarkedForRemoval()
      requires Valid()
      modifies this, roadMap
      ensures Valid()
      ensures buildings == Survivors(old(buildings))
      ensures time == old(time) && nextId == old(nextId) && userRequests == old(userRequests)
      ensures deliveries == old(deliveries) && nextSerial == old(nextSerial)
      ensures forall c, n :: c in roadMap.connections && n in old(buildings) && Doomed(old(buildings)[n]) ==>
        !Touches(c, SiteOf(old(buildings)[n]))
      ensures forall c :: c in roadMap.connections ==> c in old(roadMap.connections)
    {
      var doomed := DoomedNames(buildings);
      ghost var b0 := buildings;
      ghost var c0 := roadMap.connections;
      var k := 0;
      while k < |doomed|
        invariant 0 <= k <= |doomed| && Valid()
        invariant forall n :: n in buildings <==> n in b0 && n !in doomed[..k]
        invariant forall n :: n in buildings ==> buildings[n] == b0[n]
        invariant time == old(time) && nextId == old(nextId) && userRequests == old(userRequests)
        invariant deliveries == old(deliveries) && nextSerial == old(nextSerial)
        invariant forall c :: c in roadMap.connections ==> c in c0
        invariant forall c, n :: c in roadMap.connections && n in doomed[..k] ==> !Touches(c, SiteOf(b0[n]))
      {
        var n := doomed[k];
        Snoc(doomed, k);
        assert n !in doomed[..k] by {
          assert forall j :: 0 <= j < k ==> doomed[j] != doomed[k];
        }
        PerformRemove(n);
        k := k + 1;
      }
      assert doomed[..k] == doomed;
      assert buildings == Survivors(b0);
    }

    /**
     * `processSingleTimeStep`: deliveries due now arrive; every building
     * steps in topological order of the source graph; every completed user
     * request leaves the open list; buildings flagged and now removable are
     * removed. An exception from a building ends the step where it happens.
     * `order` and `ticks` are the building loop's order and steps, which
     * start from the plant after arrival and end at `stepped`.
     */
    method SingleStep(fuel: nat) returns (completed: seq<Request>, err: Option<Failure>,
                                          ghost order: seq<string>, ghost ticks: seq<Tick>, ghost stepped: Plant)
      requires Valid()
      modifies this, roadMap
      ensures Valid()
      ensures time == old(time) && nextSerial == old(nextSerial) && old(nextId) <= nextId
      ensures var arrived := Plant(CreditAll(old(buildings), Due(old(deliveries), time)), Later(old(deliveries), time), old(nextId));
        TopOrdered(order, arrived.buildings) && Swept(recipes, time, order, arrived, ticks, stepped, completed, err) &&
        AllStepped(recipes, time, ticks)
      ensures deliveries == stepped.deliveries && nextId == stepped.nextId
      ensures err.Some? ==> buildings == stepped.buildings
      ensures err.None? ==> buildings == Survivors(stepped.buildings)
      ensures forall r :: r in completed ==> r.status == Completed
      ensures err.Some? ==> userRequests == old(userRequests)
      ensures err.None? ==> userRequests == Drop(old(userRequests), completed)
      ensures err.None? && NoDup(old(userRequests)) ==>
        forall r :: r in completed && r.isUser ==> r.id !in userRequests
      ensures err.None? ==> forall n :: n in buildings ==> !Doomed(buildings[n])
      ensures old(FreshIds()) ==> FreshIds()
    {
      ProcessDelayedDeliveries();
      completed, err, order, ticks := StepBuildings(fuel);
      stepped := Plant(buildings, deliveries, nextId);
      if err.Some? {
        return;
      }
      RemoveCompleted(completed);
      CheckBuildingsMarkedForRemoval();
    }

    /**
     * The building loop of `processSingleTimeStep`: each building, in the
     * topological order of the current source graph (`order`, as
     * `getTopOrder` gives it), takes its step (`ticks`).
     */
    method StepBuildings(fuel: nat) returns (completed: seq<Request>, err: Option<Failure>,
                                             ghost order: seq<string>, ghost ticks: seq<Tick>)
      requires Valid()
      modifies this
      ensures Valid()
      ensures time == old(time) && nextSerial == old(nextSerial) && old(nextId) <= nextId
      ensures userRequests == old(userRequests) && buildings.Keys == old(buildings).Keys
      ensures TopOrdered(order, old(buildings))
      ensures Swept(recipes, time, order, Plant(old(buildings), old(deliveries), old(nextId)), ticks,
                    Plant(buildings, deliveries, nextId), completed, err)
      ensures AllStepped(recipes, time, ticks)
      ensures forall r :: r in completed ==> r.status == Completed
    {
      var sorted := TopOrder(SourceGraph(buildings));
      order := sorted;
      var p := Plant(buildings, deliveries, nextId);
      var p', done, e, steps := TickAll(roadMap, recipes, time, sorted, p, fuel);
      TickedRegistry(p, p', nextSerial);
      buildings, deliveries, nextId := p'.buildings, p'.deliveries, p'.nextId;
      completed, err, ticks := done, e, steps;
    }

    /** The open user requests that completed in this step are no longer open. */
    method RemoveCompleted(completed: seq<Request>)
      modifies this
      ensures userRequests == Drop(old(userRequests), completed)
      ensures NoDup(old(userRequests)) ==> forall r :: r in completed && r.isUser ==> r.id !in userRequests
      ensures time == old(time) && buildings == old(buildings) && nextId == old(nextId)
      ensures deliveries == old(deliveries) && nextSerial == old(nextSerial)
      ensures old(FreshIds()) ==> FreshIds()
    {
      DropFacts(userRequests, completed);
      userRequests := DropCompleted(userRequests, completed);
    }

    /** The removal loop of `processSingleTimeStep`. */
    static method DropCompleted(open: seq<int>, completed: seq<Request>) returns (rest: seq<int>)
      ensures rest == Drop(open, completed)
    {
      rest := open;
      var i := 0;
      while i < |completed|
        invariant 0 <= i <= |completed|
        invariant rest == Drop(open, completed[..i])
      {
        assert completed[..i + 1][..i] == completed[..i];
        if completed[i].isUser {
          rest := RemoveFirst(rest, completed[i].id);
        }
        i := i + 1;
      }
      assert completed[..i] == completed;
    }

    /**
     * `step(n)`: a negative count is rejected with nothing changed;
     * otherwise `n` single steps, each followed by advancing the clock by
     * one. An exception ends the loop before the clock advances.
     */
    method Step(n: int, fuel: nat) returns (err: Option<Failure>, rejected: bool)
      requires Valid()
      modifies this, roadMap
      ensures Valid()
      ensures rejected <==> n < 0
      ensures rejected ==>
        err.None? && time == old(time) && buildings == old(buildings) &&
        userRequests == old(userRequests) && deliveries == old(deliveries) && nextId == old(nextId) &&
        unchanged(roadMap)
      ensures !rejected && err.None? ==> time == old(time) + n
      ensures err.Some? ==> old(time) <= time < old(time) + n
      ensures old(FreshIds()) ==> FreshIds()
    {
      if n < 0 {
        return None, true;
      }
      rejected := false;
      var i := 0;
      while i < n
        invariant 0 <= i <= n && Valid()
        invariant time == old(time) + i
        invariant old(FreshIds()) ==> FreshIds()
      {
        var completed, e, order, ticks, stepped := SingleStep(fuel);
        if e.Some? {
          return e, false;
        }
        time := time + 1;
        i := i + 1;
      }
      err := None;
    }

    /**
     * `finish`: single steps, each advancing the clock, while user requests
     * are open. Java loops without bound; `rounds` bounds the loop here.
     */
    method Finish(fuel: nat, rounds: nat) returns (err: Option<Failure>, finished: bool)
      requires Valid()
      modifies this, roadMap
      ensures Valid()
      ensures finished ==> err.None? && userRequests == []
      ensures err.None? && !finished ==> userRequests != [] && time == old(time) + rounds
      ensures old(time) <= time <= old(time) + rounds
      ensures old(userRequests) == [] ==> finished && time == old(time)
    {
      var i := 0;
      while userRequests != [] && i < rounds
        invariant 0 <= i <= rounds && Valid()
        invariant time == old(time) + i
        invariant i == 0 ==> userRequests == old(userRequests)
        invariant old(userRequests) == [] ==> i == 0
        decreases rounds - i
      {
        var completed, e, order, ticks, stepped := SingleStep(fuel);
        if e.Some? {
          return e, false;
        }
        time := time + 1;
        i := i + 1;
      }
      return None, userRequests == [];
    }

    // ------------------------------------------------------- user commands

    /**
     * `handleRequestCommand`: checks the building, the recipe and what the
     * building can produce, then walks the source graph for missing
     * connections (a walk that may send drones); any failure leaves the
     * open list and the counter as they were. Otherwise the new user
     * request takes the counter's value, is recorded as open, joins the
     * building's queue and its ingredients are dispatched. `validated`
     * says the walk ran to its end, traced in `probes` and leaving the
     * table `walked`; `missing` is then what it reported, so by
     * `SilentIffClean` the request goes ahead exactly when the walk is
     * `Clean`.
     */
    method HandleRequest(item: string, name: string, fuel: nat)
      returns (err: Option<Failure>, ghost missing: seq<string>, ghost validated: bool, ghost probes: seq<Probe>,
               ghost walked: map<string, Building>, ghost mid: Plant, ghost grants: seq<Grant>)
      requires Valid()
      modifies this
      ensures Valid()
      ensures time == old(time) && nextSerial == old(nextSerial) && old(nextId) <= nextId
      ensures buildings.Keys == old(buildings).Keys
      ensures name !in old(buildings) ==>
        err == Some(SimulationException("Building '" + name + "' does not exist")) && buildings == old(buildings)
      ensures name in old(buildings) && item !in recipes ==>
        err == Some(SimulationException("Recipe '" + item + "' does not exist")) && buildings == old(buildings)
      ensures name in old(buildings) && item in recipes && !CanProduce(old(buildings)[name], item) ==>
        err == Some(SimulationException("Building '" + name + "' cannot produce '" + item + "'")) &&
        buildings == old(buildings)
      ensures !validated ==> missing == [] && err.Some?
      ensures validated ==>
        name in old(buildings) && item in recipes && CanProduce(old(buildings)[name], item) &&
        FleetsOnly(old(buildings), walked) &&
        Steps(recipes, item, old(buildings), probes, walked) &&
        (forall q :: q in probes ==> Checked(roadMap.roads, roadMap.buildingLocations, recipes, old(buildings)[name], q)) &&
        missing == Reports(roadMap.roads, roadMap.buildingLocations, name, old(buildings)[name], probes)
      ensures missing != [] ==>
        err == Some(SimulationException(MissingConnections + Join(missing))) && buildings == walked
      ensures userRequests == old(userRequests) ==>
        err.Some? && nextId == old(nextId) && FleetsOnly(old(buildings), buildings) && deliveries == old(deliveries)
      ensures userRequests != old(userRequests) ==>
        validated && missing == [] && userRequests == old(userRequests) + [old(nextId)] && old(nextId) < nextId
      ensures err.None? ==>
        validated && missing == [] && userRequests == old(userRequests) + [old(nextId)] &&
        Dispatched(recipes, time, name, item, Plant(walked, old(deliveries), old(nextId)), mid, grants,
                   Plant(buildings, deliveries, nextId))
      ensures err.None? ==>
        var q0 := old(buildings)[name].queue;
        var q := buildings[name].queue;
        |q0| < |q| && q[..|q0|] == q0 && UserRequestFor(q[|q0|], old(nextId), recipes[item], time)
      ensures old(FreshIds()) ==> FreshIds()
    {
      missing, validated, probes, walked, mid, grants := [], false, [], buildings, Plant(buildings, deliveries, nextId), [];
      if name !in buildings {
        return Some(SimulationException("Building '" + name + "' does not exist")), missing, validated, probes, walked, mid, grants;
      }
      if item !in recipes {
        return Some(SimulationException("Recipe '" + item + "' does not exist")), missing, validated, probes, walked, mid, grants;
      }
      if !CanProduce(buildings[name], item) {
        return Some(SimulationException("Building '" + name + "' cannot produce '" + item + "'")),
          missing, validated, probes, walked, mid, grants;
      }
      var after, errors, crash;
      after, errors, crash, probes := ValidateConnections(roadMap, recipes, name, item, buildings, [], fuel);
      FleetsOnlyRegistry(buildings, after, nextSerial);
      buildings := after;
      walked := after;
      if crash.Some? {
        return crash, missing, validated, probes, walked, mid, grants;
      }
      validated := true;
      missing := errors;
      if errors != [] {
        return Some(SimulationException(MissingConnections + Join(errors))), missing, validated, probes, walked, mid, grants;
      }
      err, mid, grants := Enqueue(item, name, fuel);
    }

    /**
     * The second half of `handleRequestCommand`: the new user request, its
     * place in the building's queue (a storage building completes it at
     * once from stock) and the dispatch of its ingredients, traced from
     * `mid`, the plant right after the request joined the queue.
     */
    method Enqueue(item: string, name: string, fuel: nat) returns (err: Option<Failure>, ghost mid: Plant, ghost grants: seq<Grant>)
      requires Valid() && name in buildings && item in recipes && CanProduce(buildings[name], item)
      modifies this
      ensures Valid()
      ensures time == old(time) && nextSerial == old(nextSerial) && old(nextId) < nextId
      ensures buildings.Keys == old(buildings).Keys
      ensures userRequests == old(userRequests) + [old(nextId)]
      ensures err.None? ==>
        Dispatched(recipes, time, name, item, Plant(old(buildings), old(deliveries), old(nextId)), mid, grants,
                   Plant(buildings, deliveries, nextId))
      ensures err.None? ==>
        var q0 := old(buildings)[name].queue;
        var q := buildings[name].queue;
        |q0| < |q| && q[..|q0|] == q0 && UserRequestFor(q[|q0|], old(nextId), recipes[item], time)
      ensures old(FreshIds()) ==> FreshIds()
    {
      ghost var wasFresh := FreshIds();
      var id := nextId;
      if wasFresh {
        NoDupAppend(userRequests, [id]);
      }
      userRequests := userRequests + [id];
      var p := Plant(buildings, deliveries, nextId);
      var p', e;
      p', e, mid, grants := AcceptUserRequest(roadMap, recipes, time, name, item, p, fuel);
      EvolvedTicked(p, p');
      TickedRegistry(p, p', nextSerial);
      buildings, deliveries, nextId := p'.buildings, p'.deliveries, p'.nextId;
      err := e;
    }

    /**
     * `buildBuilding`: an occupied cell (building or road) and an unknown
     * type are refused, and so is a type whose info lacks a field or names
     * a mined item without a recipe. Otherwise the building gets the first
     * free name `<sanitised type>_<k>`, k counting from 1, a fresh identity
     * and the cell, and is registered on the road map.
     */
    method Build(typeName: string, x: int, y: int) returns (err: Option<Failure>, ghost name: string, ghost k: nat)
      requires Valid()
      modifies this, roadMap
      ensures Valid()
      ensures time == old(time) && nextId == old(nextId) && userRequests == old(userRequests)
      ensures deliveries == old(deliveries)
      ensures roadMap.roads == old(roadMap.roads) && roadMap.connections == old(roadMap.connections)
      ensures var c := Coordinate(x, y);
        c in old(roadMap.buildingLocations) || c in old(roadMap.roads) ==>
        err == Some(SimulationException("Location (" + IntText(x) + ", " + IntText(y) + ") is already occupied"))
      ensures var c := Coordinate(x, y);
        c !in old(roadMap.buildingLocations) && c !in old(roadMap.roads) && typeName !in buildable ==>
        err == Some(SimulationException("Building type '" + typeName + "' does not exist"))
      ensures err.Some? ==> buildings == old(buildings) && roadMap.buildingLocations == old(roadMap.buildingLocations)
      ensures err.None? ==>
        Coordinate(x, y) !in old(roadMap.buildingLocations) && Coordinate(x, y) !in old(roadMap.roads) &&
        typeName in buildable && k >= 1 && name == Candidate(Sanitize(typeName), k) && name !in old(buildings) &&
        (forall j :: 1 <= j < k ==> Candidate(Sanitize(typeName), j) in old(buildings))
      ensures err.None? ==>
        var b := Construct(buildable[typeName], name, old(nextSerial), recipes);
        b.Ok? && buildings == old(buildings)[name := b.value.(location := Some(Coordinate(x, y)))] &&
        roadMap.buildingLocations == old(roadMap.buildingLocations)[Coordinate(x, y) := SiteOf(buildings[name])]
    {
      name, k := "", 0;
      var c := Coordinate(x, y);
      if c in roadMap.buildingLocations || c in roadMap.roads {
        return Some(SimulationException("Location (" + IntText(x) + ", " + IntText(y) + ") is already occupied")), name, k;
      }
      if typeName !in buildable {
        return Some(SimulationException("Building type '" + typeName + "' does not exist")), name, k;
      }
      var chosen;
      chosen, k := UniqueName(buildings.Keys, typeName);
      name := chosen;
      match Construct(buildable[typeName], chosen, nextSerial, recipes)
      case Err(e) =>
        return Some(e), name, k;
      case Ok(b) =>
        var placed := b.(location := Some(c));
        buildings := buildings[chosen := placed];
        nextSerial := nextSerial + 1;
        roadMap.AddBuilding(SiteOf(placed));
        err := None;
    }

    /**
     * `removeBuilding`: an unknown name is refused; an idle building is
     * removed at once with its connections; any other is only flagged.
     */
    method RemoveBuilding(name: string) returns (err: Option<Failure>)
      requires Valid()
      modifies this, roadMap
      ensures Valid()
      ensures time == old(time) && nextId == old(nextId) && userRequests == old(userRequests)
      ensures deliveries == old(deliveries)
      ensures name !in old(buildings) ==>
        err == Some(SimulationException("Building '" + name + "' does not exist")) &&
        buildings == old(buildings) && unchanged(roadMap)
      ensures name in old(buildings) ==> err.None?
      ensures name in old(buildings) && CanBeRemovedImmediately(old(buildings)[name]) ==>
        buildings == old(buildings) - {name} &&
        forall c :: c in roadMap.connections ==> c in old(roadMap.connections) && !Touches(c, SiteOf(old(buildings)[name]))
      ensures name in old(buildings) && !CanBeRemovedImmediately(old(buildings)[name]) ==>
        buildings == old(buildings)[name := MarkForRemoval(old(buildings)[name])] && unchanged(roadMap)
    {
      if name !in buildings {
        return Some(SimulationException("Building '" + name + "' does not exist"));
      }
      var b := buildings[name];
      if CanBeRemovedImmediately(b) {
        PerformRemove(name);
      } else {
        buildings := buildings[name := MarkForRemoval(b)];
      }
      err := None;
    }

    /**
     * `connectBuildings`: both names must exist; the source joins the
     * destination's source list unless already there, and a path is laid
     * (recording the pair when one is found).
     */
    method Connect(src: string, dst: string) returns (err: Option<Failure>, ghost path: seq<Coordinate>)
      requires Valid()
      modifies this, roadMap
      ensures Valid()
      ensures time == old(time) && nextId == old(nextId) && userRequests == old(userRequests)
      ensures deliveries == old(deliveries)
      ensures src !in old(buildings) ==>
        err == Some(SimulationException("Source building '" + src + "' does not exist")) &&
        buildings == old(buildings) && unchanged(roadMap)
      ensures src in old(buildings) && dst !in old(buildings) ==>
        err == Some(SimulationException("Destination building '" + dst + "' does not exist")) &&
        buildings == old(buildings) && unchanged(roadMap)
      ensures src in old(buildings) && dst in old(buildings) ==>
        err.None? && buildings == old(buildings)[dst := AddSource(old(buildings)[dst], src)] &&
        roadMap.buildingLocations == old(roadMap.buildingLocations)
      ensures src in old(buildings) && dst in old(buildings) && path == [] ==>
        roadMap.connections == old(roadMap.connections)
      ensures src in old(buildings) && dst in old(buildings) && path != [] ==>
        roadMap.connections ==
          Record(old(roadMap.connections), Connection(SiteOf(old(buildings)[src]), SiteOf(old(buildings)[dst])))
    {
      path := [];
      if src !in buildings {
        return Some(SimulationException("Source building '" + src + "' does not exist")), path;
      }
      if dst !in buildings {
        return Some(SimulationException("Destination building '" + dst + "' does not exist")), path;
      }
      var source := buildings[src];
      var dest := buildings[dst];
      buildings := buildings[dst := AddSource(dest, src)];
      var laid := roadMap.CreatePath(SiteOf(source), SiteOf(dest));
      path := laid;
      err := None;
    }

    /** `simpleRemove`: a connection between two existing buildings goes, with the road network rebuilt. */
    method SimpleRemove(src: string, dst: string)
      requires Valid()
      modifies roadMap
      ensures Valid()
      ensures roadMap.buildingLocations == old(roadMap.buildingLocations)
      ensures src !in buildings || dst !in buildings ==>
        roadMap.roads == old(roadMap.roads) && roadMap.connections == old(roadMap.connections)
      ensures src in buildings && dst in buildings ==>
        var pair := Connection(SiteOf(buildings[src]), SiteOf(buildings[dst]));
        (pair in old(roadMap.connections) ==> roadMap.connections == RemoveFirst(old(roadMap.connections), pair)) &&
        (pair !in old(roadMap.connections) ==>
           roadMap.roads == old(roadMap.roads) && roadMap.connections == old(roadMap.connections))
    {
      if src in buildings && dst in buildings {
        ghost var relaid := roadMap.SimpleRemoval(SiteOf(buildings[src]), SiteOf(buildings[dst]));
      }
    }

    /** `complexRemove`: a connection between two existing buildings goes, with only its unused roads. */
    method ComplexRemove(src: string, dst: string)
      requires Valid()
      modifies roadMap
      ensures Valid()
      ensures roadMap.buildingLocations == old(roadMap.buildingLocations)
      ensures src !in buildings || dst !in buildings ==>
        roadMap.roads == old(roadMap.roads) && roadMap.connections == old(roadMap.connections)
      ensures src in buildings && dst in buildings ==>
        var pair := Connection(SiteOf(buildings[src]), SiteOf(buildings[dst]));
        (pair in old(roadMap.connections) ==> roadMap.connections == RemoveFirst(old(roadMap.connections), pair)) &&
        (pair !in old(roadMap.connections) ==>
           roadMap.roads == old(roadMap.roads) && roadMap.connections == old(roadMap.connections))
    {
      if src in buildings && dst in buildings {
        ghost var path, used := roadMap.ComplexRemoval(SiteOf(buildings[src]), SiteOf(buildings[dst]));
      }
    }
  }
}
