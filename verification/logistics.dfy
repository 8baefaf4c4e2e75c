/**
 * The parts of a building's behaviour that reach other buildings: sending
 * one unit of an item to a requestor (by road, by drone or at once), the
 * drone shortcut of `RoadMap.getShortestDistance`, the recursive ingredient
 * dispatcher (`BasicBuilding.processIngredients`,
 * `StorageBuilding.processIngredients`, `addRequest`) and its validating
 * twin `BasicSimulation.validateConnections`.
 *
 * In Java these methods reach the other buildings through the simulation
 * object; here they take and return the part of the simulation's state
 * they touch, a `Plant`: the name-indexed building table, the delayed
 * deliveries and the request-id counter. The road map is read, never
 * changed, by all of them.
 */
module Logistics {
  import opened Wrappers
  import opened Grid
  import opened Roads
  import opened Recipes
  import opened Requests
  import opened Drones
  import opened Buildings
  import opened RoadNetwork

  /** `DelayedDelivery`: `quantity` units of `item` reach `dest` at time step `time`. */
  datatype Delivery = Delivery(source: Site, dest: Site, item: string, quantity: int, time: int)

  /** The simulation state building logic reads and writes. */
  datatype Plant = Plant(buildings: map<string, Building>, deliveries: seq<Delivery>, nextId: int)

  /** The table still holds the very building `s` refers to (same name, same identity). */
  predicate Holds(buildings: map<string, Building>, s: Site)
  {
    s.name in buildings && buildings[s.name].serial == s.serial
  }

  /**
   * `deliverItem` on the building a site refers to. A building that has left
   * the table is a detached Java object: crediting it changes nothing the
   * simulation can see.
   */
  function Credit(buildings: map<string, Building>, s: Site, item: string, quantity: int): map<string, Building>
  {
    if Holds(buildings, s) then buildings[s.name := DeliverItem(buildings[s.name], item, quantity)] else buildings
  }

  // ------------------------------------------------------------- frame rules

  /**
   * Everything building logic outside a building's own step leaves alone:
   * identity, sources, location, the removal flag, the request in progress
   * and the fixed part of the kind. The queue only grows at its end.
   */
  predicate SameKind(k: Kind, k': Kind)
  {
    match k
    case Mine(_, _) => k' == k
    case Factory(_, _) => k' == k
    case Storage(item, cap, pr, _) => k'.Storage? && k'.storedItem == item && k'.capacity == cap && k'.priority == pr
    case DronePort(_) => k'.DronePort?
  }

  predicate Evolves(b: Building, b': Building)
  {
    b'.name == b.name && b'.serial == b.serial && b'.sources == b.sources && b'.location == b.location &&
    b'.marked == b.marked && b'.current == b.current && b'.remaining == b.remaining &&
    b.queue <= b'.queue && SameKind(b.kind, b'.kind)
  }

  /**
   * The plant after dispatching: the same buildings, each evolved; deliveries
   * only appended; the counter only advanced; and every request appended to
   * a queue carries an id drawn from the counter meanwhile.
   */
  ghost predicate Evolved(p: Plant, p': Plant)
  {
    p'.buildings.Keys == p.buildings.Keys &&
    (forall n :: n in p.buildings ==> Evolves(p.buildings[n], p'.buildings[n])) &&
    p.deliveries <= p'.deliveries && p.nextId <= p'.nextId &&
    (forall n, i :: n in p.buildings && |p.buildings[n].queue| <= i < |p'.buildings[n].queue| ==>
       p.nextId <= p'.buildings[n].queue[i].id < p'.nextId)
  }

  lemma EvolvesTrans(a: Building, b: Building, c: Building)
    requires Evolves(a, b) && Evolves(b, c)
    ensures Evolves(a, c)
  {
  }

  lemma EvolvedTrans(p1: Plant, p2: Plant, p3: Plant)
    requires Evolved(p1, p2) && Evolved(p2, p3)
    ensures Evolved(p1, p3)
  {
    forall n | n in p1.buildings
      ensures Evolves(p1.buildings[n], p3.buildings[n])
    {
      EvolvesTrans(p1.buildings[n], p2.buildings[n], p3.buildings[n]);
    }
    forall n, i | n in p1.buildings && |p1.buildings[n].queue| <= i < |p3.buildings[n].queue|
      ensures p1.nextId <= p3.buildings[n].queue[i].id < p3.nextId
    {
      if i < |p2.buildings[n].queue| {
        assert p3.buildings[n].queue[i] == p2.buildings[n].queue[i];
      }
    }
  }

  lemma EvolvedRefl(p: Plant)
    ensures Evolved(p, p)
  {
  }

  /** Replacing one building by an evolved copy, with any requests it gained drawn from the counter's advance. */
  lemma UpdateEvolves(p: Plant, n: string, b': Building, nextId': int)
    requires n in p.buildings && Evolves(p.buildings[n], b') && p.nextId <= nextId'
    requires forall i :: |p.buildings[n].queue| <= i < |b'.queue| ==> p.nextId <= b'.queue[i].id < nextId'
    ensures Evolved(p, Plant(p.buildings[n := b'], p.deliveries, nextId'))
  {
  }

  /** Crediting an item only changes stock counts and a storage's outstanding count. */
  lemma CreditEvolves(p: Plant, s: Site, item: string, quantity: int)
    ensures Evolved(p, p.(buildings := Credit(p.buildings, s, item, quantity)))
  {
  }

  // ------------------------------------------------------------ drone rule

  const DroneRange: int := 20

  /**
   * A building `getDroneDist` accepts for a trip from `src` to `dest`: a
   * located drone port with an idle drone whose home is within 20 of the
   * source and of the destination.
   */
  predicate CanFly(b: Building, src: Coordinate, dest: Coordinate)
  {
    b.kind.DronePort? && b.location.Some? && Tally(b.kind.fleet, Idle) > 0 &&
    ManhattanDistance(b.location.value, src) <= DroneRange &&
    ManhattanDistance(dest, b.location.value) <= DroneRange
  }

  /** The flight time to the destination: home to source, then source to destination. */
  function GoTime(b: Building, src: Coordinate, dest: Coordinate): int
    requires b.location.Some?
  {
    ManhattanDistance(b.location.value, src) + ManhattanDistance(src, dest)
  }

  /** The whole trip: the flight time plus the way home from the destination. */
  function ReturnTime(b: Building, src: Coordinate, dest: Coordinate): int
    requires b.location.Some?
  {
    GoTime(b, src, dest) + ManhattanDistance(dest, b.location.value)
  }

  /** The port after `useDrone(returnTime)`. */
  function Fly(b: Building, src: Coordinate, dest: Coordinate): Building
    requires b.kind.DronePort? && b.location.Some?
  {
    b.(kind := DronePort(Dispatch(b.kind.fleet, ReturnTime(b, src, dest))))
  }

  /** A port that can fly sends exactly one more drone and nothing else about it changes. */
  lemma FlyFacts(b: Building, src: Coordinate, dest: Coordinate)
    requires CanFly(b, src, dest)
    ensures Evolves(b, Fly(b, src, dest))
    ensures Tally(Fly(b, src, dest).kind.fleet, Active) == Tally(b.kind.fleet, Active) + 1
    ensures Tally(Fly(b, src, dest).kind.fleet, Idle) == Tally(b.kind.fleet, Idle) - 1
    ensures GoTime(b, src, dest) >= 0 && ReturnTime(b, src, dest) >= GoTime(b, src, dest)
  {
    DispatchMovesOneDrone(b.kind.fleet, ReturnTime(b, src, dest));
  }

  /** The building a cell of the road map holds, as long as the table still holds it too. */
  predicate PortAt(locs: map<Coordinate, Site>, buildings: map<string, Building>, c: Coordinate)
  {
    c in locs && Holds(buildings, locs[c])
  }

  /**
   * `getDroneDist`'s search: the first building, in the location table's
   * iteration order, that can fly the trip; none when no registered
   * building can.
   */
  method FindPort(locs: map<Coordinate, Site>, buildings: map<string, Building>, src: Coordinate, dest: Coordinate)
    returns (port: Option<string>)
    ensures port.Some? ==> port.value in buildings && CanFly(buildings[port.value], src, dest)
    ensures port.Some? ==> exists c :: PortAt(locs, buildings, c) && locs[c].name == port.value
    ensures port.None? ==> forall c :: PortAt(locs, buildings, c) ==> !CanFly(buildings[locs[c].name], src, dest)
  {
    var cells := EnumerateSet(locs.Keys);
    var i := 0;
    while i < |cells|
      invariant 0 <= i <= |cells|
      invariant forall j :: 0 <= j < i ==> !(PortAt(locs, buildings, cells[j]) && CanFly(buildings[locs[cells[j]].name], src, dest))
    {
      var c := cells[i];
      if PortAt(locs, buildings, c) && CanFly(buildings[locs[c].name], src, dest) {
        return Some(locs[c].name);
      }
      i := i + 1;
    }
    forall c | PortAt(locs, buildings, c)
      ensures !CanFly(buildings[locs[c].name], src, dest)
    {
      assert c in (set x | x in cells);
      var j :| 0 <= j < |cells| && cells[j] == c;
    }
    return None;
  }

  /** The road distance `RoadMap.RoadDistance` promises for the two buildings. */
  ghost predicate IsRoadDistance(roads: map<Coordinate, Road>, source: Site, dest: Site, d: int)
  {
    (source.location.None? || dest.location.None? ==> d == -1) &&
    (Direct(source, dest) ==> d == 0) &&
    (source.location.Some? && dest.location.Some? && !Direct(source, dest) ==>
      var s, g := source.location.value, dest.location.value;
      (d == -1 <==> forall k: nat :: !ReachesWithin(Edges(roads), Seeds(roads, s), g, k)) &&
      (d != -1 ==> d >= 2 && ReachesWithin(Edges(roads), Seeds(roads, s), g, d - 1) &&
                   !ReachesWithin(Edges(roads), Seeds(roads, s), g, d - 2)))
  }

  /** The roads join the two buildings: both are located, and they are adjacent or a road search reaches the destination. */
  ghost predicate RoadReach(roads: map<Coordinate, Road>, source: Site, dest: Site)
  {
    source.location.Some? && dest.location.Some? &&
    (Direct(source, dest) ||
     exists k: nat :: ReachesWithin(Edges(roads), Seeds(roads, source.location.value), dest.location.value, k))
  }

  /** The road distance is -1 exactly when the roads do not join the two buildings, and never below -1. */
  lemma RoadDistanceSign(roads: map<Coordinate, Road>, source: Site, dest: Site, d: int)
    requires IsRoadDistance(roads, source, dest, d)
    ensures d != -1 <==> RoadReach(roads, source, dest)
    ensures d >= -1
  {
    if source.location.Some? && dest.location.Some? && !Direct(source, dest) && d == -1 {
      var s, g := source.location.value, dest.location.value;
      assert forall k: nat :: !ReachesWithin(Edges(roads), Seeds(roads, s), g, k);
    }
  }

  /**
   * `getShortestDistance` finds a way between two located buildings: by
   * road, or through a registered drone port that can fly the trip.
   */
  ghost predicate Connected(roads: map<Coordinate, Road>, locs: map<Coordinate, Site>, buildings: map<string, Building>,
                            source: Site, dest: Site)
  {
    RoadReach(roads, source, dest) ||
    (source.location.Some? && dest.location.Some? &&
     exists c :: PortAt(locs, buildings, c) && CanFly(buildings[locs[c].name], source.location.value, dest.location.value))
  }

  /**
   * What `getShortestDistance` may do for located buildings: return the road
   * distance and change nothing, or have a port that can fly the trip sooner
   * than the road (or where the road has no way) send a drone and return its
   * flight time.
   */
  ghost predicate DistanceOutcome(buildings: map<string, Building>, s: Coordinate, g: Coordinate, road: int,
                                  r: int, buildings': map<string, Building>)
  {
    (r == road && buildings' == buildings) ||
    (exists p :: p in buildings && CanFly(buildings[p], s, g) &&
       (road == -1 || GoTime(buildings[p], s, g) < road) &&
       r == GoTime(buildings[p], s, g) && buildings' == buildings[p := Fly(buildings[p], s, g)])
  }

  /**
   * `getShortestDistance`: -1 without both locations; otherwise the road
   * distance (`road`), unless the first port found that can fly the trip is
   * faster or the road has no way, in which case that port sends one drone
   * for the round trip and the flight time is returned. A drone never makes
   * the answer worse than the road, and reaches where the road cannot.
   */
  method ShortestDistance(rm: RoadMap, buildings: map<string, Building>, source: Site, dest: Site)
    returns (r: int, buildings': map<string, Building>, ghost road: int)
    ensures IsRoadDistance(rm.roads, source, dest, road)
    ensures source.location.None? || dest.location.None? ==> r == -1 && buildings' == buildings
    ensures source.location.Some? && dest.location.Some? ==>
      DistanceOutcome(buildings, source.location.value, dest.location.value, road, r, buildings')
    ensures source.location.Some? && dest.location.Some? && road != -1 ==> 0 <= r <= road
    ensures (source.location.Some? && dest.location.Some? &&
             forall c :: PortAt(rm.buildingLocations, buildings, c) ==>
               !CanFly(buildings[rm.buildingLocations[c].name], source.location.value, dest.location.value)) ==>
      r == road && buildings' == buildings
    ensures (source.location.Some? && dest.location.Some? && road == -1 &&
             exists c :: PortAt(rm.buildingLocations, buildings, c) &&
               CanFly(buildings[rm.buildingLocations[c].name], source.location.value, dest.location.value)) ==>
      r >= 0
    ensures r >= 0 <==> Connected(rm.roads, rm.buildingLocations, buildings, source, dest)
    ensures r < 0 ==> r == -1 && buildings' == buildings
  {
    var bfs := rm.RoadDistance(source, dest);
    road := bfs;
    RoadDistanceSign(rm.roads, source, dest, bfs);
    buildings' := buildings;
    if source.location.None? || dest.location.None? {
      return -1, buildings, road;
    }
    var s, g := source.location.value, dest.location.value;
    var port := FindPort(rm.buildingLocations, buildings, s, g);
    if port.Some? {
      var b := buildings[port.value];
      var go := GoTime(b, s, g);
      if go >= 0 && (bfs == -1 || go < bfs) {
        var fleet := UseDrone(b.kind.fleet, ReturnTime(b, s, g));
        buildings' := buildings[port.value := b.(kind := DronePort(fleet))];
        r := go;
        return;
      }
    }
    r := bfs;
  }

  // -------------------------------------------------------- sending one unit

  /** A plant after one unit left a building: only crediting and drone trips changed it. */
  lemma FlownEvolves(p: Plant, buildings': map<string, Building>, s: Coordinate, g: Coordinate, road: int, r: int)
    requires DistanceOutcome(p.buildings, s, g, road, r, buildings')
    ensures Evolved(p, p.(buildings := buildings'))
  {
    if buildings' != p.buildings {
      var n :| n in p.buildings && CanFly(p.buildings[n], s, g) && buildings' == p.buildings[n := Fly(p.buildings[n], s, g)];
      FlyFacts(p.buildings[n], s, g);
      UpdateEvolves(p, n, Fly(p.buildings[n], s, g), p.nextId);
    } else {
      EvolvedRefl(p);
    }
  }

  /** Neither a drone trip nor a credit touches a queue, a request in progress or a remaining time. */
  ghost predicate SameWork(bs: map<string, Building>, bs': map<string, Building>)
  {
    bs'.Keys == bs.Keys &&
    forall n :: n in bs ==>
      bs'[n].queue == bs[n].queue && bs'[n].current == bs[n].current && bs'[n].remaining == bs[n].remaining
  }

  lemma OutcomeSameWork(bs: map<string, Building>, bs': map<string, Building>, s: Coordinate, g: Coordinate, road: int, r: int)
    requires DistanceOutcome(bs, s, g, road, r, bs')
    ensures SameWork(bs, bs')
  {
  }

  lemma CreditSameWork(bs: map<string, Building>, to: Site, item: string)
    ensures SameWork(bs, Credit(bs, to, item, 1))
  {
  }

  /**
   * The transit time of one unit: with both buildings located, the shortest
   * distance (which may send a drone), a negative one counting as 0;
   * otherwise 0.
   */
  method Transit(rm: RoadMap, p: Plant, from: Site, to: Site)
    returns (t: int, after: map<string, Building>, ghost road: int, ghost r: int)
    ensures t >= 0
    ensures from.location.None? || to.location.None? ==> t == 0 && after == p.buildings
    ensures from.location.Some? && to.location.Some? ==>
      IsRoadDistance(rm.roads, from, to, road) &&
      DistanceOutcome(p.buildings, from.location.value, to.location.value, road, r, after) &&
      t == (if r < 0 then 0 else r)
    ensures Evolved(p, p.(buildings := after)) && FleetsOnly(p.buildings, after) && SameWork(p.buildings, after)
  {
    t, after := 0, p.buildings;
    road, r := -1, -1;
    EvolvedRefl(p);
    if from.location.Some? && to.location.Some? {
      var d, b', bfs := ShortestDistance(rm, p.buildings, from, to);
      after, road, r := b', bfs, d;
      t := if d < 0 then 0 else d;
      FlownEvolves(p, after, from.location.value, to.location.value, road, r);
      OutcomeFleetsOnly(p.buildings, after, from.location.value, to.location.value, road, r);
      OutcomeSameWork(p.buildings, after, from.location.value, to.location.value, road, r);
    }
  }

  /** A credit changes the building it reaches and nothing else. */
  lemma CreditFrame(bs: map<string, Building>, to: Site, item: string)
    ensures forall n :: n in bs && !(Holds(bs, to) && n == to.name) ==> Credit(bs, to, item, 1)[n] == bs[n]
    ensures Credit(bs, to, item, 1).Keys == bs.Keys
  {
  }

  /**
   * One unit of `item` sent from `from` to `to`, taking `p` to `p'`: with
   * both located the transit time is the shortest distance, whose query
   * leaves the table `flown` (it may send a drone), a negative one counting
   * as 0; otherwise the transit is 0 and nothing flies. A positive transit
   * schedules a delayed delivery at `time` + transit, otherwise the unit is
   * credited at once.
   */
  ghost predicate Sent(rm: RoadMap, time: int, from: Site, to: Site, item: string, p: Plant, p': Plant,
                       transit: int, flown: map<string, Building>)
    reads rm
  {
    transit >= 0 && FleetsOnly(p.buildings, flown) &&
    (from.location.None? || to.location.None? ==> transit == 0 && flown == p.buildings) &&
    (from.location.Some? && to.location.Some? ==>
       exists road, r :: IsRoadDistance(rm.roads, from, to, road) &&
         DistanceOutcome(p.buildings, from.location.value, to.location.value, road, r, flown) &&
         transit == (if r < 0 then 0 else r)) &&
    (transit > 0 ==> p' == Plant(flown, p.deliveries + [Delivery(from, to, item, 1, time + transit)], p.nextId)) &&
    (transit == 0 ==> p' == Plant(Credit(flown, to, item, 1), p.deliveries, p.nextId))
  }

  /**
   * The delivery half of `handleCompletedRequest` (mine and factory) and of
   * a storage's fulfilment: one unit of `item` goes from `from` to `to`, as
   * `Sent` describes.
   */
  method SendUnit(rm: RoadMap, time: int, from: Site, to: Site, item: string, p: Plant)
    returns (p': Plant, ghost transit: int, ghost flown: map<string, Building>)
    ensures Evolved(p, p')
    ensures p'.nextId == p.nextId
    ensures Sent(rm, time, from, to, item, p, p', transit, flown)
    ensures forall n :: n in p.buildings && !p.buildings[n].kind.DronePort? && !(Holds(p.buildings, to) && n == to.name) ==>
      p'.buildings[n] == p.buildings[n]
    ensures SameWork(p.buildings, p'.buildings)
  {
    ghost var road, r;
    var t, after;
    t, after, road, r := Transit(rm, p, from, to);
    transit, flown := t, after;
    if from.location.Some? && to.location.Some? {
      assert IsRoadDistance(rm.roads, from, to, road) &&
        DistanceOutcome(p.buildings, from.location.value, to.location.value, road, r, flown);
    }
    var mid := p.(buildings := after);
    if t > 0 {
      p' := mid.(deliveries := mid.deliveries + [Delivery(from, to, item, 1, time + t)]);
    } else {
      p' := mid.(buildings := Credit(after, to, item, 1));
      CreditEvolves(mid, to, item, 1);
      EvolvedTrans(p, mid, p');
      CreditSameWork(after, to, item);
      CreditFrame(after, to, item);
      assert Holds(after, to) == Holds(p.buildings, to);
    }
  }

  // -------------------------------------------------------- source selection

  /** A source the dispatcher may pick: it can produce the item and is not marked for removal. */
  predicate Eligible(b: Building, produce: string)
  {
    CanProduce(b, produce) && !b.marked
  }

  /**
   * The source loop of both dispatchers: among the listed sources that can
   * produce `produce` and are not marked, the one with the least score
   * (against `scoreItem`), the first seen winning ties; the running minimum
   * starts at `Integer.MAX_VALUE`. A listed name missing from the table is a
   * null dereference. The result is an index into `sources`.
   */
  method SelectSource(buildings: map<string, Building>, sources: seq<string>, produce: string, scoreItem: string)
    returns (choice: Result<Option<nat>>)
    ensures choice.Err? <==> exists j :: 0 <= j < |sources| && sources[j] !in buildings
    ensures choice.Ok? ==> forall j :: 0 <= j < |sources| ==> sources[j] in buildings
    ensures choice.Err? ==>
      exists j :: 0 <= j < |sources| && sources[j] !in buildings &&
        (forall i :: 0 <= i < j ==> sources[i] in buildings) && choice.error == RuntimeFailure("null source building " + sources[j])
    ensures choice.Ok? && choice.value.Some? ==>
      var k := choice.value.value;
      k < |sources| && sources[k] in buildings &&
      Eligible(buildings[sources[k]], produce) && Score(buildings[sources[k]], scoreItem) < IntMax &&
      (forall j :: 0 <= j < |sources| && sources[j] in buildings && Eligible(buildings[sources[j]], produce) ==>
         Score(buildings[sources[k]], scoreItem) <= Score(buildings[sources[j]], scoreItem)) &&
      (forall j :: 0 <= j < k && sources[j] in buildings && Eligible(buildings[sources[j]], produce) ==>
         Score(buildings[sources[k]], scoreItem) < Score(buildings[sources[j]], scoreItem))
    ensures choice.Ok? && choice.value.None? ==>
      forall j :: 0 <= j < |sources| && sources[j] in buildings && Eligible(buildings[sources[j]], produce) ==>
        Score(buildings[sources[j]], scoreItem) >= IntMax
  {
    var min := IntMax;
    var best: Option<nat> := None;
    var j := 0;
    while j < |sources|
      invariant 0 <= j <= |sources|
      invariant forall i :: 0 <= i < j ==> sources[i] in buildings
      invariant best.None? ==> min == IntMax
      invariant best.Some? ==>
        best.value < j && min == Score(buildings[sources[best.value]], scoreItem) &&
        Eligible(buildings[sources[best.value]], produce) && min < IntMax
      invariant forall i :: 0 <= i < j && Eligible(buildings[sources[i]], produce) ==> min <= Score(buildings[sources[i]], scoreItem)
      invariant best.Some? ==> forall i :: 0 <= i < best.value && Eligible(buildings[sources[i]], produce) ==>
        min < Score(buildings[sources[i]], scoreItem)
    {
      var s := sources[j];
      if s !in buildings {
        return Err(RuntimeFailure("null source building " + s));
      }
      var b := buildings[s];
      if CanProduce(b, produce) {
        if !b.marked {
          var score := Score(b, scoreItem);
          if score < min {
            min := score;
            best := Some(j);
          }
        }
      }
      j := j + 1;
    }
    return Ok(best);
  }

  // ------------------------------------------------------------- dispatcher

  /** Java's `List.contains`-style scan for a completed user request for `item` in a storage queue. */
  method FindCompletedUser(queue: seq<Request>, item: string) returns (found: bool)
    ensures found <==> exists r :: r in queue && r.isUser && r.status == Completed && r.recipe.output == item
  {
    var i := 0;
    while i < |queue|
      invariant 0 <= i <= |queue|
      invariant forall j :: 0 <= j < i ==> !(queue[j].isUser && queue[j].status == Completed && queue[j].recipe.output == item)
    {
      var r := queue[i];
      if r.isUser && r.status == Completed && r.recipe.output == item {
        return true;
      }
      i := i + 1;
    }
    return false;
  }

  /** A storage with stock serves a request from stock as it is added. */
  predicate FromStock(b: Building)
  {
    b.kind.Storage? && Stock(b) > 0
  }

  /**
   * `addRequest`'s change to the building itself: a storage with stock
   * takes one unit out and records the request as completed; every other
   * building appends it.
   */
  function Received(b: Building, req: Request): Building
  {
    if FromStock(b)
    then b.(queue := b.queue + [SetStatus(req, Completed)], storage := b.storage[b.kind.storedItem := Stock(b) - 1])
    else AddRequest(b, req)
  }

  /**
   * One unit of a dispatcher: draw the next request id, make a non-user
   * request for `recipe` attributed to `requestor`, and hand it to
   * `target`'s `addRequest`. A storage refuses another item (the id is
   * spent all the same); a storage with stock completes the request at
   * once, taking one unit out of stock, and sends that unit to the
   * requestor (`mid` is the plant between the two, `transit` and `flown`
   * are the send's as in `SendUnit`); every other building queues it.
   */
  method Assign(rm: RoadMap, time: int, recipe: Recipe, requestor: Site, target: string, p: Plant)
    returns (p': Plant, err: Option<Failure>, ghost mid: Plant, ghost transit: int, ghost flown: map<string, Building>)
    requires target in p.buildings
    ensures Evolved(p, p')
    ensures p'.nextId == p.nextId + 1
    ensures var b := p.buildings[target];
      err.Some? <==> b.kind.Storage? && recipe.output != b.kind.storedItem
    ensures err.Some? ==> p'.buildings == p.buildings && p'.deliveries == p.deliveries
    ensures err.None? ==>
      var b := p.buildings[target];
      var req := NewRequest(p.nextId, recipe, Some(requestor), false, time);
      p'.buildings[target].queue == b.queue + [if FromStock(b) then SetStatus(req, Completed) else req]
    ensures err.None? ==>
      mid == Plant(p.buildings[target := Received(p.buildings[target], NewRequest(p.nextId, recipe, Some(requestor), false, time))],
                   p.deliveries, p.nextId + 1)
    ensures err.None? && !FromStock(p.buildings[target]) ==> p' == mid
    ensures err.None? && FromStock(p.buildings[target]) ==>
      var b := p.buildings[target];
      Sent(rm, time, SiteOf(b), requestor, b.kind.storedItem, mid, p', transit, flown)
    ensures forall n :: n in p.buildings && n != target ==> p'.buildings[n].queue == p.buildings[n].queue
  {
    var id := p.nextId;
    var req := NewRequest(id, recipe, Some(requestor), false, time);
    var b := p.buildings[target];
    var fast := false;
    if b.kind.Storage? {
      match StorageAccept(b, req)
      case Err(e) =>
        p', err := p.(nextId := id + 1), Some(e);
        mid, transit, flown := p', 0, p'.buildings;
        assert Evolved(p, p');
        return;
      case Ok((_, f)) =>
        fast := f;
    }
    // `Received` is the building `addRequest` leaves (`StorageAccept`'s for a storage).
    ReceivedEvolves(p, target, req);
    var p2 := Plant(p.buildings[target := Received(b, req)], p.deliveries, id + 1);
    mid := p2;
    p', err, transit, flown := p2, None, 0, p2.buildings;
    if fast {
      p', transit, flown := SendUnit(rm, time, SiteOf(b), requestor, b.kind.storedItem, p2);
      EvolvedTrans(p, p2, p');
      assert p'.buildings[target].queue == p2.buildings[target].queue;
    }
  }

  /** What a building's `addRequest` does to it, as a step of the plant: the id drawn is the only one new. */
  lemma ReceivedEvolves(p: Plant, target: string, req: Request)
    requires target in p.buildings && req.id == p.nextId
    ensures var b := p.buildings[target];
      b.kind.Storage? && StorageAccept(b, req).Ok? ==>
        StorageAccept(b, req).value.0 == Received(b, req) && (StorageAccept(b, req).value.1 <==> FromStock(b))
    ensures var b := p.buildings[target];
      !b.kind.Storage? ==> AddRequest(b, req) == Received(b, req) && !FromStock(b)
    ensures var b := p.buildings[target];
      Received(b, req).queue == b.queue + [if FromStock(b) then SetStatus(req, Completed) else req]
    ensures Evolved(p, Plant(p.buildings[target := Received(p.buildings[target], req)], p.deliveries, p.nextId + 1))
  {
    var b := p.buildings[target];
    var b1 := Received(b, req);
    assert b1.queue == b.queue + [b1.queue[|b.queue|]];
    UpdateEvolves(p, target, b1, p.nextId + 1);
  }

  // ---------------------------------------------------------- dispatch trace

  /**
   * One unit a dispatcher handed out: the source it chose (`target`), the
   * item that source was then asked for, the request assigned to it, the
   * table the choice was made on (`before`), the table once the request was
   * assigned (`mid`) and once the source's own dispatch was done as well
   * (`after`), and the units that dispatch handed out in turn.
   */
  datatype Grant = Grant(target: string, item: string, request: Request, before: map<string, Building>,
                         mid: map<string, Building>, after: map<string, Building>, sub: seq<Grant>)

  /** The units in the order their requests were made: each unit, then everything it led to. */
  function Flatten(gs: seq<Grant>): seq<Grant>
    decreases gs
  {
    if gs == [] then [] else [gs[0]] + Flatten(gs[0].sub) + Flatten(gs[1..])
  }

  lemma {:induction false} FlattenAppend(a: seq<Grant>, b: seq<Grant>)
    ensures Flatten(a + b) == Flatten(a) + Flatten(b)
    decreases |a|
  {
    if a == [] {
      assert a + b == b;
    } else {
      assert (a + b)[0] == a[0] && (a + b)[1..] == a[1..] + b;
      FlattenAppend(a[1..], b);
    }
  }

  lemma FlattenOne(g: Grant)
    ensures Flatten([g]) == [g] + Flatten(g.sub)
  {
    assert [g][1..] == [];
  }

  /** How many units of `x` a recipe's amounts ask for: none when it is missing or not positive. */
  function Amount(amounts: map<string, int>, x: string): nat
  {
    if x in amounts && amounts[x] > 0 then amounts[x] else 0
  }

  /** The ingredient of every unit asked for, in order: each listed name repeated by its amount. */
  function Expand(names: seq<string>, amounts: map<string, int>): seq<string>
    decreases |names|
  {
    if names == [] then []
    else Expand(names[..|names| - 1], amounts) + Repeat(names[|names| - 1], Amount(amounts, names[|names| - 1]))
  }

  /** `n` copies of `x`. */
  function Repeat(x: string, n: nat): seq<string>
  {
    seq(n, _ => x)
  }

  /** The units a recipe asks for, in the order both dispatchers hand them out. */
  function Units(r: Recipe): seq<string>
  {
    Expand(r.orderedNames, r.ingredients)
  }

  lemma {:induction false} RepeatCount(n: nat, y: string, x: string)
    ensures multiset(Repeat(y, n))[x] == if x == y then n else 0
  {
    if n > 0 {
      assert Repeat(y, n) == Repeat(y, n - 1) + [y];
      RepeatCount(n - 1, y, x);
    }
  }

  /** Each name stands for exactly its amount of units per listing, and nothing else is asked for. */
  lemma {:induction false} ExpandCounts(names: seq<string>, amounts: map<string, int>, x: string)
    ensures multiset(Expand(names, amounts))[x] == multiset(names)[x] * Amount(amounts, x)
    decreases |names|
  {
    if names != [] {
      var init, last := names[..|names| - 1], names[|names| - 1];
      var n := Amount(amounts, last);
      assert names == init + [last];
      assert multiset(names) == multiset(init) + multiset{last};
      ExpandCounts(init, amounts, x);
      RepeatCount(n, last, x);
      assert multiset(Expand(names, amounts)) == multiset(Expand(init, amounts)) + multiset(Repeat(last, n));
      var c, a := multiset(init)[x], Amount(amounts, x);
      if x == last {
        assert multiset(names)[x] == c + 1;
        MulSucc(c, a);
      } else {
        assert multiset(names)[x] == c;
      }
    }
  }

  lemma MulPositive(c: int, a: int)
    requires c >= 1 && a >= 1
    ensures c * a >= 1
  {
  }

  lemma MulSucc(c: int, a: int)
    ensures (c + 1) * a == c * a + a
  {
  }

  lemma ExpandSnoc(names: seq<string>, k: nat, amounts: map<string, int>)
    requires k < |names|
    ensures Expand(names[..k + 1], amounts) == Expand(names[..k], amounts) + Repeat(names[k], Amount(amounts, names[k]))
  {
    assert names[..k + 1][..k] == names[..k];
  }

  /**
   * `SelectSource`'s pick on table `bs`: every listed source exists, and
   * `target` is the first listed eligible one with the least score, which
   * is below `Integer.MAX_VALUE`.
   */
  ghost predicate Picked(bs: map<string, Building>, sources: seq<string>, produce: string, scoreItem: string, target: string)
  {
    (forall j :: 0 <= j < |sources| ==> sources[j] in bs) &&
    exists k :: 0 <= k < |sources| && sources[k] == target && Eligible(bs[target], produce) &&
      Score(bs[target], scoreItem) < IntMax &&
      (forall j :: 0 <= j < |sources| && Eligible(bs[sources[j]], produce) ==>
         Score(bs[target], scoreItem) <= Score(bs[sources[j]], scoreItem)) &&
      (forall j :: 0 <= j < k && Eligible(bs[sources[j]], produce) ==>
         Score(bs[target], scoreItem) < Score(bs[sources[j]], scoreItem))
  }

  /** Nothing to pick: every listed source exists and every eligible one scores `Integer.MAX_VALUE` or more. */
  ghost predicate NoSource(bs: map<string, Building>, sources: seq<string>, produce: string, scoreItem: string)
  {
    (forall j :: 0 <= j < |sources| ==> sources[j] in bs) &&
    forall j :: 0 <= j < |sources| && Eligible(bs[sources[j]], produce) ==> Score(bs[sources[j]], scoreItem) >= IntMax
  }

  /**
   * A unit handed out by the building at `site` with the listed `sources`:
   * a fresh non-user request for `recipe` attributed to `site`, assigned to
   * the source picked for `produce` on the table of the moment, which is
   * then asked for `produce` itself.
   */
  ghost predicate UnitOf(site: Site, sources: seq<string>, recipe: Recipe, produce: string, scoreItem: string,
                         time: int, g: Grant)
  {
    g.item == produce && g.request == NewRequest(g.request.id, recipe, Some(site), false, time) &&
    Picked(g.before, sources, produce, scoreItem, g.target)
  }

  /** The request as `addRequest` queues it: a storage with stock completes it at once. */
  function Landed(b: Building, req: Request): Request
  {
    if b.kind.Storage? && Stock(b) > 0 then SetStatus(req, Completed) else req
  }

  /** Units run one after the other from table `start` to table `end`. */
  ghost predicate Runs(start: map<string, Building>, gs: seq<Grant>, end: map<string, Building>)
    decreases |gs|
  {
    if gs == [] then end == start else gs[0].before == start && Runs(gs[0].after, gs[1..], end)
  }

  lemma {:induction false} RunsSnoc(start: map<string, Building>, gs: seq<Grant>, g: Grant, end: map<string, Building>)
    requires Runs(start, gs, g.before) && g.after == end
    ensures Runs(start, gs + [g], end)
    decreases |gs|
  {
    if gs == [] {
      assert [g][1..] == [];
    } else {
      assert (gs + [g])[0] == gs[0] && (gs + [g])[1..] == gs[1..] + [g];
      RunsSnoc(gs[0].after, gs[1..], g, end);
    }
  }

  /** The table after a storage counts one more outstanding request. */
  function Bump(bs: map<string, Building>, name: string): map<string, Building>
    requires name in bs && bs[name].kind.Storage?
  {
    bs[name := bs[name].(kind := bs[name].kind.(outstanding := bs[name].kind.outstanding + 1))]
  }

  /**
   * `BasicBuilding.processIngredients` run by building `t` for `item`, from
   * table `mid` to table `after`: one unit per unit of the recipe, in order,
   * each a request for that ingredient's recipe picked among `t`'s sources
   * and scored against the ingredient.
   */
  ghost predicate Supplied(recipes: map<string, Recipe>, time: int, t: Building, item: string,
                           mid: map<string, Building>, sub: seq<Grant>, after: map<string, Building>)
  {
    item in recipes && |sub| == |Units(recipes[item])| &&
    (forall j :: 0 <= j < |sub| ==>
       var x := Units(recipes[item])[j];
       x in recipes && UnitOf(SiteOf(t), t.sources, recipes[x], recipes[x].output, x, time, sub[j])) &&
    Runs(mid, sub, after)
  }

  /**
   * `StorageBuilding.processIngredients` run by storage `name` (`t`) for
   * its own item: nothing when a completed user request for it waits;
   * otherwise one unit for the stored item's recipe, after which the
   * storage counts one more outstanding request.
   */
  ghost predicate Replenished(recipes: map<string, Recipe>, time: int, t: Building, name: string, item: string,
                              mid: map<string, Building>, sub: seq<Grant>, after: map<string, Building>)
  {
    t.kind.Storage? && item == t.kind.storedItem && |sub| <= 1 &&
    (sub == [] <==> HasCompletedUserRequest(t, item)) &&
    (sub == [] ==> after == mid) &&
    (|sub| == 1 ==>
       item in recipes && UnitOf(SiteOf(t), t.sources, recipes[item], item, item, time, sub[0]) &&
       sub[0].before == mid && name in sub[0].after && sub[0].after[name].kind.Storage? &&
       after == Bump(sub[0].after, name))
  }

  /** `processIngredients` of building `name` for `item`, by the building's kind. */
  ghost predicate Follows(recipes: map<string, Recipe>, time: int, name: string, item: string,
                          mid: map<string, Building>, sub: seq<Grant>, after: map<string, Building>)
    requires name in mid
  {
    if mid[name].kind.Storage? then Replenished(recipes, time, mid[name], name, item, mid, sub, after)
    else Supplied(recipes, time, mid[name], item, mid, sub, after)
  }

  /**
   * A well-formed unit, all the way down: the target's queue gained the
   * request (as `addRequest` queues it), and the target then dispatched
   * what `processIngredients` asks of it.
   */
  ghost predicate Planned(recipes: map<string, Recipe>, time: int, g: Grant)
    decreases g
  {
    g.target in g.before && g.target in g.mid &&
    g.mid[g.target].queue == g.before[g.target].queue + [Landed(g.before[g.target], g.request)] &&
    Follows(recipes, time, g.target, g.item, g.mid, g.sub, g.after) &&
    forall s :: s in g.sub ==> Planned(recipes, time, s)
  }

  /** Ids drawn one after the other from `start`. */
  ghost predicate Numbered(f: seq<Grant>, start: int)
  {
    forall i :: 0 <= i < |f| ==> f[i].request.id == start + i
  }

  /** The requests assigned to building `n`, in order. */
  function Aimed(f: seq<Grant>, n: string): seq<Request>
    decreases |f|
  {
    if f == [] then [] else (if f[0].target == n then [f[0].request] else []) + Aimed(f[1..], n)
  }

  lemma {:induction false} AimedAppend(a: seq<Grant>, b: seq<Grant>, n: string)
    ensures Aimed(a + b, n) == Aimed(a, n) + Aimed(b, n)
    decreases |a|
  {
    if a == [] {
      assert a + b == b;
    } else {
      assert (a + b)[0] == a[0] && (a + b)[1..] == a[1..] + b;
      AimedAppend(a[1..], b, n);
    }
  }

  /** Queue entries that are the requests, in order, each possibly completed at once. */
  ghost predicate Issued(entries: seq<Request>, reqs: seq<Request>)
  {
    |entries| == |reqs| &&
    forall i :: 0 <= i < |entries| ==> entries[i] == reqs[i] || entries[i] == SetStatus(reqs[i], Completed)
  }

  /** Every queue of `bs` grew by exactly the requests assigned to it. */
  ghost predicate Lands(bs: map<string, Building>, bs': map<string, Building>, f: seq<Grant>)
  {
    forall n :: n in bs ==>
      n in bs' && bs[n].queue <= bs'[n].queue && Issued(bs'[n].queue[|bs[n].queue|..], Aimed(f, n))
  }

  /**
   * A dispatch from `p` to `p'` handed out the units `gs`: each well formed,
   * their requests numbered from the counter in the order they were made,
   * the counter advanced by their number, and each queue grown by exactly
   * its requests.
   */
  ghost predicate Traced(recipes: map<string, Recipe>, time: int, p: Plant, gs: seq<Grant>, p': Plant)
  {
    (forall g :: g in gs ==> Planned(recipes, time, g)) &&
    Numbered(Flatten(gs), p.nextId) && p'.nextId == p.nextId + |Flatten(gs)| &&
    Lands(p.buildings, p'.buildings, Flatten(gs))
  }

  lemma TracedNone(recipes: map<string, Recipe>, time: int, p: Plant)
    ensures Traced(recipes, time, p, [], p)
  {
    forall n | n in p.buildings
      ensures Issued(p.buildings[n].queue[|p.buildings[n].queue|..], Aimed([], n))
    {
      assert p.buildings[n].queue[|p.buildings[n].queue|..] == [];
    }
  }

  lemma IssuedAppend(e1: seq<Request>, r1: seq<Request>, e2: seq<Request>, r2: seq<Request>)
    requires Issued(e1, r1) && Issued(e2, r2)
    ensures Issued(e1 + e2, r1 + r2)
  {
  }

  lemma LandsAppend(bs0: map<string, Building>, bs1: map<string, Building>, bs2: map<string, Building>,
                    f1: seq<Grant>, f2: seq<Grant>)
    requires Lands(bs0, bs1, f1) && Lands(bs1, bs2, f2)
    ensures Lands(bs0, bs2, f1 + f2)
  {
    forall n | n in bs0
      ensures n in bs2 && bs0[n].queue <= bs2[n].queue &&
              Issued(bs2[n].queue[|bs0[n].queue|..], Aimed(f1 + f2, n))
    {
      var q0, q1, q2 := bs0[n].queue, bs1[n].queue, bs2[n].queue;
      AimedAppend(f1, f2, n);
      assert q2[|q0|..] == q1[|q0|..] + q2[|q1|..];
      IssuedAppend(q1[|q0|..], Aimed(f1, n), q2[|q1|..], Aimed(f2, n));
    }
  }

  lemma TracedAppend(recipes: map<string, Recipe>, time: int, p0: Plant, a: seq<Grant>, p1: Plant, b: seq<Grant>, p2: Plant)
    requires Traced(recipes, time, p0, a, p1) && Traced(recipes, time, p1, b, p2)
    ensures Traced(recipes, time, p0, a + b, p2)
  {
    FlattenAppend(a, b);
    LandsAppend(p0.buildings, p1.buildings, p2.buildings, Flatten(a), Flatten(b));
  }

  /**
   * The units of a dispatcher so far: one per wanted ingredient, handed out
   * by the building at `site` with the listed `sources`, run one after the
   * other and traced from `p` to `p'`.
   */
  ghost predicate Trail(recipes: map<string, Recipe>, time: int, site: Site, sources: seq<string>,
                        p: Plant, want: seq<string>, gs: seq<Grant>, p': Plant)
  {
    |gs| == |want| &&
    (forall j :: 0 <= j < |gs| ==>
       want[j] in recipes && UnitOf(site, sources, recipes[want[j]], recipes[want[j]].output, want[j], time, gs[j])) &&
    Runs(p.buildings, gs, p'.buildings) && Traced(recipes, time, p, gs, p')
  }

  lemma TrailStep(recipes: map<string, Recipe>, time: int, site: Site, sources: seq<string>,
                  p: Plant, want: seq<string>, gs: seq<Grant>, p1: Plant, x: string, g: Grant, p2: Plant)
    requires Trail(recipes, time, site, sources, p, want, gs, p1)
    requires x in recipes && UnitOf(site, sources, recipes[x], recipes[x].output, x, time, g)
    requires g.before == p1.buildings && g.after == p2.buildings && Traced(recipes, time, p1, [g], p2)
    ensures Trail(recipes, time, site, sources, p, want + [x], gs + [g], p2)
  {
    TracedAppend(recipes, time, p, gs, p1, [g], p2);
    RunsSnoc(p.buildings, gs, g, p2.buildings);
    var gs' := gs + [g];
    assert forall i :: 0 <= i < |gs| ==> gs'[i] == gs[i];
  }

  /** Assigning the unit's request grows the target's queue by it and no other queue. */
  lemma AssignLands(p: Plant, p1: Plant, g: Grant)
    requires g.target in p.buildings && Evolved(p, p1)
    requires p1.buildings[g.target].queue == p.buildings[g.target].queue + [Landed(p.buildings[g.target], g.request)]
    requires forall n :: n in p.buildings && n != g.target ==> p1.buildings[n].queue == p.buildings[n].queue
    ensures Lands(p.buildings, p1.buildings, [g])
  {
    assert [g][1..] == [];
    forall n | n in p.buildings
      ensures Issued(p1.buildings[n].queue[|p.buildings[n].queue|..], Aimed([g], n))
    {
      if n == g.target {
        assert p1.buildings[n].queue[|p.buildings[n].queue|..] == [Landed(p.buildings[g.target], g.request)];
      } else {
        assert p1.buildings[n].queue[|p.buildings[n].queue|..] == [];
      }
    }
  }

  /** The unit `DispatchUnit` hands out is well formed and traced. */
  lemma UnitTraced(recipes: map<string, Recipe>, time: int, p: Plant, p1: Plant, p2: Plant, g: Grant)
    requires g.before == p.buildings && g.mid == p1.buildings && g.after == p2.buildings
    requires g.target in p.buildings && g.request.id == p.nextId && p1.nextId == p.nextId + 1
    requires Evolved(p, p1)
    requires p1.buildings[g.target].queue == p.buildings[g.target].queue + [Landed(p.buildings[g.target], g.request)]
    requires forall n :: n in p.buildings && n != g.target ==> p1.buildings[n].queue == p.buildings[n].queue
    requires Follows(recipes, time, g.target, g.item, p1.buildings, g.sub, p2.buildings)
    requires Traced(recipes, time, p1, g.sub, p2)
    ensures Traced(recipes, time, p, [g], p2)
  {
    FlattenOne(g);
    assert Planned(recipes, time, g);
    AssignLands(p, p1, g);
    LandsAppend(p.buildings, p1.buildings, p2.buildings, [g], Flatten(g.sub));
    assert Numbered(Flatten([g]), p.nextId) by {
      forall i | 0 <= i < |Flatten([g])|
        ensures Flatten([g])[i].request.id == p.nextId + i
      {
        if i > 0 {
          assert Flatten([g])[i] == Flatten(g.sub)[i - 1];
        }
      }
    }
  }

  /** Counting one more outstanding request changes no queue and draws no id. */
  lemma BumpTraced(recipes: map<string, Recipe>, time: int, p: Plant, gs: seq<Grant>, p1: Plant, name: string)
    requires Traced(recipes, time, p, gs, p1) && name in p1.buildings && p1.buildings[name].kind.Storage?
    ensures Traced(recipes, time, p, gs, p1.(buildings := Bump(p1.buildings, name)))
  {
  }

  // ------------------------------------------------------------- dispatcher

  /**
   * `processIngredients`, dispatched on the building's kind: a storage
   * requests its own item, every other building its recipe's ingredients.
   * `fuel` bounds the depth of the recursion, which Java leaves to its
   * call stack; running out is an error. A successful run hands out the
   * units the building's kind asks for, traced in `grants`.
   */
  method ProcessIngredients(rm: RoadMap, recipes: map<string, Recipe>, time: int, name: string, item: string,
                            p: Plant, fuel: nat)
    returns (p': Plant, err: Option<Failure>, ghost grants: seq<Grant>)
    requires name in p.buildings
    ensures Evolved(p, p')
    ensures !p.buildings[name].kind.Storage? && item in recipes && recipes[item].ingredients == map[] ==>
      p' == p && err.None?
    ensures !p.buildings[name].kind.Storage? && item !in recipes ==> p' == p && err.Some?
    ensures p.buildings[name].kind.Storage? && item != p.buildings[name].kind.storedItem ==> p' == p && err.Some?
    ensures (p.buildings[name].kind.Storage? && item == p.buildings[name].kind.storedItem &&
             HasCompletedUserRequest(p.buildings[name], item)) ==>
      p' == p && err.None?
    ensures err.None? ==>
      Follows(recipes, time, name, item, p.buildings, grants, p'.buildings) && Traced(recipes, time, p, grants, p')
    decreases fuel, 5
  {
    if p.buildings[name].kind.Storage? {
      p', err, grants := Replenish(rm, recipes, time, name, item, p, fuel);
    } else {
      p', err, grants := Supply(rm, recipes, time, name, item, p, fuel);
    }
  }

  /**
   * One unit of either dispatcher: pick a source with `SelectSource`, assign
   * it a request for `recipe` attributed to `site`, and recurse into it for
   * `produce` before returning. "No building can produce" is returned, with
   * no id drawn, exactly when there is nothing to pick.
   */
  method DispatchUnit(rm: RoadMap, recipes: map<string, Recipe>, time: int, site: Site, sources: seq<string>,
                      recipe: Recipe, produce: string, scoreItem: string, p: Plant, fuel: nat)
    returns (p': Plant, err: Option<Failure>, ghost g: Grant)
    ensures Evolved(p, p')
    ensures (err == Some(RuntimeFailure("No building can produce " + scoreItem)) && p'.nextId == p.nextId) <==>
      NoSource(p.buildings, sources, produce, scoreItem)
    ensures err.None? ==>
      UnitOf(site, sources, recipe, produce, scoreItem, time, g) && g.before == p.buildings && g.after == p'.buildings &&
      Traced(recipes, time, p, [g], p')
    decreases fuel, 0
  {
    var req := NewRequest(p.nextId, recipe, Some(site), false, time);
    g := Grant("", produce, req, p.buildings, p.buildings, p.buildings, []);
    var choice := SelectSource(p.buildings, sources, produce, scoreItem);
    if choice.Err? {
      assert choice.error.message[0] == 'n';
      return p, Some(choice.error), g;
    }
    if choice.value.None? {
      return p, Some(RuntimeFailure("No building can produce " + scoreItem)), g;
    }
    var target := sources[choice.value.value];
    assert Picked(p.buildings, sources, produce, scoreItem, target);
    ghost var mid, transit, flown;
    var p1, e;
    p1, e, mid, transit, flown := Assign(rm, time, recipe, site, target, p);
    if e.Some? {
      return p1, e, g;
    }
    if fuel == 0 {
      return p1, Some(Exhausted), g;
    }
    var p2, e2, sub := ProcessIngredients(rm, recipes, time, target, produce, p1, fuel - 1);
    EvolvedTrans(p, p1, p2);
    if e2.Some? {
      return p2, e2, g;
    }
    g := Grant(target, produce, req, p.buildings, p1.buildings, p2.buildings, sub);
    UnitTraced(recipes, time, p, p1, p2, g);
    return p2, None, g;
  }

  /**
   * `BasicBuilding.processIngredients`: nothing for a recipe without
   * ingredients; otherwise, for each ingredient in the recipe's order and
   * each unit of it, one `DispatchUnit` (which recurses into the source
   * before the next unit). A null recipe or amount is an error.
   */
  method Supply(rm: RoadMap, recipes: map<string, Recipe>, time: int, name: string, item: string,
                p: Plant, fuel: nat)
    returns (p': Plant, err: Option<Failure>, ghost grants: seq<Grant>)
    requires name in p.buildings
    ensures Evolved(p, p')
    ensures item !in recipes ==> p' == p && err.Some?
    ensures item in recipes && recipes[item].ingredients == map[] ==> p' == p && err.None?
    ensures (err.None? && item in recipes &&
             exists x :: x in recipes[item].orderedNames && x in recipes[item].ingredients && recipes[item].ingredients[x] > 0) ==>
      p'.nextId > p.nextId
    ensures err.None? ==>
      Supplied(recipes, time, p.buildings[name], item, p.buildings, grants, p'.buildings) && Traced(recipes, time, p, grants, p')
    decreases fuel, 4
  {
    grants := [];
    EvolvedRefl(p);
    TracedNone(recipes, time, p);
    if item !in recipes {
      return p, Some(RuntimeFailure("null recipe for " + item)), grants;
    }
    var recipe := recipes[item];
    if recipe.ingredients == map[] {
      NoUnits(recipe);
      return p, None, grants;
    }
    p', err, grants := SupplyOrder(rm, recipes, time, SiteOf(p.buildings[name]), p.buildings[name].sources, recipe, p, fuel);
    if err.None? {
      SomeUnits(recipe, grants);
    }
  }

  /** The loop of `BasicBuilding.processIngredients` over the recipe's ingredient order. */
  method SupplyOrder(rm: RoadMap, recipes: map<string, Recipe>, time: int, site: Site, sources: seq<string>,
                     recipe: Recipe, p: Plant, fuel: nat)
    returns (p': Plant, err: Option<Failure>, ghost grants: seq<Grant>)
    ensures Evolved(p, p')
    ensures err.None? ==> Stage(recipes, time, site, sources, p, Units(recipe), grants, p')
    decreases fuel, 3
  {
    grants := [];
    EvolvedRefl(p);
    TracedNone(recipes, time, p);
    var order := recipe.orderedNames;
    p' := p;
    var k := 0;
    while k < |order|
      invariant 0 <= k <= |order|
      invariant Stage(recipes, time, site, sources, p, Expand(order[..k], recipe.ingredients), grants, p')
    {
      var ingredient := order[k];
      if ingredient !in recipe.ingredients {
        return p', Some(RuntimeFailure("null amount for " + ingredient)), grants;
      }
      var p1, e, gs := SupplyIngredient(rm, recipes, time, site, sources, ingredient, recipe.ingredients[ingredient],
                                        p, Expand(order[..k], recipe.ingredients), grants, p', fuel);
      if e.Some? {
        return p1, e, gs;
      }
      ExpandSnoc(order, k, recipe.ingredients);
      p', grants := p1, gs;
      k := k + 1;
    }
    assert order[..k] == order;
    err := None;
  }

  /**
   * The inner loop of `BasicBuilding.processIngredients`: `count` units of
   * one ingredient, one `DispatchUnit` each, appended to the units so far.
   */
  method SupplyIngredient(rm: RoadMap, recipes: map<string, Recipe>, time: int, site: Site, sources: seq<string>,
                          ingredient: string, count: int, ghost p0: Plant, ghost want: seq<string>, ghost gs0: seq<Grant>,
                          p: Plant, fuel: nat)
    returns (p': Plant, err: Option<Failure>, ghost gs: seq<Grant>)
    requires Stage(recipes, time, site, sources, p0, want, gs0, p)
    ensures Evolved(p0, p')
    ensures err.None? ==> Stage(recipes, time, site, sources, p0, want + Repeat(ingredient, if count < 0 then 0 else count), gs, p')
    decreases fuel, 2
  {
    p', gs := p, gs0;
    RepeatSnoc(want, ingredient, 0);
    ghost var w := want;
    var u := 0;
    while u < count
      invariant 0 <= u <= (if count < 0 then 0 else count)
      invariant w == want + Repeat(ingredient, u)
      invariant Stage(recipes, time, site, sources, p0, w, gs, p')
    {
      var p1, e, gs1 := SupplyOne(rm, recipes, time, site, sources, ingredient, p0, w, gs, p', fuel);
      if e.Some? {
        return p1, e, gs1;
      }
      RepeatSnoc(want, ingredient, u + 1);
      p', gs, w := p1, gs1, w + [ingredient];
      u := u + 1;
    }
    assert w == want + Repeat(ingredient, if count < 0 then 0 else count);
    err := None;
  }

  lemma RepeatSnoc(want: seq<string>, x: string, n: nat)
    ensures want + Repeat(x, 0) == want
    ensures n > 0 ==> want + Repeat(x, n) == want + Repeat(x, n - 1) + [x]
  {
    if n > 0 {
      assert Repeat(x, n) == Repeat(x, n - 1) + [x];
      assert want + (Repeat(x, n - 1) + [x]) == want + Repeat(x, n - 1) + [x];
    }
  }

  /** The dispatcher's loop state: the plant only evolved, and the units so far are traced. */
  ghost predicate Stage(recipes: map<string, Recipe>, time: int, site: Site, sources: seq<string>,
                        p0: Plant, want: seq<string>, gs: seq<Grant>, p: Plant)
  {
    Evolved(p0, p) && Trail(recipes, time, site, sources, p0, want, gs, p)
  }

  /** One unit of an ingredient: a null recipe is an error; otherwise one `DispatchUnit`. */
  method SupplyOne(rm: RoadMap, recipes: map<string, Recipe>, time: int, site: Site, sources: seq<string>,
                   ingredient: string, ghost p0: Plant, ghost want: seq<string>, ghost gs0: seq<Grant>,
                   p: Plant, fuel: nat)
    returns (p': Plant, err: Option<Failure>, ghost gs: seq<Grant>)
    requires Stage(recipes, time, site, sources, p0, want, gs0, p)
    ensures Evolved(p0, p')
    ensures err.None? ==> Stage(recipes, time, site, sources, p0, want + [ingredient], gs, p')
    decreases fuel, 1
  {
    gs := gs0;
    if ingredient !in recipes {
      return p, Some(RuntimeFailure("null recipe for " + ingredient)), gs;
    }
    var r := recipes[ingredient];
    var e;
    ghost var g;
    p', e, g := DispatchUnit(rm, recipes, time, site, sources, r, r.output, ingredient, p, fuel);
    EvolvedTrans(p0, p, p');
    if e.Some? {
      return p', e, gs;
    }
    TrailStep(recipes, time, site, sources, p0, want, gs0, p, ingredient, g, p');
    gs := gs0 + [g];
    err := None;
  }

  /** A recipe without ingredients asks for no unit. */
  lemma NoUnits(r: Recipe)
    requires r.ingredients == map[]
    ensures Units(r) == []
  {
    if Units(r) != [] {
      ExpandCounts(r.orderedNames, r.ingredients, Units(r)[0]);
    }
  }

  /** A recipe listing a name with a positive amount asks for some unit. */
  lemma SomeUnits(r: Recipe, gs: seq<Grant>)
    requires |gs| == |Units(r)|
    ensures (exists x :: x in r.orderedNames && x in r.ingredients && r.ingredients[x] > 0) ==> |Flatten(gs)| > 0
  {
    if x :| x in r.orderedNames && x in r.ingredients && r.ingredients[x] > 0 {
      ExpandCounts(r.orderedNames, r.ingredients, x);
      var c, a := multiset(r.orderedNames)[x], Amount(r.ingredients, x);
      assert c >= 1 && a >= 1;
      MulPositive(c, a);
      assert x in Units(r);
      assert Flatten(gs)[0] == gs[0];
    }
  }

  /**
   * `StorageBuilding.processIngredients`: refuses another item; does nothing
   * while a completed user request for the item waits in the queue;
   * otherwise one `DispatchUnit` for the stored item, after which the
   * storage counts one more outstanding request.
   */
  method Replenish(rm: RoadMap, recipes: map<string, Recipe>, time: int, name: string, item: string,
                   p: Plant, fuel: nat)
    returns (p': Plant, err: Option<Failure>, ghost grants: seq<Grant>)
    requires name in p.buildings && p.buildings[name].kind.Storage?
    ensures Evolved(p, p')
    ensures item != p.buildings[name].kind.storedItem ==> p' == p && err.Some?
    ensures item == p.buildings[name].kind.storedItem && HasCompletedUserRequest(p.buildings[name], item) ==> p' == p && err.None?
    ensures (err.None? && item == p.buildings[name].kind.storedItem && !HasCompletedUserRequest(p.buildings[name], item)) ==>
      p'.nextId > p.nextId
    ensures err.None? ==>
      Replenished(recipes, time, p.buildings[name], name, item, p.buildings, grants, p'.buildings) &&
      Traced(recipes, time, p, grants, p')
    decreases fuel, 4
  {
    grants := [];
    EvolvedRefl(p);
    TracedNone(recipes, time, p);
    var b := p.buildings[name];
    var stored := b.kind.storedItem;
    if item != stored {
      return p, Some(RuntimeFailure("Storage building " + name + " cannot process item: " + item)), grants;
    }
    var done := FindCompletedUser(b.queue, item);
    if done {
      return p, None, grants;
    }
    // A time step only replenishes an item that has a recipe, so this error is reached only from a user request.
    if stored !in recipes {
      return p, Some(RuntimeFailure("null recipe for " + stored)), grants;
    }
    var recipe := recipes[stored];
    var p1, e, g := DispatchUnit(rm, recipes, time, SiteOf(b), b.sources, recipe, stored, stored, p, fuel);
    if e.Some? {
      return p1, e, grants;
    }
    p' := p1.(buildings := Bump(p1.buildings, name));
    grants := [g];
    ReplenishStep(recipes, time, p, name, g, p1);
    err := None;
  }

  /** The tail of `Replenish`: the storage, found again after the unit, counts one more outstanding request. */
  lemma ReplenishStep(recipes: map<string, Recipe>, time: int, p: Plant, name: string, g: Grant, p1: Plant)
    requires name in p.buildings && p.buildings[name].kind.Storage?
    requires !HasCompletedUserRequest(p.buildings[name], p.buildings[name].kind.storedItem)
    requires p.buildings[name].kind.storedItem in recipes
    requires UnitOf(SiteOf(p.buildings[name]), p.buildings[name].sources, recipes[p.buildings[name].kind.storedItem],
                    p.buildings[name].kind.storedItem, p.buildings[name].kind.storedItem, time, g)
    requires Evolved(p, p1) && g.before == p.buildings && g.after == p1.buildings && Traced(recipes, time, p, [g], p1)
    ensures name in p1.buildings && p1.buildings[name].kind.Storage?
    ensures Evolved(p, p1.(buildings := Bump(p1.buildings, name)))
    ensures p1.nextId > p.nextId
    ensures Replenished(recipes, time, p.buildings[name], name, p.buildings[name].kind.storedItem,
                        p.buildings, [g], Bump(p1.buildings, name))
    ensures Traced(recipes, time, p, [g], p1.(buildings := Bump(p1.buildings, name)))
  {
    BumpEvolves(p, name, p1);
    BumpTraced(recipes, time, p, [g], p1, name);
    FlattenOne(g);
  }

  lemma BumpEvolves(p: Plant, name: string, p1: Plant)
    requires name in p.buildings && p.buildings[name].kind.Storage? && Evolved(p, p1)
    ensures name in p1.buildings && p1.buildings[name].kind.Storage?
    ensures Evolved(p, p1.(buildings := Bump(p1.buildings, name)))
  {
    var s := p1.buildings[name];
    var s' := s.(kind := s.kind.(outstanding := s.kind.outstanding + 1));
    UpdateEvolves(p1, name, s', p1.nextId);
    EvolvedTrans(p, p1, p1.(buildings := Bump(p1.buildings, name)));
  }

  // ---------------------------------------------------- connection validation

  /** Between the two tables only drone fleets differ. */
  ghost predicate FleetsOnly(bs: map<string, Building>, bs': map<string, Building>)
  {
    bs'.Keys == bs.Keys &&
    forall n :: n in bs ==>
      bs'[n] == bs[n] || (bs[n].kind.DronePort? && bs'[n].kind.DronePort? && bs'[n] == bs[n].(kind := bs'[n].kind))
  }

  /** A building a fleet change left eligible was eligible before. */
  lemma FleetsOnlyEligible(bs: map<string, Building>, bs': map<string, Building>, n: string, produce: string)
    requires FleetsOnly(bs, bs') && n in bs' && Eligible(bs'[n], produce)
    ensures n in bs && Eligible(bs[n], produce)
  {
  }

  lemma FleetsOnlyTrans(a: map<string, Building>, b: map<string, Building>, c: map<string, Building>)
    requires FleetsOnly(a, b) && FleetsOnly(b, c)
    ensures FleetsOnly(a, c)
  {
  }

  /** A distance query changes at most one port's fleet. */
  lemma OutcomeFleetsOnly(bs: map<string, Building>, bs': map<string, Building>, s: Coordinate, g: Coordinate, road: int, r: int)
    requires DistanceOutcome(bs, s, g, road, r, bs')
    ensures FleetsOnly(bs, bs')
  {
  }

  function MissingSourceError(source: string, owner: string): string
  {
    "Error: Source building '" + source + "' referenced by '" + owner + "' does not exist.\n"
  }

  function NoPathError(owner: string, source: string, ingredient: string): string
  {
    "Error: No path exists from '" + owner + "' to source '" + source + "' needed for ingredient '" + ingredient + "'.\n"
  }

  function NoSourceError(owner: string, ingredient: string): string
  {
    "Error: No source for building '" + owner + "' can produce '" + ingredient + "'.\n"
  }

  /**
   * The source search of `validateConnections` on a fixed table: walking the
   * sources in order, a missing one is reported and skipped, an eligible one
   * that `getShortestDistance` connects to `dest` is the answer, an eligible
   * one it does not connect is reported and skipped, and any other is
   * skipped. The result is the answer, if any, and the reports, in order.
   */
  ghost function Scan(roads: map<Coordinate, Road>, locs: map<Coordinate, Site>, buildings: map<string, Building>,
                      sources: seq<string>, ingredient: string, dest: Site): (Option<string>, seq<string>)
    decreases |sources|
  {
    if sources == [] then (None, [])
    else
      var s := sources[0];
      var rest := Scan(roads, locs, buildings, sources[1..], ingredient, dest);
      if s !in buildings then (rest.0, [MissingSourceError(s, dest.name)] + rest.1)
      else if !Eligible(buildings[s], ingredient) then rest
      else if Connected(roads, locs, buildings, SiteOf(buildings[s]), dest) then (Some(s), [])
      else (rest.0, [NoPathError(dest.name, s, ingredient)] + rest.1)
  }

  /** `sources[j]` is the first listed source that exists, is eligible and is connected to `dest`. */
  ghost predicate FirstConnected(roads: map<Coordinate, Road>, locs: map<Coordinate, Site>, buildings: map<string, Building>,
                                 sources: seq<string>, ingredient: string, dest: Site, j: int)
  {
    0 <= j < |sources| && sources[j] in buildings && Eligible(buildings[sources[j]], ingredient) &&
    Connected(roads, locs, buildings, SiteOf(buildings[sources[j]]), dest) &&
    forall i :: 0 <= i < j && sources[i] in buildings && Eligible(buildings[sources[i]], ingredient) ==>
      !Connected(roads, locs, buildings, SiteOf(buildings[sources[i]]), dest)
  }

  /** The first `j` sources all exist and none is eligible: the search passes them silently. */
  ghost predicate Quiet(buildings: map<string, Building>, sources: seq<string>, ingredient: string, j: int)
  {
    forall i :: 0 <= i < j && i < |sources| ==> sources[i] in buildings && !Eligible(buildings[sources[i]], ingredient)
  }

  /**
   * What an answer means: it is the first listed source that exists, is
   * eligible and is connected, and the search is silent exactly when every
   * source before it exists and is not eligible.
   */
  lemma {:induction false} ScanSome(roads: map<Coordinate, Road>, locs: map<Coordinate, Site>,
                                    buildings: map<string, Building>, sources: seq<string>, ingredient: string, dest: Site)
    returns (j: nat)
    requires Scan(roads, locs, buildings, sources, ingredient, dest).0.Some?
    ensures FirstConnected(roads, locs, buildings, sources, ingredient, dest, j)
    ensures sources[j] == Scan(roads, locs, buildings, sources, ingredient, dest).0.value
    ensures Scan(roads, locs, buildings, sources, ingredient, dest).1 == [] <==> Quiet(buildings, sources, ingredient, j)
    decreases |sources|
  {
    var s := sources[0];
    if s in buildings && Eligible(buildings[s], ingredient) && Connected(roads, locs, buildings, SiteOf(buildings[s]), dest) {
      j := 0;
    } else {
      var tail := sources[1..];
      var k := ScanSome(roads, locs, buildings, tail, ingredient, dest);
      j := k + 1;
      ShiftFirst(roads, locs, buildings, sources, ingredient, dest, k);
    }
  }

  lemma ShiftFirst(roads: map<Coordinate, Road>, locs: map<Coordinate, Site>, buildings: map<string, Building>,
                   sources: seq<string>, ingredient: string, dest: Site, k: nat)
    requires sources != [] && FirstConnected(roads, locs, buildings, sources[1..], ingredient, dest, k)
    requires !(sources[0] in buildings && Eligible(buildings[sources[0]], ingredient) &&
               Connected(roads, locs, buildings, SiteOf(buildings[sources[0]]), dest))
    ensures FirstConnected(roads, locs, buildings, sources, ingredient, dest, k + 1)
    ensures Quiet(buildings, sources, ingredient, k + 1) <==>
      sources[0] in buildings && !Eligible(buildings[sources[0]], ingredient) && Quiet(buildings, sources[1..], ingredient, k)
  {
    assert forall i :: 1 <= i < |sources| ==> sources[i] == sources[1..][i - 1];
  }

  /**
   * What no answer means: no listed eligible source is connected, and the
   * search is silent exactly when every source exists and none is eligible.
   */
  lemma {:induction false} ScanNone(roads: map<Coordinate, Road>, locs: map<Coordinate, Site>,
                                    buildings: map<string, Building>, sources: seq<string>, ingredient: string, dest: Site)
    requires Scan(roads, locs, buildings, sources, ingredient, dest).0.None?
    ensures forall i :: 0 <= i < |sources| && sources[i] in buildings && Eligible(buildings[sources[i]], ingredient) ==>
      !Connected(roads, locs, buildings, SiteOf(buildings[sources[i]]), dest)
    ensures Scan(roads, locs, buildings, sources, ingredient, dest).1 == [] <==>
      forall i :: 0 <= i < |sources| ==> sources[i] in buildings && !Eligible(buildings[sources[i]], ingredient)
    decreases |sources|
  {
    if sources != [] {
      var tail := sources[1..];
      ScanNone(roads, locs, buildings, tail, ingredient, dest);
      assert forall i :: 1 <= i < |sources| ==> sources[i] == tail[i - 1];
    }
  }

  lemma ScanAnswer(roads: map<Coordinate, Road>, locs: map<Coordinate, Site>,
                   buildings: map<string, Building>, sources: seq<string>, ingredient: string, dest: Site)
    ensures var r := Scan(roads, locs, buildings, sources, ingredient, dest);
      r.0.Some? ==> r.0.value in sources && r.0.value in buildings && Eligible(buildings[r.0.value], ingredient)
  {
    if Scan(roads, locs, buildings, sources, ingredient, dest).0.Some? {
      var j := ScanSome(roads, locs, buildings, sources, ingredient, dest);
    }
  }

  /**
   * The source loop of `validateConnections` for one unit: `Scan` on the
   * table it starts from, whose reports it appends. Only a successful
   * distance query may send a drone, so a search without an answer changes
   * nothing, and one with an answer changes at most one port's fleet.
   */
  method FindConnectedSource(rm: RoadMap, buildings: map<string, Building>, sources: seq<string>, ingredient: string,
                             dest: Site, errors: seq<string>)
    returns (found: Option<string>, buildings': map<string, Building>, errors': seq<string>)
    ensures found == Scan(rm.roads, rm.buildingLocations, buildings, sources, ingredient, dest).0
    ensures errors' == errors + Scan(rm.roads, rm.buildingLocations, buildings, sources, ingredient, dest).1
    ensures FleetsOnly(buildings, buildings')
    ensures found.None? ==> buildings' == buildings
    ensures found.Some? ==>
      found.value in sources && found.value in buildings && Eligible(buildings[found.value], ingredient)
    ensures sources == [] ==> found.None? && buildings' == buildings && errors' == errors
  {
    ScanAnswer(rm.roads, rm.buildingLocations, buildings, sources, ingredient, dest);
    buildings', errors' := buildings, errors;
    var j := 0;
    assert sources[0..] == sources;
    while j < |sources|
      invariant 0 <= j <= |sources|
      invariant buildings' == buildings && errors <= errors'
      invariant Scan(rm.roads, rm.buildingLocations, buildings, sources[j..], ingredient, dest).0 ==
        Scan(rm.roads, rm.buildingLocations, buildings, sources, ingredient, dest).0
      invariant errors' + Scan(rm.roads, rm.buildingLocations, buildings, sources[j..], ingredient, dest).1 ==
        errors + Scan(rm.roads, rm.buildingLocations, buildings, sources, ingredient, dest).1
    {
      var s := sources[j];
      ghost var rest := Scan(rm.roads, rm.buildingLocations, buildings, sources[j + 1..], ingredient, dest);
      assert sources[j..][1..] == sources[j + 1..];
      if s !in buildings' {
        assert errors' + ([MissingSourceError(s, dest.name)] + rest.1) == errors' + [MissingSourceError(s, dest.name)] + rest.1;
        errors' := errors' + [MissingSourceError(s, dest.name)];
      } else {
        var b := buildings'[s];
        if CanProduce(b, ingredient) && !b.marked {
          var distance, after, road := ShortestDistance(rm, buildings', SiteOf(b), dest);
          if distance >= 0 {
            if SiteOf(b).location.Some? && dest.location.Some? {
              OutcomeFleetsOnly(buildings', after, SiteOf(b).location.value, dest.location.value, road, distance);
            }
            return Some(s), after, errors';
          }
          assert errors' + ([NoPathError(dest.name, s, ingredient)] + rest.1) ==
            errors' + [NoPathError(dest.name, s, ingredient)] + rest.1;
          errors' := errors' + [NoPathError(dest.name, s, ingredient)];
        }
      }
      j := j + 1;
    }
    found := None;
  }

  // ------------------------------------------------------ validation trace

  /**
   * One unit checked by `validateConnections`: the ingredient, the table the
   * source search ran on, its answer, the table after that search (a drone
   * may have left), the units checked in turn by the answer (for the
   * ingredient), and the table after them.
   */
  datatype Probe = Probe(ingredient: string, table: map<string, Building>, found: Option<string>,
                         mid: map<string, Building>, sub: seq<Probe>, after: map<string, Building>)

  /** Units checked one after the other from table `start` to table `end`. */
  ghost predicate Chain(start: map<string, Building>, probes: seq<Probe>, end: map<string, Building>)
    decreases |probes|
  {
    if probes == [] then end == start
    else probes[0].table == start && Chain(probes[0].after, probes[1..], end)
  }

  lemma {:induction false} ChainSnoc(start: map<string, Building>, probes: seq<Probe>, pr: Probe, end: map<string, Building>)
    requires Chain(start, probes, pr.table) && pr.after == end
    ensures Chain(start, probes + [pr], end)
    decreases |probes|
  {
    if probes == [] {
      assert [pr][1..] == [];
    } else {
      assert (probes + [pr])[0] == probes[0] && (probes + [pr])[1..] == probes[1..] + [pr];
      ChainSnoc(probes[0].after, probes[1..], pr, end);
    }
  }

  /** `validateConnections` of a building for `item`, from `start` to `end`: one unit per unit of the recipe, in order. */
  ghost predicate Steps(recipes: map<string, Recipe>, item: string, start: map<string, Building>, probes: seq<Probe>,
                        end: map<string, Building>)
  {
    item in recipes && |probes| == |Units(recipes[item])| &&
    (forall j :: 0 <= j < |probes| ==> probes[j].ingredient == Units(recipes[item])[j]) &&
    Chain(start, probes, end)
  }

  /**
   * A well-formed unit checked for building `t`, all the way down: the
   * answer is `Scan`'s on the table of the moment; no answer changes
   * nothing and goes no deeper; an answer is checked in turn for the
   * ingredient, as that building stands after the search.
   */
  ghost predicate Checked(roads: map<Coordinate, Road>, locs: map<Coordinate, Site>, recipes: map<string, Recipe>,
                          t: Building, pr: Probe)
    decreases pr
  {
    pr.found == Scan(roads, locs, pr.table, t.sources, pr.ingredient, SiteOf(t)).0 &&
    FleetsOnly(pr.table, pr.mid) &&
    (pr.found.None? ==> pr.mid == pr.table && pr.sub == [] && pr.after == pr.table) &&
    (pr.found.Some? ==>
       pr.found.value in pr.mid && Steps(recipes, pr.ingredient, pr.mid, pr.sub, pr.after) &&
       forall q :: q in pr.sub ==> Checked(roads, locs, recipes, pr.mid[pr.found.value], q))
  }

  /**
   * The errors the checked units report, in order: for each unit, the
   * search's reports, then either "no source" or the reports of the unit's
   * own check.
   */
  ghost function Reports(roads: map<Coordinate, Road>, locs: map<Coordinate, Site>, owner: string, t: Building,
                         probes: seq<Probe>): seq<string>
    decreases probes
  {
    if probes == [] then []
    else
      var pr := probes[0];
      Scan(roads, locs, pr.table, t.sources, pr.ingredient, SiteOf(t)).1 +
      (if pr.found.None? then [NoSourceError(owner, pr.ingredient)]
       else if pr.found.value in pr.mid then Reports(roads, locs, pr.found.value, pr.mid[pr.found.value], pr.sub)
       else []) +
      Reports(roads, locs, owner, t, probes[1..])
  }

  /** The reports of one unit, added after `errors` in two steps: the search's, then the rest. */
  lemma ReportsOne(roads: map<Coordinate, Road>, locs: map<Coordinate, Site>, owner: string, t: Building, pr: Probe,
                   errors: seq<string>, errs: seq<string>, errs2: seq<string>)
    requires errs == errors + Scan(roads, locs, pr.table, t.sources, pr.ingredient, SiteOf(t)).1
    requires pr.found.None? ==> errs2 == errs + [NoSourceError(owner, pr.ingredient)]
    requires pr.found.Some? ==>
      pr.found.value in pr.mid && errs2 == errs + Reports(roads, locs, pr.found.value, pr.mid[pr.found.value], pr.sub)
    ensures errs2 == errors + Reports(roads, locs, owner, t, [pr])
  {
    assert [pr][1..] == [];
  }

  lemma {:induction false} ReportsAppend(roads: map<Coordinate, Road>, locs: map<Coordinate, Site>, owner: string,
                                         t: Building, a: seq<Probe>, b: seq<Probe>)
    ensures Reports(roads, locs, owner, t, a + b) == Reports(roads, locs, owner, t, a) + Reports(roads, locs, owner, t, b)
    decreases |a|
  {
    if a == [] {
      assert a + b == b;
    } else {
      assert (a + b)[0] == a[0] && (a + b)[1..] == a[1..] + b;
      ReportsAppend(roads, locs, owner, t, a[1..], b);
    }
  }

  /**
   * Every unit, at every depth, finds as its first eligible source a
   * connected one, and every source listed before it exists and cannot
   * produce the ingredient (or is marked).
   */
  ghost predicate Clean(roads: map<Coordinate, Road>, locs: map<Coordinate, Site>, t: Building, probes: seq<Probe>)
    decreases probes
  {
    probes == [] ||
    (var pr := probes[0];
     (exists j :: FirstConnected(roads, locs, pr.table, t.sources, pr.ingredient, SiteOf(t), j) &&
        Quiet(pr.table, t.sources, pr.ingredient, j) &&
        t.sources[j] in pr.mid && Clean(roads, locs, pr.mid[t.sources[j]], pr.sub)) &&
     Clean(roads, locs, t, probes[1..]))
  }

  /** There is only one first connected source. */
  lemma FirstUnique(roads: map<Coordinate, Road>, locs: map<Coordinate, Site>, buildings: map<string, Building>,
                    sources: seq<string>, ingredient: string, dest: Site, i: int, j: int)
    requires FirstConnected(roads, locs, buildings, sources, ingredient, dest, i)
    requires FirstConnected(roads, locs, buildings, sources, ingredient, dest, j)
    ensures i == j
  {
  }

  /**
   * `validateConnections` reports nothing exactly when the connections are
   * clean all the way down.
   */
  lemma {:induction false} SilentIffClean(roads: map<Coordinate, Road>, locs: map<Coordinate, Site>,
                                          recipes: map<string, Recipe>, owner: string, t: Building, probes: seq<Probe>)
    requires forall q :: q in probes ==> Checked(roads, locs, recipes, t, q)
    ensures Reports(roads, locs, owner, t, probes) == [] <==> Clean(roads, locs, t, probes)
    decreases probes
  {
    if probes != [] {
      var pr := probes[0];
      assert pr in probes;
      assert forall q :: q in probes[1..] ==> q in probes;
      SilentIffClean(roads, locs, recipes, owner, t, probes[1..]);
      var scan := Scan(roads, locs, pr.table, t.sources, pr.ingredient, SiteOf(t));
      if pr.found.None? {
        ScanNone(roads, locs, pr.table, t.sources, pr.ingredient, SiteOf(t));
        assert !exists j :: FirstConnected(roads, locs, pr.table, t.sources, pr.ingredient, SiteOf(t), j);
      } else {
        var n := pr.found.value;
        var k := ScanSome(roads, locs, pr.table, t.sources, pr.ingredient, SiteOf(t));
        assert forall q :: q in pr.sub ==> Checked(roads, locs, recipes, pr.mid[n], q);
        SilentIffClean(roads, locs, recipes, n, pr.mid[n], pr.sub);
        forall j | FirstConnected(roads, locs, pr.table, t.sources, pr.ingredient, SiteOf(t), j)
          ensures j == k
        {
          FirstUnique(roads, locs, pr.table, t.sources, pr.ingredient, SiteOf(t), j, k);
        }
      }
    }
  }

  /** With no sources listed, a building that needs some unit reports an error. */
  lemma NoSourcesReport(roads: map<Coordinate, Road>, locs: map<Coordinate, Site>, recipes: map<string, Recipe>,
                        owner: string, t: Building, probes: seq<Probe>)
    requires t.sources == [] && probes != [] && Checked(roads, locs, recipes, t, probes[0])
    ensures |Reports(roads, locs, owner, t, probes)| > 0
  {
  }

  /** A recipe listing a name with a positive amount asks for some unit. */
  lemma UnitsPositive(r: Recipe)
    ensures (exists x :: x in r.orderedNames && x in r.ingredients && r.ingredients[x] > 0) ==> |Units(r)| > 0
  {
    if x :| x in r.orderedNames && x in r.ingredients && r.ingredients[x] > 0 {
      ExpandCounts(r.orderedNames, r.ingredients, x);
      var c, a := multiset(r.orderedNames)[x], Amount(r.ingredients, x);
      assert c >= 1 && a >= 1;
      MulPositive(c, a);
      assert x in Units(r);
    }
  }

  /** The state of `validateConnections`' loops: the units checked so far for `want`, and the errors they added. */
  ghost predicate Audit(rm: RoadMap, recipes: map<string, Recipe>, name: string, t: Building,
                        start: map<string, Building>, errors0: seq<string>, want: seq<string>,
                        probes: seq<Probe>, end: map<string, Building>, errors: seq<string>)
    reads rm
  {
    |probes| == |want| && (forall j :: 0 <= j < |probes| ==> probes[j].ingredient == want[j]) &&
    AllChecked(rm.roads, rm.buildingLocations, recipes, t, probes) &&
    Chain(start, probes, end) && FleetsOnly(start, end) &&
    errors == errors0 + Reports(rm.roads, rm.buildingLocations, name, t, probes)
  }

  lemma {:induction false} AuditStep(rm: RoadMap, recipes: map<string, Recipe>, name: string, t: Building,
                  start: map<string, Building>, errors0: seq<string>, want: seq<string>,
                  probes: seq<Probe>, mid: map<string, Building>, errors1: seq<string>,
                  x: string, pr: Probe, end: map<string, Building>, errors2: seq<string>)
    requires Audit(rm, recipes, name, t, start, errors0, want, probes, mid, errors1)
    requires pr.ingredient == x && pr.table == mid && pr.after == end && FleetsOnly(mid, end)
    requires Checked(rm.roads, rm.buildingLocations, recipes, t, pr)
    requires errors2 == errors1 + Reports(rm.roads, rm.buildingLocations, name, t, [pr])
    ensures Audit(rm, recipes, name, t, start, errors0, want + [x], probes + [pr], end, errors2)
  {
    ChainSnoc(start, probes, pr, end);
    FleetsOnlyTrans(start, mid, end);
    ReportsAppend(rm.roads, rm.buildingLocations, name, t, probes, [pr]);
    LinedSnoc(want, probes, x, pr);
    CheckedSnoc(rm.roads, rm.buildingLocations, recipes, t, probes, pr);
    AppendAssoc(errors0, Reports(rm.roads, rm.buildingLocations, name, t, probes),
                Reports(rm.roads, rm.buildingLocations, name, t, [pr]));
  }

  lemma LinedSnoc(want: seq<string>, probes: seq<Probe>, x: string, pr: Probe)
    requires |probes| == |want| && forall j :: 0 <= j < |probes| ==> probes[j].ingredient == want[j]
    requires pr.ingredient == x
    ensures |probes + [pr]| == |want + [x]|
    ensures forall j :: 0 <= j < |probes + [pr]| ==> (probes + [pr])[j].ingredient == (want + [x])[j]
  {
  }

  lemma {:induction false} CheckedSnoc(roads: map<Coordinate, Road>, locs: map<Coordinate, Site>, recipes: map<string, Recipe>,
                    t: Building, probes: seq<Probe>, pr: Probe)
    requires AllChecked(roads, locs, recipes, t, probes)
    requires Checked(roads, locs, recipes, t, pr)
    ensures AllChecked(roads, locs, recipes, t, probes + [pr])
    decreases |probes|
  {
    if probes != [] {
      assert (probes + [pr])[1..] == probes[1..] + [pr];
      CheckedSnoc(roads, locs, recipes, t, probes[1..], pr);
    } else {
      assert probes + [pr] == [pr];
    }
  }

  /** Every unit of `probes` is checked for building `t`. */
  ghost predicate AllChecked(roads: map<Coordinate, Road>, locs: map<Coordinate, Site>, recipes: map<string, Recipe>,
                             t: Building, probes: seq<Probe>)
    decreases |probes|
  {
    probes == [] || (Checked(roads, locs, recipes, t, probes[0]) && AllChecked(roads, locs, recipes, t, probes[1..]))
  }

  lemma {:induction false} AllCheckedEach(roads: map<Coordinate, Road>, locs: map<Coordinate, Site>, recipes: map<string, Recipe>,
                                          t: Building, probes: seq<Probe>)
    requires AllChecked(roads, locs, recipes, t, probes)
    ensures forall q :: q in probes ==> Checked(roads, locs, recipes, t, q)
    decreases |probes|
  {
    if probes != [] {
      AllCheckedEach(roads, locs, recipes, t, probes[1..]);
      assert forall q :: q in probes ==> q == probes[0] || q in probes[1..];
    }
  }

  /**
   * `validateConnections`: the dispatcher's walk without creating requests,
   * collecting an error for every missing source, unreachable source and
   * unit with no usable source. Distance queries may send drones, so only
   * drone fleets change. A null recipe or amount is a crash, and so is
   * running out of `fuel`, which bounds the recursion depth. Without a
   * crash the walk is traced in `probes` and the errors added are exactly
   * their `Reports`.
   */
  method ValidateConnections(rm: RoadMap, recipes: map<string, Recipe>, name: string, item: string,
                             buildings: map<string, Building>, errors: seq<string>, fuel: nat)
    returns (buildings': map<string, Building>, errors': seq<string>, crash: Option<Failure>, ghost probes: seq<Probe>)
    requires name in buildings
    ensures FleetsOnly(buildings, buildings')
    ensures errors <= errors'
    ensures item !in recipes ==> crash.Some? && buildings' == buildings && errors' == errors
    ensures item in recipes && recipes[item].ingredients == map[] ==>
      crash.None? && buildings' == buildings && errors' == errors
    ensures (crash.None? && item in recipes && buildings[name].sources == [] &&
             exists x :: x in recipes[item].orderedNames && x in recipes[item].ingredients && recipes[item].ingredients[x] > 0) ==>
      |errors'| > |errors|
    ensures crash.None? ==>
      Steps(recipes, item, buildings, probes, buildings') &&
      (forall q :: q in probes ==> Checked(rm.roads, rm.buildingLocations, recipes, buildings[name], q)) &&
      errors' == errors + Reports(rm.roads, rm.buildingLocations, name, buildings[name], probes)
    decreases fuel, 3
  {
    probes := [];
    if item !in recipes {
      return buildings, errors, Some(RuntimeFailure("null recipe for " + item)), probes;
    }
    var recipe := recipes[item];
    if recipe.ingredients == map[] {
      NoUnits(recipe);
      return buildings, errors, None, probes;
    }
    var building := buildings[name];
    buildings', errors', crash, probes := CheckOrder(rm, recipes, name, building, recipe, buildings, errors, fuel);
    if crash.None? {
      AllCheckedEach(rm.roads, rm.buildingLocations, recipes, building, probes);
      UnitsPositive(recipe);
      if building.sources == [] && probes != [] {
        assert probes[0] in probes;
        NoSourcesReport(rm.roads, rm.buildingLocations, recipes, name, building, probes);
      }
    }
  }

  /** The loop of `validateConnections` over the recipe's ingredient order. */
  method CheckOrder(rm: RoadMap, recipes: map<string, Recipe>, name: string, t: Building, recipe: Recipe,
                    buildings: map<string, Building>, errors: seq<string>, fuel: nat)
    returns (buildings': map<string, Building>, errors': seq<string>, crash: Option<Failure>, ghost probes: seq<Probe>)
    ensures FleetsOnly(buildings, buildings') && errors <= errors'
    ensures crash.None? ==> Audit(rm, recipes, name, t, buildings, errors, Units(recipe), probes, buildings', errors')
    decreases fuel, 2
  {
    buildings', errors', probes := buildings, errors, [];
    var order := recipe.orderedNames;
    var k := 0;
    while k < |order|
      invariant 0 <= k <= |order|
      invariant FleetsOnly(buildings, buildings') && errors <= errors'
      invariant Audit(rm, recipes, name, t, buildings, errors, Expand(order[..k], recipe.ingredients), probes, buildings', errors')
    {
      var ingredient := order[k];
      if ingredient !in recipe.ingredients {
        return buildings', errors', Some(RuntimeFailure("null amount for " + ingredient)), probes;
      }
      var b1, e1, c, ps := CheckIngredient(rm, recipes, name, t, ingredient, recipe.ingredients[ingredient],
                                           buildings, errors, Expand(order[..k], recipe.ingredients), probes,
                                           buildings', errors', fuel);
      FleetsOnlyTrans(buildings, buildings', b1);
      if c.Some? {
        return b1, e1, c, ps;
      }
      ExpandSnoc(order, k, recipe.ingredients);
      buildings', errors', probes := b1, e1, ps;
      k := k + 1;
    }
    assert order[..k] == order;
    crash := None;
  }

  /** The inner loop of `validateConnections`: `count` units of one ingredient, one `CheckOne` each. */
  method CheckIngredient(rm: RoadMap, recipes: map<string, Recipe>, name: string, t: Building,
                         ingredient: string, count: int, ghost start: map<string, Building>, ghost errors0: seq<string>,
                         ghost want: seq<string>, ghost probes0: seq<Probe>,
                         buildings: map<string, Building>, errors: seq<string>, fuel: nat)
    returns (buildings': map<string, Building>, errors': seq<string>, crash: Option<Failure>, ghost probes: seq<Probe>)
    requires Audit(rm, recipes, name, t, start, errors0, want, probes0, buildings, errors)
    ensures FleetsOnly(buildings, buildings') && errors <= errors'
    ensures crash.None? ==>
      Audit(rm, recipes, name, t, start, errors0, want + Repeat(ingredient, if count < 0 then 0 else count),
            probes, buildings', errors')
    decreases fuel, 1
  {
    buildings', errors', probes := buildings, errors, probes0;
    RepeatSnoc(want, ingredient, 0);
    var u := 0;
    while u < count
      invariant 0 <= u <= (if count < 0 then 0 else count)
      invariant FleetsOnly(buildings, buildings') && errors <= errors'
      invariant Audit(rm, recipes, name, t, start, errors0, want + Repeat(ingredient, u), probes, buildings', errors')
    {
      var b1, e1, c, pr := CheckOne(rm, recipes, name, t, ingredient, buildings', errors', fuel);
      FleetsOnlyTrans(buildings, buildings', b1);
      if c.Some? {
        return b1, e1, c, probes;
      }
      AuditStep(rm, recipes, name, t, start, errors0, want + Repeat(ingredient, u), probes, buildings', errors',
                ingredient, pr, b1, e1);
      RepeatSnoc(want, ingredient, u + 1);
      buildings', errors', probes := b1, e1, probes + [pr];
      u := u + 1;
    }
    assert u == (if count < 0 then 0 else count);
    crash := None;
  }

  /**
   * One unit checked by `validateConnections`: the source search; no answer
   * adds "no source"; an answer is checked in turn for the ingredient.
   */
  method CheckOne(rm: RoadMap, recipes: map<string, Recipe>, name: string, t: Building, ingredient: string,
                  buildings: map<string, Building>, errors: seq<string>, fuel: nat)
    returns (buildings': map<string, Building>, errors': seq<string>, crash: Option<Failure>, ghost pr: Probe)
    ensures FleetsOnly(buildings, buildings') && errors <= errors'
    ensures crash.None? ==>
      pr.ingredient == ingredient && pr.table == buildings && pr.after == buildings' &&
      Checked(rm.roads, rm.buildingLocations, recipes, t, pr) &&
      errors' == errors + Reports(rm.roads, rm.buildingLocations, name, t, [pr])
    decreases fuel, 0
  {
    var found, after, errs := FindConnectedSource(rm, buildings, t.sources, ingredient, SiteOf(t), errors);
    if found.None? {
      pr := Probe(ingredient, buildings, None, buildings, [], buildings);
      errors' := errs + [NoSourceError(name, ingredient)];
      ReportsOne(rm.roads, rm.buildingLocations, name, t, pr, errors, errs, errors');
      return after, errors', None, pr;
    }
    var source := found.value;
    pr := Probe(ingredient, buildings, found, after, [], after);
    if fuel == 0 {
      return after, errs, Some(Exhausted), pr;
    }
    var deeper, errs2, c, sub := ValidateConnections(rm, recipes, source, ingredient, after, errs, fuel - 1);
    FleetsOnlyTrans(buildings, after, deeper);
    pr := Probe(ingredient, buildings, found, after, sub, deeper);
    buildings', errors', crash := deeper, errs2, c;
    if c.None? {
      ReportsOne(rm.roads, rm.buildingLocations, name, t, pr, errors, errs, errs2);
    }
  }
}
