/**
 * One time step of the buildings (`step` of every building kind, with the
 * deliveries their completed requests send) and the arrival of delayed
 * deliveries (`BasicSimulation.processDelayedDeliveries`), over the `Plant`
 * state of the logistics module.
 */
module Ticks {
  import opened Wrappers
  import opened Recipes
  import opened Requests
  import opened Drones
  import opened Buildings
  import opened RoadNetwork
  import opened Logistics

  // ------------------------------------------------------------ frame rules

  /**
   * What a time step never changes about a building: its identity, sources,
   * location, removal flag and the fixed part of its kind.
   */
  predicate Persists(b: Building, b': Building)
  {
    b'.name == b.name && b'.serial == b.serial && b'.sources == b.sources &&
    b'.location == b.location && b'.marked == b.marked && SameKind(b.kind, b'.kind)
  }

  /** The plant after (part of) a time step: the same buildings, each persisting, and the counter only advanced. */
  ghost predicate Ticked(p: Plant, p': Plant)
  {
    p'.buildings.Keys == p.buildings.Keys &&
    (forall n :: n in p.buildings ==> Persists(p.buildings[n], p'.buildings[n])) &&
    p.nextId <= p'.nextId
  }

  lemma TickedTrans(p1: Plant, p2: Plant, p3: Plant)
    requires Ticked(p1, p2) && Ticked(p2, p3)
    ensures Ticked(p1, p3)
  {
  }

  lemma EvolvedTicked(p: Plant, p': Plant)
    requires Evolved(p, p')
    ensures Ticked(p, p')
  {
  }

  /** Replacing one building by a persisting copy. */
  lemma ReplaceTicked(p: Plant, n: string, b': Building)
    requires n in p.buildings && Persists(p.buildings[n], b')
    ensures Ticked(p, p.(buildings := p.buildings[n := b']))
  {
  }

  // ---------------------------------------------------- completed requests

  /** `r` is a building's request whose unit goes to the building named `n`. */
  predicate Recipient(r: Request, n: string)
  {
    !r.isUser && r.requestor.Some? && r.requestor.value.name == n
  }

  /**
   * The delivery half of `handleCompletedRequest`: a completed request that
   * another building made sends one unit of `item` to its requestor; a user
   * request sends nothing. Besides drone ports only the requestor can change.
   */
  method SendCompleted(rm: RoadMap, time: int, from: Site, r: Request, item: string, p: Plant) returns (p': Plant)
    ensures Evolved(p, p') && p'.nextId == p.nextId
    ensures r.isUser || r.requestor.None? ==> p' == p
    ensures forall n :: n in p.buildings && !p.buildings[n].kind.DronePort? && !Recipient(r, n) ==>
      p'.buildings[n] == p.buildings[n]
    ensures SameWork(p.buildings, p'.buildings)
  {
    if !r.isUser && r.requestor.Some? {
      ghost var transit, flown;
      p', transit, flown := SendUnit(rm, time, from, r.requestor.value, item, p);
    } else {
      p' := p;
      EvolvedRefl(p);
    }
  }

  // ------------------------------------------------------- mines, factories

  predicate IsProducer(b: Building)
  {
    b.kind.Mine? || b.kind.Factory?
  }

  /** The item a completed request delivers: the mine's output for a mine, the recipe's output for a factory. */
  function Product(b: Building, r: Request): string
  {
    if b.kind.Mine? then b.kind.mine else r.recipe.output
  }

  /** The second phase of a step, by kind. */
  function Start(b: Building, processed: bool): (Building, Option<Request>)
    requires IsProducer(b)
  {
    if b.kind.Mine? then MineStart(b, processed) else FactoryStart(b, processed)
  }

  /** A whole step of a mine or a factory, by kind. */
  function ProducerStep(b: Building): StepResult
    requires IsProducer(b)
  {
    if b.kind.Mine? then MineStep(b) else FactoryStep(b)
  }

  /** The request in progress, if it completes, sends its unit back to the building named `name` itself. */
  predicate SelfSupplied(b: Building, name: string)
  {
    b.current.Some? && Recipient(b.current.value, name)
  }

  /**
   * The start phase only completes a request when nothing completed before
   * in the step, and keeps the building's persistent part.
   */
  lemma StartFacts(b: Building, processed: bool)
    requires IsProducer(b)
    ensures Start(b, processed).1.Some? ==> !processed && Start(b, processed).1.value.status == Completed
    ensures Persists(b, Start(b, processed).0) && Start(b, processed).0.kind == b.kind
  {
  }

  /** The start phase reads only the queue, the request in progress and the kind (and, for a factory, the stock). */
  lemma StartAgrees(b: Building, b': Building, processed: bool)
    requires IsProducer(b) && b'.kind == b.kind
    requires b'.queue == b.queue && b'.current == b.current && b'.remaining == b.remaining
    requires b.kind.Factory? ==> b'.storage == b.storage
    ensures Start(b', processed).1 == Start(b, processed).1
    ensures Start(b', processed).0.queue == Start(b, processed).0.queue
    ensures Start(b', processed).0.current == Start(b, processed).0.current
    ensures Start(b', processed).0.remaining == Start(b, processed).0.remaining
  {
  }

  /** Some request of `rs` sends its unit to the building named `m`. */
  predicate Addressed(rs: seq<Request>, m: string)
  {
    exists r :: r in rs && Recipient(r, m)
  }

  /**
   * `handleCompletedRequest` for an optional completion of building `b`:
   * the unit of a completed request goes to its requestor. No queue,
   * request in progress or remaining time changes, and besides drone ports
   * only the addressed building can.
   */
  method SendIfDone(rm: RoadMap, time: int, b: Building, done: Option<Request>, p: Plant) returns (p': Plant)
    ensures Ticked(p, p') && p'.nextId == p.nextId && p.deliveries <= p'.deliveries
    ensures forall n :: n in p.buildings ==>
      p'.buildings[n].queue == p.buildings[n].queue && p'.buildings[n].current == p.buildings[n].current &&
      p'.buildings[n].remaining == p.buildings[n].remaining && p'.buildings[n].kind.Storage? == p.buildings[n].kind.Storage?
    ensures forall n :: n in p.buildings && !p.buildings[n].kind.DronePort? && !Addressed(OptList(done), n) ==>
      p'.buildings[n] == p.buildings[n]
  {
    p' := p;
    if done.Some? {
      p' := SendCompleted(rm, time, SiteOf(b), done.value, Product(b, done.value), p);
      EvolvedTicked(p, p');
      assert forall n :: Recipient(done.value, n) ==> Addressed(OptList(done), n);
    }
  }

  /**
   * The first phase of a producer's step with its delivery: the request in
   * progress advances and, when it completes, its unit is sent. The
   * building's queue, work and kind become those of `Advance`; it is exactly
   * `Advance`'s result unless the unit comes back to it.
   */
  method AdvanceTick(rm: RoadMap, time: int, name: string, p: Plant) returns (p': Plant, done: Option<Request>)
    requires name in p.buildings && IsProducer(p.buildings[name])
    ensures Ticked(p, p') && p'.nextId == p.nextId && p.deliveries <= p'.deliveries
    ensures done == Advance(p.buildings[name]).1
    ensures var b1 := Advance(p.buildings[name]).0;
      p'.buildings[name].queue == b1.queue && p'.buildings[name].current == b1.current &&
      p'.buildings[name].remaining == b1.remaining && p'.buildings[name].kind == b1.kind &&
      (!Addressed(OptList(done), name) ==> p'.buildings[name] == b1)
    ensures forall m :: m in p.buildings && m != name && !p.buildings[m].kind.DronePort? && !Addressed(OptList(done), m) ==>
      p'.buildings[m] == p.buildings[m]
  {
    var b := p.buildings[name];
    var (b1, d) := Advance(b);
    done := d;
    var p1 := p.(buildings := p.buildings[name := b1]);
    ReplaceTicked(p, name, b1);
    p' := SendIfDone(rm, time, b, done, p1);
    TickedTrans(p, p1, p');
  }

  /**
   * The second phase of a producer's step with its delivery: the start
   * phase runs on the building as it is now, and a request it completes
   * at once sends its unit.
   */
  method StartTick(rm: RoadMap, time: int, name: string, processed: bool, p: Plant) returns (p': Plant, now: Option<Request>)
    requires name in p.buildings && IsProducer(p.buildings[name])
    ensures Ticked(p, p') && p'.nextId == p.nextId && p.deliveries <= p'.deliveries
    ensures now == Start(p.buildings[name], processed).1
    ensures now.Some? ==> !processed && now.value.status == Completed
    ensures var b3 := Start(p.buildings[name], processed).0;
      p'.buildings[name].queue == b3.queue && p'.buildings[name].current == b3.current &&
      p'.buildings[name].remaining == b3.remaining
    ensures forall m :: m in p.buildings && m != name && !p.buildings[m].kind.DronePort? && !Addressed(OptList(now), m) ==>
      p'.buildings[m] == p.buildings[m]
  {
    var b := p.buildings[name];
    StartFacts(b, processed);
    var (b3, n) := Start(b, processed);
    now := n;
    var p3 := p.(buildings := p.buildings[name := b3]);
    ReplaceTicked(p, name, b3);
    p' := SendIfDone(rm, time, b, now, p3);
    TickedTrans(p, p3, p');
  }

  /**
   * What a mine's or a factory's step did to the plant: at most one
   * completed request per phase, all completed; the queue, the request in
   * progress, the remaining time and the completions of `ProducerStep`
   * (for a factory, unless its finished unit comes back to itself); besides
   * drone ports only the requestors of completed requests change.
   */
  ghost predicate ProducerStepped(name: string, p: Plant, p': Plant, completed: seq<Request>)
    requires name in p.buildings && IsProducer(p.buildings[name])
  {
    name in p'.buildings && p'.nextId == p.nextId && p.deliveries <= p'.deliveries &&
    |completed| <= 1 && (forall r :: r in completed ==> r.status == Completed) &&
    ((p.buildings[name].kind.Mine? || !SelfSupplied(p.buildings[name], name)) ==>
       var s := ProducerStep(p.buildings[name]);
       completed == s.completed && p'.buildings[name].queue == s.building.queue &&
       p'.buildings[name].current == s.building.current && p'.buildings[name].remaining == s.building.remaining) &&
    (forall m :: m in p.buildings && m != name && !p.buildings[m].kind.DronePort? && !Addressed(completed, m) ==>
       m in p'.buildings && p'.buildings[m] == p.buildings[m])
  }

  /**
   * `MineBuilding.step` and `FactoryBuilding.step` with their deliveries:
   * the request in progress advances, a completed one sends its unit, the
   * next request is started, and a request that completes at once sends its
   * unit too. The queue, the request in progress, the remaining time and
   * the completed requests are those of `MineStep` (and of `FactoryStep`
   * unless the factory supplies itself, when the unit it receives can make
   * another request ready). Besides drone ports, only the building itself
   * and the requestors of the completed requests change.
   */
  method ProducerTick(rm: RoadMap, time: int, name: string, p: Plant) returns (p': Plant, completed: seq<Request>)
    requires name in p.buildings && IsProducer(p.buildings[name])
    ensures Ticked(p, p') && ProducerStepped(name, p, p', completed)
  {
    ghost var b := p.buildings[name];
    var p2, done := AdvanceTick(rm, time, name, p);
    ghost var b1 := Advance(b).0;
    ghost var b2 := p2.buildings[name];
    assert b.kind.Factory? && !SelfSupplied(b, name) ==> b2 == b1 by {
      if b.kind.Factory? && !SelfSupplied(b, name) && done.Some? {
        assert !Addressed(OptList(done), name);
      }
    }
    if b.kind.Mine? || !SelfSupplied(b, name) {
      StartAgrees(b1, b2, done.Some?);
    }
    var now;
    p', now := StartTick(rm, time, name, done.Some?, p2);
    TickedTrans(p, p2, p');
    completed := OptList(done) + OptList(now);
    assert forall m :: !Addressed(completed, m) ==> !Addressed(OptList(done), m) && !Addressed(OptList(now), m);
  }

  // ---------------------------------------------------------------- storage

  /** No pending request's unit goes back to the storage building itself. */
  predicate NoSelfSupply(pending: seq<Request>, name: string)
  {
    forall r :: r in pending ==> !Recipient(r, name)
  }

  /** The storage after serving the first `k` pending requests from stock. */
  function ServedState(b: Building, pending: seq<Request>, k: nat): Building
    requires b.kind.Storage? && k <= |pending|
  {
    b.(queue := pending[k..], storage := if k > 0 then b.storage[b.kind.storedItem := Stock(b) - k] else b.storage)
  }

  /** The state of the fulfilment loop of storage `name` of `p0` after serving `served` of its pending requests. */
  ghost predicate Serving(p0: Plant, name: string, pending: seq<Request>, served: nat, p: Plant)
  {
    ServingCore(p0, name, pending, served, p) && ServingExact(p0, name, pending, served, p) &&
    ServingFrame(p0, name, pending[..served], p)
  }

  ghost predicate ServingCore(p0: Plant, name: string, pending: seq<Request>, served: nat, p: Plant)
  {
    name in p0.buildings && p0.buildings[name].kind.Storage? && served <= |pending| &&
    Ticked(p0, p) && p.nextId == p0.nextId && p0.deliveries <= p.deliveries &&
    p.buildings[name].kind.Storage? && p.buildings[name].kind.storedItem == p0.buildings[name].kind.storedItem &&
    p.buildings[name].queue == pending[served..]
  }

  /** Without self-supply the storage is exactly the served state, and no more than `Served` were served. */
  ghost predicate ServingExact(p0: Plant, name: string, pending: seq<Request>, served: nat, p: Plant)
    requires ServingCore(p0, name, pending, served, p)
  {
    NoSelfSupply(pending, name) ==>
      p.buildings[name] == ServedState(p0.buildings[name], pending, served) &&
      served <= Served(Stock(p0.buildings[name]), |pending|)
  }

  /** Besides drone ports, only the storage and the requestors of the served requests have changed. */
  ghost predicate ServingFrame(p0: Plant, name: string, done: seq<Request>, p: Plant)
  {
    forall m :: m in p0.buildings && m != name && !p0.buildings[m].kind.DronePort? && !Addressed(done, m) ==>
      m in p.buildings && p.buildings[m] == p0.buildings[m]
  }

  lemma FrameStep(p0: Plant, name: string, done: seq<Request>, r: Request, p: Plant, x: Building, mid: Plant, p': Plant)
    requires ServingFrame(p0, name, done, p) && name in p.buildings
    requires mid.buildings == p.buildings[name := x]
    requires forall n :: n in mid.buildings && !mid.buildings[n].kind.DronePort? && !Recipient(r, n) ==>
      n in p'.buildings && p'.buildings[n] == mid.buildings[n]
    ensures ServingFrame(p0, name, done + [r], p')
  {
    forall m | m in p0.buildings && m != name && !p0.buildings[m].kind.DronePort? && !Addressed(done + [r], m)
      ensures m in p'.buildings && p'.buildings[m] == p0.buildings[m]
    {
      assert forall q :: q in done ==> q in done + [r];
      assert r in done + [r];
    }
  }

  lemma ExactStep(p0: Plant, name: string, pending: seq<Request>, served: nat, p: Plant, cur': Building, p': Plant)
    requires ServingCore(p0, name, pending, served, p) && ServingExact(p0, name, pending, served, p)
    requires served < |pending| && Stock(p.buildings[name]) > 0
    requires cur' == p.buildings[name].(storage := p.buildings[name].storage[p.buildings[name].kind.storedItem := Stock(p.buildings[name]) - 1],
                                        queue := pending[served + 1..])
    requires ServingCore(p0, name, pending, served + 1, p')
    requires NoSelfSupply(pending, name) ==> p'.buildings[name] == cur'
    ensures ServingExact(p0, name, pending, served + 1, p')
  {
  }

  /** One round of the fulfilment loop: one unit out of stock, one request completed and its unit sent. */
  method ServeOne(rm: RoadMap, time: int, name: string, pending: seq<Request>, served: nat, ghost p0: Plant, p: Plant)
    returns (p': Plant)
    requires Serving(p0, name, pending, served, p)
    requires served < |pending| && Stock(p.buildings[name]) > 0
    ensures Serving(p0, name, pending, served + 1, p')
  {
    var cur := p.buildings[name];
    var item := cur.kind.storedItem;
    var r := pending[served];
    var cur' := cur.(storage := cur.storage[item := Stock(cur) - 1], queue := pending[served + 1..]);
    var mid := p.(buildings := p.buildings[name := cur']);
    ReplaceTicked(p, name, cur');
    TickedTrans(p0, p, mid);
    p' := SendCompleted(rm, time, SiteOf(cur), r, item, mid);
    EvolvedTicked(mid, p');
    TickedTrans(p0, mid, p');
    assert ServingCore(p0, name, pending, served + 1, p');
    assert NoSelfSupply(pending, name) ==> p'.buildings[name] == cur' by {
      if NoSelfSupply(pending, name) {
        assert r in pending;
      }
    }
    ExactStep(p0, name, pending, served, p, cur', p');
    FrameStep(p0, name, pending[..served], r, p, cur', mid, p');
    assert pending[..served + 1] == pending[..served] + [r];
  }

  /**
   * The fulfilment loop of `StorageBuilding.step`: while a pending request
   * remains and the stock (read afresh each time) is positive, one unit is
   * taken, the request is completed and leaves the queue, and a building's
   * request gets its unit sent. Without self-supply this is exactly the
   * serving of `StorageDrain`: min(stock, pending) requests, one unit each.
   */
  method Fulfil(rm: RoadMap, time: int, name: string, pending: seq<Request>, p: Plant)
    returns (p': Plant, served: nat)
    requires name in p.buildings && p.buildings[name].kind.Storage? && p.buildings[name].queue == pending
    ensures Ticked(p, p') && p'.nextId == p.nextId && p.deliveries <= p'.deliveries
    ensures served <= |pending| && p'.buildings[name].queue == pending[served..]
    ensures served < |pending| ==> Stock(p'.buildings[name]) <= 0
    ensures NoSelfSupply(pending, name) ==>
      served == Served(Stock(p.buildings[name]), |pending|) &&
      p'.buildings[name] == ServedState(p.buildings[name], pending, served)
    ensures forall m :: m in p.buildings && m != name && !p.buildings[m].kind.DronePort? && !Addressed(pending[..served], m) ==>
      p'.buildings[m] == p.buildings[m]
  {
    p' := p;
    served := 0;
    assert Serving(p, name, pending, 0, p);
    while served < |pending| && Stock(p'.buildings[name]) > 0
      invariant Serving(p, name, pending, served, p')
      decreases |pending| - served
    {
      p' := ServeOne(rm, time, name, pending, served, p, p');
      served := served + 1;
    }
    if NoSelfSupply(pending, name) {
      var b := p.buildings[name];
      assert served > 0 ==> Stock(p'.buildings[name]) == Stock(b) - served;
    }
  }

  /** Serving `Served` requests from the drained queue is `StorageDrain`. */
  lemma DrainMatches(b: Building, served: nat)
    requires b.kind.Storage? && served == Served(Stock(b), |PendingOf(b.queue)|)
    ensures ServedState(b.(queue := PendingOf(b.queue)), PendingOf(b.queue), served) == StorageDrain(b).building
    ensures CompletedOf(b.queue) + MarkCompleted(PendingOf(b.queue)[..served]) == StorageDrain(b).completed
  {
  }

  /** Completed requests followed by served ones are all completed. */
  lemma AllCompleted(q: seq<Request>, pend: seq<Request>, k: nat)
    requires k <= |pend|
    ensures forall r :: r in CompletedOf(q) + MarkCompleted(pend[..k]) ==> r.status == Completed
  {
    PartitionFacts(q);
    forall r | r in CompletedOf(q) + MarkCompleted(pend[..k])
      ensures r.status == Completed
    {
      if r !in CompletedOf(q) {
        var i :| 0 <= i < k && MarkCompleted(pend[..k])[i] == r;
      }
    }
  }

  /**
   * What a storage building's step did to the plant. The returned requests
   * are the completed ones followed by the served ones, all completed; a
   * successful step makes at most one replenishment unit, traced. Without
   * self-supply the returned requests are those of `StorageDrain`, and a
   * unit is made exactly when the replenishment rule picks the time step for
   * the drained storage, space remains, the item has a recipe and no
   * completed user request for it waits; the storage is left drained
   * otherwise, and the unit's run starts from the drained storage and ends
   * `Replenished`.
   */
  ghost predicate StorageStepped(recipes: map<string, Recipe>, time: int, name: string, p: Plant, p': Plant,
                                 completed: seq<Request>, err: Option<Failure>, grants: seq<Grant>)
    requires name in p.buildings && p.buildings[name].kind.Storage? && p.buildings[name].kind.priority.den > 0
  {
    var b := p.buildings[name];
    var pend := PendingOf(b.queue);
    var d := StorageDrain(b).building;
    (exists k :: 0 <= k <= |pend| && completed == CompletedOf(b.queue) + MarkCompleted(pend[..k])) &&
    (forall r :: r in completed ==> r.status == Completed) &&
    (NoSelfSupply(pend, name) ==>
       completed == StorageDrain(b).completed &&
       (!ShouldMakeRequest(d, time) ==> p'.nextId == p.nextId && err.None?) &&
       ((ShouldMakeRequest(d, time) && b.kind.storedItem in recipes &&
         !HasCompletedUserRequest(d, b.kind.storedItem) && err.None?) ==>
          p'.nextId > p.nextId)) &&
    (err.None? ==>
       |grants| <= 1 && (forall g :: g in grants ==> Planned(recipes, time, g)) &&
       Numbered(Flatten(grants), p.nextId) && p'.nextId == p.nextId + |Flatten(grants)|) &&
    (NoSelfSupply(pend, name) && err.None? ==>
       (grants != [] <==>
          ShouldMakeRequest(d, time) && RemainingSpace(d) > 0 && b.kind.storedItem in recipes &&
          !HasCompletedUserRequest(d, b.kind.storedItem)) &&
       (grants == [] ==> name in p'.buildings && p'.buildings[name] == d) &&
       (grants != [] ==>
          name in grants[0].before && grants[0].before[name] == d &&
          Replenished(recipes, time, d, name, b.kind.storedItem, grants[0].before, grants, p'.buildings) &&
          Lands(grants[0].before, p'.buildings, Flatten(grants))))
  }

  /**
   * `StorageBuilding.step`: completed requests leave the queue first, then
   * pending ones are served from stock, then, when `shouldMakeRequest` holds
   * for the time step, the remaining space is positive and the stored item
   * has a recipe, a replenishment request is dispatched. The returned
   * requests are the completed ones followed by the served ones, all
   * completed; without self-supply they are those of `StorageDrain`, and a
   * new request id is drawn only on a time step the replenishment rule
   * picks for the drained storage.
   */
  method StorageTick(rm: RoadMap, recipes: map<string, Recipe>, time: int, name: string, p: Plant, fuel: nat)
    returns (p': Plant, completed: seq<Request>, err: Option<Failure>, ghost grants: seq<Grant>)
    requires name in p.buildings && p.buildings[name].kind.Storage? && p.buildings[name].kind.priority.den > 0
    ensures Ticked(p, p') && StorageStepped(recipes, time, name, p, p', completed, err, grants)
  {
    var b := p.buildings[name];
    var item := b.kind.storedItem;
    var p2;
    p2, completed := StorageServe(rm, time, name, p);
    var s := p2.buildings[name];
    p', err, grants := p2, None, [];
    if ShouldMakeRequest(s, time) {
      ReplenishmentRule(s, time);
      if RemainingSpace(s) > 0 && item in recipes {
        p', err, grants := Replenish(rm, recipes, time, name, item, p2, fuel);
        EvolvedTicked(p2, p');
        TickedTrans(p, p2, p');
      }
    }
  }

  /**
   * The first half of `StorageBuilding.step`: completed requests leave the
   * queue, then pending ones are served from stock. The returned requests
   * are the completed ones followed by the served ones; without self-supply
   * they and the storage are those of `StorageDrain`.
   */
  method StorageServe(rm: RoadMap, time: int, name: string, p: Plant) returns (p': Plant, completed: seq<Request>)
    requires name in p.buildings && p.buildings[name].kind.Storage?
    ensures Ticked(p, p') && p'.nextId == p.nextId && name in p'.buildings
    ensures var b := p.buildings[name];
      exists k :: 0 <= k <= |PendingOf(b.queue)| && completed == CompletedOf(b.queue) + MarkCompleted(PendingOf(b.queue)[..k])
    ensures forall r :: r in completed ==> r.status == Completed
    ensures var b := p.buildings[name];
      NoSelfSupply(PendingOf(b.queue), name) ==>
        completed == StorageDrain(b).completed && p'.buildings[name] == StorageDrain(b).building
  {
    var b := p.buildings[name];
    var done, rest := DrainCompleted(b.queue);
    var b1 := b.(queue := rest);
    var p1 := p.(buildings := p.buildings[name := b1]);
    ReplaceTicked(p, name, b1);
    var served;
    p', served := Fulfil(rm, time, name, rest, p1);
    TickedTrans(p, p1, p');
    completed := done + MarkCompleted(rest[..served]);
    AllCompleted(b.queue, rest, served);
    if NoSelfSupply(rest, name) {
      DrainMatches(b, served);
    }
  }

  // ------------------------------------------------------------- drone ports

  /** `DroneBuilding.step`'s outcome: the port's fleet took one `PortStep`, and nothing else changed. */
  ghost predicate PortStepped(time: int, name: string, p: Plant, p': Plant)
    requires name in p.buildings && p.buildings[name].kind.DronePort?
  {
    var b := p.buildings[name];
    p' == p.(buildings := p.buildings[name := b.(kind := DronePort(PortStep(b.kind.fleet, time)))])
  }

  /** `DroneBuilding.step`: the port's fleet takes one `PortStep`; nothing else changes. */
  method PortTick(time: int, name: string, p: Plant) returns (p': Plant)
    requires name in p.buildings && p.buildings[name].kind.DronePort?
    ensures Ticked(p, p') && PortStepped(time, name, p, p')
    ensures p'.buildings[name].kind.fleet == PortStep(p.buildings[name].kind.fleet, time)
    ensures forall m :: m in p.buildings && m != name ==> p'.buildings[m] == p.buildings[m]
  {
    var b := p.buildings[name];
    var fleet := StepPort(b.kind.fleet, time);
    var b' := b.(kind := DronePort(fleet));
    p' := p.(buildings := p.buildings[name := b']);
    ReplaceTicked(p, name, b');
  }

  // ---------------------------------------------------------- one time step

  /**
   * One building's step within a time step: the building, the plant before
   * and after it, the requests it returned, the exception it threw and the
   * units a storage's replenishment handed out.
   */
  datatype Tick = Tick(name: string, before: Plant, after: Plant, completed: seq<Request>, err: Option<Failure>,
                       grants: seq<Grant>)

  /** What every step keeps, whatever the kind: the building was there, the plant only ticked, the requests returned are completed. */
  ghost predicate Framed(t: Tick)
  {
    t.name in t.before.buildings && Ticked(t.before, t.after) &&
    forall r :: r in t.completed ==> r.status == Completed
  }

  /**
   * A tick is the `step` of its building's kind: a drone port's
   * `PortStepped`, a storage's `StorageStepped`, a mine's or a factory's
   * `ProducerStepped`. Only a storage can throw or hand out units, and every
   * returned request is completed.
   */
  ghost predicate Stepped(recipes: map<string, Recipe>, time: int, t: Tick)
  {
    Framed(t) &&
    var b := t.before.buildings[t.name];
    if b.kind.DronePort? then
      t.completed == [] && t.err.None? && t.grants == [] && PortStepped(time, t.name, t.before, t.after)
    else if b.kind.Storage? then
      b.kind.priority.den > 0 &&
      StorageStepped(recipes, time, t.name, t.before, t.after, t.completed, t.err, t.grants)
    else
      t.err.None? && t.grants == [] && ProducerStepped(t.name, t.before, t.after, t.completed)
  }

  /**
   * `step` of one building, by kind. Only a storage can fail (through its
   * replenishment dispatch); the returned requests are all completed.
   */
  method TickBuilding(rm: RoadMap, recipes: map<string, Recipe>, time: int, name: string, p: Plant, fuel: nat)
    returns (p': Plant, completed: seq<Request>, err: Option<Failure>, ghost grants: seq<Grant>)
    requires name in p.buildings
    requires p.buildings[name].kind.Storage? ==> p.buildings[name].kind.priority.den > 0
    ensures Stepped(recipes, time, Tick(name, p, p', completed, err, grants))
    ensures Ticked(p, p')
    ensures forall r :: r in completed ==> r.status == Completed
    ensures !p.buildings[name].kind.Storage? ==> err.None?
    ensures p.buildings[name].kind.DronePort? ==> completed == []
  {
    var b := p.buildings[name];
    err, grants := None, [];
    match b.kind
    case DronePort(_) =>
      p' := PortTick(time, name, p);
      completed := [];
    case Storage(_, _, _, _) =>
      p', completed, err, grants := StorageTick(rm, recipes, time, name, p, fuel);
    case _ =>
      p', completed := ProducerTick(rm, time, name, p);
  }

  /** Every storage building's priority has a positive denominator. */
  ghost predicate PrioritiesOk(buildings: map<string, Building>)
  {
    forall n :: n in buildings && buildings[n].kind.Storage? ==> buildings[n].kind.priority.den > 0
  }

  lemma TickedKeepsPriorities(p: Plant, p': Plant)
    requires Ticked(p, p') && PrioritiesOk(p.buildings)
    ensures PrioritiesOk(p'.buildings)
  {
    forall n | n in p'.buildings && p'.buildings[n].kind.Storage?
      ensures p'.buildings[n].kind.priority.den > 0
    {
      assert Persists(p.buildings[n], p'.buildings[n]);
    }
  }

  /** The ticks follow one another from `p` to `p'`: each starts from the plant the previous one left. */
  ghost predicate Run(p: Plant, ticks: seq<Tick>, p': Plant)
    decreases |ticks|
  {
    if ticks == [] then p' == p
    else ticks[|ticks| - 1].after == p' && Run(p, ticks[..|ticks| - 1], ticks[|ticks| - 1].before)
  }

  /** The buildings the ticks stepped, in order. */
  function Names(ticks: seq<Tick>): seq<string>
  {
    if ticks == [] then [] else Names(ticks[..|ticks| - 1]) + [ticks[|ticks| - 1].name]
  }

  /** The requests the ticks returned, in order. */
  function Harvest(ticks: seq<Tick>): seq<Request>
  {
    if ticks == [] then [] else Harvest(ticks[..|ticks| - 1]) + ticks[|ticks| - 1].completed
  }

  /** The names of `order` that are in the table, in order. */
  function Present(order: seq<string>, buildings: map<string, Building>): seq<string>
  {
    if order == [] then []
    else Present(order[..|order| - 1], buildings) + (if order[|order| - 1] in buildings then [order[|order| - 1]] else [])
  }

  /** Listing a prefix of the order lists a prefix of the present names. */
  lemma {:induction false} PresentPrefix(order: seq<string>, buildings: map<string, Building>, k: nat)
    requires k <= |order|
    ensures Present(order[..k], buildings) <= Present(order, buildings)
    decreases |order|
  {
    if k < |order| {
      var init := order[..|order| - 1];
      assert init[..k] == order[..k];
      PresentPrefix(init, buildings, k);
    } else {
      assert order[..k] == order;
    }
  }

  /**
   * The building loop of a time step over `order`, from `p` to `p'`: one
   * `Stepped` tick per name of the order in the table, in that order, each
   * starting from the plant the previous one left; the returned requests
   * are theirs, in order. Only the last tick may throw, and then the loop
   * has stepped a prefix of the order and reports that exception;
   * otherwise every name present was stepped.
   */
  ghost predicate Swept(recipes: map<string, Recipe>, time: int, order: seq<string>, p: Plant, ticks: seq<Tick>,
                        p': Plant, completed: seq<Request>, err: Option<Failure>)
  {
    Run(p, ticks, p') && completed == Harvest(ticks) &&
    (forall i :: 0 <= i < |ticks| ==> ticks[i].err.None? || (i == |ticks| - 1 && ticks[i].err == err)) &&
    Names(ticks) <= Present(order, p.buildings) &&
    (err.None? ==> Names(ticks) == Present(order, p.buildings)) &&
    (err.Some? ==> ticks != [] && ticks[|ticks| - 1].err == err)
  }

  /** Every tick is its building's step. */
  ghost predicate AllStepped(recipes: map<string, Recipe>, time: int, ticks: seq<Tick>)
  {
    forall i :: 0 <= i < |ticks| ==> Stepped(recipes, time, ticks[i])
  }

  lemma AllSteppedSnoc(recipes: map<string, Recipe>, time: int, ticks: seq<Tick>, t: Tick)
    requires AllStepped(recipes, time, ticks) && Stepped(recipes, time, t)
    ensures AllStepped(recipes, time, ticks + [t])
  {
    forall i | 0 <= i < |ticks| + 1
      ensures Stepped(recipes, time, (ticks + [t])[i])
    {
      if i < |ticks| {
        assert (ticks + [t])[i] == ticks[i];
      }
    }
  }

  /** One more tick extends a run, its names and its harvest. */
  lemma RunSnoc(p: Plant, ticks: seq<Tick>, t: Tick)
    requires Run(p, ticks, t.before)
    ensures Run(p, ticks + [t], t.after)
    ensures Names(ticks + [t]) == Names(ticks) + [t.name]
    ensures Harvest(ticks + [t]) == Harvest(ticks) + t.completed
  {
    assert (ticks + [t])[..|ticks|] == ticks;
  }

  /** The building loop after the first `k` names of the order, with no exception so far. */
  ghost predicate Sweeping(recipes: map<string, Recipe>, time: int, order: seq<string>, k: int, p: Plant,
                           ticks: seq<Tick>, p': Plant, completed: seq<Request>)
  {
    0 <= k <= |order| && Ticked(p, p') && PrioritiesOk(p'.buildings) &&
    (forall r :: r in completed ==> r.status == Completed) &&
    Run(p, ticks, p') && completed == Harvest(ticks) &&
    (forall j :: 0 <= j < |ticks| ==> ticks[j].err.None?) &&
    Names(ticks) == Present(order[..k], p.buildings)
  }

  /** A name no longer in the table is passed over. */
  lemma {:induction false} SweepSkip(recipes: map<string, Recipe>, time: int, order: seq<string>, k: int, p: Plant,
                  ticks: seq<Tick>, p': Plant, completed: seq<Request>)
    requires Sweeping(recipes, time, order, k, p, ticks, p', completed) && k < |order| && order[k] !in p'.buildings
    ensures Sweeping(recipes, time, order, k + 1, p, ticks, p', completed)
  {
    PresentSnoc(order, k, p.buildings);
  }

  lemma PresentSnoc(order: seq<string>, k: int, buildings: map<string, Building>)
    requires 0 <= k < |order|
    ensures Present(order[..k + 1], buildings) ==
      Present(order[..k], buildings) + (if order[k] in buildings then [order[k]] else [])
  {
    assert order[..k + 1][..k] == order[..k];
  }

  /** What any tick keeps: the run goes on from the plant it leaves, with its requests collected. */
  lemma {:induction false} SweepCommon(recipes: map<string, Recipe>, time: int, order: seq<string>, k: int, p: Plant,
                    ticks: seq<Tick>, p': Plant, completed: seq<Request>, t: Tick)
    requires Sweeping(recipes, time, order, k, p, ticks, p', completed) && k < |order|
    requires t.name == order[k] && t.before == p' && Framed(t)
    ensures Run(p, ticks + [t], t.after) && completed + t.completed == Harvest(ticks + [t])
    ensures Names(ticks + [t]) == Present(order[..k + 1], p.buildings)
    ensures Ticked(p, t.after) && PrioritiesOk(t.after.buildings)
    ensures forall r :: r in completed + t.completed ==> r.status == Completed
  {
    assert t.name in p.buildings;
    PresentSnoc(order, k, p.buildings);
    RunSnoc(p, ticks, t);
    TickedTrans(p, p', t.after);
    TickedKeepsPriorities(p, t.after);
  }

  /** A step without an exception: the loop goes on. */
  lemma {:induction false} SweepOn(recipes: map<string, Recipe>, time: int, order: seq<string>, k: int, p: Plant,
                ticks: seq<Tick>, p': Plant, completed: seq<Request>, t: Tick)
    requires Sweeping(recipes, time, order, k, p, ticks, p', completed) && k < |order|
    requires t.name == order[k] && t.before == p' && Framed(t) && t.err.None?
    ensures Sweeping(recipes, time, order, k + 1, p, ticks + [t], t.after, completed + t.completed)
  {
    SweepCommon(recipes, time, order, k, p, ticks, p', completed, t);
    assert forall j :: 0 <= j < |ticks| ==> (ticks + [t])[j] == ticks[j];
  }

  /** A step that throws: the loop ends there, having swept a prefix of the order. */
  lemma {:induction false} SweepStop(recipes: map<string, Recipe>, time: int, order: seq<string>, k: int, p: Plant,
                  ticks: seq<Tick>, p': Plant, completed: seq<Request>, t: Tick)
    requires Sweeping(recipes, time, order, k, p, ticks, p', completed) && k < |order|
    requires t.name == order[k] && t.before == p' && Framed(t) && t.err.Some?
    ensures Swept(recipes, time, order, p, ticks + [t], t.after, completed + t.completed, t.err)
    ensures Ticked(p, t.after) && PrioritiesOk(t.after.buildings)
    ensures forall r :: r in completed + t.completed ==> r.status == Completed
  {
    SweepCommon(recipes, time, order, k, p, ticks, p', completed, t);
    PresentPrefix(order, p.buildings, k + 1);
    assert forall j :: 0 <= j < |ticks| ==> (ticks + [t])[j] == ticks[j];
  }

  /** The whole order swept without an exception. */
  lemma {:induction false} SweepDone(recipes: map<string, Recipe>, time: int, order: seq<string>, p: Plant,
                                     ticks: seq<Tick>, p': Plant, completed: seq<Request>)
    requires Sweeping(recipes, time, order, |order|, p, ticks, p', completed)
    ensures Swept(recipes, time, order, p, ticks, p', completed, None)
    ensures Ticked(p, p') && PrioritiesOk(p'.buildings)
    ensures forall r :: r in completed ==> r.status == Completed
  {
    assert order[..|order|] == order;
  }

  /**
   * One name of the order inside the building loop: a name no longer in the
   * table is passed over, a present building takes its step and the trace
   * is extended by it.
   */
  method SweepAt(rm: RoadMap, recipes: map<string, Recipe>, time: int, order: seq<string>, k: int, ghost p: Plant,
                 ghost ticks: seq<Tick>, p': Plant, completed: seq<Request>, fuel: nat)
    returns (p2: Plant, completed2: seq<Request>, err: Option<Failure>, ghost ticks2: seq<Tick>)
    requires Sweeping(recipes, time, order, k, p, ticks, p', completed) && AllStepped(recipes, time, ticks)
    requires k < |order|
    ensures AllStepped(recipes, time, ticks2)
    ensures err.None? ==> Sweeping(recipes, time, order, k + 1, p, ticks2, p2, completed2)
    ensures err.Some? ==>
      Swept(recipes, time, order, p, ticks2, p2, completed2, err) && Ticked(p, p2) && PrioritiesOk(p2.buildings) &&
      (forall r :: r in completed2 ==> r.status == Completed) &&
      order[k] in p.buildings && p.buildings[order[k]].kind.Storage?
  {
    var n := order[k];
    if n !in p'.buildings {
      SweepSkip(recipes, time, order, k, p, ticks, p', completed);
      return p', completed, None, ticks;
    }
    assert p'.buildings[n].kind.Storage? ==> p.buildings[n].kind.Storage? by {
      assert Persists(p.buildings[n], p'.buildings[n]);
    }
    var done;
    ghost var gs;
    p2, done, err, gs := TickBuilding(rm, recipes, time, n, p', fuel);
    ghost var t := Tick(n, p', p2, done, err, gs);
    AllSteppedSnoc(recipes, time, ticks, t);
    ticks2 := ticks + [t];
    completed2 := completed + done;
    if err.Some? {
      SweepStop(recipes, time, order, k, p, ticks, p', completed, t);
    } else {
      SweepOn(recipes, time, order, k, p, ticks, p', completed, t);
    }
  }

  /**
   * The building loop of `processSingleTimeStep`: every building in the
   * given (topological) order takes its step, and the completed requests are
   * collected in that order. An error stops the loop where it happens, with
   * the steps already taken kept. `ticks` are the steps taken.
   */
  method TickAll(rm: RoadMap, recipes: map<string, Recipe>, time: int, order: seq<string>, p: Plant, fuel: nat)
    returns (p': Plant, completed: seq<Request>, err: Option<Failure>, ghost ticks: seq<Tick>)
    requires PrioritiesOk(p.buildings)
    ensures Swept(recipes, time, order, p, ticks, p', completed, err) && AllStepped(recipes, time, ticks)
    ensures Ticked(p, p') && PrioritiesOk(p'.buildings)
    ensures forall r :: r in completed ==> r.status == Completed
    ensures (forall n :: n in order && n in p.buildings ==> !p.buildings[n].kind.Storage?) ==> err.None?
  {
    p', completed, err, ticks := p, [], None, [];
    var i := 0;
    while i < |order|
      invariant Sweeping(recipes, time, order, i, p, ticks, p', completed)
      invariant AllStepped(recipes, time, ticks)
      invariant err.None?
    {
      var p2, completed2, e;
      ghost var ticks2;
      p2, completed2, e, ticks2 := SweepAt(rm, recipes, time, order, i, p, ticks, p', completed, fuel);
      if e.Some? {
        return p2, completed2, e, ticks2;
      }
      p', completed, ticks := p2, completed2, ticks2;
      i := i + 1;
    }
    SweepDone(recipes, time, order, p, ticks, p', completed);
  }

  // ------------------------------------------------------ delayed deliveries

  /** The deliveries due at time step `now`, in order. */
  function Due(ds: seq<Delivery>, now: int): seq<Delivery>
  {
    if ds == [] then []
    else Due(ds[..|ds| - 1], now) + (if ds[|ds| - 1].time <= now then [ds[|ds| - 1]] else [])
  }

  /** The deliveries still under way at time step `now`, in order. */
  function Later(ds: seq<Delivery>, now: int): seq<Delivery>
  {
    if ds == [] then []
    else Later(ds[..|ds| - 1], now) + (if ds[|ds| - 1].time <= now then [] else [ds[|ds| - 1]])
  }

  /** Crediting each delivery in order. */
  function CreditAll(buildings: map<string, Building>, ds: seq<Delivery>): map<string, Building>
  {
    if ds == [] then buildings
    else
      var d := ds[|ds| - 1];
      Credit(CreditAll(buildings, ds[..|ds| - 1]), d.dest, d.item, d.quantity)
  }

  /**
   * Arrival splits the deliveries: nothing is lost or duplicated, the due
   * ones are exactly those at or before `now`, the rest are all later.
   */
  lemma {:induction false} DueLaterPartition(ds: seq<Delivery>, now: int)
    ensures multiset(Due(ds, now)) + multiset(Later(ds, now)) == multiset(ds)
    decreases |ds|
  {
    if ds != [] {
      var init, x := ds[..|ds| - 1], ds[|ds| - 1];
      DueLaterPartition(init, now);
      assert ds == init + [x];
      assert multiset(ds) == multiset(init) + multiset{x};
      if x.time <= now {
        assert Due(ds, now) == Due(init, now) + [x];
        assert Later(ds, now) == Later(init, now);
      } else {
        assert Due(ds, now) == Due(init, now);
        assert Later(ds, now) == Later(init, now) + [x];
      }
    }
  }

  lemma {:induction false} DueLaterTimes(ds: seq<Delivery>, now: int)
    ensures forall d :: d in Due(ds, now) ==> d.time <= now
    ensures forall d :: d in Later(ds, now) ==> d.time > now
    decreases |ds|
  {
    if ds != [] {
      DueLaterTimes(ds[..|ds| - 1], now);
    }
  }

  /**
   * Crediting keeps the building table's names and every building's
   * persistent part, and leaves a building no delivery is addressed to as
   * it was.
   */
  lemma {:induction false} CreditAllFrame(buildings: map<string, Building>, ds: seq<Delivery>)
    ensures CreditAll(buildings, ds).Keys == buildings.Keys
    ensures forall n :: n in buildings ==> Persists(buildings[n], CreditAll(buildings, ds)[n])
    ensures forall n :: n in buildings && (forall d :: d in ds ==> d.dest.name != n) ==>
      CreditAll(buildings, ds)[n] == buildings[n]
    decreases |ds|
  {
    if ds != [] {
      var init := ds[..|ds| - 1];
      CreditAllFrame(buildings, init);
      assert forall d :: d in init ==> d in ds;
    }
  }

  /**
   * `processDelayedDeliveries`: in list order, each delivery due at `now`
   * credits its destination and leaves the list; the others stay, in order.
   */
  method Arrive(p: Plant, now: int) returns (p': Plant)
    ensures p'.deliveries == Later(p.deliveries, now)
    ensures p'.buildings == CreditAll(p.buildings, Due(p.deliveries, now))
    ensures p'.nextId == p.nextId
  {
    var ds := p.deliveries;
    var buildings := p.buildings;
    var kept := [];
    var i := 0;
    while i < |ds|
      invariant 0 <= i <= |ds|
      invariant kept == Later(ds[..i], now)
      invariant buildings == CreditAll(p.buildings, Due(ds[..i], now))
    {
      var d := ds[i];
      assert ds[..i + 1][..i] == ds[..i];
      assert ds[..i + 1][i] == d;
      if d.time <= now {
        buildings := Credit(buildings, d.dest, d.item, d.quantity);
        assert Due(ds[..i + 1], now) == Due(ds[..i], now) + [d];
      } else {
        kept := kept + [d];
        assert Due(ds[..i + 1], now) == Due(ds[..i], now);
      }
      i := i + 1;
    }
    assert ds[..i] == ds;
    p' := Plant(buildings, kept, p.nextId);
  }

  /** After arrival no remaining delivery is due, and the table keeps its buildings. */
  lemma ArriveLeavesNothingDue(p: Plant, now: int)
    ensures forall d :: d in Later(p.deliveries, now) ==> d.time > now
    ensures Ticked(p, Plant(CreditAll(p.buildings, Due(p.deliveries, now)), Later(p.deliveries, now), p.nextId))
  {
    DueLaterTimes(p.deliveries, now);
    CreditAllFrame(p.buildings, Due(p.deliveries, now));
  }
}
