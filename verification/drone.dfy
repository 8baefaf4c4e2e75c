/**
 * Delivery drones (Drone.java) and the fleet of a drone port
 * (DroneBuilding.java).
 *
 * A drone is owned by exactly one port's list and is never shared, so the
 * Java setters become functions returning the updated drone and the port's
 * loops become methods over the fleet sequence, each proved equal to a
 * specification function whose properties are lemmas below.
 */
module Drones {
  import opened Wrappers

  datatype DroneStatus = Idle | Active | InConstruction

  datatype Drone = Drone(status: DroneStatus, workSteps: int, constructSteps: int)

  /** A port never holds more than this many drones. */
  const MaxDrones: nat := 10
  /** Steps a new drone spends in construction. */
  const ConstructionSteps: int := 10
  /** A port adds a drone on time steps that are multiples of this. */
  const ConstructionPeriod: int := 10

  // ---------------------------------------------------------------- one drone

  /** The constructor: in construction, 10 construction steps, no work. */
  function NewDrone(): (d: Drone)
    ensures d.status == InConstruction && d.constructSteps == ConstructionSteps && d.workSteps == 0
  {
    Drone(InConstruction, 0, ConstructionSteps)
  }

  /** `assignWork`: sets the work counter only, the status is untouched. */
  function AssignWork(d: Drone, steps: int): (d': Drone)
    ensures d'.workSteps == steps
    ensures d'.status == d.status && d'.constructSteps == d.constructSteps
  {
    d.(workSteps := steps)
  }

  /** `setStatus`. */
  function SetDroneStatus(d: Drone, s: DroneStatus): (d': Drone)
    ensures d'.status == s
    ensures d'.workSteps == d.workSteps && d'.constructSteps == d.constructSteps
  {
    d.(status := s)
  }

  /** `doWork`: one less work step; the drone turns idle exactly when the counter reaches 0. */
  function DoWork(d: Drone): (d': Drone)
    ensures d'.workSteps == d.workSteps - 1
    ensures d'.status == (if d.workSteps == 1 then Idle else d.status)
    ensures d'.constructSteps == d.constructSteps
  {
    var w := d.(workSteps := d.workSteps - 1);
    if w.workSteps == 0 then SetDroneStatus(w, Idle) else w
  }

  /** `doConstruction`: one less construction step; idle exactly when the counter reaches 0. */
  function DoConstruction(d: Drone): (d': Drone)
    ensures d'.constructSteps == d.constructSteps - 1
    ensures d'.status == (if d.constructSteps == 1 then Idle else d.status)
    ensures d'.workSteps == d.workSteps
  {
    var c := d.(constructSteps := d.constructSteps - 1);
    if c.constructSteps == 0 then SetDroneStatus(c, Idle) else c
  }

  /** `step`: work when active, build when in construction, nothing when idle. */
  function StepDrone(d: Drone): (d': Drone)
    ensures d.status == Active ==> d' == DoWork(d)
    ensures d.status == InConstruction ==> d' == DoConstruction(d)
    ensures d.status == Idle ==> d' == d
  {
    match d.status
    case Active => DoWork(d)
    case InConstruction => DoConstruction(d)
    case Idle => d
  }

  /** `n` successive calls of `step`. */
  function StepDroneN(d: Drone, n: nat): Drone
    decreases n
  {
    if n == 0 then d else StepDroneN(StepDrone(d), n - 1)
  }

  /**
   * A drone in construction with `k` >= 1 steps left is still in construction
   * after fewer than `k` steps and idle after exactly `k`.
   */
  lemma {:induction false} ConstructionFinishesAfter(d: Drone, k: nat, n: nat)
    requires d.status == InConstruction && d.constructSteps == k >= 1
    ensures n < k ==> StepDroneN(d, n).status == InConstruction
    ensures n <= k ==> StepDroneN(d, n).constructSteps == k - n
    ensures n == k ==> StepDroneN(d, n).status == Idle
    ensures StepDroneN(d, n).workSteps == d.workSteps
    decreases n
  {
    if n > 0 {
      var d1 := StepDrone(d);
      if k == 1 {
        assert d1.status == Idle;
        IdleStaysIdle(d1, n - 1);
      } else {
        ConstructionFinishesAfter(d1, k - 1, n - 1);
      }
    }
  }

  /** An idle drone does not change until it is given work. */
  lemma {:induction false} IdleStaysIdle(d: Drone, n: nat)
    requires d.status == Idle
    ensures StepDroneN(d, n) == d
  {
    if n > 0 {
      IdleStaysIdle(StepDrone(d), n - 1);
    }
  }

  /** A new drone is idle after exactly 10 steps and not before. */
  lemma NewDroneReadyAfterTen(n: nat)
    ensures n < 10 ==> StepDroneN(NewDrone(), n).status == InConstruction
    ensures n >= 10 ==> StepDroneN(NewDrone(), n).status == Idle
  {
    if n <= 10 {
      ConstructionFinishesAfter(NewDrone(), 10, n);
    } else {
      ConstructionFinishesAfter(NewDrone(), 10, 10);
      StepDroneNSplit(NewDrone(), 10, n - 10);
      IdleStaysIdle(StepDroneN(NewDrone(), 10), n - 10);
    }
  }

  lemma {:induction false} StepDroneNSplit(d: Drone, a: nat, b: nat)
    ensures StepDroneN(d, a + b) == StepDroneN(StepDroneN(d, a), b)
    decreases a
  {
    if a > 0 {
      StepDroneNSplit(StepDrone(d), a - 1, b);
    }
  }

  /**
   * An active drone with `w` >= 1 work steps is active for its first `w - 1`
   * steps and idle after exactly `w`.
   */
  lemma {:induction false} TripFinishesAfter(d: Drone, w: nat, n: nat)
    requires d.status == Active && d.workSteps == w >= 1
    ensures n < w ==> StepDroneN(d, n).status == Active
    ensures n <= w ==> StepDroneN(d, n).workSteps == w - n
    ensures n == w ==> StepDroneN(d, n).status == Idle
    ensures StepDroneN(d, n).constructSteps == d.constructSteps
    decreases n
  {
    if n > 0 {
      var d1 := StepDrone(d);
      if w == 1 {
        IdleStaysIdle(d1, n - 1);
      } else {
        TripFinishesAfter(d1, w - 1, n - 1);
      }
    }
  }

  /**
   * A trip of zero or negative length never ends: the counter skips past 0
   * and the drone stays active.
   */
  lemma {:induction false} NonPositiveTripNeverEnds(d: Drone, n: nat)
    requires d.status == Active && d.workSteps <= 0
    ensures StepDroneN(d, n).status == Active
    ensures StepDroneN(d, n).workSteps == d.workSteps - n
    decreases n
  {
    if n > 0 {
      NonPositiveTripNeverEnds(StepDrone(d), n - 1);
    }
  }

  // -------------------------------------------------------------- the fleet

  /** How many drones of the fleet have status `s` (specification of the counting loops). */
  function Tally(fleet: seq<Drone>, s: DroneStatus): (n: nat)
    ensures n <= |fleet|
  {
    if fleet == [] then 0
    else Tally(fleet[..|fleet| - 1], s) + (if fleet[|fleet| - 1].status == s then 1 else 0)
  }

  /** Every drone has exactly one of the three statuses. */
  lemma {:induction false} TallyPartition(fleet: seq<Drone>)
    ensures Tally(fleet, Idle) + Tally(fleet, Active) + Tally(fleet, InConstruction) == |fleet|
  {
    if fleet != [] {
      TallyPartition(fleet[..|fleet| - 1]);
    }
  }

  lemma {:induction false} TallyAppend(fleet: seq<Drone>, d: Drone, s: DroneStatus)
    ensures Tally(fleet + [d], s) == Tally(fleet, s) + (if d.status == s then 1 else 0)
  {
    assert (fleet + [d])[..|fleet|] == fleet;
  }

  /** The count is positive exactly when some drone has the status. */
  lemma {:induction false} TallyPositive(fleet: seq<Drone>, s: DroneStatus)
    ensures Tally(fleet, s) > 0 <==> exists i :: 0 <= i < |fleet| && fleet[i].status == s
  {
    if fleet != [] {
      var init := fleet[..|fleet| - 1];
      TallyPositive(init, s);
      if exists i :: 0 <= i < |init| && init[i].status == s {
        var i :| 0 <= i < |init| && init[i].status == s;
        assert fleet[i].status == s;
      }
      if exists i :: 0 <= i < |fleet| && fleet[i].status == s {
        var i :| 0 <= i < |fleet| && fleet[i].status == s;
        if i < |init| {
          assert init[i].status == s;
        }
      }
    }
  }

  /** Changing one drone moves it from its old status count to its new one. */
  lemma {:induction false} TallyUpdate(fleet: seq<Drone>, i: nat, d: Drone, s: DroneStatus)
    requires i < |fleet|
    ensures Tally(fleet[i := d], s) == Tally(fleet, s)
      - (if fleet[i].status == s then 1 else 0) + (if d.status == s then 1 else 0)
  {
    var last := |fleet| - 1;
    if i == last {
      assert fleet[i := d][..last] == fleet[..last];
    } else {
      assert fleet[i := d][..last] == fleet[..last][i := d];
      TallyUpdate(fleet[..last], i, d, s);
    }
  }

  /** `countIdleDrones`, `countActiveDrones`, `countInConstructDrones`: one counting loop. */
  method CountDrones(fleet: seq<Drone>, s: DroneStatus) returns (count: nat)
    ensures count == Tally(fleet, s)
    ensures count > 0 <==> exists i :: 0 <= i < |fleet| && fleet[i].status == s
  {
    count := 0;
    var i := 0;
    while i < |fleet|
      invariant 0 <= i <= |fleet|
      invariant count == Tally(fleet[..i], s)
    {
      Snoc(fleet, i);
      TallyAppend(fleet[..i], fleet[i], s);
      if fleet[i].status == s {
        count := count + 1;
      }
      i := i + 1;
    }
    assert fleet[..i] == fleet;
    TallyPositive(fleet, s);
  }

  /** `hasDrone`: some drone is idle. */
  method HasDrone(fleet: seq<Drone>) returns (b: bool)
    ensures b <==> Tally(fleet, Idle) > 0
    ensures b <==> exists i :: 0 <= i < |fleet| && fleet[i].status == Idle
  {
    var idle := CountDrones(fleet, Idle);
    b := idle > 0;
  }

  /** The index of the first idle drone, if any. */
  function FirstIdle(fleet: seq<Drone>): (r: Option<nat>)
    ensures r.Some? ==> r.value < |fleet| && fleet[r.value].status == Idle
    ensures r.Some? ==> forall j :: 0 <= j < r.value ==> fleet[j].status != Idle
    ensures r.None? ==> forall j :: 0 <= j < |fleet| ==> fleet[j].status != Idle
  {
    if fleet == [] then None
    else if fleet[0].status == Idle then Some(0)
    else match FirstIdle(fleet[1..])
      case None => None
      case Some(k) => Some(k + 1)
  }

  /** What `useDrone(time)` leaves: the first idle drone is sent out for `time` steps. */
  function Dispatch(fleet: seq<Drone>, time: int): seq<Drone>
  {
    match FirstIdle(fleet)
    case None => fleet
    case Some(i) => fleet[i := SetDroneStatus(AssignWork(fleet[i], time), Active)]
  }

  /**
   * A dispatch from a fleet with an idle drone turns exactly one idle drone
   * active; without one, nothing changes. The fleet size never changes.
   */
  lemma DispatchMovesOneDrone(fleet: seq<Drone>, time: int)
    ensures |Dispatch(fleet, time)| == |fleet|
    ensures Tally(fleet, Idle) == 0 ==> Dispatch(fleet, time) == fleet
    ensures Tally(fleet, Idle) > 0 ==>
      Tally(Dispatch(fleet, time), Idle) == Tally(fleet, Idle) - 1 &&
      Tally(Dispatch(fleet, time), Active) == Tally(fleet, Active) + 1 &&
      Tally(Dispatch(fleet, time), InConstruction) == Tally(fleet, InConstruction)
  {
    TallyPositive(fleet, Idle);
    match FirstIdle(fleet)
    case None =>
    case Some(i) =>
      var d := SetDroneStatus(AssignWork(fleet[i], time), Active);
      TallyUpdate(fleet, i, d, Idle);
      TallyUpdate(fleet, i, d, Active);
      TallyUpdate(fleet, i, d, InConstruction);
  }

  /** `useDrone`: walk the list, give the first idle drone `time` work steps and make it active. */
  method UseDrone(fleet: seq<Drone>, time: int) returns (fleet': seq<Drone>)
    ensures fleet' == Dispatch(fleet, time)
  {
    var has := HasDrone(fleet);
    if !has {
      fleet' := fleet;
      return;
    }
    fleet' := fleet;
    var i := 0;
    while i < |fleet|
      invariant 0 <= i <= |fleet|
      invariant forall j :: 0 <= j < i ==> fleet[j].status != Idle
      invariant fleet' == fleet
    {
      if fleet[i].status == Idle {
        var d := AssignWork(fleet[i], time);
        d := SetDroneStatus(d, Active);
        fleet' := fleet[i := d];
        FirstIdleIs(fleet, i);
        return;
      }
      i := i + 1;
    }
    assert false;
  }

  lemma {:induction false} FirstIdleIs(fleet: seq<Drone>, i: nat)
    requires i < |fleet| && fleet[i].status == Idle
    requires forall j :: 0 <= j < i ==> fleet[j].status != Idle
    ensures FirstIdle(fleet) == Some(i)
  {
    if i > 0 {
      FirstIdleIs(fleet[1..], i - 1);
    }
  }

  /** `constructDrone`: append a new drone unless the port already holds 10. */
  method ConstructDrone(fleet: seq<Drone>) returns (fleet': seq<Drone>)
    ensures |fleet| >= MaxDrones ==> fleet' == fleet
    ensures |fleet| < MaxDrones ==> fleet' == fleet + [NewDrone()]
  {
    if |fleet| >= MaxDrones {
      fleet' := fleet;
      return;
    }
    fleet' := fleet + [NewDrone()];
  }

  /** Every drone stepped once, in place. */
  function StepAll(fleet: seq<Drone>): (r: seq<Drone>)
    ensures |r| == |fleet|
    ensures forall i :: 0 <= i < |fleet| ==> r[i] == StepDrone(fleet[i])
  {
    if fleet == [] then [] else [StepDrone(fleet[0])] + StepAll(fleet[1..])
  }

  /** The fleet after the port's `step(t)`: construction on multiples of 10, then every drone steps. */
  function PortStep(fleet: seq<Drone>, t: int): seq<Drone>
  {
    var grown := if t % ConstructionPeriod == 0 && |fleet| < MaxDrones then fleet + [NewDrone()] else fleet;
    StepAll(grown)
  }

  /**
   * A port step adds exactly one drone when t is a multiple of 10 and the
   * port is not full, and otherwise keeps the fleet size; a port never grows
   * past 10 drones. The first drones keep their order.
   */
  lemma PortStepSize(fleet: seq<Drone>, t: int)
    ensures t % ConstructionPeriod == 0 && |fleet| < MaxDrones ==> |PortStep(fleet, t)| == |fleet| + 1
    ensures !(t % ConstructionPeriod == 0 && |fleet| < MaxDrones) ==> |PortStep(fleet, t)| == |fleet|
    ensures |fleet| <= MaxDrones ==> |PortStep(fleet, t)| <= MaxDrones
    ensures forall i :: 0 <= i < |fleet| ==> PortStep(fleet, t)[i] == StepDrone(fleet[i])
  {
  }

  /** `DroneBuilding.step(t)`: maybe construct one drone, then step each drone in list order. */
  method StepPort(fleet: seq<Drone>, t: int) returns (fleet': seq<Drone>)
    ensures fleet' == PortStep(fleet, t)
  {
    var grown := fleet;
    if t % ConstructionPeriod == 0 && |fleet| < MaxDrones {
      grown := ConstructDrone(fleet);
    }
    fleet' := grown;
    var i := 0;
    while i < |grown|
      invariant 0 <= i <= |grown|
      invariant |fleet'| == |grown|
      invariant forall j :: 0 <= j < i ==> fleet'[j] == StepDrone(grown[j])
      invariant forall j :: i <= j < |grown| ==> fleet'[j] == grown[j]
    {
      fleet' := fleet'[i := StepDrone(fleet'[i])];
      i := i + 1;
    }
    assert fleet' == StepAll(grown);
  }

  /** `n` port steps at times t, t + 1, ..., t + n - 1. */
  function RunPort(fleet: seq<Drone>, t: int, n: nat): seq<Drone>
    decreases n
  {
    if n == 0 then fleet else RunPort(PortStep(fleet, t), t + 1, n - 1)
  }

  /** Running a port is running its steps one after another. */
  lemma {:induction false} RunPortSplit(fleet: seq<Drone>, t: int, a: nat, b: nat)
    ensures RunPort(fleet, t, a + b) == RunPort(RunPort(fleet, t, a), t + a, b)
    decreases a
  {
    if a > 0 {
      RunPortSplit(PortStep(fleet, t), t + 1, a - 1, b);
    }
  }

  /**
   * Between construction times a port only steps its drones: after `n` such
   * steps each drone has taken `n` steps of its own and none was added.
   */
  lemma {:induction false} QuietRun(fleet: seq<Drone>, t: int, n: nat)
    requires forall k :: t <= k < t + n ==> k % ConstructionPeriod != 0
    ensures |RunPort(fleet, t, n)| == |fleet|
    ensures forall i :: 0 <= i < |fleet| ==> RunPort(fleet, t, n)[i] == StepDroneN(fleet[i], n)
    decreases n
  {
    if n > 0 {
      assert t % ConstructionPeriod != 0;
      var next := PortStep(fleet, t);
      assert next == StepAll(fleet);
      QuietRun(next, t + 1, n - 1);
    }
  }

  /** Times 0..10 of a new port: the first drone is finished and a second one started. */
  lemma PortFirstEleven()
    ensures RunPort([], 0, 11) == [Drone(Idle, 0, 0), Drone(InConstruction, 0, 9)]
  {
    var f1 := [Drone(InConstruction, 0, 9)];
    var f9 := [Drone(Idle, 0, 0)];
    PortZeroth();
    PortFirstNine();
    PortTenth();
    RunPortSplit(f1, 1, 9, 1);
    assert RunPort([], 0, 11) == RunPort(f1, 1, 10);
    assert RunPort(f9, 10, 1) == PortStep(f9, 10);
  }

  /** Time 0: the first drone is started and takes its first step. */
  lemma PortZeroth()
    ensures PortStep([], 0) == [Drone(InConstruction, 0, 9)]
  {
    assert StepAll([NewDrone()]) == [StepDrone(NewDrone())];
  }

  /** Times 1..9: the first drone is finished. */
  lemma PortFirstNine()
    ensures RunPort([Drone(InConstruction, 0, 9)], 1, 9) == [Drone(Idle, 0, 0)]
  {
    var f1 := [Drone(InConstruction, 0, 9)];
    QuietRun(f1, 1, 9);
    ConstructionFinishesAfter(f1[0], 9, 9);
  }

  /** Time 10: a second drone is started. */
  lemma PortTenth()
    ensures PortStep([Drone(Idle, 0, 0)], 10) == [Drone(Idle, 0, 0), Drone(InConstruction, 0, 9)]
  {
    var f9 := [Drone(Idle, 0, 0)];
    assert StepAll(f9 + [NewDrone()]) == [StepDrone(f9[0]), StepDrone(NewDrone())];
  }

  /** Times 11..21 after the dispatch: the trip and the second construction both end, a third starts. */
  lemma PortNextEleven()
    ensures RunPort([Drone(Active, 10, 0), Drone(InConstruction, 0, 9)], 11, 11)
         == [Drone(Idle, 0, 0), Drone(Idle, 0, 0), Drone(InConstruction, 0, 8)]
  {
    var g := [Drone(Active, 10, 0), Drone(InConstruction, 0, 9)];
    var g9 := [Drone(Active, 1, 0), Drone(Idle, 0, 0)];
    var g10 := [Drone(Idle, 0, 0), Drone(Idle, 0, 0), Drone(InConstruction, 0, 9)];
    RunPortSplit(g, 11, 9, 2);
    PortNextNine();
    PortTwentieth();
    assert RunPort(g9, 20, 2) == RunPort(g10, 21, 1);
    assert RunPort(g10, 21, 1) == PortStep(g10, 21);
  }

  /** Times 11..19: the trip has one step left and the second drone is built. */
  lemma PortNextNine()
    ensures RunPort([Drone(Active, 10, 0), Drone(InConstruction, 0, 9)], 11, 9)
         == [Drone(Active, 1, 0), Drone(Idle, 0, 0)]
  {
    var g := [Drone(Active, 10, 0), Drone(InConstruction, 0, 9)];
    QuietRun(g, 11, 9);
    TripFinishesAfter(g[0], 10, 9);
    ConstructionFinishesAfter(g[1], 9, 9);
  }

  /** Time 20: a third drone is started and the trip ends. */
  lemma PortTwentieth()
    ensures PortStep([Drone(Active, 1, 0), Drone(Idle, 0, 0)], 20)
         == [Drone(Idle, 0, 0), Drone(Idle, 0, 0), Drone(InConstruction, 0, 9)]
  {
    var g9 := [Drone(Active, 1, 0), Drone(Idle, 0, 0)];
    assert StepAll(g9 + [NewDrone()]) == [StepDrone(g9[0])] + StepAll([g9[1], NewDrone()]);
    assert StepAll([g9[1], NewDrone()]) == [StepDrone(g9[1]), StepDrone(NewDrone())];
  }

  /**
   * A new port stepped at times 0..10 has one idle drone and one in
   * construction. Sending the idle drone on a 10-step trip and stepping at
   * times 11..21 leaves two idle drones, none active and one in construction.
   */
  lemma PortTimeline()
    ensures var f := RunPort([], 0, 11);
      Tally(f, Idle) == 1 && Tally(f, Active) == 0 && Tally(f, InConstruction) == 1
    ensures var f := Dispatch(RunPort([], 0, 11), 10);
      Tally(f, Idle) == 0 && Tally(f, Active) == 1 && Tally(f, InConstruction) == 1
    ensures var f := RunPort(Dispatch(RunPort([], 0, 11), 10), 11, 11);
      Tally(f, Idle) == 2 && Tally(f, Active) == 0 && Tally(f, InConstruction) == 1
  {
    PortFirstEleven();
    var f := RunPort([], 0, 11);
    assert FirstIdle(f) == Some(0);
    assert Dispatch(f, 10) == [Drone(Active, 10, 0), Drone(InConstruction, 0, 9)];
    PortNextEleven();
  }
}
