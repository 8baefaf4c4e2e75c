/**
 * One road cell of the transport grid (Road.java): the directions traffic may
 * enter and leave it by, and how many recorded connections share it.
 *
 * A road is owned by the road map's `roads` table and is never shared, so the
 * in-place updates of the Java class are modelled as functions returning the
 * updated road, which the owner stores back.
 */
module Roads {
  import opened Wrappers
  import opened Grid

  datatype Road = Road(location: Coordinate, sharedCount: int, enter: seq<Direction>, exit: seq<Direction>)

  /** The constructor: no traffic directions yet and a zero share count. */
  function NewRoad(location: Coordinate): (r: Road)
    ensures r.location == location && r.sharedCount == 0
    ensures r.enter == [] && r.exit == []
  {
    Road(location, 0, [], [])
  }

  /** Append-if-absent, shared by both direction lists. */
  function AddIfAbsent(s: seq<Direction>, d: Direction): (r: seq<Direction>)
    ensures d in r
    ensures forall e :: e in r <==> e in s || e == d
    ensures s <= r && |r| <= |s| + 1
    ensures NoDup(s) ==> NoDup(r)
    ensures d in s ==> r == s
  {
    if d in s then s else s + [d]
  }

  /** `addEnterDirection`: only the enter list changes. */
  function AddEnterDirection(r: Road, d: Direction): (r': Road)
    ensures forall e :: e in r'.enter <==> e in r.enter || e == d
    ensures r.enter <= r'.enter
    ensures NoDup(r.enter) ==> NoDup(r'.enter)
    ensures r'.exit == r.exit && r'.sharedCount == r.sharedCount && r'.location == r.location
  {
    r.(enter := AddIfAbsent(r.enter, d))
  }

  /** `addExitDirection`: only the exit list changes. */
  function AddExitDirection(r: Road, d: Direction): (r': Road)
    ensures forall e :: e in r'.exit <==> e in r.exit || e == d
    ensures r.exit <= r'.exit
    ensures NoDup(r.exit) ==> NoDup(r'.exit)
    ensures r'.enter == r.enter && r'.sharedCount == r.sharedCount && r'.location == r.location
  {
    r.(exit := AddIfAbsent(r.exit, d))
  }

  /** `increSharedCountBy`: adds exactly `n`, negative or not, with no clamping. */
  function IncreSharedCountBy(r: Road, n: int): (r': Road)
    ensures r'.sharedCount - r.sharedCount == n
    ensures r'.enter == r.enter && r'.exit == r.exit && r'.location == r.location
  {
    r.(sharedCount := r.sharedCount + n)
  }

  /** Adding a direction twice is the same as adding it once. */
  lemma AddDirectionIdempotent(r: Road, d: Direction)
    ensures AddEnterDirection(AddEnterDirection(r, d), d) == AddEnterDirection(r, d)
    ensures AddExitDirection(AddExitDirection(r, d), d) == AddExitDirection(r, d)
  {
  }

  /** The enter and exit lists are independent: the two updates commute. */
  lemma EnterExitIndependent(r: Road, a: Direction, b: Direction)
    ensures AddEnterDirection(AddExitDirection(r, a), b) == AddExitDirection(AddEnterDirection(r, b), a)
  {
  }

  /** The road after a run of adder calls, `true` standing for `addEnterDirection` and `false` for `addExitDirection`. */
  function AddAll(r: Road, steps: seq<(bool, Direction)>): (r': Road)
    ensures r'.sharedCount == r.sharedCount && r'.location == r.location
    decreases |steps|
  {
    if steps == [] then r
    else
      var r1 := if steps[0].0 then AddEnterDirection(r, steps[0].1) else AddExitDirection(r, steps[0].1);
      AddAll(r1, steps[1..])
  }

  /** A road whose lists are duplicate-free keeps them so through any run of the two adders. */
  lemma {:induction false} AddersKeepNoDup(r: Road, steps: seq<(bool, Direction)>)
    requires NoDup(r.enter) && NoDup(r.exit)
    ensures NoDup(AddAll(r, steps).enter) && NoDup(AddAll(r, steps).exit)
    decreases |steps|
  {
    if steps != [] {
      var r1 := if steps[0].0 then AddEnterDirection(r, steps[0].1) else AddExitDirection(r, steps[0].1);
      AddersKeepNoDup(r1, steps[1..]);
    }
  }
}
