/**
 * `SimulationParser.assignBuildingLocations`: buildings whose configuration
 * gives no location are placed on the grid one at a time, in the iteration
 * order of the building table. Each goes to the first cell of the square
 * [0, 100] x [0, 100], scanning x and then y upwards, that keeps its
 * distance from every building placed so far, has a placed building close
 * by on each axis, and gives a close neighbour to every placed building
 * that still lacks one on an axis.
 */
module Placement {
  import opened Wrappers
  import opened Grid

  /** A building as the placement sees it: its name and the location its configuration gives, if any. */
  datatype Pending = Pending(name: string, location: Option<Coordinate>)

  /** The scan covers 0..Extent on both axes. */
  const Extent: int := 100
  /** Required distance, on each axis, from every placed building. */
  const Spacing: int := 5
  /** Greatest distance on an axis at which another building counts as a neighbour on that axis. */
  const Reach: int := 10

  predicate InGrid(c: Coordinate)
  {
    0 <= c.x <= Extent && 0 <= c.y <= Extent
  }

  // -------------------------------------------------------- the three tests

  predicate SpacedFrom(c: Coordinate, a: Coordinate)
  {
    Abs(c.x - a.x) >= Spacing && Abs(c.y - a.y) >= Spacing
  }

  /** Condition one: at least `Spacing` away on both axes from every placed building. */
  predicate Spaced(placed: seq<Coordinate>, c: Coordinate)
  {
    forall k :: 0 <= k < |placed| ==> SpacedFrom(c, placed[k])
  }

  predicate NearX(a: Coordinate, b: Coordinate)
  {
    Abs(a.x - b.x) <= Reach
  }

  predicate NearY(a: Coordinate, b: Coordinate)
  {
    Abs(a.y - b.y) <= Reach
  }

  /** Condition two, on x: some placed building is within reach of `c` on the x axis. */
  predicate NeighbourX(placed: seq<Coordinate>, c: Coordinate)
  {
    exists k :: 0 <= k < |placed| && NearX(c, placed[k])
  }

  /** Condition two, on y. */
  predicate NeighbourY(placed: seq<Coordinate>, c: Coordinate)
  {
    exists k :: 0 <= k < |placed| && NearY(c, placed[k])
  }

  /** The `k`-th placed building has another placed building within reach on the x axis. */
  predicate OtherX(placed: seq<Coordinate>, k: nat)
    requires k < |placed|
  {
    exists m :: 0 <= m < |placed| && m != k && NearX(placed[k], placed[m])
  }

  predicate OtherY(placed: seq<Coordinate>, k: nat)
    requires k < |placed|
  {
    exists m :: 0 <= m < |placed| && m != k && NearY(placed[k], placed[m])
  }

  /** `c` is within reach of the `k`-th placed building on each axis where that building has no neighbour yet. */
  predicate HelpsAt(placed: seq<Coordinate>, k: nat, c: Coordinate)
    requires k < |placed|
  {
    (!OtherX(placed, k) ==> NearX(c, placed[k])) && (!OtherY(placed, k) ==> NearY(c, placed[k]))
  }

  /** Condition three. */
  predicate Helps(placed: seq<Coordinate>, c: Coordinate)
  {
    forall k :: 0 <= k < |placed| ==> HelpsAt(placed, k, c)
  }

  predicate Acceptable(placed: seq<Coordinate>, c: Coordinate)
  {
    Spaced(placed, c) && NeighbourX(placed, c) && NeighbourY(placed, c) && Helps(placed, c)
  }

  /** Cell `(x, y)` comes before `c` in the scan: x in the outer loop, y in the inner one, both upwards. */
  predicate ScansBefore(x: int, y: int, c: Coordinate)
  {
    x < c.x || (x == c.x && y < c.y)
  }

  /** `c` is the first acceptable cell of the scan. */
  predicate FirstFit(placed: seq<Coordinate>, c: Coordinate)
  {
    InGrid(c) && Acceptable(placed, c) &&
    forall x, y :: 0 <= x <= Extent && 0 <= y <= Extent && ScansBefore(x, y, c) ==> !Acceptable(placed, Coordinate(x, y))
  }

  /** No cell of the scan is acceptable. */
  predicate NoFit(placed: seq<Coordinate>)
  {
    forall x, y :: 0 <= x <= Extent && 0 <= y <= Extent ==> !Acceptable(placed, Coordinate(x, y))
  }

  // -------------------------------------------------------------- the search

  /** The spacing loop, which stops at the first building too close. */
  method CheckSpacing(placed: seq<Coordinate>, c: Coordinate) returns (ok: bool)
    ensures ok == Spaced(placed, c)
  {
    var k := 0;
    while k < |placed|
      invariant 0 <= k <= |placed|
      invariant forall m :: 0 <= m < k ==> SpacedFrom(c, placed[m])
    {
      if Abs(c.x - placed[k].x) < Spacing || Abs(c.y - placed[k].y) < Spacing {
        return false;
      }
      k := k + 1;
    }
    return true;
  }

  /** The neighbour loop, which looks at every placed building. */
  method CheckNeighbours(placed: seq<Coordinate>, c: Coordinate) returns (nx: bool, ny: bool)
    ensures nx == NeighbourX(placed, c) && ny == NeighbourY(placed, c)
  {
    nx, ny := false, false;
    var k := 0;
    while k < |placed|
      invariant 0 <= k <= |placed|
      invariant nx <==> exists m :: 0 <= m < k && NearX(c, placed[m])
      invariant ny <==> exists m :: 0 <= m < k && NearY(c, placed[m])
    {
      if Abs(c.x - placed[k].x) <= Reach {
        nx := true;
      }
      if Abs(c.y - placed[k].y) <= Reach {
        ny := true;
      }
      k := k + 1;
    }
  }

  /** Whether the `k`-th placed building already has a neighbour on each axis among the others. */
  method OtherNeighbours(placed: seq<Coordinate>, k: nat) returns (ax: bool, ay: bool)
    requires k < |placed|
    ensures ax == OtherX(placed, k) && ay == OtherY(placed, k)
  {
    ax, ay := false, false;
    var m := 0;
    while m < |placed|
      invariant 0 <= m <= |placed|
      invariant ax <==> exists o :: 0 <= o < m && o != k && NearX(placed[k], placed[o])
      invariant ay <==> exists o :: 0 <= o < m && o != k && NearY(placed[k], placed[o])
    {
      if m != k {
        if Abs(placed[k].x - placed[m].x) <= Reach {
          ax := true;
        }
        if Abs(placed[k].y - placed[m].y) <= Reach {
          ay := true;
        }
      }
      m := m + 1;
    }
  }

  /** The loop of condition three, which stops at the first building `c` fails to help. */
  method CheckHelps(placed: seq<Coordinate>, c: Coordinate) returns (ok: bool)
    ensures ok == Helps(placed, c)
  {
    var k := 0;
    while k < |placed|
      invariant 0 <= k <= |placed|
      invariant forall m :: 0 <= m < k ==> HelpsAt(placed, m, c)
    {
      var ax, ay := OtherNeighbours(placed, k);
      if !ax && Abs(c.x - placed[k].x) > Reach {
        assert !HelpsAt(placed, k, c);
        return false;
      }
      if !ay && Abs(c.y - placed[k].y) > Reach {
        assert !HelpsAt(placed, k, c);
        return false;
      }
      k := k + 1;
    }
    return true;
  }

  /** The three tests of one candidate cell, in order. */
  method CheckCandidate(placed: seq<Coordinate>, c: Coordinate) returns (ok: bool)
    ensures ok == Acceptable(placed, c)
  {
    ok := CheckSpacing(placed, c);
    if !ok {
      return;
    }
    var nx, ny := CheckNeighbours(placed, c);
    if !nx || !ny {
      return false;
    }
    ok := CheckHelps(placed, c);
  }

  /** The scan for one building: the first acceptable cell, or none when no cell is acceptable. */
  method FindSpot(placed: seq<Coordinate>) returns (spot: Option<Coordinate>)
    ensures spot.Some? ==> FirstFit(placed, spot.value)
    ensures spot.None? ==> NoFit(placed)
  {
    var x := 0;
    while x <= Extent
      invariant 0 <= x <= Extent + 1
      invariant forall x', y' :: 0 <= x' < x && 0 <= y' <= Extent ==> !Acceptable(placed, Coordinate(x', y'))
    {
      var y := 0;
      while y <= Extent
        invariant 0 <= y <= Extent + 1
        invariant forall x', y' :: 0 <= x' < x && 0 <= y' <= Extent ==> !Acceptable(placed, Coordinate(x', y'))
        invariant forall y' :: 0 <= y' < y ==> !Acceptable(placed, Coordinate(x, y'))
      {
        var ok := CheckCandidate(placed, Coordinate(x, y));
        if ok {
          return Some(Coordinate(x, y));
        }
        y := y + 1;
      }
      x := x + 1;
    }
    return None;
  }

  // ------------------------------------------------------------ the placing

  function NotPlaced(name: string): Failure
  {
    SimulationException("无法为建筑 " + name + " 分配合适的坐标")
  }

  /** The locations the configuration gives, in iteration order. */
  function Located(bs: seq<Pending>): seq<Coordinate>
  {
    if bs == [] then []
    else Located(bs[..|bs| - 1]) + (if bs[|bs| - 1].location.Some? then [bs[|bs| - 1].location.value] else [])
  }

  /** The locations `r` holds for the buildings before index `i` that the configuration leaves unplaced. */
  function Chosen(bs: seq<Pending>, r: seq<Coordinate>, i: nat): seq<Coordinate>
    requires i <= |bs| && i <= |r|
  {
    if i == 0 then []
    else Chosen(bs, r, i - 1) + (if bs[i - 1].location.None? then [r[i - 1]] else [])
  }

  /** The `assigned` list when the search for building `i` starts. */
  function PlacedBefore(bs: seq<Pending>, r: seq<Coordinate>, i: nat): seq<Coordinate>
    requires i <= |bs| && i <= |r|
  {
    Located(bs) + Chosen(bs, r, i)
  }

  /** No building has a location: the first one then goes to the origin. */
  predicate NoneLocated(bs: seq<Pending>)
  {
    |bs| > 0 && forall i :: 0 <= i < |bs| ==> bs[i].location.None?
  }

  /** Building `i` gets its location from the scan. */
  predicate Searched(bs: seq<Pending>, i: nat)
    requires i < |bs|
  {
    bs[i].location.None? && !(i == 0 && NoneLocated(bs))
  }

  /** Every building before index `i` that was scanned for got the first acceptable cell. */
  predicate FoundUpTo(bs: seq<Pending>, r: seq<Coordinate>, i: nat)
    requires i <= |bs| && i <= |r|
  {
    forall j :: 0 <= j < i && Searched(bs, j) ==> FirstFit(PlacedBefore(bs, r, j), r[j])
  }

  /** The configuration gives no location exactly when nothing is located. */
  lemma {:induction false} LocatedEmpty(bs: seq<Pending>)
    ensures Located(bs) == [] <==> forall i :: 0 <= i < |bs| ==> bs[i].location.None?
  {
    if bs != [] {
      var n := |bs| - 1;
      LocatedEmpty(bs[..n]);
      assert forall i :: 0 <= i < n ==> bs[..n][i] == bs[i];
    }
  }

  /** `Chosen` looks only at the first `i` locations of `r`. */
  lemma {:induction false} ChosenFrame(bs: seq<Pending>, r: seq<Coordinate>, r': seq<Coordinate>, i: nat)
    requires i <= |bs| && i <= |r| && i <= |r'|
    requires forall k :: 0 <= k < i ==> r[k] == r'[k]
    ensures Chosen(bs, r, i) == Chosen(bs, r', i)
  {
    if i > 0 {
      ChosenFrame(bs, r, r', i - 1);
    }
  }

  /** Choosing a location for building `i` keeps what was found for the buildings before it. */
  lemma FoundKept(bs: seq<Pending>, r: seq<Coordinate>, i: nat, c: Coordinate)
    requires i < |bs| && |r| == |bs| && FoundUpTo(bs, r, i)
    ensures FoundUpTo(bs, r[i := c], i)
  {
    var r' := r[i := c];
    forall j | 0 <= j < i && Searched(bs, j)
      ensures FirstFit(PlacedBefore(bs, r', j), r'[j])
    {
      ChosenFrame(bs, r, r', j);
    }
  }

  /** Building `i`'s new location was the first fit: the record extends past `i`. */
  lemma FoundExtended(bs: seq<Pending>, r: seq<Coordinate>, i: nat)
    requires i < |bs| && |r| == |bs| && FoundUpTo(bs, r, i)
    requires Searched(bs, i) ==> FirstFit(PlacedBefore(bs, r, i), r[i])
    ensures FoundUpTo(bs, r, i + 1)
  {
  }

  /** The partition loop: the given locations in order, and a placeholder for the others. */
  method GivenLocations(bs: seq<Pending>) returns (out: seq<Coordinate>, placedSoFar: seq<Coordinate>)
    ensures |out| == |bs| && placedSoFar == Located(bs)
    ensures forall i :: 0 <= i < |bs| && bs[i].location.Some? ==> out[i] == bs[i].location.value
  {
    out, placedSoFar := [], [];
    var i := 0;
    while i < |bs|
      invariant 0 <= i <= |bs| && |out| == i
      invariant placedSoFar == Located(bs[..i])
      invariant forall j :: 0 <= j < i && bs[j].location.Some? ==> out[j] == bs[j].location.value
    {
      assert bs[..i + 1][..i] == bs[..i];
      if bs[i].location.Some? {
        out := out + [bs[i].location.value];
        placedSoFar := placedSoFar + [bs[i].location.value];
      } else {
        out := out + [Coordinate(0, 0)];
      }
      i := i + 1;
    }
    assert bs[..i] == bs;
  }

  /**
   * `assignBuildingLocations`. On success every building has a location:
   * its given one, the origin for the first building when none is given,
   * and otherwise the first acceptable cell of the scan against the
   * buildings placed before it. On failure the message names a building for
   * which no cell was acceptable; `tried` holds the locations chosen up to
   * then.
   */
  method AssignLocations(bs: seq<Pending>) returns (r: Result<seq<Coordinate>>, ghost tried: seq<Coordinate>)
    ensures r.Ok? ==> |r.value| == |bs|
    ensures r.Ok? ==> forall i :: 0 <= i < |bs| && bs[i].location.Some? ==> r.value[i] == bs[i].location.value
    ensures r.Ok? && NoneLocated(bs) ==> r.value[0] == Coordinate(0, 0)
    ensures r.Ok? ==> FoundUpTo(bs, r.value, |bs|)
    ensures r.Err? ==>
      |tried| == |bs| &&
      exists i :: 0 <= i < |bs| && Searched(bs, i) && FoundUpTo(bs, tried, i) &&
        NoFit(PlacedBefore(bs, tried, i)) && r.error == NotPlaced(bs[i].name)
  {
    var out, placedSoFar := GivenLocations(bs);
    LocatedEmpty(bs);
    var start := 0;
    if placedSoFar == [] && bs != [] {
      out := out[0 := Coordinate(0, 0)];
      placedSoFar := [Coordinate(0, 0)];
      start := 1;
      assert Chosen(bs, out, 1) == [out[0]];
    }
    tried := out;
    var i := start;
    while i < |bs|
      invariant start <= i <= |bs| && |out| == |bs|
      invariant start == 1 <==> NoneLocated(bs)
      invariant NoneLocated(bs) ==> out[0] == Coordinate(0, 0)
      invariant forall j :: 0 <= j < |bs| && bs[j].location.Some? ==> out[j] == bs[j].location.value
      invariant placedSoFar == PlacedBefore(bs, out, i)
      invariant FoundUpTo(bs, out, i)
    {
      if bs[i].location.None? {
        var spot := FindSpot(placedSoFar);
        if spot.None? {
          tried := out;
          return Err(NotPlaced(bs[i].name)), tried;
        }
        ChosenFrame(bs, out, out[i := spot.value], i);
        FoundKept(bs, out, i, spot.value);
        out := out[i := spot.value];
        placedSoFar := placedSoFar + [spot.value];
      }
      FoundExtended(bs, out, i);
      i := i + 1;
    }
    tried := out;
    r := Ok(out);
  }

  // ------------------------------------------------------------------ lemmas

  /** Each located building's given location is among those placed before any search. */
  lemma {:induction false} LocatedHolds(bs: seq<Pending>, j: nat)
    requires j < |bs| && bs[j].location.Some?
    ensures bs[j].location.value in Located(bs)
  {
    var n := |bs| - 1;
    if j < n {
      LocatedHolds(bs[..n], j);
    }
  }

  /** Each unlocated building before `i` has its chosen location among those placed before `i`. */
  lemma {:induction false} ChosenHolds(bs: seq<Pending>, r: seq<Coordinate>, i: nat, j: nat)
    requires j < i <= |bs| && i <= |r| && bs[j].location.None?
    ensures r[j] in Chosen(bs, r, i)
  {
    if j < i - 1 {
      ChosenHolds(bs, r, i - 1, j);
    }
  }

  /**
   * A building placed by the scan is at least `Spacing` away, on both axes,
   * from every building placed before it (all located buildings and every
   * earlier one), so in particular it never shares their cell.
   */
  lemma SearchedApart(bs: seq<Pending>, r: seq<Coordinate>, i: nat, j: nat)
    requires |r| == |bs| && FoundUpTo(bs, r, |bs|)
    requires i < |bs| && Searched(bs, i) && j < |bs| && j != i
    requires bs[j].location.Some? || j < i
    requires bs[j].location.Some? ==> r[j] == bs[j].location.value
    ensures SpacedFrom(r[i], r[j]) && r[i] != r[j]
  {
    var placed := PlacedBefore(bs, r, i);
    assert FirstFit(placed, r[i]);
    if bs[j].location.Some? {
      LocatedHolds(bs, j);
    } else {
      ChosenHolds(bs, r, i, j);
    }
    assert r[j] in placed;
    var k :| 0 <= k < |placed| && placed[k] == r[j];
    assert SpacedFrom(r[i], placed[k]);
  }
}
