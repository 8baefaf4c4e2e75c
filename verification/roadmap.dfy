/**
 * The transport network (RoadMap.java): road cells keyed by coordinate, the
 * cells occupied by buildings, and the recorded source-to-destination
 * connections. Paths are found by a least-cost search in which a step onto an
 * existing road costs 1 and a step onto a cell that needs a new road costs 2;
 * distances are measured by a breadth-first walk along existing roads that
 * respects their one-way enter and exit lists.
 */
module RoadNetwork {
  import opened Wrappers
  import opened Grid
  import opened Roads
  import opened Requests

  /** A recorded connection, directed from `source` to `dest` (Java `Pair<Building, Building>`). */
  datatype Connection = Connection(source: Site, dest: Site)

  /** The search keeps to cells with both coordinates in [0, GridMax]. */
  const GridMax := 50

  predicate InBounds(c: Coordinate)
  {
    0 <= c.x <= GridMax && 0 <= c.y <= GridMax
  }

  /** A road with a non-empty exit list may only be left by a listed direction. */
  predicate ExitAllows(roads: map<Coordinate, Road>, c: Coordinate, d: Direction)
  {
    c !in roads || roads[c].exit == [] || d in roads[c].exit
  }

  /** A road with a non-empty enter list may only be entered from a listed side. */
  predicate EnterAllows(roads: map<Coordinate, Road>, n: Coordinate, d: Direction)
  {
    n !in roads || roads[n].enter == [] || Opposite(d) in roads[n].enter
  }

  /** The search may move from `c` in direction `d`: in bounds, not onto a building, and allowed by both roads. */
  predicate MayMove(roads: map<Coordinate, Road>, buildings: map<Coordinate, Site>, c: Coordinate, d: Direction)
  {
    var n := Neighbor(c, d);
    InBounds(n) && n !in buildings && ExitAllows(roads, c, d) && EnterAllows(roads, n, d)
  }

  /** The price of stepping onto `n`: 1, plus 1 when a road has to be built there. */
  function StepCost(roads: map<Coordinate, Road>, n: Coordinate): (k: int)
    ensures k == 1 <==> n in roads
    ensures k == 2 <==> n !in roads
  {
    if n in roads then 1 else 2
  }

  /** One search move between adjacent cells. */
  ghost predicate Step(roads: map<Coordinate, Road>, buildings: map<Coordinate, Site>, a: Coordinate, b: Coordinate)
  {
    DirectionBetween(a, b).Some? && MayMove(roads, buildings, a, DirectionBetween(a, b).value)
  }

  /**
   * A path the search can produce from the building at `start`: its first
   * cell is any neighbour of `start` (first moves are not checked), every
   * later move is a search move.
   */
  ghost predicate SearchPath(roads: map<Coordinate, Road>, buildings: map<Coordinate, Site>, start: Coordinate, path: seq<Coordinate>)
  {
    |path| >= 1 && ManhattanDistance(start, path[0]) == 1 &&
    forall i, j :: 0 <= i && j == i + 1 && j < |path| ==> Step(roads, buildings, path[i], path[j])
  }

  /** The sum of the step costs along a path. */
  function PathCost(roads: map<Coordinate, Road>, path: seq<Coordinate>): (k: int)
    ensures k >= |path|
  {
    if path == [] then 0 else PathCost(roads, path[..|path| - 1]) + StepCost(roads, path[|path| - 1])
  }

  /** The cell a path's `i`-th cell is entered from. */
  function Prev(start: Coordinate, path: seq<Coordinate>, i: int): Coordinate
    requires 0 <= i < |path|
  {
    if i == 0 then start else path[i - 1]
  }

  /** Every cell of the path is adjacent to the one before it. */
  ghost predicate Walk(start: Coordinate, path: seq<Coordinate>)
  {
    forall i {:trigger Prev(start, path, i)} :: 0 <= i < |path| ==> ManhattanDistance(Prev(start, path, i), path[i]) == 1
  }

  lemma SearchPathIsWalk(roads: map<Coordinate, Road>, buildings: map<Coordinate, Site>, start: Coordinate, path: seq<Coordinate>)
    requires SearchPath(roads, buildings, start, path)
    ensures Walk(start, path)
  {
    forall i | 0 <= i < |path|
      ensures ManhattanDistance(Prev(start, path, i), path[i]) == 1
    {
      if i > 0 {
        assert Step(roads, buildings, path[i - 1], path[i]);
      }
    }
  }

  /** A search state (RoadMap.Node): a cell, the cost so far, the steps taken, the last move and the path. */
  datatype SearchNode = SearchNode(coord: Coordinate, totalCost: int, steps: int, lastDir: Direction, path: seq<Coordinate>)

  /** What every queued node satisfies: its fields agree with its path, which the search can produce. */
  ghost predicate NodeOk(roads: map<Coordinate, Road>, buildings: map<Coordinate, Site>, start: Coordinate, n: SearchNode)
  {
    SearchPath(roads, buildings, start, n.path) &&
    n.coord == n.path[|n.path| - 1] &&
    n.totalCost == PathCost(roads, n.path) &&
    n.steps == |n.path| &&
    Neighbor(Prev(start, n.path, |n.path| - 1), n.lastDir) == n.coord
  }

  /** The node's key in the best-cost table: its cell and the direction it was entered by. */
  function Key(n: SearchNode): (Coordinate, Direction)
  {
    (n.coord, n.lastDir)
  }

  /** Every key the search can produce from `start`: an in-bounds cell, or a first step. */
  ghost function KeyUniverse(start: Coordinate): set<(Coordinate, Direction)>
  {
    (set x: int, y: int, d: Direction | 0 <= x <= GridMax && 0 <= y <= GridMax && d in Directions :: (Coordinate(x, y), d)) +
    (set d: Direction | d in Directions :: (Neighbor(start, d), d))
  }

  lemma AllDirections(d: Direction)
    ensures d in Directions
  {
  }

  lemma KeyInUniverse(start: Coordinate, c: Coordinate, d: Direction)
    requires InBounds(c) || c == Neighbor(start, d)
    ensures (c, d) in KeyUniverse(start)
  {
    AllDirections(d);
    if InBounds(c) {
      assert c == Coordinate(c.x, c.y);
    }
  }

  /** The pairs (key, c) with c below the recorded best cost: the second component of the search's measure. */
  ghost function CostPairs(best: map<(Coordinate, Direction), int>): set<((Coordinate, Direction), int)>
  {
    set k, c | k in best && 0 <= c < best[k] :: (k, c)
  }

  /** The best-cost table only grows in keys and only falls in values; a change shrinks the measure. */
  lemma MeasureDrops(u: set<(Coordinate, Direction)>, m: map<(Coordinate, Direction), int>, m': map<(Coordinate, Direction), int>)
    requires m.Keys <= m'.Keys <= u
    requires forall k :: k in m ==> 0 <= m'[k] <= m[k]
    ensures |u - m'.Keys| <= |u - m.Keys|
    ensures m'.Keys != m.Keys ==> |u - m'.Keys| < |u - m.Keys|
    ensures m'.Keys == m.Keys && m' != m ==> |CostPairs(m')| < |CostPairs(m)|
  {
    SubsetCardinality(u - m'.Keys, u - m.Keys);
    if m'.Keys != m.Keys {
      StrictSubsetCardinality(u - m'.Keys, u - m.Keys);
    }
    if m'.Keys == m.Keys && m' != m {
      var k :| k in m && m'[k] != m[k];
      assert (k, m'[k]) in CostPairs(m) - CostPairs(m');
      StrictSubsetCardinality(CostPairs(m'), CostPairs(m));
    }
  }

  /** Appending a search move keeps a search path. */
  lemma SearchPathAppend(roads: map<Coordinate, Road>, buildings: map<Coordinate, Site>, start: Coordinate, path: seq<Coordinate>, d: Direction)
    requires SearchPath(roads, buildings, start, path)
    requires MayMove(roads, buildings, path[|path| - 1], d)
    ensures SearchPath(roads, buildings, start, path + [Neighbor(path[|path| - 1], d)])
  {
    var q := path + [Neighbor(path[|path| - 1], d)];
    forall i, j | 0 <= i && j == i + 1 && j < |q|
      ensures Step(roads, buildings, q[i], q[j])
    {
      if j < |path| {
        assert q[i] == path[i] && q[j] == path[j];
      }
    }
  }

  /** The extended node a search move produces is well formed. */
  lemma ExtendNode(roads: map<Coordinate, Road>, buildings: map<Coordinate, Site>, start: Coordinate, cur: SearchNode, d: Direction)
    requires NodeOk(roads, buildings, start, cur)
    requires MayMove(roads, buildings, cur.coord, d)
    ensures NodeOk(roads, buildings, start, SearchNode(Neighbor(cur.coord, d), cur.totalCost + StepCost(roads, Neighbor(cur.coord, d)), cur.steps + 1, d, cur.path + [Neighbor(cur.coord, d)]))
  {
    var next := Neighbor(cur.coord, d);
    var q := cur.path + [next];
    SearchPathAppend(roads, buildings, start, cur.path, d);
    assert q[..|q| - 1] == cur.path;
    assert Prev(start, q, |q| - 1) == cur.coord;
  }

  /** The search's loop invariant: every queued node is well formed, every key can occur, every best cost is positive. */
  ghost predicate QueueOk(roads: map<Coordinate, Road>, buildings: map<Coordinate, Site>, start: Coordinate,
                          pq: seq<SearchNode>, best: map<(Coordinate, Direction), int>)
  {
    (forall n :: n in pq ==> NodeOk(roads, buildings, start, n)) &&
    best.Keys <= KeyUniverse(start) &&
    (forall k :: k in best ==> best[k] >= 1)
  }

  /** The queue without its `i`-th node. */
  function RemoveAt(pq: seq<SearchNode>, i: int): (r: seq<SearchNode>)
    requires 0 <= i < |pq|
    ensures |r| == |pq| - 1
    ensures forall n :: n in r ==> n in pq
  {
    pq[..i] + pq[i + 1..]
  }

  /** The node reached from `cur` by a move in direction `d`. */
  function Extended(roads: map<Coordinate, Road>, cur: SearchNode, d: Direction): (n: SearchNode)
    ensures n.coord == Neighbor(cur.coord, d) && n.lastDir == d
  {
    var next := Neighbor(cur.coord, d);
    SearchNode(next, cur.totalCost + StepCost(roads, next), cur.steps + 1, d, cur.path + [next])
  }

  /** Queueing an allowed move's node at its cost keeps the search invariant. */
  lemma OfferKeepsQueueOk(roads: map<Coordinate, Road>, buildings: map<Coordinate, Site>, start: Coordinate, cur: SearchNode, d: Direction,
                          pq: seq<SearchNode>, best: map<(Coordinate, Direction), int>)
    requires NodeOk(roads, buildings, start, cur)
    requires QueueOk(roads, buildings, start, pq, best)
    requires MayMove(roads, buildings, cur.coord, d)
    ensures QueueOk(roads, buildings, start, pq + [Extended(roads, cur, d)],
                    best[Key(Extended(roads, cur, d)) := Extended(roads, cur, d).totalCost])
  {
    ExtendNode(roads, buildings, start, cur, d);
    KeyInUniverse(start, Neighbor(cur.coord, d), d);
    assert cur.totalCost >= 1;
  }

  /** The index of the first node of least cost (the queue's poll). */
  method CheapestIndex(pq: seq<SearchNode>) returns (i: int)
    requires pq != []
    ensures 0 <= i < |pq|
    ensures forall j :: 0 <= j < |pq| ==> pq[i].totalCost <= pq[j].totalCost
    ensures forall j :: 0 <= j < i ==> pq[j].totalCost > pq[i].totalCost
  {
    i := 0;
    var j := 1;
    while j < |pq|
      invariant 0 <= i < j <= |pq|
      invariant forall k :: 0 <= k < j ==> pq[i].totalCost <= pq[k].totalCost
      invariant forall k :: 0 <= k < i ==> pq[k].totalCost > pq[i].totalCost
    {
      if pq[j].totalCost < pq[i].totalCost {
        i := j;
      }
      j := j + 1;
    }
  }

  /** Coordinates of the cells on a path, as a set. */
  function Cells(path: seq<Coordinate>): set<Coordinate>
  {
    set c | c in path
  }

  /** `before` grows into `after`: no road disappears, share counts and locations stay, and direction lists only gain. */
  ghost predicate Grows(before: map<Coordinate, Road>, after: map<Coordinate, Road>)
  {
    forall c :: c in before ==>
      c in after && after[c].sharedCount == before[c].sharedCount && after[c].location == before[c].location &&
      (forall e :: e in before[c].enter ==> e in after[c].enter) &&
      (forall e :: e in before[c].exit ==> e in after[c].exit)
  }

  lemma GrowsTransitive(a: map<Coordinate, Road>, b: map<Coordinate, Road>, c: map<Coordinate, Road>)
    requires Grows(a, b) && Grows(b, c)
    ensures Grows(a, c)
  {
  }

  /** The move from `a` to `b` is recorded: `b` lists the entry side and `a` lists the exit. */
  ghost predicate Joined(roads: map<Coordinate, Road>, a: Coordinate, b: Coordinate)
  {
    DirectionBetween(a, b).Some? && a in roads && b in roads &&
    Opposite(DirectionBetween(a, b).value) in roads[b].enter &&
    DirectionBetween(a, b).value in roads[a].exit
  }

  /** The first `k` moves of the path are recorded. */
  ghost predicate Recorded(roads: map<Coordinate, Road>, start: Coordinate, path: seq<Coordinate>, k: int)
    requires 0 <= k <= |path|
  {
    forall i :: 0 <= i < k ==> Joined(roads, Prev(start, path, i), path[i])
  }

  /** No road disappears or moves, and direction lists only gain; share counts may change. */
  ghost predicate SidesGrow(before: map<Coordinate, Road>, after: map<Coordinate, Road>)
  {
    forall c :: c in before ==>
      c in after && after[c].location == before[c].location &&
      (forall e :: e in before[c].enter ==> e in after[c].enter) &&
      (forall e :: e in before[c].exit ==> e in after[c].exit)
  }

  lemma SidesGrowTrans(a: map<Coordinate, Road>, b: map<Coordinate, Road>, c: map<Coordinate, Road>)
    requires SidesGrow(a, b) && SidesGrow(b, c)
    ensures SidesGrow(a, c)
  {
  }

  /** Recorded moves stay recorded while direction lists only gain. */
  lemma SidesKeepRecorded(r: map<Coordinate, Road>, r': map<Coordinate, Road>, start: Coordinate, path: seq<Coordinate>, k: int)
    requires 0 <= k <= |path|
    requires Recorded(r, start, path, k) && SidesGrow(r, r')
    ensures Recorded(r', start, path, k)
  {
    forall i | 0 <= i < k
      ensures Joined(r', Prev(start, path, i), path[i])
    {
      assert Joined(r, Prev(start, path, i), path[i]);
    }
  }

  /** The road at `c`, or a fresh one (Java `computeIfAbsent(c, Road::new)`). */
  function RoadAt(roads: map<Coordinate, Road>, c: Coordinate): (r: Road)
    ensures c in roads ==> r == roads[c]
    ensures c !in roads ==> r == NewRoad(c)
  {
    if c in roads then roads[c] else NewRoad(c)
  }

  /** Records the move from `prev` to `c`: `c` gains the entry side, then `prev` gains the exit direction. */
  function JoinCells(roads: map<Coordinate, Road>, prev: Coordinate, c: Coordinate): (r: map<Coordinate, Road>)
    requires ManhattanDistance(prev, c) == 1
    ensures r.Keys == roads.Keys + {prev, c}
  {
    var d := DirectionBetween(prev, c).value;
    var r1 := roads[c := AddEnterDirection(RoadAt(roads, c), Opposite(d))];
    r1[prev := AddExitDirection(RoadAt(r1, prev), d)]
  }

  /** Joining two cells only adds: roads grow, the move is recorded, and new roads are fresh. */
  lemma JoinCellsFacts(roads: map<Coordinate, Road>, prev: Coordinate, c: Coordinate)
    requires ManhattanDistance(prev, c) == 1
    ensures Grows(roads, JoinCells(roads, prev, c))
    ensures Joined(JoinCells(roads, prev, c), prev, c)
    ensures forall x :: x in JoinCells(roads, prev, c) && x !in roads ==> JoinCells(roads, prev, c)[x].sharedCount == 0
  {
  }

  /**
   * After committing the first `k` moves of `path` on `r0`: the roads grew,
   * only the path's cells and the start cell were added, new roads share
   * nothing, and those moves are recorded.
   */
  ghost predicate CommitState(r0: map<Coordinate, Road>, r: map<Coordinate, Road>, start: Coordinate, path: seq<Coordinate>, k: int)
  {
    0 <= k <= |path| &&
    Grows(r0, r) &&
    r.Keys <= r0.Keys + Cells(path) + {start} &&
    (forall c :: c in r && c !in r0 ==> r[c].sharedCount == 0) &&
    Recorded(r, start, path, k)
  }

  lemma CommitStep(r0: map<Coordinate, Road>, r: map<Coordinate, Road>, r': map<Coordinate, Road>, start: Coordinate, path: seq<Coordinate>, k: int)
    requires 0 <= k < |path|
    requires CommitState(r0, r, start, path, k)
    requires ManhattanDistance(Prev(start, path, k), path[k]) == 1
    requires r' == JoinCells(r, Prev(start, path, k), path[k])
    ensures CommitState(r0, r', start, path, k + 1)
  {
    JoinCellsFacts(r, Prev(start, path, k), path[k]);
    GrowsTransitive(r0, r, r');
    assert path[k] in Cells(path);
    if k > 0 {
      assert path[k - 1] in Cells(path);
    }
    RecordedStep(r, r', start, path, k);
  }

  lemma RecordedStep(r: map<Coordinate, Road>, r': map<Coordinate, Road>, start: Coordinate, path: seq<Coordinate>, k: int)
    requires 0 <= k < |path|
    requires Recorded(r, start, path, k) && Grows(r, r')
    requires Joined(r', Prev(start, path, k), path[k])
    ensures Recorded(r', start, path, k + 1)
  {
    SidesKeepRecorded(r, r', start, path, k);
  }

  /** The commit loop of `getOptimalPath` on the road table: records every move of the path, creating missing roads. */
  method CommitRoads(r0: map<Coordinate, Road>, start: Coordinate, path: seq<Coordinate>) returns (r: map<Coordinate, Road>)
    requires Walk(start, path)
    ensures CommitState(r0, r, start, path, |path|)
  {
    r := r0;
    var k := 0;
    CommitStart(r0, start, path);
    while k < |path|
      invariant 0 <= k <= |path|
      invariant CommitState(r0, r, start, path, k)
    {
      ghost var before := r;
      r := JoinCells(r, Prev(start, path, k), path[k]);
      CommitStep(r0, before, r, start, path, k);
      k := k + 1;
    }
  }

  lemma CommitStart(r0: map<Coordinate, Road>, start: Coordinate, path: seq<Coordinate>)
    ensures CommitState(r0, r0, start, path, 0)
  {
  }

  /** Both buildings have locations and stand next to each other: the path is the destination cell itself. */
  predicate Direct(source: Site, dest: Site)
  {
    source.location.Some? && dest.location.Some? &&
    ManhattanDistance(source.location.value, dest.location.value) == 1
  }

  /**
   * The paths `getOptimalPath` can return: the destination cell when the
   * buildings are adjacent; otherwise none, or a search path from the
   * source whose last cell is next to the destination.
   */
  ghost predicate PathShape(roads: map<Coordinate, Road>, buildings: map<Coordinate, Site>, source: Site, dest: Site, path: seq<Coordinate>)
  {
    (path == [] && !Direct(source, dest)) ||
    (source.location.Some? && dest.location.Some? &&
     if Direct(source, dest) then path == [dest.location.value]
     else SearchPath(roads, buildings, source.location.value, path) &&
          ManhattanDistance(path[|path| - 1], dest.location.value) == 1)
  }

  lemma PathShapeIsWalk(roads: map<Coordinate, Road>, buildings: map<Coordinate, Site>, source: Site, dest: Site, path: seq<Coordinate>)
    requires PathShape(roads, buildings, source, dest, path) && path != []
    ensures Walk(source.location.value, path)
  {
    if !Direct(source, dest) {
      SearchPathIsWalk(roads, buildings, source.location.value, path);
    }
  }

  /** The road `createPath` builds on an unpaved cell entered from `prev`: that move's exit and entry side. */
  function FreshRoad(prev: Coordinate, c: Coordinate): (r: Road)
    requires ManhattanDistance(prev, c) == 1
    ensures r.location == c && r.sharedCount == 0
    ensures r.exit == [DirectionBetween(prev, c).value]
    ensures r.enter == [Opposite(DirectionBetween(prev, c).value)]
  {
    var d := DirectionBetween(prev, c).value;
    AddEnterDirection(AddExitDirection(NewRoad(c), d), Opposite(d))
  }

  /** After paving the first `k` path cells of `r0`: old roads untouched, those cells paved, new roads fresh. */
  ghost predicate PaveState(r0: map<Coordinate, Road>, r: map<Coordinate, Road>, start: Coordinate, path: seq<Coordinate>, k: int)
  {
    PaveKeeps(r0, r, path) && PavedPrefix(r0, r, start, path, k)
  }

  /** Old roads are untouched, and new roads lie on the path with no share yet. */
  ghost predicate PaveKeeps(r0: map<Coordinate, Road>, r: map<Coordinate, Road>, path: seq<Coordinate>)
  {
    (forall c :: c in r0 ==> c in r && r[c] == r0[c]) &&
    r.Keys <= r0.Keys + Cells(path) &&
    (forall c :: c in r && c !in r0 ==> r[c].sharedCount == 0)
  }

  /** The first `k` path cells are paved, and a new road on the first cell is fresh. */
  ghost predicate PavedPrefix(r0: map<Coordinate, Road>, r: map<Coordinate, Road>, start: Coordinate, path: seq<Coordinate>, k: int)
  {
    0 <= k <= |path| &&
    (k == 0 ==> forall c :: c in r ==> c in r0) &&
    (forall i :: 0 <= i < k ==> path[i] in r) &&
    (k > 0 && path[0] !in r0 ==>
       path[0] in r && ManhattanDistance(Prev(start, path, 0), path[0]) == 1 &&
       r[path[0]] == FreshRoad(Prev(start, path, 0), path[0]))
  }

  lemma PaveStep(r0: map<Coordinate, Road>, r: map<Coordinate, Road>, start: Coordinate, path: seq<Coordinate>, k: int)
    requires 0 <= k < |path|
    requires PavedPrefix(r0, r, start, path, k)
    requires path[k] in r
    ensures PavedPrefix(r0, r, start, path, k + 1)
  {
    forall i | 0 <= i < k + 1
      ensures path[i] in r
    {
      if i < k {
        assert path[i] in r;
      }
    }
    if k == 0 {
      assert path[0] in r0;
    }
  }

  /** Paving an unpaved path cell keeps the old roads and adds a fresh one on the path. */
  lemma PaveKeepsNew(r0: map<Coordinate, Road>, r: map<Coordinate, Road>, path: seq<Coordinate>, k: int, road: Road)
    requires 0 <= k < |path| && PaveKeeps(r0, r, path)
    requires path[k] !in r && road.sharedCount == 0
    ensures PaveKeeps(r0, r[path[k] := road], path)
  {
    assert path[k] in Cells(path);
  }

  /** Paving the next unpaved path cell extends the paved prefix. */
  lemma PavedPrefixNew(r0: map<Coordinate, Road>, r: map<Coordinate, Road>, start: Coordinate, path: seq<Coordinate>, k: int)
    requires 0 <= k < |path|
    requires PavedPrefix(r0, r, start, path, k) && (forall c :: c in r0 ==> c in r)
    requires path[k] !in r
    requires ManhattanDistance(Prev(start, path, k), path[k]) == 1
    ensures PavedPrefix(r0, r[path[k] := FreshRoad(Prev(start, path, k), path[k])], start, path, k + 1)
  {
    if k == 0 {
      PavedFirst(r0, r, start, path);
    } else {
      PavedLater(r0, r, start, path, k, FreshRoad(Prev(start, path, k), path[k]));
    }
  }

  lemma PavedFirst(r0: map<Coordinate, Road>, r: map<Coordinate, Road>, start: Coordinate, path: seq<Coordinate>)
    requires 0 < |path| && path[0] !in r && (forall c :: c in r0 ==> c in r)
    requires ManhattanDistance(Prev(start, path, 0), path[0]) == 1
    ensures PavedPrefix(r0, r[path[0] := FreshRoad(Prev(start, path, 0), path[0])], start, path, 1)
  {
  }

  lemma PavedLater(r0: map<Coordinate, Road>, r: map<Coordinate, Road>, start: Coordinate, path: seq<Coordinate>, k: int, road: Road)
    requires 0 < k < |path| && path[k] !in r
    requires PavedPrefix(r0, r, start, path, k)
    ensures PavedPrefix(r0, r[path[k] := road], start, path, k + 1)
  {
    var r' := r[path[k] := road];
    forall i | 0 <= i < k + 1
      ensures path[i] in r'
    {
      if i < k {
        assert path[i] in r;
      }
    }
    assert path[0] in r && path[0] != path[k];
  }

  /** On a path whose moves are all recorded every cell has a road, so paving adds nothing. */
  lemma PavedNothing(r0: map<Coordinate, Road>, r: map<Coordinate, Road>, start: Coordinate, path: seq<Coordinate>)
    requires Recorded(r0, start, path, |path|) && PaveKeeps(r0, r, path)
    ensures r == r0
  {
    forall c | c in Cells(path)
      ensures c in r0
    {
      var i :| 0 <= i < |path| && path[i] == c;
      assert Joined(r0, Prev(start, path, i), path[i]);
    }
    assert r.Keys == r0.Keys;
  }

  /** The one road an adjacent pair paves is fresh, whatever share it then gets. */
  lemma DirectFresh(r0: map<Coordinate, Road>, paved: map<Coordinate, Road>, r: map<Coordinate, Road>,
                    start: Coordinate, path: seq<Coordinate>)
    requires |path| == 1 && ManhattanDistance(start, path[0]) == 1 && path[0] !in r0
    requires PaveState(r0, paved, start, path, 1)
    requires r.Keys == paved.Keys
    requires forall c :: c in r ==> r[c].enter == paved[c].enter && r[c].exit == paved[c].exit && r[c].location == paved[c].location
    ensures var made := FreshRoad(start, path[0]);
      path[0] in r && r[path[0]].location == made.location && r[path[0]].enter == made.enter && r[path[0]].exit == made.exit
  {
    var c := path[0];
    assert Prev(start, path, 0) == start;
    assert paved[c] == FreshRoad(start, c);
  }

  /** The first loop of `createPath`: every unpaved path cell gets a fresh road; existing roads are left as they are. */
  method PaveMissing(r0: map<Coordinate, Road>, start: Coordinate, path: seq<Coordinate>) returns (r: map<Coordinate, Road>)
    requires Walk(start, path)
    ensures PaveState(r0, r, start, path, |path|)
  {
    r := r0;
    var k := 0;
    while k < |path|
      invariant 0 <= k <= |path|
      invariant PaveState(r0, r, start, path, k)
    {
      assert ManhattanDistance(Prev(start, path, k), path[k]) == 1;
      if path[k] !in r {
        PaveKeepsNew(r0, r, path, k, FreshRoad(Prev(start, path, k), path[k]));
        PavedPrefixNew(r0, r, start, path, k);
        r := r[path[k] := FreshRoad(Prev(start, path, k), path[k])];
      } else {
        PaveStep(r0, r, start, path, k);
      }
      k := k + 1;
    }
  }

  lemma MultisetPrefixStep(path: seq<Coordinate>, k: int)
    requires 0 <= k < |path|
    ensures multiset(path[..k + 1]) == multiset(path[..k]) + multiset{path[k]}
  {
    Snoc(path, k);
  }

  /** `r` is `r0` with one more share on each road per occurrence in `prefix`. */
  ghost predicate SharedAlong(r0: map<Coordinate, Road>, r: map<Coordinate, Road>, prefix: seq<Coordinate>)
  {
    r.Keys == r0.Keys &&
    (forall c :: c in r ==> r[c].sharedCount == r0[c].sharedCount + multiset(prefix)[c]) &&
    (forall c :: c in r ==> r[c].enter == r0[c].enter && r[c].exit == r0[c].exit && r[c].location == r0[c].location)
  }

  /** Sharing the next path cell keeps `SharedAlong`. */
  lemma SharedAlongStep(r0: map<Coordinate, Road>, r: map<Coordinate, Road>, path: seq<Coordinate>, k: nat)
    requires k < |path| && path[k] in r
    requires SharedAlong(r0, r, path[..k])
    ensures SharedAlong(r0, r[path[k] := IncreSharedCountBy(r[path[k]], 1)], path[..k + 1])
  {
    MultisetPrefixStep(path, k);
  }

  /** The second loop of `createPath`: each road gains one share per occurrence on the path. */
  method ShareAlong(r0: map<Coordinate, Road>, path: seq<Coordinate>) returns (r: map<Coordinate, Road>)
    requires forall c :: c in path ==> c in r0
    ensures r.Keys == r0.Keys
    ensures forall c :: c in r ==> r[c].sharedCount == r0[c].sharedCount + multiset(path)[c]
    ensures forall c :: c in r ==> r[c].enter == r0[c].enter && r[c].exit == r0[c].exit && r[c].location == r0[c].location
  {
    r := r0;
    var k := 0;
    assert path[..0] == [];
    while k < |path|
      invariant 0 <= k <= |path|
      invariant SharedAlong(r0, r, path[..k])
    {
      SharedAlongStep(r0, r, path, k);
      r := r[path[k] := IncreSharedCountBy(r[path[k]], 1)];
      k := k + 1;
    }
    assert path[..|path|] == path;
  }

  /** The connection list after recording `p` once. */
  function Record(cs: seq<Connection>, p: Connection): (r: seq<Connection>)
    ensures p in r
    ensures p in cs ==> r == cs
    ensures p !in cs ==> r == cs + [p]
  {
    if p in cs then cs else cs + [p]
  }

  /** A cell's share count, 0 where there is no road. */
  function ShareOf(roads: map<Coordinate, Road>, c: Coordinate): int
  {
    if c in roads then roads[c].sharedCount else 0
  }

  /** Before any share is added, every road shares what it shared in `r0`, a new road nothing. */
  lemma PavedShares(r0: map<Coordinate, Road>, laid: map<Coordinate, Road>, paved: map<Coordinate, Road>,
                    start: Coordinate, path: seq<Coordinate>)
    requires laid == r0 || CommitState(r0, laid, start, path, |path|)
    requires PaveKeeps(laid, paved, path)
    ensures forall c :: c in paved ==> paved[c].sharedCount == ShareOf(r0, c)
  {
  }

  /**
   * The road half of `createPath` once a path is found: `laid` is `r0`
   * after the search committed its moves (or `r0` itself for an adjacent
   * pair). Every path cell still without a road is paved; a connection not
   * yet recorded adds one share to every path cell per occurrence and is
   * recorded.
   */
  method Lay(ghost r0: map<Coordinate, Road>, laid: map<Coordinate, Road>, conns: seq<Connection>,
             source: Site, dest: Site, path: seq<Coordinate>)
    returns (r: map<Coordinate, Road>, conns': seq<Connection>)
    requires path != [] && source.location.Some? && dest.location.Some? && Walk(source.location.value, path)
    requires Direct(source, dest) ==> path == [dest.location.value] && laid == r0
    requires !Direct(source, dest) ==> CommitState(r0, laid, source.location.value, path, |path|)
    ensures conns' == Record(conns, Connection(source, dest))
    ensures r.Keys <= r0.Keys + Cells(path) + {source.location.value}
    ensures forall c :: c in path ==> c in r
    ensures forall c :: c in r ==>
      r[c].sharedCount == ShareOf(r0, c) + (if Connection(source, dest) in conns then 0 else multiset(path)[c])
    ensures SidesGrow(r0, r)
    ensures !Direct(source, dest) ==> Recorded(r, source.location.value, path, |path|)
    ensures Direct(source, dest) && dest.location.value !in r0 ==>
      var made := FreshRoad(source.location.value, dest.location.value);
      dest.location.value in r && r[dest.location.value].location == made.location &&
      r[dest.location.value].enter == made.enter && r[dest.location.value].exit == made.exit
  {
    var start := source.location.value;
    r := PaveMissing(laid, start, path);
    if !Direct(source, dest) {
      PavedNothing(laid, r, start, path);
    }
    ghost var paved := r;
    PavedShares(r0, laid, paved, start, path);
    var pair := Connection(source, dest);
    conns' := conns;
    if pair !in conns {
      r := ShareAlong(r, path);
      conns' := conns + [pair];
    }
    SidesGrowTrans(r0, laid, paved);
    SidesGrowTrans(r0, paved, r);
    if !Direct(source, dest) {
      SidesKeepRecorded(paved, r, start, path, |path|);
    } else if dest.location.value !in r0 {
      DirectFresh(laid, paved, r, start, path);
    }
  }

  lemma RecordKeepsNoDup(cs: seq<Connection>, p: Connection)
    requires NoDup(cs)
    ensures NoDup(Record(cs, p))
  {
    if p !in cs {
      NoDupAppend(cs, [p]);
    }
  }

  // ---------------------------------------------------------------------
  // Breadth-first distance along existing roads (`getShortestDistance`).
  // The walk is specified over an edge set and a seed set, so that the
  // reasoning about levels never sees the grid arithmetic.
  // ---------------------------------------------------------------------

  /** A road-to-road move the walk may take: `a` lists `d` as an exit and the next road lists the entry side. */
  predicate Link(roads: map<Coordinate, Road>, a: Coordinate, d: Direction)
  {
    a in roads && d in roads[a].exit &&
    Neighbor(a, d) in roads && Opposite(d) in roads[Neighbor(a, d)].enter
  }

  /** Every linked move, as a (from, to) pair of road cells. */
  ghost function Edges(roads: map<Coordinate, Road>): set<(Coordinate, Coordinate)>
  {
    set a, d | a in roads && d in Directions && Link(roads, a, d) :: (a, Neighbor(a, d))
  }

  /** The walk's first cells: the roads next to the source building. */
  ghost function Seeds(roads: map<Coordinate, Road>, s: Coordinate): set<Coordinate>
  {
    set c | c in roads && ManhattanDistance(s, c) == 1
  }

  lemma LinkIsEdge(roads: map<Coordinate, Road>, a: Coordinate, d: Direction)
    requires Link(roads, a, d)
    ensures (a, Neighbor(a, d)) in Edges(roads)
  {
    AllDirections(d);
  }

  lemma EdgeIsLink(roads: map<Coordinate, Road>, a: Coordinate, b: Coordinate)
    requires (a, b) in Edges(roads)
    ensures exists d :: Link(roads, a, d) && Neighbor(a, d) == b
  {
  }

  /** The walk reaches `c` using at most `k` cells: a seed, or one edge past a cell reached with `k - 1`. */
  ghost predicate Reach(edges: set<(Coordinate, Coordinate)>, seeds: set<Coordinate>, c: Coordinate, k: nat)
    decreases k
  {
    k > 0 &&
    (c in seeds || Reach(edges, seeds, c, k - 1) ||
     exists a :: (a, c) in edges && Reach(edges, seeds, a, k - 1))
  }

  /** Some cell the walk reaches with at most `k` cells is next to the destination `g`. */
  ghost predicate ReachesWithin(edges: set<(Coordinate, Coordinate)>, seeds: set<Coordinate>, g: Coordinate, k: nat)
  {
    exists c :: Reach(edges, seeds, c, k) && ManhattanDistance(c, g) == 1
  }

  lemma {:induction false} ReachMono(edges: set<(Coordinate, Coordinate)>, seeds: set<Coordinate>, c: Coordinate, j: nat, k: nat)
    requires j <= k && Reach(edges, seeds, c, j)
    ensures Reach(edges, seeds, c, k)
    decreases k
  {
    if j < k {
      ReachMono(edges, seeds, c, j, k - 1);
    }
  }

  /** Nothing is reached with zero cells, and with one cell exactly the seeds are. */
  lemma ReachOne(edges: set<(Coordinate, Coordinate)>, seeds: set<Coordinate>, c: Coordinate)
    ensures !Reach(edges, seeds, c, 0)
    ensures Reach(edges, seeds, c, 1) <==> c in seeds
  {
  }

  /** A set holding the seeds and closed under edges holds every reached cell. */
  lemma {:induction false} ClosedCoversReach(edges: set<(Coordinate, Coordinate)>, seeds: set<Coordinate>, v: set<Coordinate>, c: Coordinate, k: nat)
    requires seeds <= v
    requires forall a, b :: a in v && (a, b) in edges ==> b in v
    requires Reach(edges, seeds, c, k)
    ensures c in v
    decreases k
  {
    if c !in seeds {
      if Reach(edges, seeds, c, k - 1) {
        ClosedCoversReach(edges, seeds, v, c, k - 1);
      } else {
        var a :| (a, c) in edges && Reach(edges, seeds, a, k - 1);
        ClosedCoversReach(edges, seeds, v, a, k - 1);
      }
    }
  }

  /** `c` is reached with `n` cells and not with fewer. */
  ghost predicate Level(edges: set<(Coordinate, Coordinate)>, seeds: set<Coordinate>, c: Coordinate, n: int)
  {
    1 <= n && Reach(edges, seeds, c, n) && !Reach(edges, seeds, c, n - 1)
  }

  /** Every recorded distance is exact. */
  ghost predicate Exact(edges: set<(Coordinate, Coordinate)>, seeds: set<Coordinate>, dist: map<Coordinate, int>)
  {
    forall c :: c in dist ==> Level(edges, seeds, c, dist[c])
  }

  /** The queue's distances never decrease, and lie within one level `lvl` and the next. */
  ghost predicate Banded(dist: map<Coordinate, int>, queue: seq<Coordinate>, lvl: int)
  {
    (forall c :: c in queue ==> c in dist && lvl <= dist[c] <= lvl + 1) &&
    (forall i, j :: 0 <= i <= j < |queue| ==> dist[queue[i]] <= dist[queue[j]])
  }

  /** Every polled cell is not next to the destination and has all its successors discovered. */
  ghost predicate PolledClosed(edges: set<(Coordinate, Coordinate)>, g: Coordinate, dist: map<Coordinate, int>, polled: set<Coordinate>)
  {
    forall p :: p in polled ==> ManhattanDistance(p, g) != 1 && (forall b :: (p, b) in edges ==> b in dist)
  }

  /** Every cell reached with at most `lvl` cells has been discovered. */
  ghost predicate Covered(edges: set<(Coordinate, Coordinate)>, seeds: set<Coordinate>, dist: map<Coordinate, int>, lvl: nat)
  {
    forall c :: Reach(edges, seeds, c, lvl) ==> c in dist
  }

  /** The breadth-first walk's loop invariant at level `lvl`. */
  ghost predicate BfsInv(edges: set<(Coordinate, Coordinate)>, seeds: set<Coordinate>, g: Coordinate,
                         queue: seq<Coordinate>, dist: map<Coordinate, int>, polled: set<Coordinate>, lvl: nat)
  {
    lvl >= 1 &&
    Exact(edges, seeds, dist) &&
    (forall c :: c in dist <==> c in polled || c in queue) &&
    Banded(dist, queue, lvl) &&
    PolledClosed(edges, g, dist, polled) &&
    Covered(edges, seeds, dist, lvl)
  }

  /** A cell at level `m` that is reached within `k` cells has `m <= k`. */
  lemma LevelBound(edges: set<(Coordinate, Coordinate)>, seeds: set<Coordinate>, c: Coordinate, k: nat, m: int)
    requires Level(edges, seeds, c, m) && Reach(edges, seeds, c, k)
    ensures m <= k
  {
    if m > k {
      ReachMono(edges, seeds, c, k, m - 1);
    }
  }

  /** A queued cell is at least as far as the head of the queue. */
  lemma HeadIsLeast(dist: map<Coordinate, int>, queue: seq<Coordinate>, lvl: int, c: Coordinate)
    requires Banded(dist, queue, lvl) && c in queue
    ensures dist[queue[0]] <= dist[c]
  {
    var i :| 0 <= i < |queue| && queue[i] == c;
    assert dist[queue[0]] <= dist[queue[i]];
  }

  /** When the head of the queue is one level up, every cell of the next level has been discovered. */
  lemma LevelUp(edges: set<(Coordinate, Coordinate)>, seeds: set<Coordinate>, g: Coordinate,
                queue: seq<Coordinate>, dist: map<Coordinate, int>, polled: set<Coordinate>, lvl: nat)
    requires BfsInv(edges, seeds, g, queue, dist, polled, lvl)
    requires queue != [] && dist[queue[0]] == lvl + 1
    ensures Covered(edges, seeds, dist, lvl + 1)
  {
    forall c | Reach(edges, seeds, c, lvl + 1)
      ensures c in dist
    {
      if c in seeds {
        ReachOne(edges, seeds, c);
        ReachMono(edges, seeds, c, 1, lvl);
      } else if !Reach(edges, seeds, c, lvl) {
        var a :| (a, c) in edges && Reach(edges, seeds, a, lvl);
        LevelBound(edges, seeds, a, lvl, dist[a]);
        if a in queue {
          HeadIsLeast(dist, queue, lvl, a);
        }
      }
    }
  }

  /** Polling a cell next to the destination: its distance is the least that reaches the destination. */
  lemma FoundIsLeast(edges: set<(Coordinate, Coordinate)>, seeds: set<Coordinate>, g: Coordinate,
                     queue: seq<Coordinate>, dist: map<Coordinate, int>, polled: set<Coordinate>, lvl: nat)
    requires BfsInv(edges, seeds, g, queue, dist, polled, lvl)
    requires queue != [] && ManhattanDistance(queue[0], g) == 1
    ensures dist[queue[0]] >= 1
    ensures ReachesWithin(edges, seeds, g, dist[queue[0]])
    ensures !ReachesWithin(edges, seeds, g, dist[queue[0]] - 1)
  {
    var top := dist[queue[0]];
    assert Level(edges, seeds, queue[0], top);
    forall c | Reach(edges, seeds, c, top - 1)
      ensures ManhattanDistance(c, g) != 1
    {
      ReachMono(edges, seeds, c, top - 1, lvl);
      LevelBound(edges, seeds, c, top - 1, dist[c]);
      if c in queue {
        HeadIsLeast(dist, queue, lvl, c);
      }
    }
  }

  /** An exhausted queue: nothing reached is next to the destination. */
  lemma ExhaustedUnreachable(edges: set<(Coordinate, Coordinate)>, seeds: set<Coordinate>, g: Coordinate,
                             dist: map<Coordinate, int>, polled: set<Coordinate>, lvl: nat)
    requires BfsInv(edges, seeds, g, [], dist, polled, lvl)
    ensures forall k: nat :: !ReachesWithin(edges, seeds, g, k)
  {
    forall a | a in seeds
      ensures a in polled
    {
      ReachOne(edges, seeds, a);
      ReachMono(edges, seeds, a, 1, lvl);
    }
    forall k: nat, c | Reach(edges, seeds, c, k)
      ensures ManhattanDistance(c, g) != 1
    {
      ClosedCoversReach(edges, seeds, polled, c, k);
    }
  }

  /** What one visit of `cur` at distance `top` does to the queue and the distance table. */
  ghost predicate Visited(edges: set<(Coordinate, Coordinate)>, cur: Coordinate, top: int,
                          queue: seq<Coordinate>, dist: map<Coordinate, int>,
                          queue': seq<Coordinate>, dist': map<Coordinate, int>)
  {
    dist.Keys <= dist'.Keys &&
    (forall c :: c in dist ==> dist'[c] == dist[c]) &&
    (forall c :: c in dist' && c !in dist ==> dist'[c] == top + 1 && (cur, c) in edges) &&
    |queue| <= |queue'| && queue'[..|queue|] == queue &&
    (forall i :: |queue| <= i < |queue'| ==> queue'[i] in dist' && queue'[i] !in dist) &&
    (forall c :: c in dist' && c !in dist ==> c in queue'[|queue|..]) &&
    (dist'.Keys == dist.Keys ==> queue' == queue)
  }

  /** Discovering one more successor keeps the visit's description. */
  lemma VisitAdd(edges: set<(Coordinate, Coordinate)>, cur: Coordinate, top: int,
                 queue: seq<Coordinate>, dist: map<Coordinate, int>,
                 queue': seq<Coordinate>, dist': map<Coordinate, int>, next: Coordinate)
    requires Visited(edges, cur, top, queue, dist, queue', dist')
    requires next !in dist' && (cur, next) in edges
    ensures Visited(edges, cur, top, queue, dist, queue' + [next], dist'[next := top + 1])
  {
    var q, m := queue' + [next], dist'[next := top + 1];
    assert q[..|queue|] == queue' [..|queue|];
    forall i | |queue| <= i < |q|
      ensures q[i] in m && q[i] !in dist
    {
      if i < |queue'| {
        assert q[i] == queue'[i];
      }
    }
    forall c | c in m && c !in dist
      ensures c in q[|queue|..]
    {
      if c == next {
        assert q[|q| - 1] == next;
      } else {
        assert c in queue'[|queue|..];
        assert queue'[|queue|..] <= q[|queue|..];
      }
    }
  }

  /** The queue after a visit stays banded at the visited level. */
  lemma VisitBanded(dist: map<Coordinate, int>, rest: seq<Coordinate>, dist': map<Coordinate, int>, queue': seq<Coordinate>, top: int, lvl: int)
    requires forall c :: c in rest ==> c in dist
    requires forall i :: 0 <= i < |rest| ==> top <= dist[rest[i]] <= lvl + 1
    requires forall i, j :: 0 <= i <= j < |rest| ==> dist[rest[i]] <= dist[rest[j]]
    requires lvl <= top <= lvl + 1
    requires forall c :: c in dist ==> c in dist' && dist'[c] == dist[c]
    requires forall c :: c in dist' && c !in dist ==> dist'[c] == top + 1
    requires |rest| <= |queue'| && queue'[..|rest|] == rest
    requires forall i :: |rest| <= i < |queue'| ==> queue'[i] in dist' && queue'[i] !in dist
    ensures Banded(dist', queue', top)
  {
    forall i | 0 <= i < |queue'|
      ensures queue'[i] in dist' && top <= dist'[queue'[i]] <= top + 1
    {
      if i < |rest| {
        assert queue'[i] == rest[i];
      }
    }
    forall i, j | 0 <= i <= j < |queue'|
      ensures dist'[queue'[i]] <= dist'[queue'[j]]
    {
      if j < |rest| {
        assert queue'[i] == rest[i] && queue'[j] == rest[j];
      } else if i < |rest| {
        assert queue'[i] == rest[i];
      }
    }
  }

  /** Newly discovered cells are exact: one edge past a head at level `top`, and not reached earlier. */
  lemma VisitExact(edges: set<(Coordinate, Coordinate)>, seeds: set<Coordinate>, g: Coordinate,
                   queue: seq<Coordinate>, dist: map<Coordinate, int>, polled: set<Coordinate>, lvl: nat,
                   queue': seq<Coordinate>, dist': map<Coordinate, int>)
    requires BfsInv(edges, seeds, g, queue, dist, polled, lvl)
    requires queue != [] && Covered(edges, seeds, dist, dist[queue[0]])
    requires Visited(edges, queue[0], dist[queue[0]], queue[1..], dist, queue', dist')
    ensures Exact(edges, seeds, dist')
  {
    var cur, top := queue[0], dist[queue[0]];
    assert Level(edges, seeds, cur, top);
    forall c | c in dist' && c !in dist
      ensures Level(edges, seeds, c, dist'[c])
    {
      assert Reach(edges, seeds, c, top + 1);
    }
  }

  /** Visiting the polled head keeps the invariant, at the head's level. */
  lemma VisitKeepsInv(edges: set<(Coordinate, Coordinate)>, seeds: set<Coordinate>, g: Coordinate,
                      queue: seq<Coordinate>, dist: map<Coordinate, int>, polled: set<Coordinate>, lvl: nat,
                      queue': seq<Coordinate>, dist': map<Coordinate, int>)
    requires BfsInv(edges, seeds, g, queue, dist, polled, lvl)
    requires queue != [] && ManhattanDistance(queue[0], g) != 1
    requires Covered(edges, seeds, dist, dist[queue[0]])
    requires Visited(edges, queue[0], dist[queue[0]], queue[1..], dist, queue', dist')
    requires forall b :: (queue[0], b) in edges ==> b in dist'
    ensures BfsInv(edges, seeds, g, queue', dist', polled + {queue[0]}, dist[queue[0]])
  {
    var cur, top := queue[0], dist[queue[0]];
    var rest := queue[1..];
    VisitExact(edges, seeds, g, queue, dist, polled, lvl, queue', dist');
    forall i | 0 <= i < |rest|
      ensures top <= dist[rest[i]] <= lvl + 1
    {
      assert rest[i] == queue[i + 1];
    }
    VisitBanded(dist, rest, dist', queue', top, lvl);
    forall c | c in dist'
      ensures c in polled + {cur} || c in queue'
    {
      if c in dist && c !in polled && c != cur {
        var i :| 0 <= i < |queue| && queue[i] == c;
        assert c == rest[i - 1] && rest[i - 1] == queue'[i - 1];
      } else if c !in dist {
        assert c in queue'[|rest|..];
      }
    }
    forall c | c in queue'
      ensures c in dist'
    {
      var i :| 0 <= i < |queue'| && queue'[i] == c;
      if i < |rest| {
        assert queue'[i] == rest[i];
      }
    }
  }

  /** The seeding loop of `getShortestDistance`: every road next to the source, at distance 1. */
  method SeedWalk(roads: map<Coordinate, Road>, s: Coordinate, g: Coordinate) returns (queue: seq<Coordinate>, dist: map<Coordinate, int>)
    ensures dist.Keys <= roads.Keys
    ensures BfsInv(Edges(roads), Seeds(roads, s), g, queue, dist, {}, 1)
  {
    ghost var edges, seeds := Edges(roads), Seeds(roads, s);
    queue, dist := [], map[];
    var i := 0;
    while i < |Directions|
      invariant 0 <= i <= |Directions|
      invariant forall c :: c in dist <==> c in queue
      invariant forall c :: c in dist ==> dist[c] == 1 && c in seeds
      invariant forall j :: 0 <= j < i && Neighbor(s, Directions[j]) in roads ==> Neighbor(s, Directions[j]) in dist
    {
      var adj := Neighbor(s, Directions[i]);
      if adj in roads {
        queue := queue + [adj];
        dist := dist[adj := 1];
      }
      i := i + 1;
    }
    forall c | c in dist
      ensures Level(edges, seeds, c, 1)
    {
      ReachOne(edges, seeds, c);
    }
    forall c | Reach(edges, seeds, c, 1)
      ensures c in dist
    {
      ReachOne(edges, seeds, c);
      AdjacentIsNeighbor(s, c);
      var d :| Neighbor(s, d) == c;
      AllDirections(d);
    }
  }

  /** Every linked successor of `cur` is discovered once each of its exits is. */
  lemma ExitsCovered(roads: map<Coordinate, Road>, cur: Coordinate, dist: map<Coordinate, int>)
    requires cur in roads
    requires forall d :: d in roads[cur].exit[..|roads[cur].exit|] && Link(roads, cur, d) ==> Neighbor(cur, d) in dist
    ensures forall b :: (cur, b) in Edges(roads) ==> b in dist
  {
    assert roads[cur].exit[..|roads[cur].exit|] == roads[cur].exit;
    forall b | (cur, b) in Edges(roads)
      ensures b in dist
    {
      EdgeIsLink(roads, cur, b);
    }
  }

  /** The inner loop of the walk: each exit of `cur` leading into an undiscovered road that accepts it is queued at `top + 1`. */
  method VisitCell(roads: map<Coordinate, Road>, cur: Coordinate, top: int, queue: seq<Coordinate>, dist: map<Coordinate, int>)
    returns (queue': seq<Coordinate>, dist': map<Coordinate, int>)
    requires cur in roads && dist.Keys <= roads.Keys
    ensures dist'.Keys <= roads.Keys
    ensures Visited(Edges(roads), cur, top, queue, dist, queue', dist')
    ensures forall b :: (cur, b) in Edges(roads) ==> b in dist'
  {
    ghost var edges := Edges(roads);
    queue', dist' := queue, dist;
    var exits := roads[cur].exit;
    var j := 0;
    while j < |exits|
      invariant 0 <= j <= |exits|
      invariant dist'.Keys <= roads.Keys
      invariant Visited(edges, cur, top, queue, dist, queue', dist')
      invariant forall d :: d in exits[..j] && Link(roads, cur, d) ==> Neighbor(cur, d) in dist'
    {
      var e := exits[j];
      var next := Neighbor(cur, e);
      if next in roads && Opposite(e) in roads[next].enter && next !in dist' {
        LinkIsEdge(roads, cur, e);
        VisitAdd(edges, cur, top, queue, dist, queue', dist', next);
        dist' := dist'[next := top + 1];
        queue' := queue' + [next];
      }
      Snoc(exits, j);
      j := j + 1;
    }
    ExitsCovered(roads, cur, dist');
  }

  /**
   * One round of the walk's outer loop: poll the head of the queue and
   * either stop with the distance, when the head is next to the destination,
   * or visit it.
   */
  method Poll(roads: map<Coordinate, Road>, s: Coordinate, g: Coordinate,
              queue: seq<Coordinate>, dist: map<Coordinate, int>, ghost polled: set<Coordinate>, ghost lvl: nat)
    returns (found: bool, r: int, queue': seq<Coordinate>, dist': map<Coordinate, int>, ghost polled': set<Coordinate>, ghost lvl': nat)
    requires queue != [] && dist.Keys <= roads.Keys
    requires BfsInv(Edges(roads), Seeds(roads, s), g, queue, dist, polled, lvl)
    ensures found ==> r >= 2 && ReachesWithin(Edges(roads), Seeds(roads, s), g, r - 1)
    ensures found ==> !ReachesWithin(Edges(roads), Seeds(roads, s), g, r - 2)
    ensures !found ==> dist.Keys <= dist'.Keys <= roads.Keys
    ensures !found ==> BfsInv(Edges(roads), Seeds(roads, s), g, queue', dist', polled', lvl')
    ensures !found ==> |roads.Keys - dist'.Keys| < |roads.Keys - dist.Keys| ||
                       (|roads.Keys - dist'.Keys| == |roads.Keys - dist.Keys| && |queue'| < |queue|)
  {
    var cur := queue[0];
    assert cur in queue;
    var top := dist[cur];
    assert lvl <= top <= lvl + 1;
    if ManhattanDistance(cur, g) == 1 {
      FoundIsLeast(Edges(roads), Seeds(roads, s), g, queue, dist, polled, lvl);
      return true, top + 1, queue, dist, polled, lvl;
    }
    if top == lvl + 1 {
      LevelUp(Edges(roads), Seeds(roads, s), g, queue, dist, polled, lvl);
    }
    found, r := false, -1;
    queue', dist' := VisitCell(roads, cur, top, queue[1..], dist);
    VisitKeepsInv(Edges(roads), Seeds(roads, s), g, queue, dist, polled, lvl, queue', dist');
    polled', lvl' := polled + {cur}, top;
    RemainderShrinks(roads.Keys, dist.Keys, dist'.Keys);
  }

  /**
   * The breadth-first part of `getShortestDistance` for buildings at `s`
   * and `g` that are not adjacent: 1 plus the least number of road cells
   * a walk along linked roads from a road next to `s` needs to reach a cell
   * next to `g`, or -1 when no such walk exists.
   */
  method WalkDistance(roads: map<Coordinate, Road>, s: Coordinate, g: Coordinate) returns (r: int)
    ensures r == -1 <==> forall k: nat :: !ReachesWithin(Edges(roads), Seeds(roads, s), g, k)
    ensures r != -1 ==> r >= 2 && ReachesWithin(Edges(roads), Seeds(roads, s), g, r - 1)
    ensures r != -1 ==> !ReachesWithin(Edges(roads), Seeds(roads, s), g, r - 2)
  {
    var queue, dist := SeedWalk(roads, s, g);
    ghost var polled: set<Coordinate> := {};
    ghost var lvl: nat := 1;
    while queue != []
      invariant dist.Keys <= roads.Keys
      invariant BfsInv(Edges(roads), Seeds(roads, s), g, queue, dist, polled, lvl)
      decreases |roads.Keys - dist.Keys|, |queue|
    {
      var found;
      found, r, queue, dist, polled, lvl := Poll(roads, s, g, queue, dist, polled, lvl);
      if found {
        return;
      }
    }
    ExhaustedUnreachable(Edges(roads), Seeds(roads, s), g, dist, polled, lvl);
    r := -1;
  }

  // ---------------------------------------------------------------------
  // Connection removal (`simpleRemoval`, `complexRemoval`).
  // ---------------------------------------------------------------------

  /** The source cells of the connections whose source has a location. */
  ghost function Starts(cs: seq<Connection>): set<Coordinate>
  {
    set p | p in cs && p.source.location.Some? :: p.source.location.value
  }

  /** What `getOptimalPath` promises about a path whatever the roads: the destination when adjacent, otherwise empty or a chain from next to the source to next to the destination. */
  ghost predicate Ends(p: Connection, path: seq<Coordinate>)
  {
    (path == [] && !Direct(p.source, p.dest)) ||
    (p.source.location.Some? && p.dest.location.Some? &&
     if Direct(p.source, p.dest) then path == [p.dest.location.value]
     else ManhattanDistance(p.source.location.value, path[0]) == 1 &&
          ManhattanDistance(path[|path| - 1], p.dest.location.value) == 1)
  }

  lemma PathShapeEnds(roads: map<Coordinate, Road>, buildings: map<Coordinate, Site>, source: Site, dest: Site, path: seq<Coordinate>)
    requires PathShape(roads, buildings, source, dest, path)
    ensures Ends(Connection(source, dest), path)
  {
  }

  /** One more path, for the next connection, keeps every path's ends. */
  lemma EndsSnoc(cs: seq<Connection>, paths: seq<seq<Coordinate>>, path: seq<Coordinate>)
    requires |paths| < |cs| && Ends(cs[|paths|], path)
    requires forall j :: 0 <= j < |paths| ==> Ends(cs[j], paths[j])
    ensures forall j :: 0 <= j < |paths| + 1 ==> Ends(cs[j], (paths + [path])[j])
  {
    forall j | 0 <= j < |paths| + 1
      ensures Ends(cs[j], (paths + [path])[j])
    {
      if j < |paths| {
        assert (paths + [path])[j] == paths[j];
      }
    }
  }

  /** The cells of a list of paths. */
  function CellsOf(paths: seq<seq<Coordinate>>): (cells: set<Coordinate>)
    ensures forall i, c :: 0 <= i < |paths| && c in paths[i] ==> c in cells
    ensures forall c :: c in cells ==> exists i :: 0 <= i < |paths| && c in paths[i]
  {
    if paths == [] then {} else CellsOf(paths[..|paths| - 1]) + Cells(paths[|paths| - 1])
  }

  /**
   * The roads after laying `paths` for `cs` again: one path per connection,
   * each of the shape `getOptimalPath` gives, every path cell holding a road,
   * every searched path's moves recorded, and no road off the paths but a
   * source cell.
   */
  ghost predicate Relaid(roads: map<Coordinate, Road>, cs: seq<Connection>, paths: seq<seq<Coordinate>>)
  {
    |paths| == |cs| &&
    (forall i :: 0 <= i < |paths| ==> Ends(cs[i], paths[i])) &&
    (forall i, c :: 0 <= i < |paths| && c in paths[i] ==> c in roads) &&
    (forall i :: 0 <= i < |paths| && paths[i] != [] && !Direct(cs[i].source, cs[i].dest) ==>
       cs[i].source.location.Some? && Recorded(roads, cs[i].source.location.value, paths[i], |paths[i]|)) &&
    roads.Keys <= CellsOf(paths) + Starts(cs)
  }

  /** Laying one more connection's path keeps `Relaid`. */
  lemma RelaidStep(before: map<Coordinate, Road>, after: map<Coordinate, Road>, cs: seq<Connection>, i: int,
                   paths: seq<seq<Coordinate>>, path: seq<Coordinate>)
    requires 0 <= i < |cs| && Relaid(before, cs[..i], paths)
    requires Ends(cs[i], path) && SidesGrow(before, after)
    requires forall c :: c in path ==> c in after
    requires path == [] ==> after == before
    requires path != [] ==> after.Keys <= before.Keys + Cells(path) + {cs[i].source.location.value}
    requires path != [] && !Direct(cs[i].source, cs[i].dest) ==>
      Recorded(after, cs[i].source.location.value, path, |path|)
    ensures Relaid(after, cs[..i + 1], paths + [path])
  {
    var cs', ps' := cs[..i + 1], paths + [path];
    assert cs' == cs[..i] + [cs[i]];
    RelaidKeys(before, after, cs[..i], cs[i], paths, path);
    forall j | 0 <= j < i + 1 && ps'[j] != [] && !Direct(cs'[j].source, cs'[j].dest)
      ensures cs'[j].source.location.Some? && Recorded(after, cs'[j].source.location.value, ps'[j], |ps'[j]|)
    {
      if j < i {
        assert cs'[j] == cs[..i][j] && ps'[j] == paths[j];
        SidesKeepRecorded(before, after, cs'[j].source.location.value, ps'[j], |ps'[j]|);
      }
    }
    forall j, c | 0 <= j < i + 1 && c in ps'[j]
      ensures c in after
    {
      if j < i {
        assert ps'[j] == paths[j];
        assert c in before;
      }
    }
    forall j | 0 <= j < i + 1
      ensures Ends(cs'[j], ps'[j])
    {
      if j < i {
        assert cs'[j] == cs[..i][j] && ps'[j] == paths[j];
      }
    }
  }

  /** The road table after one more path stays within the paths' cells and the source cells. */
  lemma RelaidKeys(before: map<Coordinate, Road>, after: map<Coordinate, Road>, cs: seq<Connection>, p: Connection,
                   paths: seq<seq<Coordinate>>, path: seq<Coordinate>)
    requires before.Keys <= CellsOf(paths) + Starts(cs)
    requires Ends(p, path)
    requires path == [] ==> after == before
    requires path != [] ==> after.Keys <= before.Keys + Cells(path) + {p.source.location.value}
    ensures after.Keys <= CellsOf(paths + [path]) + Starts(cs + [p])
  {
    assert (paths + [path])[..|paths|] == paths;
    assert CellsOf(paths + [path]) == CellsOf(paths) + Cells(path);
    assert Starts(cs) <= Starts(cs + [p]) by {
      assert forall x :: x in cs ==> x in cs + [p];
    }
    if path != [] {
      assert p in cs + [p];
    }
  }

  /** The release loop's invariant after the first `i` path occurrences. */
  ghost predicate ReleaseState(r0: map<Coordinate, Road>, path: seq<Coordinate>, i: int, r: map<Coordinate, Road>, remain: seq<Coordinate>)
  {
    0 <= i <= |path| &&
    r.Keys <= r0.Keys &&
    (forall c :: c in r0 ==> (c in r <==> multiset(path[..i])[c] == 0 || r0[c].sharedCount > multiset(path[..i])[c])) &&
    (forall c :: c in r ==> r[c] == IncreSharedCountBy(r0[c], -(multiset(path[..i])[c] as int))) &&
    (forall c :: c in remain ==> c in path) &&
    (forall c :: c in r && c in path ==> c in remain)
  }

  /** A release step over a cell that has no road keeps the invariant. */
  lemma ReleaseSkip(r0: map<Coordinate, Road>, path: seq<Coordinate>, i: int, r: map<Coordinate, Road>, remain: seq<Coordinate>)
    requires ReleaseState(r0, path, i, r, remain) && i < |path| && path[i] !in r
    ensures ReleaseState(r0, path, i + 1, r, remain)
  {
    MultisetPrefixStep(path, i);
  }

  /** A release step that takes a road's last share deletes it and keeps the invariant. */
  lemma ReleaseDelete(r0: map<Coordinate, Road>, path: seq<Coordinate>, i: int, r: map<Coordinate, Road>, remain: seq<Coordinate>)
    requires ReleaseState(r0, path, i, r, remain) && i < |path|
    requires path[i] in r && r[path[i]].sharedCount - 1 <= 0
    ensures ReleaseState(r0, path, i + 1, r - {path[i]}, RemoveFirst(remain, path[i]))
  {
    MultisetPrefixStep(path, i);
  }

  /** A release step that leaves a road some share lowers its count and keeps the invariant. */
  lemma ReleaseLower(r0: map<Coordinate, Road>, path: seq<Coordinate>, i: int, r: map<Coordinate, Road>, remain: seq<Coordinate>)
    requires ReleaseState(r0, path, i, r, remain) && i < |path|
    requires path[i] in r && r[path[i]].sharedCount - 1 > 0
    ensures ReleaseState(r0, path, i + 1, r[path[i] := IncreSharedCountBy(r[path[i]], -1)], remain)
  {
    MultisetPrefixStep(path, i);
  }

  /** The release loop's body for occurrence `i`: a missing road is skipped, a road dropping to 0 or below is deleted. */
  method ReleaseOne(ghost r0: map<Coordinate, Road>, path: seq<Coordinate>, i: int, r: map<Coordinate, Road>, remain: seq<Coordinate>)
    returns (r': map<Coordinate, Road>, remain': seq<Coordinate>)
    requires ReleaseState(r0, path, i, r, remain) && i < |path|
    ensures ReleaseState(r0, path, i + 1, r', remain')
  {
    var c := path[i];
    r', remain' := r, remain;
    if c in r {
      var rd := IncreSharedCountBy(r[c], -1);
      if rd.sharedCount <= 0 {
        ReleaseDelete(r0, path, i, r, remain);
        r' := r - {c};
        remain' := RemoveFirst(remain, c);
      } else {
        ReleaseLower(r0, path, i, r, remain);
        r' := r[c := rd];
      }
    } else {
      ReleaseSkip(r0, path, i, r, remain);
    }
  }

  /**
   * The release loop of `complexRemoval`: each path occurrence takes one
   * share off its road, and a road whose count falls to 0 or below is
   * deleted (and its first occurrence dropped from `remain`); later
   * occurrences of a deleted cell are skipped.
   */
  method Release(r0: map<Coordinate, Road>, path: seq<Coordinate>) returns (r: map<Coordinate, Road>, remain: seq<Coordinate>)
    ensures r.Keys <= r0.Keys
    ensures forall c :: c in r0 && c !in path ==> c in r && r[c] == r0[c]
    ensures forall c :: c in r0 && c in path ==> (c in r <==> r0[c].sharedCount > multiset(path)[c])
    ensures forall c :: c in r ==> r[c] == IncreSharedCountBy(r0[c], -(multiset(path)[c] as int))
    ensures forall c :: c in remain ==> c in path
    ensures forall c :: c in r && c in path ==> c in remain
  {
    r, remain := r0, path;
    var i := 0;
    ReleaseStart(r0, path);
    while i < |path|
      invariant ReleaseState(r0, path, i, r, remain)
    {
      r, remain := ReleaseOne(r0, path, i, r, remain);
      i := i + 1;
    }
    ReleaseDone(r0, path, r, remain);
  }

  lemma ReleaseStart(r0: map<Coordinate, Road>, path: seq<Coordinate>)
    ensures ReleaseState(r0, path, 0, r0, path)
  {
    assert path[..0] == [];
  }

  /** After the whole path, the prefix counts are the path's own. */
  lemma ReleaseDone(r0: map<Coordinate, Road>, path: seq<Coordinate>, r: map<Coordinate, Road>, remain: seq<Coordinate>)
    requires ReleaseState(r0, path, |path|, r, remain)
    ensures r.Keys <= r0.Keys
    ensures forall c :: c in r0 && c !in path ==> c in r && r[c] == r0[c]
    ensures forall c :: c in r0 && c in path ==> (c in r <==> r0[c].sharedCount > multiset(path)[c])
    ensures forall c :: c in r ==> r[c] == IncreSharedCountBy(r0[c], -(multiset(path)[c] as int))
    ensures forall c :: c in remain ==> c in path
    ensures forall c :: c in r && c in path ==> c in remain
  {
    assert path[..|path|] == path;
  }

  /** The last loop of `complexRemoval`: every remaining path cell that no recomputed path uses is deleted. */
  method Prune(r0: map<Coordinate, Road>, remain: seq<Coordinate>, used: set<Coordinate>) returns (r: map<Coordinate, Road>)
    ensures forall c :: c in r <==> c in r0 && (c !in remain || c in used)
    ensures forall c :: c in r ==> r[c] == r0[c]
  {
    r := r0;
    var i := 0;
    while i < |remain|
      invariant 0 <= i <= |remain|
      invariant forall c :: c in r <==> c in r0 && (c !in remain[..i] || c in used)
      invariant forall c :: c in r ==> r[c] == r0[c]
    {
      Snoc(remain, i);
      if remain[i] !in used {
        r := r - {remain[i]};
      }
      i := i + 1;
    }
    assert remain[..|remain|] == remain;
  }

  /**
   * How the four stages of `complexRemoval` compose: `r0` is the map before,
   * `r3` after recomputing the removed connection's path, `r4` after the
   * release loop, `r5` after recomputing the remaining paths, `r6` after
   * pruning.
   */
  lemma ComplexRemovalFacts(r0: map<Coordinate, Road>, r3: map<Coordinate, Road>, r4: map<Coordinate, Road>,
                            r5: map<Coordinate, Road>, r6: map<Coordinate, Road>,
                            source: Site, dest: Site, path: seq<Coordinate>, remain: seq<Coordinate>, used: set<Coordinate>,
                            before: seq<Connection>, after: seq<Connection>)
    requires Grows(r0, r3)
    requires r3.Keys <= r0.Keys + Cells(path) + Starts(before)
    requires forall c :: c in r3 && c !in r0 ==> r3[c].sharedCount == 0
    requires r4.Keys <= r3.Keys
    requires forall c :: c in r3 && c !in path ==> c in r4 && r4[c] == r3[c]
    requires forall c :: c in r3 && c in path ==> (c in r4 <==> r3[c].sharedCount > multiset(path)[c])
    requires forall c :: c in r4 ==> r4[c] == IncreSharedCountBy(r3[c], -(multiset(path)[c] as int))
    requires forall c :: c in remain ==> c in path
    requires forall c :: c in r4 && c in path ==> c in remain
    requires Grows(r4, r5)
    requires r5.Keys <= r4.Keys + used + Starts(after)
    requires forall c :: c in r6 <==> c in r5 && (c !in remain || c in used)
    requires forall c :: c in r6 ==> r6[c] == r5[c]
    requires forall p :: p in after ==> p in before
    ensures forall c :: c in r0 && c !in path ==> c in r6 && r6[c].sharedCount == r0[c].sharedCount
    ensures forall c :: c in path && c in r6 ==> c in used || c in Starts(after)
    ensures forall c :: c in path && c in r0 && c in used && r0[c].sharedCount > multiset(path)[c] ==>
      c in r6 && r6[c].sharedCount == r0[c].sharedCount - multiset(path)[c]
    ensures forall c :: c in r6 && c !in r0 ==> c in used || c in Starts(before)
  {
    assert Starts(after) <= Starts(before);
    forall c | c in r6 && c !in r0
      ensures c in used || c in Starts(before)
    {
      if c in r4 && c in path {
        assert r3[c].sharedCount == 0;
      }
    }
  }

  class RoadMap {
    var roads: map<Coordinate, Road>
    var buildingLocations: map<Coordinate, Site>
    var connections: seq<Connection>

    /** No connection is recorded twice. */
    ghost predicate Valid()
      reads this
    {
      NoDup(connections)
    }

    constructor ()
      ensures Valid()
      ensures roads == map[] && buildingLocations == map[] && connections == []
    {
      roads := map[];
      buildingLocations := map[];
      connections := [];
    }

    /** `addBuilding`: a building with a location occupies that cell; one without changes nothing. */
    method AddBuilding(b: Site)
      requires Valid()
      modifies this
      ensures Valid()
      ensures b.location.Some? ==> buildingLocations == old(buildingLocations)[b.location.value := b]
      ensures b.location.None? ==> buildingLocations == old(buildingLocations)
      ensures roads == old(roads) && connections == old(connections)
    {
      if b.location.Some? {
        buildingLocations := buildingLocations[b.location.value := b];
      }
    }

    /** `removeBuilding`: the cell is free again. */
    method RemoveBuilding(location: Coordinate)
      requires Valid()
      modifies this
      ensures Valid()
      ensures buildingLocations == old(buildingLocations) - {location}
      ensures roads == old(roads) && connections == old(connections)
    {
      buildingLocations := buildingLocations - {location};
    }

    /** `removeRoad`: the road at the cell, if any, is gone. */
    method RemoveRoad(location: Coordinate)
      requires Valid()
      modifies this
      ensures Valid()
      ensures roads == old(roads) - {location}
      ensures buildingLocations == old(buildingLocations) && connections == old(connections)
    {
      roads := roads - {location};
    }

    /** `getConnections`: a copy of the connection list. */
    method GetConnections() returns (cs: seq<Connection>)
      ensures cs == connections
    {
      cs := connections;
    }

    /** The four first steps around `start` (the start nodes), each key recorded at its cost. */
    method StartNodes(start: Coordinate) returns (pq: seq<SearchNode>, best: map<(Coordinate, Direction), int>)
      ensures QueueOk(roads, buildingLocations, start, pq, best)
    {
      pq, best := [], map[];
      var i := 0;
      while i < |Directions|
        invariant 0 <= i <= |Directions|
        invariant QueueOk(roads, buildingLocations, start, pq, best)
      {
        var d := Directions[i];
        var candidate := Neighbor(start, d);
        var node := SearchNode(candidate, StepCost(roads, candidate), 1, d, [candidate]);
        assert PathCost(roads, [candidate]) == StepCost(roads, candidate) by {
          assert [candidate][..0] == [];
        }
        KeyInUniverse(start, candidate, d);
        pq := pq + [node];
        best := best[Key(node) := node.totalCost];
        i := i + 1;
      }
    }

    /** Expands one polled node: every allowed move that improves its key's best cost is queued. */
    method Expand(start: Coordinate, cur: SearchNode, pq: seq<SearchNode>, best: map<(Coordinate, Direction), int>)
      returns (pq': seq<SearchNode>, best': map<(Coordinate, Direction), int>)
      requires NodeOk(roads, buildingLocations, start, cur)
      requires QueueOk(roads, buildingLocations, start, pq, best)
      ensures QueueOk(roads, buildingLocations, start, pq', best')
      ensures best.Keys <= best'.Keys
      ensures forall k :: k in best ==> best'[k] <= best[k]
      ensures best' == best ==> pq' == pq
    {
      pq', best' := pq, best;
      var j := 0;
      while j < |Directions|
        invariant 0 <= j <= |Directions|
        invariant QueueOk(roads, buildingLocations, start, pq', best')
        invariant best.Keys <= best'.Keys
        invariant forall k :: k in best ==> best'[k] <= best[k]
        invariant best' == best ==> pq' == pq
      {
        var d := Directions[j];
        var next := Neighbor(cur.coord, d);
        if MayMove(roads, buildingLocations, cur.coord, d) {
          var node := Extended(roads, cur, d);
          if Key(node) !in best' || node.totalCost < best'[Key(node)] {
            OfferKeepsQueueOk(roads, buildingLocations, start, cur, d, pq', best');
            best' := best'[Key(node) := node.totalCost];
            pq' := pq' + [node];
          }
        }
        j := j + 1;
      }
    }

    /**
     * The least-cost search of `getOptimalPath` (Dijkstra over cell and
     * entry-direction states). It reads the map only. The result is a node
     * adjacent to the goal whose path the search can produce, or none.
     */
    method Search(start: Coordinate, goal: Coordinate) returns (found: Option<SearchNode>)
      ensures found.Some? ==> NodeOk(roads, buildingLocations, start, found.value)
      ensures found.Some? ==> ManhattanDistance(found.value.coord, goal) == 1
    {
      var pq, best := StartNodes(start);
      while pq != []
        invariant QueueOk(roads, buildingLocations, start, pq, best)
        decreases |KeyUniverse(start) - best.Keys|, |CostPairs(best)|, |pq|
      {
        var i := CheapestIndex(pq);
        var cur := pq[i];
        assert cur in pq;
        pq := RemoveAt(pq, i);
        if ManhattanDistance(cur.coord, goal) == 1 {
          found := Some(cur);
          return;
        }
        ghost var before := best;
        pq, best := Expand(start, cur, pq, best);
        MeasureDrops(KeyUniverse(start), before, best);
      }
      found := None;
    }

    /** The commit loop of `getOptimalPath`: records every move of the path on the roads, creating missing ones. */
    method Commit(start: Coordinate, path: seq<Coordinate>)
      requires Valid()
      requires Walk(start, path)
      modifies this
      ensures Valid()
      ensures buildingLocations == old(buildingLocations) && connections == old(connections)
      ensures CommitState(old(roads), roads, start, path, |path|)
    {
      roads := CommitRoads(roads, start, path);
    }

    /**
     * `getOptimalPath`: the least-cost path from `source` to a cell next to
     * `dest`, excluding the source cell. Finding one records its moves on the
     * roads (creating missing roads, the source cell's included); adjacent
     * buildings get the destination cell and no change.
     */
    method OptimalPath(source: Site, dest: Site) returns (path: seq<Coordinate>)
      requires Valid()
      modifies this
      ensures Valid()
      ensures buildingLocations == old(buildingLocations) && connections == old(connections)
      ensures PathShape(old(roads), buildingLocations, source, dest, path)
      ensures source.location.None? || dest.location.None? ==> path == []
      ensures Direct(source, dest) ==> path == [dest.location.value]
      ensures path == [] || Direct(source, dest) ==> roads == old(roads)
      ensures path != [] && !Direct(source, dest) ==> CommitState(old(roads), roads, source.location.value, path, |path|)
    {
      if source.location.None? || dest.location.None? {
        return [];
      }
      var start, goal := source.location.value, dest.location.value;
      var i := 0;
      while i < |Directions|
        invariant 0 <= i <= |Directions|
        invariant forall j :: 0 <= j < i ==> Neighbor(start, Directions[j]) != goal
      {
        if Neighbor(start, Directions[i]) == goal {
          return [goal];
        }
        i := i + 1;
      }
      if ManhattanDistance(start, goal) == 1 {
        AdjacentIsNeighbor(start, goal);
        var d :| Neighbor(start, d) == goal;
        AllDirections(d);
        assert false;
      }
      var found := Search(start, goal);
      if found.None? {
        return [];
      }
      path := found.value.path;
      SearchPathIsWalk(roads, buildingLocations, start, path);
      Commit(start, path);
    }

    /**
     * `createPath`: lays the optimal path, paving any cell still without a
     * road, and for a connection not yet recorded adds one share to every
     * path cell per occurrence and records the connection. With no path
     * nothing changes. Existing roads keep their direction lists, and a
     * searched path has every move recorded as an exit and an entry side.
     */
    method CreatePath(source: Site, dest: Site) returns (path: seq<Coordinate>)
      requires Valid()
      modifies this
      ensures Valid()
      ensures buildingLocations == old(buildingLocations)
      ensures PathShape(old(roads), old(buildingLocations), source, dest, path)
      ensures path == [] ==> roads == old(roads) && connections == old(connections)
      ensures path != [] ==> connections == Record(old(connections), Connection(source, dest))
      ensures path != [] ==> roads.Keys <= old(roads).Keys + Cells(path) + {source.location.value}
      ensures forall c :: c in path ==> c in roads
      ensures forall c :: c in roads ==>
        roads[c].sharedCount == ShareOf(old(roads), c) + (if Connection(source, dest) in old(connections) then 0 else multiset(path)[c])
      ensures SidesGrow(old(roads), roads)
      ensures path != [] && !Direct(source, dest) ==> Recorded(roads, source.location.value, path, |path|)
      ensures Direct(source, dest) && dest.location.value !in old(roads) ==>
        var made := FreshRoad(source.location.value, dest.location.value);
        dest.location.value in roads && roads[dest.location.value].location == made.location &&
        roads[dest.location.value].enter == made.enter && roads[dest.location.value].exit == made.exit
    {
      path := OptimalPath(source, dest);
      if path == [] {
        return;
      }
      PathShapeIsWalk(old(roads), buildingLocations, source, dest, path);
      var r, cs := Lay(old(roads), roads, connections, source, dest, path);
      RecordKeepsNoDup(connections, Connection(source, dest));
      Install(r, cs);
    }

    /** Replaces the road table and the connection list; the buildings stay where they are. */
    method Install(r: map<Coordinate, Road>, cs: seq<Connection>)
      requires NoDup(cs)
      modifies this
      ensures Valid() && roads == r && connections == cs && buildingLocations == old(buildingLocations)
    {
      roads, connections := r, cs;
    }

    /**
     * The road part of `getShortestDistance`: -1 when a building has no
     * location, 0 for adjacent buildings, and otherwise the walk distance.
     */
    method RoadDistance(source: Site, dest: Site) returns (r: int)
      ensures source.location.None? || dest.location.None? ==> r == -1
      ensures Direct(source, dest) ==> r == 0
      ensures source.location.Some? && dest.location.Some? && !Direct(source, dest) ==>
        var s, g := source.location.value, dest.location.value;
        (r == -1 <==> forall k: nat :: !ReachesWithin(Edges(roads), Seeds(roads, s), g, k)) &&
        (r != -1 ==> r >= 2 && ReachesWithin(Edges(roads), Seeds(roads, s), g, r - 1) &&
                     !ReachesWithin(Edges(roads), Seeds(roads, s), g, r - 2))
    {
      if source.location.None? || dest.location.None? {
        return -1;
      }
      var s, g := source.location.value, dest.location.value;
      if ManhattanDistance(s, g) == 1 {
        return 0;
      }
      r := WalkDistance(roads, s, g);
    }

    /**
     * `simpleRemoval`: removes a recorded connection, clears every road and
     * lays the paths of the remaining connections again in list order. As
     * those connections are already recorded, no share is added back.
     * `paths` are the re-laid paths, one per remaining connection: their
     * cells hold roads, a searched one has its moves recorded, and no other
     * road is left.
     */
    method SimpleRemoval(source: Site, dest: Site) returns (ghost paths: seq<seq<Coordinate>>)
      requires Valid()
      modifies this
      ensures Valid()
      ensures buildingLocations == old(buildingLocations)
      ensures Connection(source, dest) !in old(connections) ==> roads == old(roads) && connections == old(connections)
      ensures Connection(source, dest) in old(connections) ==> connections == RemoveFirst(old(connections), Connection(source, dest))
      ensures Connection(source, dest) in old(connections) ==> forall c :: c in roads ==> roads[c].sharedCount == 0
      ensures Connection(source, dest) in old(connections) ==> Relaid(roads, connections, paths)
    {
      paths := [];
      var pair := Connection(source, dest);
      if pair !in connections {
        return;
      }
      RemoveFirstNoDup(connections, pair);
      connections := RemoveFirst(connections, pair);
      roads := map[];
      var remaining := connections;
      var i := 0;
      while i < |remaining|
        invariant 0 <= i <= |remaining|
        invariant Valid() && connections == remaining
        invariant buildingLocations == old(buildingLocations)
        invariant forall c :: c in roads ==> roads[c].sharedCount == 0
        invariant Relaid(roads, remaining[..i], paths)
      {
        var p := remaining[i];
        ghost var before := roads;
        var laid := CreatePath(p.source, p.dest);
        PathShapeEnds(before, buildingLocations, p.source, p.dest, laid);
        RelaidStep(before, roads, remaining, i, paths, laid);
        paths := paths + [laid];
        i := i + 1;
      }
      assert remaining[..i] == remaining;
    }

    /** The middle loop of `complexRemoval`: recomputes the path of every remaining connection, collecting their cells. */
    method Recompute() returns (used: set<Coordinate>, ghost paths: seq<seq<Coordinate>>)
      requires Valid()
      modifies this
      ensures Valid()
      ensures buildingLocations == old(buildingLocations) && connections == old(connections)
      ensures |paths| == |connections| && used == CellsOf(paths)
      ensures forall i :: 0 <= i < |paths| ==> Ends(connections[i], paths[i])
      ensures Grows(old(roads), roads)
      ensures roads.Keys <= old(roads).Keys + used + Starts(connections)
    {
      used, paths := {}, [];
      var i := 0;
      while i < |connections|
        invariant 0 <= i <= |connections|
        invariant Valid()
        invariant buildingLocations == old(buildingLocations) && connections == old(connections)
        invariant |paths| == i && used == CellsOf(paths)
        invariant forall j :: 0 <= j < i ==> Ends(connections[j], paths[j])
        invariant Grows(old(roads), roads)
        invariant roads.Keys <= old(roads).Keys + used + Starts(connections)
      {
        var p := connections[i];
        ghost var before := roads;
        var path := OptimalPath(p.source, p.dest);
        PathShapeEnds(before, buildingLocations, p.source, p.dest, path);
        if path != [] && !Direct(p.source, p.dest) {
          GrowsTransitive(old(roads), before, roads);
          assert p.source.location.value in Starts(connections);
        }
        EndsSnoc(connections, paths, path);
        assert (paths + [path])[..|paths|] == paths;
        paths := paths + [path];
        used := used + Cells(path);
        i := i + 1;
      }
    }

    /**
     * `complexRemoval`: removes a recorded connection, recomputes its path
     * and releases one share per occurrence, deleting roads that drop to 0;
     * then deletes the path's surviving cells that no remaining connection's
     * recomputed path uses. `path` and `used` are those recomputed paths.
     */
    method ComplexRemoval(source: Site, dest: Site) returns (ghost path: seq<Coordinate>, ghost used: set<Coordinate>)
      requires Valid()
      modifies this
      ensures Valid()
      ensures buildingLocations == old(buildingLocations)
      ensures Connection(source, dest) !in old(connections) ==> roads == old(roads) && connections == old(connections)
      ensures Connection(source, dest) in old(connections) ==> connections == RemoveFirst(old(connections), Connection(source, dest))
      ensures Connection(source, dest) in old(connections) ==> Ends(Connection(source, dest), path)
      ensures forall c :: c in old(roads) && c !in path ==> c in roads && roads[c].sharedCount == old(roads)[c].sharedCount
      ensures forall c :: c in path && c in roads ==> c in used || c in Starts(connections)
      ensures forall c :: c in path && c in old(roads) && c in used && old(roads)[c].sharedCount > multiset(path)[c] ==>
        c in roads && roads[c].sharedCount == old(roads)[c].sharedCount - multiset(path)[c]
      ensures forall c :: c in roads && c !in old(roads) ==> c in used || c in Starts(old(connections))
    {
      var pair := Connection(source, dest);
      if pair !in connections {
        return [], {};
      }
      RemoveFirstNoDup(connections, pair);
      connections := RemoveFirst(connections, pair);
      ghost var r0 := roads;
      var cells := OptimalPath(source, dest);
      path := cells;
      PathShapeEnds(r0, buildingLocations, source, dest, path);
      ghost var r3 := roads;
      if path != [] && !Direct(source, dest) {
        assert source.location.value in Starts(old(connections));
      }
      assert forall p :: p in connections ==> p in old(connections);
      var released, remain := Release(roads, cells);
      roads := released;
      var usedCells, paths := Recompute();
      used := usedCells;
      ghost var r5 := roads;
      roads := Prune(roads, remain, usedCells);
      ComplexRemovalFacts(r0, r3, released, r5, roads, source, dest, path, remain, used, old(connections), connections);
    }
  }
}
