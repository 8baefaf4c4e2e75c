/**
 * The transport grid's geometry: compass directions and integer cell
 * coordinates (Coordinate.java and the direction helpers of RoadMap.java).
 * The y axis grows southwards: NORTH is y - 1.
 */
module Grid {
  import opened Wrappers

  datatype Direction = North | East | South | West

  /** `Direction.values()`, in declaration order. */
  const Directions: seq<Direction> := [North, East, South, West]

  datatype Coordinate = Coordinate(x: int, y: int)

  function Abs(n: int): (r: nat)
    ensures r == n || r == -n
  {
    if n < 0 then -n else n
  }

  /** `manhattanDistance`: |dx| + |dy|; zero exactly on the same cell. */
  function ManhattanDistance(a: Coordinate, b: Coordinate): (d: nat)
    ensures d == 0 <==> a == b
  {
    Abs(a.x - b.x) + Abs(a.y - b.y)
  }

  lemma ManhattanSymmetric(a: Coordinate, b: Coordinate)
    ensures ManhattanDistance(a, b) == ManhattanDistance(b, a)
  {
    assert Abs(a.x - b.x) == Abs(b.x - a.x);
    assert Abs(a.y - b.y) == Abs(b.y - a.y);
  }

  /** `getNeighbor`: the adjacent cell in a direction; it is one step away. */
  function Neighbor(c: Coordinate, d: Direction): (n: Coordinate)
    ensures ManhattanDistance(c, n) == 1
    ensures d == North ==> n == Coordinate(c.x, c.y - 1)
    ensures d == East ==> n == Coordinate(c.x + 1, c.y)
    ensures d == South ==> n == Coordinate(c.x, c.y + 1)
    ensures d == West ==> n == Coordinate(c.x - 1, c.y)
  {
    match d
    case North => Coordinate(c.x, c.y - 1)
    case East => Coordinate(c.x + 1, c.y)
    case South => Coordinate(c.x, c.y + 1)
    case West => Coordinate(c.x - 1, c.y)
  }

  /** `getOpposite`: the reverse direction. */
  function Opposite(d: Direction): (o: Direction)
    ensures o != d
  {
    match d
    case North => South
    case South => North
    case East => West
    case West => East
  }

  lemma OppositeInvolution(d: Direction)
    ensures Opposite(Opposite(d)) == d
  {
  }

  /** Moving in the opposite direction undoes a move. */
  lemma OppositeUndoes(c: Coordinate, d: Direction)
    ensures Neighbor(Neighbor(c, d), Opposite(d)) == c
    ensures DirectionBetween(Neighbor(c, d), c) == Some(Opposite(d))
  {
  }

  /** Every cell at distance one is the neighbour in exactly one direction. */
  lemma AdjacentIsNeighbor(a: Coordinate, b: Coordinate)
    requires ManhattanDistance(a, b) == 1
    ensures exists d :: Neighbor(a, d) == b
  {
    if b.x == a.x + 1 {
      assert Neighbor(a, East) == b;
    } else if b.x == a.x - 1 {
      assert Neighbor(a, West) == b;
    } else if b.y == a.y + 1 {
      assert Neighbor(a, South) == b;
    } else {
      assert Neighbor(a, North) == b;
    }
  }

  lemma NeighborInjective(c: Coordinate, d1: Direction, d2: Direction)
    ensures Neighbor(c, d1) == Neighbor(c, d2) <==> d1 == d2
  {
  }

  /**
   * `getDirection`: the direction of a one-cell move. Java throws
   * IllegalArgumentException when the cells are not adjacent; that is `None`.
   */
  function DirectionBetween(from: Coordinate, to: Coordinate): (r: Option<Direction>)
    ensures r.Some? <==> ManhattanDistance(from, to) == 1
    ensures r.Some? ==> Neighbor(from, r.value) == to
    ensures forall d :: Neighbor(from, d) == to ==> r == Some(d)
  {
    var dx := to.x - from.x;
    var dy := to.y - from.y;
    if dx == 1 && dy == 0 then Some(East)
    else if dx == -1 && dy == 0 then Some(West)
    else if dx == 0 && dy == 1 then Some(South)
    else if dx == 0 && dy == -1 then Some(North)
    else
      assert ManhattanDistance(from, to) != 1;
      None
  }

  /** `hashCode`: 31 * x + y. */
  function HashCode(c: Coordinate): int
  {
    31 * c.x + c.y
  }

  /**
   * `equals` compares components, which is datatype equality here, and the
   * hash code agrees with it; distinct cells may share a hash code.
   */
  lemma HashCodeConsistent(a: Coordinate, b: Coordinate)
    ensures a == b <==> (a.x == b.x && a.y == b.y)
    ensures a == b ==> HashCode(a) == HashCode(b)
    ensures HashCode(Coordinate(0, 31)) == HashCode(Coordinate(1, 0))
  {
  }
}
