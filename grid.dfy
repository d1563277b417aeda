/**
 * The block grid a redstone component lives in: the three axes, the six
 * directions, block positions and the 0..15 range of a redstone signal.
 * These follow the game's Direction, Direction.Axis, Direction.AxisDirection
 * and BlockPos, which the repeater uses but does not define.
 */
module Grid {

  /** A redstone signal strength. */
  type Strength = s: int | 0 <= s <= 15

  datatype Axis = X | Y | Z

  /** The axes a block standing on flat ground can be mounted along. */
  type HorizontalAxis = a: Axis | a != Y witness X

  datatype AxisDirection = Positive | Negative

  /** The six directions, declared in the order Direction.values() lists them. */
  datatype Direction = Down | Up | North | South | West | East

  /** Direction.values() */
  const AllDirections: seq<Direction> := [Down, Up, North, South, West, East]

  datatype Pos = Pos(x: int, y: int, z: int)

  function OppositeAxisDirection(ad: AxisDirection): (o: AxisDirection)
    ensures o != ad
  {
    if ad == Positive then Negative else Positive
  }

  function GetAxis(d: Direction): Axis {
    match d
    case Down | Up => Y
    case North | South => Z
    case West | East => X
  }

  function GetAxisDirection(d: Direction): AxisDirection {
    match d
    case Up | South | East => Positive
    case Down | North | West => Negative
  }

  /** Direction.from(axis, axisDirection): the direction along `axis` that points `ad`. */
  function From(axis: Axis, ad: AxisDirection): (d: Direction)
    ensures GetAxis(d) == axis && GetAxisDirection(d) == ad
  {
    match (axis, ad)
    case (X, Positive) => East
    case (X, Negative) => West
    case (Y, Positive) => Up
    case (Y, Negative) => Down
    case (Z, Positive) => South
    case (Z, Negative) => North
  }

  function Opposite(d: Direction): (o: Direction)
    ensures GetAxis(o) == GetAxis(d)
    ensures GetAxisDirection(o) == OppositeAxisDirection(GetAxisDirection(d))
  {
    match d
    case Down => Up
    case Up => Down
    case North => South
    case South => North
    case West => East
    case East => West
  }

  /** BlockPos.offset: the position one step from `p` towards `d`. */
  function Offset(p: Pos, d: Direction): Pos {
    match d
    case Down => p.(y := p.y - 1)
    case Up => p.(y := p.y + 1)
    case North => p.(z := p.z - 1)
    case South => p.(z := p.z + 1)
    case West => p.(x := p.x - 1)
    case East => p.(x := p.x + 1)
  }

  /** A direction is determined by its axis and the way it points along it. */
  lemma FromAxisAndSense(d: Direction)
    ensures From(GetAxis(d), GetAxisDirection(d)) == d
  {
  }

  /** Stepping out and back returns to the start; distinct directions lead to distinct cells. */
  lemma OffsetFacts(p: Pos, d: Direction, e: Direction)
    ensures Offset(Offset(p, d), Opposite(d)) == p
    ensures Offset(p, d) == Offset(p, e) ==> d == e
  {
  }
}
