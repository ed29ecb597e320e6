/**
 * Block coordinates, the six face directions and the points on a block's
 * faces that the interaction pipeline aims at.
 *
 * Coordinates of points are exact reals: the game computes them in double
 * precision, but every value used here (a block corner plus 0.5 or 1.0) is
 * exactly representable, so nothing is lost.
 */
module Geometry {

  /** The six axis-aligned faces, in the game's declaration order. */
  datatype Direction = Down | Up | North | South | West | East

  /** `Direction.values()`: the order in which faces are searched. */
  const Values: seq<Direction> := [Down, Up, North, South, West, East]

  /** Position of a direction in `Values`. */
  function Index(d: Direction): (i: nat)
    ensures i < |Values| && Values[i] == d
  {
    match d
    case Down => 0
    case Up => 1
    case North => 2
    case South => 3
    case West => 4
    case East => 5
  }

  /** Every direction occurs exactly once in `Values`. */
  lemma ValuesDistinct(i: nat, j: nat)
    requires i < |Values| && j < |Values| && Values[i] == Values[j]
    ensures i == j
  {
  }

  /** `Direction.getOpposite()`: the other face on the same axis. */
  function Opposite(d: Direction): (r: Direction)
    ensures r != d
    ensures UnitVector(r) == BlockPos(-UnitVector(d).x, -UnitVector(d).y, -UnitVector(d).z)
  {
    match d
    case Down => Up
    case Up => Down
    case North => South
    case South => North
    case West => East
    case East => West
  }

  lemma OppositeInvolutive(d: Direction)
    ensures Opposite(Opposite(d)) == d
  {
  }

  /** An integer block coordinate. */
  datatype BlockPos = BlockPos(x: int, y: int, z: int)

  /** A point in the world, in blocks. */
  datatype Vec3 = Vec3(x: real, y: real, z: real)

  /** `Direction.getVector()`: the unit step towards the face. */
  function UnitVector(d: Direction): (v: BlockPos)
    ensures v.x * v.x + v.y * v.y + v.z * v.z == 1
  {
    match d
    case Down => BlockPos(0, -1, 0)
    case Up => BlockPos(0, 1, 0)
    case North => BlockPos(0, 0, -1)
    case South => BlockPos(0, 0, 1)
    case West => BlockPos(-1, 0, 0)
    case East => BlockPos(1, 0, 0)
  }

  /** `BlockPos.offset(d)`: the neighbouring block across face `d`. */
  function Offset(p: BlockPos, d: Direction): BlockPos
  {
    var v := UnitVector(d);
    BlockPos(p.x + v.x, p.y + v.y, p.z + v.z)
  }

  /** Stepping across a face and back across its opposite returns to the start. */
  lemma OffsetOppositeRoundTrip(p: BlockPos, d: Direction)
    ensures Offset(Offset(p, Opposite(d)), d) == p
    ensures Offset(Offset(p, d), Opposite(d)) == p
  {
  }

  /** `BlockPos.toCenterPos()`. */
  function CenterPos(p: BlockPos): Vec3
  {
    Vec3(p.x as real + 0.5, p.y as real + 0.5, p.z as real + 0.5)
  }

  /**
   * The hit point used to click face `d` of block `p`: the block centre plus
   * half of the face's unit vector.
   */
  function HitVec(p: BlockPos, d: Direction): Vec3
  {
    var c := CenterPos(p);
    var v := UnitVector(d);
    Vec3(c.x + 0.5 * v.x as real, c.y + 0.5 * v.y as real, c.z + 0.5 * v.z as real)
  }

  function Midpoint(a: Vec3, b: Vec3): Vec3
  {
    Vec3((a.x + b.x) / 2.0, (a.y + b.y) / 2.0, (a.z + b.z) / 2.0)
  }

  /** A point lies in the closed unit cube occupied by block `p`. */
  predicate InBlock(v: Vec3, p: BlockPos)
  {
    && p.x as real <= v.x <= p.x as real + 1.0
    && p.y as real <= v.y <= p.y as real + 1.0
    && p.z as real <= v.z <= p.z as real + 1.0
  }

  /**
   * The hit point is the centre of the face that block `p` shares with its
   * neighbour across `d`: it lies in both blocks, halfway between their
   * centres, and in half-block units it is `2·p + 1 + unit(d)`.
   */
  lemma HitVecOnSharedFace(p: BlockPos, d: Direction)
    ensures HitVec(p, d) == Midpoint(CenterPos(p), CenterPos(Offset(p, d)))
    ensures InBlock(HitVec(p, d), p) && InBlock(HitVec(p, d), Offset(p, d))
    ensures var h, v := HitVec(p, d), UnitVector(d);
      && 2.0 * h.x == (2 * p.x + 1 + v.x) as real
      && 2.0 * h.y == (2 * p.y + 1 + v.y) as real
      && 2.0 * h.z == (2 * p.z + 1 + v.z) as real
  {
    match d
    case Down =>
    case Up =>
    case North =>
    case South =>
    case West =>
    case East =>
  }
}
