/** The block's shape and position, and the geometric effect of one
    90-degree tumble.

    All quantities are in quarter units: an extent of 0.5 is 2 and an
    extent of 1 is 4; the centre coordinates are multiples of 0.25 and
    so are integers here. */
module TumbleTransform {

  /** The four arrow-key directions. */
  datatype Dir = Left | Right | Up | Down

  /** The value the key handler stores in `rotate_check`. */
  function Code(d: Dir): (c: int)
    ensures c != 0 && -2 <= c <= 2
  {
    match d
    case Left => -1
    case Right => 1
    case Up => 2
    case Down => -2
  }

  predicate IsDirCode(c: int) {
    c == -1 || c == 1 || c == 2 || c == -2
  }

  function DirOf(c: int): (d: Dir)
    requires IsDirCode(c)
    ensures Code(d) == c
  {
    if c == -1 then Left else if c == 1 then Right else if c == 2 then Up else Down
  }

  lemma DirCodeRoundTrip(d: Dir)
    ensures IsDirCode(Code(d)) && DirOf(Code(d)) == d
  {
  }

  function Opposite(d: Dir): Dir {
    match d
    case Left => Right
    case Right => Left
    case Up => Down
    case Down => Up
  }

  /** The block's extents (`length` along x, `height` along y, `width`
      along z), its centre and the persistent sign `base_check` of the
      next vertical correction. */
  datatype Pose = Pose(length: int, height: int, width: int,
                       x: int, y: int, z: int, base: int)

  const HALF := 2
  const FULL := 4

  predicate Standing(p: Pose) {
    p.length == HALF && p.height == FULL && p.width == HALF
  }

  predicate LyingAlongX(p: Pose) {
    p.length == FULL && p.height == HALF && p.width == HALF
  }

  predicate LyingAlongZ(p: Pose) {
    p.length == HALF && p.height == HALF && p.width == FULL
  }

  /** The shapes the block can have: two extents of 0.5 and one of 1. */
  predicate Shaped(p: Pose) {
    Standing(p) || LyingAlongX(p) || LyingAlongZ(p)
  }

  /** The pose invariant: a legal shape; the base rests on the floor
      plane y = -0.5 (so the centre is at y = 0 standing and at
      y = -0.25 lying); `base_check` is +1 exactly when the block
      stands; and the centre sits on the cell grid, i.e. odd (an
      odd number of quarters) along an axis of extent 1 and even along
      an axis of extent 0.5. */
  predicate ValidPose(p: Pose) {
    && Shaped(p)
    && 2 * p.y - p.height == -FULL
    && p.base == (if p.height == FULL then 1 else -1)
    && p.x % 2 == (if p.length == FULL then 1 else 0)
    && p.z % 2 == (if p.width == FULL then 1 else 0)
  }

  /** The pose created at start-up and after each cleared level:
      extents (0.5, 1, 0.5) at the origin.  `base_check` is not reset. */
  function Spawn(base: int): (p: Pose)
    ensures Standing(p) && p.x == 0 && p.y == 0 && p.z == 0
  {
    Pose(HALF, FULL, HALF, 0, 0, 0, base)
  }

  lemma SpawnValid()
    ensures ValidPose(Spawn(1))
  {
  }

  datatype Axis = X | Z

  function AxisOf(d: Dir): Axis {
    if d == Left || d == Right then X else Z
  }

  /** +1 when the tumble moves the centre towards larger coordinates. */
  function SignOf(d: Dir): int {
    if d == Right || d == Down then 1 else -1
  }

  /** One tumble in direction `d`, written once for all four directions:
      the extent along the tumble's axis trades places with the height,
      the centre moves along that axis by half of each, the centre drops
      or rises by 0.25 when the height changes, and `base_check` records
      whether the block now lies. */
  function Tumble(p: Pose, d: Dir): (r: Pose)
    ensures multiset{r.length, r.height, r.width} == multiset{p.length, p.height, p.width}
    ensures r.base == (if r.height != FULL then -1 else 1)
  {
    var along := if AxisOf(d) == X then p.length else p.width;
    var shift := SignOf(d) * (along / 2 + p.height / 2);
    var y := if along != p.height then p.y - p.base else p.y;
    var base := if along != FULL then -1 else 1;
    if AxisOf(d) == X then
      Pose(p.height, along, p.width, p.x + shift, y, p.z, base)
    else
      Pose(p.length, along, p.height, p.x, y, p.z + shift, base)
  }

  /** The left-tumble block of the frame handler, step by step:
      move x, correct y, exchange height and length by the three-step
      arithmetic, then set `base_check`.  The arithmetic is a plain
      exchange, and z is not touched. */
  function LeftAsWritten(p: Pose): (r: Pose)
    ensures r.length == p.height && r.height == p.length && r.width == p.width
    ensures r.z == p.z
  {
    var x := p.x - p.length / 2 - p.height / 2;
    var y := if p.length != p.height then p.y - p.base else p.y;
    var h1 := p.length - p.height;
    var l := p.length - h1;
    var h := h1 + l;
    Pose(l, h, p.width, x, y, p.z, if h != FULL then -1 else 1)
  }

  /** The right-tumble block. */
  function RightAsWritten(p: Pose): (r: Pose)
    ensures r.length == p.height && r.height == p.length && r.width == p.width
    ensures r.z == p.z
  {
    var x := p.x + p.length / 2 + p.height / 2;
    var y := if p.length != p.height then p.y - p.base else p.y;
    var h1 := p.length - p.height;
    var l := p.length - h1;
    var h := h1 + l;
    Pose(l, h, p.width, x, y, p.z, if h != FULL then -1 else 1)
  }

  /** The up-tumble block (`rotate_check == 2`): it moves the centre
      towards negative z and exchanges height with width. */
  function UpAsWritten(p: Pose): (r: Pose)
    ensures r.width == p.height && r.height == p.width && r.length == p.length
    ensures r.x == p.x
  {
    var z := p.z - p.width / 2 - p.height / 2;
    var y := if p.width != p.height then p.y - p.base else p.y;
    var h1 := p.width - p.height;
    var w := p.width - h1;
    var h := h1 + w;
    Pose(p.length, h, w, p.x, y, z, if h != FULL then -1 else 1)
  }

  /** The down-tumble block (`rotate_check == -2`). */
  function DownAsWritten(p: Pose): (r: Pose)
    ensures r.width == p.height && r.height == p.width && r.length == p.length
    ensures r.x == p.x
  {
    var z := p.z + p.width / 2 + p.height / 2;
    var y := if p.width != p.height then p.y - p.base else p.y;
    var h1 := p.width - p.height;
    var w := p.width - h1;
    var h := h1 + w;
    Pose(p.length, h, w, p.x, y, z, if h != FULL then -1 else 1)
  }

  function AsWritten(p: Pose, d: Dir): Pose {
    match d
    case Left => LeftAsWritten(p)
    case Right => RightAsWritten(p)
    case Up => UpAsWritten(p)
    case Down => DownAsWritten(p)
  }

  /** The single parameterised tumble agrees with each of the four
      hand-written copies, on every pose. */
  lemma TumbleAgreesWithCopies(p: Pose, d: Dir)
    ensures Tumble(p, d) == AsWritten(p, d)
  {
  }

  /** What one tumble does to the pose.  Left/right exchange length and
      height and keep the width; up/down exchange width and height and
      keep the length.  The centre moves along the tumble axis only, by
      half the old extent along that axis plus half the old height.
      The 0.25 correction of y, against `base_check`, is applied exactly
      when the two exchanged extents differ. */
  lemma TumbleGeometry(p: Pose, d: Dir)
    ensures var r := Tumble(p, d);
      && (AxisOf(d) == X ==>
            && r.length == p.height && r.height == p.length && r.width == p.width
            && r.x == p.x + SignOf(d) * (p.length / 2 + p.height / 2) && r.z == p.z
            && r.y == (if p.length != p.height then p.y - p.base else p.y))
      && (AxisOf(d) == Z ==>
            && r.width == p.height && r.height == p.width && r.length == p.length
            && r.z == p.z + SignOf(d) * (p.width / 2 + p.height / 2) && r.x == p.x
            && r.y == (if p.width != p.height then p.y - p.base else p.y))
  {
  }

  /** A tumble keeps the pose invariant: the block keeps two extents of
      0.5 and one of 1, stays flush with the floor, `base_check` stays
      in step with the height, and the centre stays on the grid. */
  lemma {:induction false} TumblePreservesValid(p: Pose, d: Dir)
    requires ValidPose(p)
    ensures ValidPose(Tumble(p, d))
  {
    var r := Tumble(p, d);
    if Standing(p) {
      assert if AxisOf(d) == X then LyingAlongX(r) else LyingAlongZ(r);
    } else if LyingAlongX(p) {
      assert if AxisOf(d) == X then Standing(r) else LyingAlongX(r);
    } else {
      assert if AxisOf(d) == X then LyingAlongZ(r) else Standing(r);
    }
  }

  /** A tumble from a legal pose changes the orientation as the game
      intends: from standing the block lies along the tumble axis; lying
      along the tumble axis it stands up; lying across it it rolls and
      keeps lying the same way. */
  lemma TumbleOrientation(p: Pose, d: Dir)
    requires ValidPose(p)
    ensures Standing(p) ==>
      (if AxisOf(d) == X then LyingAlongX(Tumble(p, d)) else LyingAlongZ(Tumble(p, d)))
    ensures LyingAlongX(p) ==>
      (if AxisOf(d) == X then Standing(Tumble(p, d)) else LyingAlongX(Tumble(p, d)))
    ensures LyingAlongZ(p) ==>
      (if AxisOf(d) == X then LyingAlongZ(Tumble(p, d)) else Standing(Tumble(p, d)))
  {
  }

  /** Tumbling one way and then back restores the pose exactly. */
  lemma {:induction false} TumbleRoundTrip(p: Pose, d: Dir)
    requires ValidPose(p)
    ensures Tumble(Tumble(p, d), Opposite(d)) == p
  {
    var r := Tumble(p, d);
    TumbleGeometry(p, d);
    TumbleGeometry(r, Opposite(d));
    assert SignOf(Opposite(d)) == -SignOf(d);
    if Standing(p) {
      assert p.base == 1 && r.base == -1;
    } else {
      assert p.base == -1;
    }
  }
}
