/** The landing rules: which cells the block rests on after a tumble,
    and what the tile codes under them mean for the session. */
module RuleEngine {
  import opened TileGrid
  import opened TumbleTransform

  /** The grid cells under the block: one when it stands, two when it
      lies.  `NoCells` stands for a height that is neither 0.5 nor 1,
      for which the handler checks nothing. */
  datatype Cells =
    | One(x: int, z: int)
    | Two(x1: int, z1: int, x2: int, z2: int)
    | NoCells

  /** The footprint the handler computes from the centre: the centre's
      own cell when standing; otherwise the cells 0.25 either side of
      the centre along whichever of length and width is 1 (length is
      tested first). */
  function Footprint(p: Pose): (c: Cells)
    ensures p.height == FULL <==> c.One?
    ensures c.One? ==> c == One(ColumnOf(p.x), RowOf(p.z))
  {
    if p.height == FULL then
      One(ColumnOf(p.x), RowOf(p.z))
    else if p.height == HALF && p.length == FULL then
      Two(ColumnOf(p.x + 1), RowOf(p.z), ColumnOf(p.x - 1), RowOf(p.z))
    else if p.height == HALF && p.width == FULL then
      Two(ColumnOf(p.x), RowOf(p.z - 1), ColumnOf(p.x), RowOf(p.z + 1))
    else
      NoCells
  }

  /** On a valid pose the truncating casts are exact: a standing block's
      cell is centred under the block's centre, and a lying block's two
      cells are neighbours along its long axis, centred 0.25 either side
      of the block's centre. */
  lemma {:induction false} FootprintExact(p: Pose)
    requires ValidPose(p)
    ensures Standing(p) ==>
      var c := Footprint(p); c.One? && -10 + 2 * c.x == p.x && 10 - 2 * c.z == p.z
    ensures LyingAlongX(p) ==>
      var c := Footprint(p);
      && c.Two? && c.z1 == c.z2 && c.x1 == c.x2 + 1
      && -10 + 2 * c.x1 == p.x + 1 && -10 + 2 * c.x2 == p.x - 1 && 10 - 2 * c.z1 == p.z
    ensures LyingAlongZ(p) ==>
      var c := Footprint(p);
      && c.Two? && c.x1 == c.x2 && c.z1 == c.z2 + 1
      && -10 + 2 * c.x1 == p.x && 10 - 2 * c.z1 == p.z - 1 && 10 - 2 * c.z2 == p.z + 1
  {
    if Standing(p) {
      assert (p.x + 10) % 2 == 0 && (-p.z + 10) % 2 == 0;
    } else if LyingAlongX(p) {
      assert (p.x + 11) % 2 == 0 && (p.x + 9) % 2 == 0 && (-p.z + 10) % 2 == 0;
    } else {
      assert (p.x + 10) % 2 == 0 && (-p.z + 11) % 2 == 0 && (-p.z + 9) % 2 == 0;
    }
  }

  /** The effect of one landing: how much `no_of_moves` grows, whether
      the game is lost (`game_check = -1`), whether the level is cleared
      (`game_check = 1` and `level++`), and whether the switch flips. */
  datatype Verdict = Verdict(counted: nat, lost: bool, cleared: bool, toggles: bool)

  /** A standing block on one tile code. */
  function StandingRule(c: int): (v: Verdict)
    ensures !(v.lost && v.cleared) && !(v.lost && v.toggles) && !(v.cleared && v.toggles)
  {
    if c == VOID || c == FRAGILE then Verdict(1, true, false, false)
    else if c == GOAL then Verdict(1, false, true, false)
    else if c == SWITCH then Verdict(1, false, false, true)
    else if c == FLOOR then Verdict(1, false, false, false)
    else Verdict(0, false, false, false)
  }

  /** A lying block on two tile codes, with the handler's priorities:
      void, then switch, then fragile (safe only when the product of the
      two codes is 4), then safe. */
  function LyingRule(c1: int, c2: int): (v: Verdict)
    ensures v.counted == 1 && !v.cleared && !(v.lost && v.toggles)
  {
    if c1 == VOID || c2 == VOID then Verdict(1, true, false, false)
    else if c1 == SWITCH || c2 == SWITCH then Verdict(1, false, false, true)
    else if c1 == FRAGILE || c2 == FRAGILE then
      (if c1 * c2 == 4 then Verdict(1, false, false, false) else Verdict(1, true, false, false))
    else Verdict(1, false, false, false)
  }

  /** What a standing landing means, tile code by tile code (both
      directions of each case): void and fragile lose and are counted;
      the goal clears the level and is counted; a switch flips the
      switch and is counted; a floor is only counted; a bridge (and any
      other code) matches no rule and is not counted. */
  lemma StandingRuleOutcomes(c: int)
    ensures StandingRule(c).lost <==> (c == VOID || c == FRAGILE)
    ensures StandingRule(c).cleared <==> c == GOAL
    ensures StandingRule(c).toggles <==> c == SWITCH
    ensures StandingRule(c).counted == 1 <==>
      (c == VOID || c == FLOOR || c == FRAGILE || c == SWITCH || c == GOAL)
    ensures StandingRule(c).counted == 0 <==> StandingRule(c) == Verdict(0, false, false, false)
    ensures c == BRIDGE ==> StandingRule(c) == Verdict(0, false, false, false)
  {
  }

  /** What a lying landing means on two tile codes: any void loses;
      otherwise any switch flips the switch once and is safe; otherwise
      any fragile tile loses unless both tiles are fragile; otherwise safe
      (also on the goal, which only a standing block can enter). */
  lemma LyingRuleOutcomes(c1: int, c2: int)
    requires IsTileCode(c1) && IsTileCode(c2)
    ensures LyingRule(c1, c2).lost <==>
      || c1 == VOID || c2 == VOID
      || (c1 != SWITCH && c2 != SWITCH && (c1 == FRAGILE || c2 == FRAGILE)
          && !(c1 == FRAGILE && c2 == FRAGILE))
    ensures LyingRule(c1, c2).toggles <==>
      c1 != VOID && c2 != VOID && (c1 == SWITCH || c2 == SWITCH)
    ensures !LyingRule(c1, c2).cleared
  {
  }

  /** Fragile pairing: two fragile tiles carry a lying block; one
      fragile tile next to a floor tile does not. */
  lemma FragilePairing()
    ensures !LyingRule(FRAGILE, FRAGILE).lost
    ensures LyingRule(FRAGILE, FLOOR).lost && LyingRule(FLOOR, FRAGILE).lost
  {
  }

  /** In the fragile branch the product test `c1 * c2 == 4` means
      "both fragile" for every pair of tile codes that reaches it. */
  lemma FragileProduct(c1: int, c2: int)
    requires IsTileCode(c1) && IsTileCode(c2)
    requires c1 != SWITCH && c2 != SWITCH && c1 != VOID && c2 != VOID
    ensures c1 * c2 == 4 <==> c1 == FRAGILE && c2 == FRAGILE
  {
  }

  /** The lying rule does not depend on which of the two cells is which. */
  lemma LyingRuleSymmetric(c1: int, c2: int)
    ensures LyingRule(c1, c2) == LyingRule(c2, c1)
  {
  }

  /** Only a standing block clears a level: no lying landing clears. */
  lemma GoalRequiresStanding(c1: int, c2: int)
    ensures !LyingRule(c1, c2).cleared
    ensures StandingRule(GOAL).cleared
  {
  }

  /** The verdict of a landing of pose `p` on grid `g`: a landing is
      counted at most once, and clears the level only when the block
      stands on the goal. */
  function Land(g: seq<seq<int>>, p: Pose): (v: Verdict)
    requires IsGrid(g)
    ensures v.counted <= 1
    ensures v.cleared ==> p.height == FULL && TileAt(g, ColumnOf(p.x), RowOf(p.z)) == GOAL
    ensures !(v.lost && v.toggles)
  {
    match Footprint(p)
    case One(x, z) => StandingRule(TileAt(g, x, z))
    case Two(x1, z1, x2, z2) => LyingRule(TileAt(g, x1, z1), TileAt(g, x2, z2))
    case NoCells => Verdict(0, false, false, false)
  }

  /** Every landing of a valid pose classifies both directions: it is
      counted exactly once unless the block stands on a tile without a
      rule (a bridge), and it never both loses and clears, or loses and
      flips the switch. */
  lemma LandCounted(g: seq<seq<int>>, p: Pose)
    requires WellFormed(g) && ValidPose(p)
    ensures var v := Land(g, p);
      && v.counted <= 1
      && (v.counted == 0 <==> Standing(p) && TileAt(g, ColumnOf(p.x), RowOf(p.z)) == BRIDGE)
      && !(v.lost && v.cleared) && !(v.lost && v.toggles)
      && (v.cleared ==> Standing(p) && TileAt(g, ColumnOf(p.x), RowOf(p.z)) == GOAL)
  {
    if Standing(p) {
      var c := TileAt(g, ColumnOf(p.x), RowOf(p.z));
      assert IsTileCode(c);
      StandingRuleOutcomes(c);
    }
  }

  /** The session's switch flag, flipped between 0 and 1 (the handler
      leaves any other value alone). */
  function Toggle(s: int): (r: int)
    ensures s == 0 ==> r == 1
    ensures s == 1 ==> r == 0
    ensures s != 0 && s != 1 ==> r == s
  {
    if s == 0 then 1 else if s == 1 then 0 else s
  }

  /** Flipping the switch twice restores it; flipping keeps it in {0, 1}
      and changes it. */
  lemma ToggleInvolution(s: int)
    ensures Toggle(Toggle(s)) == s
    ensures s == 0 || s == 1 ==> (Toggle(s) == 0 || Toggle(s) == 1) && Toggle(s) != s
  {
  }

  /** Two switch tiles under one lying block flip the switch once: the
      verdict carries a single flip, not one per tile. */
  lemma DoubleSwitchFlipsOnce(s: int)
    requires s == 0 || s == 1
    ensures LyingRule(SWITCH, SWITCH).toggles
    ensures (if LyingRule(SWITCH, SWITCH).toggles then Toggle(s) else s) != s
  {
  }

  // ---------------------------------------------------------------------
  // The landing blocks as they appear in each of the four tumble copies.

  /** A standing landing as the right and up copies test it (floor
      before switch; the left and down copies test the switch first, as
      `StandingRule` does). */
  function StandingFloorFirst(c: int): (v: Verdict)
    ensures v == StandingRule(c)
  {
    if c == VOID || c == FRAGILE then Verdict(1, true, false, false)
    else if c == GOAL then Verdict(1, false, true, false)
    else if c == FLOOR then Verdict(1, false, false, false)
    else if c == SWITCH then Verdict(1, false, false, true)
    else Verdict(0, false, false, false)
  }

  /** The lying landing of the right copy when the block lies along z:
      the void test is followed by `if`, not `else if`, so after a void
      test the switch / fragile / safe chain still runs and may count
      the move a second time and flip the switch. */
  function LyingRightAlongZAsWritten(c1: int, c2: int): (v: Verdict)
    ensures c1 != VOID && c2 != VOID ==> v == LyingRule(c1, c2)
    ensures c1 == VOID || c2 == VOID ==> v.lost && v.counted == 2 && !v.cleared
    ensures v.toggles <==> c1 == SWITCH || c2 == SWITCH
  {
    var void := c1 == VOID || c2 == VOID;
    var rest :=
      if c1 == SWITCH || c2 == SWITCH then Verdict(1, false, false, true)
      else if c1 == FRAGILE || c2 == FRAGILE then
        (if c1 * c2 == 4 then Verdict(1, false, false, false) else Verdict(1, true, false, false))
      else Verdict(1, false, false, false);
    Verdict((if void then 1 else 0) + rest.counted, void || rest.lost, false, rest.toggles)
  }

  /** A landing as the copy for direction `d` evaluates it.  It counts
      a move twice only in the right copy, when the block lies along z. */
  function LandAsWritten(g: seq<seq<int>>, p: Pose, d: Dir): (v: Verdict)
    requires IsGrid(g)
    ensures v.counted <= 2
    ensures v.counted == 2 ==> d == Right && p.height == HALF && p.width == FULL
    ensures v.cleared ==> p.height == FULL && TileAt(g, ColumnOf(p.x), RowOf(p.z)) == GOAL
  {
    match Footprint(p)
    case One(x, z) =>
      var c := TileAt(g, x, z);
      if d == Left || d == Down then StandingRule(c) else StandingFloorFirst(c)
    case Two(x1, z1, x2, z2) =>
      var c1 := TileAt(g, x1, z1);
      var c2 := TileAt(g, x2, z2);
      if d == Right && p.width == FULL then LyingRightAlongZAsWritten(c1, c2) else LyingRule(c1, c2)
    case NoCells => Verdict(0, false, false, false)
  }

  /** The single landing rule agrees with all four copies, except for a
      right tumble that leaves the block lying along z on at least one
      void cell, where the copy differs (the move is counted twice). */
  lemma {:induction false} LandAgreesWithCopies(g: seq<seq<int>>, p: Pose, d: Dir)
    requires IsGrid(g) && ValidPose(p)
    ensures Land(g, p) == LandAsWritten(g, p, d) <==>
      !(d == Right && LyingAlongZ(p) &&
        var c := Footprint(p); TileAt(g, c.x1, c.z1) == VOID || TileAt(g, c.x2, c.z2) == VOID)
  {
    match Footprint(p)
    case One(x, z) =>
    case Two(x1, z1, x2, z2) =>
      var c1 := TileAt(g, x1, z1);
      var c2 := TileAt(g, x2, z2);
      if d == Right && LyingAlongZ(p) && (c1 == VOID || c2 == VOID) {
        assert LyingRightAlongZAsWritten(c1, c2).counted == 2;
      }
    case NoCells =>
  }

  /** The discrepancy on concrete tiles: a right tumble onto one void
      cell and one floor cell counts two moves instead of one; onto one
      void cell and one switch it also flips the switch of a lost game. */
  lemma RightAlongZDoubleCount()
    ensures LyingRightAlongZAsWritten(VOID, FLOOR) == Verdict(2, true, false, false)
    ensures LyingRule(VOID, FLOOR) == Verdict(1, true, false, false)
    ensures LyingRightAlongZAsWritten(VOID, SWITCH) == Verdict(2, true, false, true)
    ensures LyingRule(VOID, SWITCH) == Verdict(1, true, false, false)
  {
  }
}
