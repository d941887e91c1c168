/** The whole game state as a value, and what one key press and one
    frame do to it.  This is the specification that the `Game` class's
    methods are proved against. */
module GameSession {
  import opened TileGrid
  import opened TumbleTransform
  import opened RuleEngine

  /** The game's global state: the runtime board (indexed `board[x][z]`),
      the block's pose, the tumble animation (`rotate`, in degrees, and
      `rotate_check`, 0 when idle or the code of the tumble under way),
      the move counter, the switch flag, `game_check` (-1 lost, 0
      playing, 1 level just cleared) and the level number. */
  datatype State = State(
    board: seq<seq<int>>,
    pose: Pose,
    rotate: int,
    rotateCheck: int,
    moves: int,
    switchCheck: int,
    gameCheck: int,
    level: int)

  datatype Outcome = Playing | Lost | Won

  /** The two checks of the main loop: a lost game ends it first, then
      reaching level 4 (all three cleared) ends it. */
  function OutcomeOf(s: State): (o: Outcome)
    ensures o == Lost <==> s.gameCheck == -1
    ensures o == Won <==> s.gameCheck != -1 && s.level == 4
  {
    if s.gameCheck == -1 then Lost else if s.level == 4 then Won else Playing
  }

  /** The board a level runs on: after the third level the reload copies
      nothing, so the board keeps the third table. */
  function BoardFor(level: int): (t: seq<seq<int>>)
    requires 1 <= level
    ensures WellFormed(t)
  {
    Table(if level <= 3 then level else 3)
  }

  /** The state at start-up: level 1's table, the block standing at the
      origin, idle, no moves, switch off, playing. */
  function Init(): (s: State)
    ensures OutcomeOf(s) == Playing && s.board == Table(1)
  {
    State(Table(1), Spawn(1), 0, 0, 0, 0, 0, 1)
  }

  /** The invariant every reachable state keeps. */
  predicate Inv(s: State) {
    && 1 <= s.level <= 4
    && s.board == BoardFor(s.level)
    && ValidPose(s.pose)
    && 0 <= s.rotate <= 90 && s.rotate % 10 == 0
    && (s.rotateCheck == 0 || IsDirCode(s.rotateCheck))
    && (s.rotateCheck == 0 ==> s.rotate == 0)
    && (s.switchCheck == 0 || s.switchCheck == 1)
    && (s.gameCheck == 0 || s.gameCheck == -1)
    && s.moves >= 0
    && (OutcomeOf(s) != Playing ==> s.rotateCheck == 0)
  }

  lemma InitInv()
    ensures Inv(Init())
  {
    SpawnValid();
  }

  /** A direction is accepted only while no tumble is under way and the
      game is still being played. */
  predicate Accepts(s: State) {
    s.rotateCheck == 0 && OutcomeOf(s) == Playing
  }

  /** An arrow-key release: start a tumble in direction `d`. */
  function Press(s: State, d: Dir): (r: State)
    ensures Accepts(s) ==> r.rotateCheck == Code(d) && r.rotate == 0
    ensures r == s.(rotateCheck := r.rotateCheck, rotate := r.rotate)
    ensures !Accepts(s) ==> r == s
  {
    if Accepts(s) then s.(rotateCheck := Code(d), rotate := 0) else s
  }

  /** Apply a landing verdict to the session counters: the move count
      grows by the verdict's count, a loss sets `game_check` to -1 and
      keeps the level, a clear sets it to 1 and moves to the next level;
      board, pose and animation are untouched. */
  function Apply(s: State, v: Verdict): (r: State)
    ensures r.moves == s.moves + v.counted
    ensures v.lost ==> r.gameCheck == -1 && r.level == s.level
    ensures !v.lost && v.cleared ==> r.gameCheck == 1 && r.level == s.level + 1
    ensures !v.lost && !v.cleared ==> r.gameCheck == s.gameCheck && r.level == s.level
    ensures v.toggles && (s.switchCheck == 0 || s.switchCheck == 1) ==>
      r.switchCheck == 1 - s.switchCheck
    ensures !v.toggles ==> r.switchCheck == s.switchCheck
    ensures r.board == s.board && r.pose == s.pose
    ensures r.rotate == s.rotate && r.rotateCheck == s.rotateCheck
  {
    s.(moves := s.moves + v.counted,
       switchCheck := if v.toggles then Toggle(s.switchCheck) else s.switchCheck,
       gameCheck := if v.lost then -1 else if v.cleared then 1 else s.gameCheck,
       level := if !v.lost && v.cleared then s.level + 1 else s.level)
  }

  /** The end of a tumble: apply the transform, return to idle, then
      evaluate the landing on the current board. */
  function Commit(s: State): (r: State)
    requires IsGrid(s.board)
    ensures IsDirCode(s.rotateCheck) ==>
      && r.pose == Tumble(s.pose, DirOf(s.rotateCheck))
      && r.rotateCheck == 0 && r.rotate == 0 && r.board == s.board
      && r.moves == s.moves + Land(s.board, r.pose).counted
    ensures !IsDirCode(s.rotateCheck) ==> r == s
  {
    if IsDirCode(s.rotateCheck) then
      var p := Tumble(s.pose, DirOf(s.rotateCheck));
      Apply(s.(pose := p, rotateCheck := 0, rotate := 0), Land(s.board, p))
    else s
  }

  /** After a cleared level: reload the board for the new level (nothing
      is copied past level 3), respawn the block, clear the switch and
      `game_check`.  The move counter and `base_check` are kept. */
  function Reset(s: State): (r: State)
    ensures r.moves == s.moves && r.level == s.level
    ensures IsLevel(s.level) ==> r.board == Table(s.level)
    ensures r.pose.length == HALF && r.pose.height == FULL && r.pose.width == HALF
    ensures r.pose.x == 0 && r.pose.y == 0 && r.pose.z == 0
    ensures r.rotateCheck == 0 && r.rotate == 0 && r.gameCheck == 0 && r.switchCheck == 0
  {
    s.(board := if IsLevel(s.level) then Table(s.level) else s.board,
       pose := Spawn(s.pose.base),
       rotateCheck := 0, rotate := 0, gameCheck := 0, switchCheck := 0)
  }

  /** Animating: one frame of a tumble under way before it reaches 90. */
  predicate Animating(s: State) {
    s.rotate < 90 && s.rotateCheck != 0
  }

  /** One frame: advance the animation by 10 degrees, or, when it has
      reached 90, commit the tumble; then handle a cleared level. */
  function Tick(s: State): (r: State)
    requires IsGrid(s.board)
    ensures Animating(s) ==> r == s.(rotate := s.rotate + 10)
    ensures !Animating(s) && s.rotateCheck == 0 && s.gameCheck != 1 ==> r == s
    ensures !Animating(s) && IsDirCode(s.rotateCheck) ==> r.rotateCheck == 0 && r.rotate == 0
  {
    if Animating(s) then
      s.(rotate := s.rotate + 10)
    else
      var c := if s.rotateCheck != 0 then Commit(s) else s;
      // The program tests `game_check == 1` on every frame, also after an
      // animation step; on states satisfying `Inv` it is 1 only after a
      // commit, so testing it in this branch alone is the same.
      if c.gameCheck == 1 then Reset(c) else c
  }

  /** `n` frames. */
  function TickN(s: State, n: nat): State
    requires Inv(s)
    decreases n
  {
    if n == 0 then s
    else
      TickPreservesInv(s);
      TickN(Tick(s), n - 1)
  }

  // ---------------------------------------------------------------------
  // Properties.

  /** The animation frames change nothing but the angle, by 10 each. */
  lemma AnimationFrame(s: State)
    requires IsGrid(s.board) && Animating(s)
    ensures Tick(s) == s.(rotate := s.rotate + 10)
  {
  }

  /** From `rotate` = r, k frames of a tumble under way (as long as they
      do not go past 90) advance the angle by 10 k and change nothing
      else. */
  lemma {:induction false} AnimateFrames(s: State, k: nat)
    requires Inv(s) && s.rotateCheck != 0 && s.rotate + 10 * k <= 90
    ensures TickN(s, k) == s.(rotate := s.rotate + 10 * k)
    decreases k
  {
    if k > 0 {
      var t := Tick(s);
      assert t == s.(rotate := s.rotate + 10);
      TickPreservesInv(s);
      AnimateFrames(t, k - 1);
    }
  }

  /** A tumble takes ten frames: nine that turn the block up to 90
      degrees, then one that commits it. */
  lemma {:induction false} TumbleTakesTenFrames(s: State, d: Dir)
    requires Inv(s) && Accepts(s)
    ensures var t := Press(s, d);
      && TickN(t, 9) == t.(rotate := 90)
      && TickN(t, 10) == Tick(t.(rotate := 90))
  {
    var t := Press(s, d);
    PressPreservesInv(s, d);
    AnimateFrames(t, 9);
    TickNSplit(t, 9, 1);
  }

  lemma {:induction false} TickNSplit(s: State, m: nat, n: nat)
    requires Inv(s)
    ensures Inv(TickN(s, m))
    ensures TickN(s, m + n) == TickN(TickN(s, m), n)
    decreases m
  {
    TickNInvLemma(s, m);
    if m > 0 {
      TickPreservesInv(s);
      var t := Tick(s);
      assert TickN(s, m + n) == TickN(t, (m - 1) + n);
      assert TickN(s, m) == TickN(t, m - 1);
      TickNSplit(t, m - 1, n);
    }
  }

  lemma {:induction false} TickNInvLemma(s: State, n: nat)
    requires Inv(s)
    ensures Inv(TickN(s, n))
    decreases n
  {
    if n > 0 {
      TickPreservesInv(s);
      TickNInvLemma(Tick(s), n - 1);
    }
  }

  /** The committing frame puts the block back to idle (when the level
      goes on) and applies the transform to the pose. */
  lemma CommitReturnsToIdle(s: State)
    requires Inv(s) && s.rotateCheck != 0 && s.rotate == 90
    ensures var r := Tick(s);
      && r.rotateCheck == 0 && r.rotate == 0
      && (r.level == s.level ==> r.pose == Tumble(s.pose, DirOf(s.rotateCheck)))
  {
  }

  /** The landing at the end of a tumble decides the counters exactly
      as the rule engine's verdict says. */
  lemma CommitFollowsVerdict(s: State)
    requires Inv(s) && s.rotateCheck != 0 && s.rotate == 90
    ensures var p := Tumble(s.pose, DirOf(s.rotateCheck));
      var v := Land(s.board, p);
      var r := Tick(s);
      && r.moves == s.moves + v.counted
      && (v.lost ==>
            && OutcomeOf(r) == Lost && r.level == s.level
            && r.switchCheck == s.switchCheck && r.pose == p)
      && (!v.lost && !v.cleared ==>
            && r.level == s.level && r.gameCheck == 0 && r.pose == p
            && r.switchCheck == (if v.toggles then Toggle(s.switchCheck) else s.switchCheck))
      && (!v.lost && v.cleared ==> r.level == s.level + 1)
  {
    var p := Tumble(s.pose, DirOf(s.rotateCheck));
    TumblePreservesValid(s.pose, DirOf(s.rotateCheck));
    LandCounted(s.board, p);
  }

  /** After a goal landing the board is reloaded entrywise from the new
      level's table, the block respawns standing at the origin, and the
      switch, the tumble and `game_check` are cleared; past level 3 the
      game is won. */
  lemma {:induction false} GoalAdvancesLevel(s: State)
    requires Inv(s) && s.rotateCheck != 0 && s.rotate == 90
    requires Land(s.board, Tumble(s.pose, DirOf(s.rotateCheck))).cleared
    ensures var r := Tick(s);
      && r.level == s.level + 1
      && r.board == BoardFor(r.level)
      && (r.level <= 3 ==> forall i, j :: 0 <= i < SIZE && 0 <= j < SIZE ==>
            r.board[i][j] == Table(r.level)[i][j])
      && r.pose == Spawn(1)
      && r.switchCheck == 0 && r.rotateCheck == 0 && r.rotate == 0 && r.gameCheck == 0
      && r.moves == s.moves + 1
      && (OutcomeOf(r) == Won <==> s.level == 3)
  {
    var p := Tumble(s.pose, DirOf(s.rotateCheck));
    TumblePreservesValid(s.pose, DirOf(s.rotateCheck));
    LandCounted(s.board, p);
  }

  /** A key press starts a tumble from rest (angle 0, the key's code
      in `rotate_check`) when the game accepts it, and otherwise leaves
      the state as it was: a tumble under way is never overwritten. */
  lemma PressStartsTumble(s: State, d: Dir)
    requires Inv(s)
    ensures Accepts(s) ==>
      var r := Press(s, d);
      Animating(r) && r.rotateCheck == Code(d) && r.rotate == 0 && r == s.(rotateCheck := Code(d))
    ensures !Accepts(s) ==> Press(s, d) == s
  {
  }

  lemma {:induction false} PressPreservesInv(s: State, d: Dir)
    requires Inv(s)
    ensures Inv(Press(s, d))
  {
  }

  /** Every frame keeps the invariant. */
  lemma {:induction false} TickPreservesInv(s: State)
    requires Inv(s)
    ensures Inv(Tick(s))
  {
    if !Animating(s) && s.rotateCheck != 0 {
      var d := DirOf(s.rotateCheck);
      var p := Tumble(s.pose, d);
      TumblePreservesValid(s.pose, d);
      LandCounted(s.board, p);
      var c := Commit(s);
      if c.gameCheck == 1 {
        SpawnValid();
        assert p.base == 1;
      }
    }
  }

  /** The move counter never decreases, and one frame adds at most one. */
  lemma MovesMonotone(s: State)
    requires Inv(s)
    ensures s.moves <= Tick(s).moves <= s.moves + 1
  {
    if !Animating(s) && s.rotateCheck != 0 {
      var p := Tumble(s.pose, DirOf(s.rotateCheck));
      TumblePreservesValid(s.pose, DirOf(s.rotateCheck));
      LandCounted(s.board, p);
    }
  }

  /** A lost or won game is final: neither a key press nor a frame
      changes it. */
  lemma TerminalIsFinal(s: State, d: Dir)
    requires Inv(s) && OutcomeOf(s) != Playing
    ensures Press(s, d) == s && Tick(s) == s
  {
  }

  /** Two switch landings in a row restore the switch flag. */
  lemma SwitchTwiceRestores(s: State, v1: Verdict, v2: Verdict)
    requires v1.toggles && v2.toggles
    ensures Apply(Apply(s, v1), v2).switchCheck == s.switchCheck
  {
    ToggleInvolution(s.switchCheck);
  }

  // ---------------------------------------------------------------------
  // Scenarios on level 1.

  /** From the start, a left tumble lands on two floor tiles: one move
      counted, still playing on level 1, the block lying along x with
      its centre 0.75 to the left of the origin and 0.25 lower. */
  lemma {:induction false} Level1LeftIsSafe()
    ensures var r := TickN(Press(Init(), Left), 10);
      && r.moves == 1 && OutcomeOf(r) == Playing && r.level == 1
      && r.pose == Pose(FULL, HALF, HALF, -3, -1, 0, -1)
      && r.rotateCheck == 0
  {
    InitInv();
    TumbleTakesTenFrames(Init(), Left);
    var t := Press(Init(), Left).(rotate := 90);
    assert Tumble(Init().pose, Left) == Pose(FULL, HALF, HALF, -3, -1, 0, -1);
    assert Footprint(Pose(FULL, HALF, HALF, -3, -1, 0, -1)) == Two(4, 5, 3, 5);
    assert Level1()[4][5] == FLOOR && Level1()[3][5] == FLOOR;
  }

  /** From the start, a right tumble lands with both cells on void
      (`board_1[6][5]` and `board_1[7][5]`): the game is lost, and the
      move is counted. */
  lemma {:induction false} Level1RightIsLost()
    ensures Footprint(Tumble(Init().pose, Right)) == Two(7, 5, 6, 5)
    ensures Level1()[6][5] == VOID && Level1()[7][5] == VOID
    ensures var r := TickN(Press(Init(), Right), 10);
      && r.moves == 1 && OutcomeOf(r) == Lost
  {
    InitInv();
    TumbleTakesTenFrames(Init(), Right);
    assert Tumble(Init().pose, Right) == Pose(FULL, HALF, HALF, 3, -1, 0, -1);
    assert Footprint(Pose(FULL, HALF, HALF, 3, -1, 0, -1)) == Two(7, 5, 6, 5);
    assert Level1()[7][5] == VOID;
  }
}
