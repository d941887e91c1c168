/** The game's mutable state as the program keeps it: the runtime board
    array, the block's fields and the session globals, updated in place
    by the key handler and by each frame.  Each method is proved to
    change the state exactly as the `GameSession` function of the same
    name says. */
module BlockGame {
  import opened TileGrid
  import opened TumbleTransform
  import opened RuleEngine
  import GameSession

  /** The contents of a 10x10 board array, row `i` being `a[i, ..]`. */
  ghost function GridOf(a: array2<int>): (g: seq<seq<int>>)
    reads a
    requires a.Length0 == SIZE && a.Length1 == SIZE
    ensures IsGrid(g)
    ensures forall i, j :: 0 <= i < SIZE && 0 <= j < SIZE ==> g[i][j] == a[i, j]
  {
    seq(SIZE, i requires 0 <= i < SIZE reads a =>
      seq(SIZE, j requires 0 <= j < SIZE reads a => a[i, j]))
  }

  /** Two 10x10 tables with the same entries are equal. */
  lemma GridExt(g: seq<seq<int>>, h: seq<seq<int>>)
    requires IsGrid(g) && IsGrid(h)
    requires forall i, j :: 0 <= i < SIZE && 0 <= j < SIZE ==> g[i][j] == h[i][j]
    ensures g == h
  {
    forall i | 0 <= i < SIZE
      ensures g[i] == h[i]
    {
      assert forall j :: 0 <= j < SIZE ==> g[i][j] == h[i][j];
    }
  }

  class Game {
    /** The runtime board `board[10][10]`, indexed `board[x, z]`. */
    const board: array2<int>
    /** The block: extents, centre (in quarter units) and animation. */
    var length: int
    var height: int
    var width: int
    var cx: int
    var cy: int
    var cz: int
    var rotate: int
    var rotateCheck: int
    /** The session globals. */
    var baseCheck: int
    var moves: int
    var switchCheck: int
    var gameCheck: int
    var level: int

    /** The board array is 10x10. */
    ghost predicate BoardSized()
      reads this
    {
      board.Length0 == SIZE && board.Length1 == SIZE
    }

    /** The state as a `GameSession.State` value. */
    ghost function Snapshot(): GameSession.State
      reads this, board
      requires BoardSized()
    {
      GameSession.State(GridOf(board), Pose(length, height, width, cx, cy, cz, baseCheck),
                        rotate, rotateCheck, moves, switchCheck, gameCheck, level)
    }

    ghost predicate Valid()
      reads this, board
    {
      BoardSized() && GameSession.Inv(Snapshot())
    }

    /** Program start: the block is created standing at the origin
        (extents 0.5, 1, 0.5), level 1's table is copied into the board,
        every counter is 0 and `base_check` is 1. */
    constructor ()
      ensures Valid() && fresh(board)
      ensures Snapshot() == GameSession.Init()
    {
      board := new int[SIZE, SIZE];
      length, height, width := HALF, FULL, HALF;
      cx, cy, cz := 0, 0, 0;
      rotate, rotateCheck := 0, 0;
      baseCheck := 1;
      moves, switchCheck, gameCheck, level := 0, 0, 0, 1;
      new;
      LoadBoard();
      GameSession.InitInv();
    }

    /** `createBoard`: copy the table of the current level into the
        board, entry by entry; for a level outside 1..3 nothing is
        copied. */
    method LoadBoard()
      requires BoardSized()
      modifies board
      ensures IsLevel(level) ==> GridOf(board) == Table(level)
      ensures !IsLevel(level) ==> GridOf(board) == old(GridOf(board))
    {
      if IsLevel(level) {
        var t := Table(level);
        for i := 0 to SIZE
          invariant forall a, b :: 0 <= a < i && 0 <= b < SIZE ==> board[a, b] == t[a][b]
        {
          for j := 0 to SIZE
            invariant forall a, b :: 0 <= a < i && 0 <= b < SIZE ==> board[a, b] == t[a][b]
            invariant forall b :: 0 <= b < j ==> board[i, b] == t[i][b]
          {
            board[i, j] := t[i][j];
          }
        }
        GridExt(GridOf(board), t);
      }
    }

    /** An arrow-key release in direction `d`.  The tumble is accepted
        only from idle in a game still being played. */
    method Press(d: Dir)
      requires Valid()
      modifies this
      ensures Valid()
      ensures Snapshot() == GameSession.Press(old(Snapshot()), d)
    {
      if rotateCheck == 0 && gameCheck != -1 && level != 4 {
        rotateCheck := Code(d);
        rotate := 0;
      }
      GameSession.PressPreservesInv(old(Snapshot()), d);
    }

    /** The tile code under grid index (x, z); off the board it is Void. */
    method ReadCell(x: int, z: int) returns (c: int)
      requires BoardSized()
      ensures c == TileAt(GridOf(board), x, z)
    {
      if 0 <= x < SIZE && 0 <= z < SIZE {
        c := board[x, z];
      } else {
        c := VOID;
      }
    }

    /** The landing verdict for the block's current pose. */
    method Classify() returns (v: Verdict)
      requires BoardSized()
      ensures v == Land(GridOf(board), Pose(length, height, width, cx, cy, cz, baseCheck))
    {
      var p := Pose(length, height, width, cx, cy, cz, baseCheck);
      match Footprint(p)
      case One(x, z) =>
        var c := ReadCell(x, z);
        v := StandingRule(c);
      case Two(x1, z1, x2, z2) =>
        var c1 := ReadCell(x1, z1);
        var c2 := ReadCell(x2, z2);
        v := LyingRule(c1, c2);
      case NoCells =>
        v := Verdict(0, false, false, false);
    }

    /** The end of a tumble: move and reshape the block, go back to idle,
        then apply the landing rules to the counters. */
    method Commit()
      requires BoardSized()
      modifies this
      ensures Snapshot() == GameSession.Commit(old(Snapshot()))
    {
      if IsDirCode(rotateCheck) {
        var p := Tumble(Pose(length, height, width, cx, cy, cz, baseCheck), DirOf(rotateCheck));
        Place(p);
        var v := Classify();
        Score(v);
      }
    }

    /** Give the block pose `p` and end the tumble. */
    method Place(p: Pose)
      requires BoardSized()
      modifies this
      ensures Snapshot() == old(Snapshot()).(pose := p, rotateCheck := 0, rotate := 0)
    {
      length, height, width := p.length, p.height, p.width;
      cx, cy, cz := p.x, p.y, p.z;
      baseCheck := p.base;
      rotateCheck, rotate := 0, 0;
    }

    /** Apply a landing verdict: count the move, flip the switch, and
        record a loss or a cleared level. */
    method Score(v: Verdict)
      requires BoardSized()
      modifies this
      ensures Snapshot() == GameSession.Apply(old(Snapshot()), v)
    {
      moves := moves + v.counted;
      if v.toggles {
        switchCheck := Toggle(switchCheck);
      }
      if v.lost {
        gameCheck := -1;
      } else if v.cleared {
        gameCheck := 1;
        level := level + 1;
      }
    }

    /** After a cleared level: reload the board, respawn the block and
        clear the tumble, `game_check` and the switch. */
    method ResetLevel()
      requires BoardSized()
      modifies this, board
      ensures Snapshot() == GameSession.Reset(old(Snapshot()))
    {
      LoadBoard();
      length, height, width := HALF, FULL, HALF;
      cx, cy, cz := 0, 0, 0;
      rotateCheck, rotate := 0, 0;
      gameCheck, switchCheck := 0, 0;
    }

    /** One frame of the game: advance a tumble under way by 10 degrees,
        or commit it once it has reached 90, then handle a cleared
        level. */
    method Tick()
      requires Valid()
      modifies this, board
      ensures Valid()
      ensures Snapshot() == GameSession.Tick(old(Snapshot()))
    {
      if rotate < 90 && rotateCheck != 0 {
        rotate := rotate + 10;
      } else {
        if rotateCheck != 0 {
          Commit();
        }
        // The program tests `game_check == 1` on every frame, after the
        // animation step too; testing it here only is the same, because
        // `game_check` is 0 or -1 at the start of every frame (`Valid`).
        if gameCheck == 1 {
          ResetLevel();
        }
      }
      GameSession.TickPreservesInv(old(Snapshot()));
    }

    /** The main loop's end-of-game checks: a lost game, then a cleared
        third level. */
    method Finished() returns (lost: bool, won: bool)
      requires Valid()
      ensures lost <==> GameSession.OutcomeOf(Snapshot()) == GameSession.Lost
      ensures won <==> GameSession.OutcomeOf(Snapshot()) == GameSession.Won
    {
      lost := gameCheck == -1;
      won := !lost && level == 4;
    }
  }

  /** A client of the class: from the start, a left tumble is animated
      for nine frames and committed on the tenth, landing safely. */
  method PlayLeftOnce() returns (moves: int, lost: bool)
    ensures moves == 1 && !lost
  {
    var g := new Game();
    g.Press(Left);
    ghost var t := GameSession.Press(GameSession.Init(), Left);
    GameSession.InitInv();
    GameSession.PressPreservesInv(GameSession.Init(), Left);
    var k := 0;
    while k < 10
      invariant 0 <= k <= 10
      invariant g.Valid()
      invariant g.Snapshot() == GameSession.TickN(t, k)
    {
      GameSession.TickNSplit(t, k, 1);
      g.Tick();
      k := k + 1;
    }
    GameSession.Level1LeftIsSafe();
    var won;
    lost, won := g.Finished();
    moves := g.moves;
  }
}
