/** The three fixed 10x10 level tables, the tile codes and the
    world-to-grid mapping.

    A table is indexed `t[i][j]` where `i` is the column along the world
    x axis (world x = -2.5 + 0.5 i) and `j` the row along the world z
    axis (world z = 2.5 - 0.5 j).  Positions are measured in quarter
    units (0.25 world units), so a world coordinate w is the integer 4 w. */
module TileGrid {

  const VOID := 0
  const FLOOR := 1
  const FRAGILE := 2
  const BRIDGE := 3
  const SWITCH := 4
  const GOAL := 6

  /** Board side length, in cells. */
  const SIZE := 10

  predicate IsTileCode(c: int) {
    c == VOID || c == FLOOR || c == FRAGILE || c == BRIDGE || c == SWITCH || c == GOAL
  }

  /** A 10x10 table. */
  predicate IsGrid(g: seq<seq<int>>) {
    |g| == SIZE && forall i :: 0 <= i < |g| ==> |g[i]| == SIZE
  }

  /** A 10x10 table whose every entry is a tile code. */
  predicate WellFormed(g: seq<seq<int>>) {
    IsGrid(g) && forall i, j :: 0 <= i < SIZE && 0 <= j < SIZE ==> IsTileCode(g[i][j])
  }

  function Level1(): seq<seq<int>> {
    [ [1,1,1,1,1,1,0,0,0,0],
      [1,1,1,1,1,1,0,0,6,0],
      [1,1,0,0,1,1,0,0,1,0],
      [1,1,0,0,1,1,1,1,1,0],
      [1,1,0,0,0,1,0,1,1,1],
      [1,1,0,0,0,1,0,1,1,1],
      [1,1,0,0,0,0,0,1,1,1],
      [1,1,0,0,0,0,0,1,1,0],
      [1,1,1,1,1,1,1,1,1,0],
      [1,1,1,1,1,1,1,1,1,0] ]
  }

  function Level2(): seq<seq<int>> {
    [ [0,0,0,0,0,0,0,0,0,0],
      [0,1,1,1,1,1,1,0,6,0],
      [0,1,1,1,1,1,1,0,1,0],
      [1,1,1,0,0,3,0,1,1,1],
      [1,1,1,0,0,3,0,1,1,1],
      [1,1,1,0,0,1,0,1,1,1],
      [0,1,1,0,0,1,0,1,1,1],
      [0,1,1,0,0,4,0,1,1,1],
      [0,1,1,1,1,1,1,1,1,0],
      [0,1,1,1,1,1,1,1,1,0] ]
  }

  function Level3(): seq<seq<int>> {
    [ [0,0,0,1,1,1,0,0,0,0],
      [0,0,1,1,1,1,0,0,6,0],
      [1,1,1,1,1,1,0,0,1,0],
      [2,2,1,0,0,3,0,1,1,0],
      [1,1,1,0,0,3,0,1,1,0],
      [0,1,1,0,0,1,0,1,1,0],
      [1,1,1,0,0,4,0,1,1,0],
      [2,2,1,1,1,1,1,1,1,0],
      [1,1,1,1,1,1,1,1,1,1],
      [0,0,0,1,1,0,0,0,0,0] ]
  }

  predicate IsLevel(level: int) {
    1 <= level <= 3
  }

  /** The table of a level: `board_1`, `board_2` or `board_3`. */
  function Table(level: int): (t: seq<seq<int>>)
    requires IsLevel(level)
    ensures WellFormed(t)
  {
    LevelsWellFormed();
    if level == 1 then Level1() else if level == 2 then Level2() else Level3()
  }

  /** Every entry of the three tables is one of the six tile codes. */
  lemma LevelsWellFormed()
    ensures WellFormed(Level1()) && WellFormed(Level2()) && WellFormed(Level3())
  {
    RowsWellFormed(Level1());
    RowsWellFormed(Level2());
    RowsWellFormed(Level3());
  }

  lemma RowsWellFormed(g: seq<seq<int>>)
    requires IsGrid(g)
    requires forall i :: 0 <= i < SIZE ==> RowWellFormed(g[i])
    ensures WellFormed(g)
  {
    forall i, j | 0 <= i < SIZE && 0 <= j < SIZE
      ensures IsTileCode(g[i][j])
    {
      assert RowWellFormed(g[i]);
    }
  }

  predicate RowWellFormed(r: seq<int>) {
    |r| == SIZE && forall j :: 0 <= j < |r| ==> IsTileCode(r[j])
  }

  /** Whether a grid index pair lies on the board. */
  predicate InRange(x: int, z: int) {
    0 <= x < SIZE && 0 <= z < SIZE
  }

  /** The tile under grid index (x, z); an index off the board reads as Void. */
  function TileAt(g: seq<seq<int>>, x: int, z: int): (c: int)
    requires IsGrid(g)
    ensures InRange(x, z) ==> c == g[x][z]
    ensures !InRange(x, z) ==> c == VOID
  {
    if InRange(x, z) then g[x][z] else VOID
  }

  /** `n / 2` as C computes it when it converts a float to an int:
      the quotient is truncated toward zero. */
  function TruncHalf(n: int): (r: int)
    ensures n >= 0 ==> 2 * r <= n < 2 * r + 2
    ensures n < 0 ==> 2 * r - 2 < n <= 2 * r
    ensures n % 2 == 0 ==> 2 * r == n
  {
    if n >= 0 then n / 2 else -((-n) / 2)
  }

  /** Column index of world x coordinate `qx` (in quarters):
      `(int)((x + 2.5) / 0.5)`.  It is exact on the tile centres, lands
      on the board exactly for x in [-2.5, 2.5), and, because the cast
      truncates, also maps x just left of the board, in (-3, -2.5), to
      column 0. */
  function ColumnOf(qx: int): (i: int)
    ensures qx % 2 == 0 ==> -10 + 2 * i == qx
    ensures 0 <= i < SIZE <==> -12 < qx < 10
    ensures -12 < qx < -10 ==> i == 0
  {
    TruncHalf(qx + 10)
  }

  /** Row index of world z coordinate `qz` (in quarters):
      `(int)((-z + 2.5) / 0.5)`.  It is exact on the tile centres, lands
      on the board exactly for z in (-2.5, 2.5], and, because the cast
      truncates, also maps z just above the board, in (2.5, 3), to
      row 0. */
  function RowOf(qz: int): (j: int)
    ensures qz % 2 == 0 ==> 10 - 2 * j == qz
    ensures 0 <= j < SIZE <==> -10 < qz < 12
    ensures 10 < qz < 12 ==> j == 0
  {
    TruncHalf(-qz + 10)
  }

  /** The two mappings invert the placement of the board's tiles
      (tile (i, j) sits at world (-2.5 + 0.5 i, 2.5 - 0.5 j)). */
  lemma GridMappingInverts(i: int, j: int)
    ensures ColumnOf(-10 + 2 * i) == i
    ensures RowOf(10 - 2 * j) == j
  {
  }
}
