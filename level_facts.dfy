/** What the catalog's generators are proved to produce: shape, order,
    counts, hit counts and power-up domains, and the catalog's ids. */
module LevelFacts {
  import opened Common
  import opened Levels

  lemma {:induction false} RowCellsInRow(keep: (nat, nat) -> bool, row: nat, c: nat)
    ensures |RowCells(keep, row, c)| <= c
    ensures forall i :: 0 <= i < |RowCells(keep, row, c)| ==>
              RowCells(keep, row, c)[i].row == row && RowCells(keep, row, c)[i].col < c &&
              keep(row, RowCells(keep, row, c)[i].col)
  {
    if c > 0 {
      RowCellsInRow(keep, row, c - 1);
    }
  }

  lemma {:induction false} RowCellsOrdered(keep: (nat, nat) -> bool, row: nat, c: nat)
    ensures forall i, j :: 0 <= i < j < |RowCells(keep, row, c)| ==>
              RowCells(keep, row, c)[i].col < RowCells(keep, row, c)[j].col
  {
    if c > 0 {
      RowCellsOrdered(keep, row, c - 1);
      RowCellsInRow(keep, row, c - 1);
    }
  }

  /** Every column below `c` that passes the filter is visited, at some position. */
  lemma {:induction false} RowCellVisited(keep: (nat, nat) -> bool, row: nat, c: nat, col: nat) returns (i: nat)
    requires col < c && keep(row, col)
    ensures i < |RowCells(keep, row, c)| && RowCells(keep, row, c)[i] == Cell(row, col)
  {
    if col < c - 1 {
      i := RowCellVisited(keep, row, c - 1, col);
      assert RowCells(keep, row, c)[i] == RowCells(keep, row, c - 1)[i];
    } else {
      i := |RowCells(keep, row, c - 1)|;
    }
  }

  /** Every cell visited in the first `r` rows is in bounds and passes the filter. */
  lemma {:induction false} GridCellsInGrid(keep: (nat, nat) -> bool, cols: nat, r: nat)
    ensures forall i :: 0 <= i < |GridCells(keep, cols, r)| ==>
              GridCells(keep, cols, r)[i].row < r && GridCells(keep, cols, r)[i].col < cols &&
              keep(GridCells(keep, cols, r)[i].row, GridCells(keep, cols, r)[i].col)
  {
    if r > 0 {
      GridCellsInGrid(keep, cols, r - 1);
      RowCellsInRow(keep, r - 1, cols);
    }
  }

  /** The cells come in strictly increasing row-major order. */
  lemma {:induction false} GridCellsOrdered(keep: (nat, nat) -> bool, cols: nat, r: nat)
    ensures forall i, j :: 0 <= i < j < |GridCells(keep, cols, r)| ==>
              Before(GridCells(keep, cols, r)[i], GridCells(keep, cols, r)[j])
  {
    if r > 0 {
      GridCellsOrdered(keep, cols, r - 1);
      GridCellsInGrid(keep, cols, r - 1);
      RowCellsOrdered(keep, r - 1, cols);
      RowCellsInRow(keep, r - 1, cols);
      var prev := GridCells(keep, cols, r - 1);
      var last := RowCells(keep, r - 1, cols);
      assert GridCells(keep, cols, r) == prev + last;
      forall i, j | 0 <= i < j < |prev + last|
        ensures Before((prev + last)[i], (prev + last)[j])
      {
        if j < |prev| {
        } else if i < |prev| {
          assert (prev + last)[j] == last[j - |prev|];
        } else {
          assert (prev + last)[i] == last[i - |prev|];
          assert (prev + last)[j] == last[j - |prev|];
        }
      }
    }
  }

  /** Every cell of the first `r` rows that passes the filter is visited, at some position. */
  lemma {:induction false} GridCellVisited(keep: (nat, nat) -> bool, cols: nat, r: nat, row: nat, col: nat) returns (i: nat)
    requires row < r && col < cols && keep(row, col)
    ensures i < |GridCells(keep, cols, r)| && GridCells(keep, cols, r)[i] == Cell(row, col)
  {
    var prev := GridCells(keep, cols, r - 1);
    var last := RowCells(keep, r - 1, cols);
    assert GridCells(keep, cols, r) == prev + last;
    if row < r - 1 {
      i := GridCellVisited(keep, cols, r - 1, row, col);
      assert (prev + last)[i] == prev[i];
    } else {
      var j := RowCellVisited(keep, row, cols, col);
      i := |prev| + j;
      assert (prev + last)[i] == last[j];
    }
  }

  /** One more row adds that row's kept cells. */
  lemma GridCellsStep(keep: (nat, nat) -> bool, cols: nat, r: nat)
    ensures |GridCells(keep, cols, r + 1)| == |GridCells(keep, cols, r)| + |RowCells(keep, r, cols)|
  {
  }

  lemma {:induction false} CellBricksAt(make: Cell -> BrickSpec, cells: seq<Cell>)
    ensures |CellBricks(make, cells)| == |cells|
    ensures forall i :: 0 <= i < |cells| ==> CellBricks(make, cells)[i] == make(cells[i])
  {
    if cells != [] {
      CellBricksAt(make, cells[..|cells| - 1]);
    }
  }

  /** Each brick is exactly what the generator's loop body pushes for its cell. */
  lemma GridBricksAt(g: Generator, d: Draws)
    ensures |GridBricks(g, d)| == |KeptCells(g)|
    ensures forall i :: 0 <= i < |KeptCells(g)| ==>
              GridBricks(g, d)[i] == CellBrick(g, KeptCells(g)[i], d(g, KeptCells(g)[i].row, KeptCells(g)[i].col))
  {
    CellBricksAt(Maker(g, d), KeptCells(g));
  }

  /** One brick per visited cell. */
  lemma GridBricksLength(g: Generator, d: Draws)
    ensures |GridBricks(g, d)| == |KeptCells(g)|
  {
    CellBricksAt(Maker(g, d), KeptCells(g));
  }

  /** The brick at one position sits at its cell's column and row, inside the grid. */
  lemma BrickAt(g: Generator, d: Draws, i: nat)
    requires i < |GridBricks(g, d)|
    ensures i < |KeptCells(g)|
    ensures GridBricks(g, d)[i].x == KeptCells(g)[i].col && GridBricks(g, d)[i].y == KeptCells(g)[i].row
    ensures 0 <= GridBricks(g, d)[i].y < Rows(g) && 0 <= GridBricks(g, d)[i].x < Cols(g)
  {
    GridBricksAt(g, d);
    GridCellsInGrid(Filter(g), Cols(g), Rows(g));
  }

  /** The brick at one position passes the generator's filter. */
  lemma BrickKept(g: Generator, d: Draws, i: nat)
    requires i < |GridBricks(g, d)|
    ensures 0 <= GridBricks(g, d)[i].y && 0 <= GridBricks(g, d)[i].x &&
            Keeps(g, GridBricks(g, d)[i].y, GridBricks(g, d)[i].x)
  {
    BrickAt(g, d, i);
    GridCellsInGrid(Filter(g), Cols(g), Rows(g));
    var c := KeptCells(g)[i];
    assert Filter(g)(c.row, c.col);
  }

  /** The brick at one position has the hits and power-up that the
      generator's rules give its cell for that cell's draws. */
  lemma BrickRules(g: Generator, d: Draws, i: nat)
    requires i < |GridBricks(g, d)|
    ensures var b := GridBricks(g, d)[i];
            0 <= b.y && 0 <= b.x &&
            b.hits == HitsFor(g, b.y, d(g, b.y, b.x)) && b.powerup == PowerUpFor(g, d(g, b.y, b.x))
  {
    GridBricksAt(g, d);
  }

  lemma KeptBefore(g: Generator, i: nat, j: nat)
    requires i < j < |KeptCells(g)|
    ensures Before(KeptCells(g)[i], KeptCells(g)[j])
  {
    GridCellsOrdered(Filter(g), Cols(g), Rows(g));
  }

  /** Every brick a generator emits lies in its grid, passes its filter and
      has 1 to 3 hits. */
  lemma GridBricksInGrid(g: Generator, d: Draws)
    ensures forall i :: 0 <= i < |GridBricks(g, d)| ==>
              var b := GridBricks(g, d)[i];
              0 <= b.y < Rows(g) && 0 <= b.x < Cols(g) && Keeps(g, b.y, b.x) && 1 <= b.hits <= 3
  {
    forall i | 0 <= i < |GridBricks(g, d)|
      ensures var b := GridBricks(g, d)[i];
              0 <= b.y < Rows(g) && 0 <= b.x < Cols(g) && Keeps(g, b.y, b.x) && 1 <= b.hits <= 3
    {
      BrickAt(g, d, i);
      BrickKept(g, d, i);
      BrickRules(g, d, i);
    }
  }

  /** The bricks come row by row, left to right within a row. */
  lemma GridBricksOrdered(g: Generator, d: Draws)
    ensures forall i, j :: 0 <= i < j < |GridBricks(g, d)| ==>
              var a, b := GridBricks(g, d)[i], GridBricks(g, d)[j];
              a.y < b.y || (a.y == b.y && a.x < b.x)
  {
    forall i, j | 0 <= i < j < |GridBricks(g, d)|
      ensures var a, b := GridBricks(g, d)[i], GridBricks(g, d)[j];
              a.y < b.y || (a.y == b.y && a.x < b.x)
    {
      BrickAt(g, d, i);
      BrickAt(g, d, j);
      KeptBefore(g, i, j);
    }
  }

  /** Every cell of the grid that passes the filter has its brick. */
  lemma GridBricksComplete(g: Generator, d: Draws)
    ensures forall row: nat, col: nat :: row < Rows(g) && col < Cols(g) && Keeps(g, row, col) ==>
              exists i :: 0 <= i < |GridBricks(g, d)| && GridBricks(g, d)[i].y == row && GridBricks(g, d)[i].x == col
  {
    forall row: nat, col: nat | row < Rows(g) && col < Cols(g) && Keeps(g, row, col)
      ensures exists i :: 0 <= i < |GridBricks(g, d)| && GridBricks(g, d)[i].y == row && GridBricks(g, d)[i].x == col
    {
      var i := KeptIndex(g, row, col);
      GridBricksLength(g, d);
      BrickAt(g, d, i);
      assert GridBricks(g, d)[i].y == row && GridBricks(g, d)[i].x == col;
    }
  }

  /** The position at which a generator visits a cell that passes its filter. */
  lemma KeptIndex(g: Generator, row: nat, col: nat) returns (i: nat)
    requires row < Rows(g) && col < Cols(g) && Keeps(g, row, col)
    ensures i < |KeptCells(g)| && KeptCells(g)[i] == Cell(row, col)
  {
    assert Filter(g)(row, col);
    i := GridCellVisited(Filter(g), Cols(g), Rows(g), row, col);
  }

  lemma {:induction false} FullRow(g: Generator, row: nat, c: nat)
    requires IsFull(g)
    ensures |RowCells(Filter(g), row, c)| == c
    ensures forall col :: 0 <= col < c ==> RowCells(Filter(g), row, c)[col] == Cell(row, col)
  {
    if c > 0 {
      FullRow(g, row, c - 1);
    }
  }

  /** A generator without a filter visits its whole grid: the cell at
      position i is in row i div Cols, column i mod Cols. */
  lemma {:induction false} FullGrid(g: Generator, r: nat)
    requires IsFull(g)
    ensures |GridCells(Filter(g), Cols(g), r)| == r * Cols(g)
    ensures forall i :: 0 <= i < |GridCells(Filter(g), Cols(g), r)| ==>
              GridCells(Filter(g), Cols(g), r)[i].col < Cols(g) && GridCells(Filter(g), Cols(g), r)[i].row * Cols(g) + GridCells(Filter(g), Cols(g), r)[i].col == i
  {
    var C := Cols(g);
    if r > 0 {
      FullGrid(g, r - 1);
      FullRow(g, r - 1, C);
      var prev := GridCells(Filter(g), Cols(g), r - 1);
      var last := RowCells(Filter(g), r - 1, C);
      assert GridCells(Filter(g), Cols(g), r) == prev + last;
      assert |prev| + C == r * C;
      forall i | |prev| <= i < |prev| + C
        ensures GridCells(Filter(g), Cols(g), r)[i].col < C && GridCells(Filter(g), Cols(g), r)[i].row * C + GridCells(Filter(g), Cols(g), r)[i].col == i
      {
        assert (prev + last)[i] == Cell(r - 1, i - |prev|);
      }
    }
  }

  /** For a generator without a filter: Rows * Cols bricks, the brick at
      position i sitting in row i div Cols, column i mod Cols. */
  lemma FullLayout(g: Generator, d: Draws)
    requires IsFull(g)
    ensures |GridBricks(g, d)| == Rows(g) * Cols(g)
    ensures forall i :: 0 <= i < |GridBricks(g, d)| ==>
              0 <= GridBricks(g, d)[i].x < Cols(g) && GridBricks(g, d)[i].y * Cols(g) + GridBricks(g, d)[i].x == i
  {
    FullGrid(g, Rows(g));
    GridBricksLength(g, d);
    forall i | 0 <= i < |GridBricks(g, d)|
      ensures 0 <= GridBricks(g, d)[i].x < Cols(g) && GridBricks(g, d)[i].y * Cols(g) + GridBricks(g, d)[i].x == i
    {
      FullBrick(g, d, i);
    }
  }

  lemma FullBrick(g: Generator, d: Draws, i: nat)
    requires IsFull(g) && i < |GridBricks(g, d)|
    ensures 0 <= GridBricks(g, d)[i].x < Cols(g) && GridBricks(g, d)[i].y * Cols(g) + GridBricks(g, d)[i].x == i
  {
    BrickAt(g, d, i);
    var c := KeptCells(g)[i];
    assert c.col < Cols(g) && c.row * Cols(g) + c.col == i by {
      FullGrid(g, Rows(g));
    }
  }

  /** Level 1: the full 4 x 8 grid, 32 bricks, each with one hit. */
  lemma SunriseLayout(g: Generator, d: Draws)
    requires g == Sunrise
    ensures |GridBricks(g, d)| == 32
    ensures forall i :: 0 <= i < |GridBricks(g, d)| ==> GridBricks(g, d)[i].hits == 1
  {
    FullLayout(g, d);
    assert Rows(g) == 4 && Cols(g) == 8;
    forall i | 0 <= i < |GridBricks(g, d)|
      ensures GridBricks(g, d)[i].hits == 1
    {
      BrickRules(g, d, i);
    }
  }

  /** Level 3: the full 6 x 10 grid, 60 bricks. */
  lemma EmeraldLayout(g: Generator, d: Draws)
    requires g == Emerald
    ensures |GridBricks(g, d)| == 60
  {
    FullLayout(g, d);
    assert Rows(g) == 6 && Cols(g) == 10;
  }

  /** Level 3 hit counts by row: three where row mod 3 is 0, else two on
      even rows, else one. */
  lemma EmeraldHits(g: Generator, d: Draws)
    requires g == Emerald
    ensures forall i :: 0 <= i < |GridBricks(g, d)| ==>
              var b := GridBricks(g, d)[i];
              b.hits == if b.y % 3 == 0 then 3 else if b.y % 2 == 0 then 2 else 1
  {
    forall i | 0 <= i < |GridBricks(g, d)|
      ensures var b := GridBricks(g, d)[i];
              b.hits == if b.y % 3 == 0 then 3 else if b.y % 2 == 0 then 2 else 1
    {
      BrickRules(g, d, i);
      BrickAt(g, d, i);
    }
  }

  /** Level 5: the full 6 x 9 grid, 54 bricks. */
  lemma VolcanicLayout(g: Generator, d: Draws)
    requires g == Volcanic
    ensures |GridBricks(g, d)| == 54
  {
    FullLayout(g, d);
    assert Rows(g) == 6 && Cols(g) == 9;
  }

  /** Level 7: the full 6 x 13 grid, 78 bricks. */
  lemma MidnightLayout(g: Generator, d: Draws)
    requires g == Midnight
    ensures |GridBricks(g, d)| == 78
  {
    FullLayout(g, d);
    assert Rows(g) == 6 && Cols(g) == 13;
  }

  /** A generator's filter value answers exactly as its `if` condition. */
  lemma FilterIsKeeps(g: Generator)
    ensures forall row: nat, col: nat :: Filter(g)(row, col) == Keeps(g, row, col)
  {
  }

  lemma DivTwoStep(x: nat)
    requires x >= 1
    ensures x / 2 - (x - 1) / 2 == if x % 2 == 0 then 1 else 0
  {
  }

  lemma DivThreeStep(x: nat)
    requires x >= 1
    ensures x / 3 - (x - 1) / 3 == if x % 3 == 0 then 1 else 0
  {
  }

  /** A row that keeps exactly the columns congruent to t modulo 2 holds
      (c + 1 - t) div 2 of its first c cells. */
  lemma {:induction false} KeptEveryOther(keep: (nat, nat) -> bool, row: nat, t: nat, c: nat)
    requires t < 2
    requires forall k: nat :: keep(row, k) == ((k + 2 - t) % 2 == 0)
    ensures |RowCells(keep, row, c)| == (c + 1 - t) / 2
  {
    if c > 0 {
      KeptEveryOther(keep, row, t, c - 1);
      DivTwoStep(c + 1 - t);
    }
  }

  /** Level 2 keeps cells whose row + col is even: a whole row of 9 keeps
      columns 0, 2, 4, 6, 8 on even rows and 1, 3, 5, 7 on odd ones. */
  lemma CobaltFullRow(keep: (nat, nat) -> bool, row: nat)
    requires forall r: nat, k: nat :: keep(r, k) == ((r + k) % 2 == 0)
    ensures |RowCells(keep, row, 9)| == if row % 2 == 0 then 5 else 4
  {
    var t := row % 2;
    forall k: nat
      ensures keep(row, k) == ((k + 2 - t) % 2 == 0)
    {
      assert row + k == 2 * (row / 2) + (k + 2 - t) + 2 * t - 2;
    }
    KeptEveryOther(keep, row, t, 9);
  }

  lemma {:induction false} CobaltPrefix(keep: (nat, nat) -> bool, r: nat)
    requires forall row: nat :: |RowCells(keep, row, 9)| == if row % 2 == 0 then 5 else 4
    ensures |GridCells(keep, 9, r)| == 4 * r + (r + 1) / 2
  {
    if r > 0 {
      CobaltPrefix(keep, r - 1);
      GridCellsStep(keep, 9, r - 1);
      CobaltSumStep(r);
    }
  }

  lemma CobaltSumStep(r: nat)
    requires r > 0
    ensures 4 * (r - 1) + r / 2 + (if (r - 1) % 2 == 0 then 5 else 4) == 4 * r + (r + 1) / 2
  {
  }

  /** Level 2 rows of 9 alternate 5, 4, 5, 4, 5: 23 bricks. */
  lemma CobaltKept(g: Generator)
    requires g == Cobalt
    ensures |KeptCells(g)| == 23
  {
    var keep := Filter(g);
    forall row: nat
      ensures |RowCells(keep, row, 9)| == if row % 2 == 0 then 5 else 4
    {
      assert forall r: nat, k: nat :: keep(r, k) == ((r + k) % 2 == 0) by {
        FilterIsKeeps(g);
      }
      CobaltFullRow(keep, row);
    }
    CobaltPrefix(keep, 5);
    assert Cols(g) == 9 && Rows(g) == 5;
  }

  lemma CobaltCount(g: Generator, d: Draws)
    requires g == Cobalt
    ensures |GridBricks(g, d)| == 23
  {
    CobaltKept(g);
    GridBricksLength(g, d);
  }

  /** Level 4 keeps cells with an even column or an even row: whole even
      rows, and columns 0, 2, 4, ... of odd rows. */
  lemma {:induction false} NeonRow(keep: (nat, nat) -> bool, row: nat, c: nat)
    requires forall r: nat, k: nat :: keep(r, k) == (k % 2 == 0 || r % 2 == 0)
    ensures |RowCells(keep, row, c)| == if row % 2 == 0 then c else (c + 1) / 2
  {
    if c > 0 {
      NeonRow(keep, row, c - 1);
      DivTwoStep(c + 1);
    }
  }

  lemma {:induction false} NeonPrefix(keep: (nat, nat) -> bool, r: nat)
    requires forall row: nat :: |RowCells(keep, row, 11)| == if row % 2 == 0 then 11 else 6
    ensures |GridCells(keep, 11, r)| == 6 * r + 5 * ((r + 1) / 2)
  {
    if r > 0 {
      NeonPrefix(keep, r - 1);
      GridCellsStep(keep, 11, r - 1);
      NeonSumStep(r);
    }
  }

  lemma NeonSumStep(r: nat)
    requires r > 0
    ensures 6 * (r - 1) + 5 * (r / 2) + (if (r - 1) % 2 == 0 then 11 else 6) == 6 * r + 5 * ((r + 1) / 2)
  {
  }

  /** Level 4 rows of 11 alternate 11, 6, 11, 6, 11: 45 bricks. */
  lemma NeonKept(g: Generator)
    requires g == Neon
    ensures |KeptCells(g)| == 45
  {
    var keep := Filter(g);
    forall row: nat
      ensures |RowCells(keep, row, 11)| == if row % 2 == 0 then 11 else 6
    {
      assert forall r: nat, k: nat :: keep(r, k) == (k % 2 == 0 || r % 2 == 0) by {
        FilterIsKeeps(g);
      }
      NeonRow(keep, row, 11);
    }
    NeonPrefix(keep, 5);
    assert Cols(g) == 11 && Rows(g) == 5;
  }

  lemma NeonCount(g: Generator, d: Draws)
    requires g == Neon
    ensures |GridBricks(g, d)| == 45
  {
    NeonKept(g);
    GridBricksLength(g, d);
  }

  /** Level 6 keeps row < col < 11 - row: the columns strictly between. */
  lemma {:induction false} CrystalRow(keep: (nat, nat) -> bool, row: nat, c: nat)
    requires forall r: nat, k: nat :: keep(r, k) == (k > r && k < 11 - r)
    ensures var hi := if c < 11 - row then c else 11 - row;
            |RowCells(keep, row, c)| == if hi > row + 1 then hi - row - 1 else 0
  {
    if c > 0 {
      CrystalRow(keep, row, c - 1);
    }
  }

  lemma {:induction false} CrystalPrefix(keep: (nat, nat) -> bool, r: nat)
    requires forall row: nat :: |RowCells(keep, row, 12)| == if row < 5 then 10 - 2 * row else 0
    ensures |GridCells(keep, 12, r)| ==
              if r == 0 then 0 else if r == 1 then 10 else if r == 2 then 18
              else if r == 3 then 24 else if r == 4 then 28 else 30
  {
    if r > 0 {
      CrystalPrefix(keep, r - 1);
      GridCellsStep(keep, 12, r - 1);
    }
  }

  /** Level 6 rows of 12 keep 10, 8, 6, 4, 2, 0, 0: a downward triangle of 30 bricks. */
  lemma CrystalKept(g: Generator)
    requires g == Crystal
    ensures |KeptCells(g)| == 30
  {
    var keep := Filter(g);
    forall row: nat
      ensures |RowCells(keep, row, 12)| == if row < 5 then 10 - 2 * row else 0
    {
      assert forall r: nat, k: nat :: keep(r, k) == (k > r && k < 11 - r) by {
        FilterIsKeeps(g);
      }
      CrystalRow(keep, row, 12);
    }
    CrystalPrefix(keep, 7);
    assert Cols(g) == 12 && Rows(g) == 7;
  }

  lemma CrystalCount(g: Generator, d: Draws)
    requires g == Crystal
    ensures |GridBricks(g, d)| == 30
  {
    CrystalKept(g);
    GridBricksLength(g, d);
  }

  /** A row that drops exactly the columns congruent to t modulo 3 holds
      c - (c + 2 - t) div 3 of its first c cells. */
  lemma {:induction false} DroppedEveryThird(keep: (nat, nat) -> bool, row: nat, t: nat, c: nat)
    requires t < 3
    requires forall k: nat :: keep(row, k) == ((k + 3 - t) % 3 != 0)
    ensures |RowCells(keep, row, c)| == c - (c + 2 - t) / 3
  {
    if c > 0 {
      DroppedEveryThird(keep, row, t, c - 1);
      DivThreeStep(c + 2 - t);
    }
  }

  /** Level 8 drops cells whose row + col is a multiple of 3: a whole row of
      14 keeps 10 cells when row mod 3 is 1 (dropping columns 2, 5, 8, 11),
      else 9 (dropping five columns). */
  lemma AuroraFullRow(keep: (nat, nat) -> bool, row: nat)
    requires forall r: nat, k: nat :: keep(r, k) == ((r + k) % 3 != 0)
    ensures |RowCells(keep, row, 14)| == if row % 3 == 1 then 10 else 9
  {
    var t := if row % 3 == 0 then 0 else 3 - row % 3;
    forall k: nat
      ensures keep(row, k) == ((k + 3 - t) % 3 != 0)
    {
      assert row + k == 3 * (row / 3) + (k + 3 - t) + (if row % 3 == 0 then -3 else 0);
    }
    DroppedEveryThird(keep, row, t, 14);
  }

  lemma {:induction false} AuroraPrefix(keep: (nat, nat) -> bool, r: nat)
    requires forall row: nat :: |RowCells(keep, row, 14)| == if row % 3 == 1 then 10 else 9
    ensures |GridCells(keep, 14, r)| == 9 * r + (r + 1) / 3
  {
    if r > 0 {
      AuroraPrefix(keep, r - 1);
      GridCellsStep(keep, 14, r - 1);
      AuroraSumStep(r);
    }
  }

  lemma AuroraSumStep(r: nat)
    requires r > 0
    ensures 9 * (r - 1) + r / 3 + (if (r - 1) % 3 == 1 then 10 else 9) == 9 * r + (r + 1) / 3
  {
  }

  /** Level 8 rows of 14 keep 9, 10, 9, 9, 10, 9, 9, 10: 75 bricks. */
  lemma AuroraKept(g: Generator)
    requires g == Aurora
    ensures |KeptCells(g)| == 75
  {
    var keep := Filter(g);
    forall row: nat
      ensures |RowCells(keep, row, 14)| == if row % 3 == 1 then 10 else 9
    {
      assert forall r: nat, k: nat :: keep(r, k) == ((r + k) % 3 != 0) by {
        FilterIsKeeps(g);
      }
      AuroraFullRow(keep, row);
    }
    AuroraPrefix(keep, 8);
    assert Cols(g) == 14 && Rows(g) == 8;
  }

  lemma AuroraCount(g: Generator, d: Draws)
    requires g == Aurora
    ensures |GridBricks(g, d)| == 75
  {
    AuroraKept(g);
    GridBricksLength(g, d);
  }

  /** Level 3 bricks carry only sticky or laser power-ups, level 5 only laser
      or multi-ball, level 7 only laser; the other levels draw from the whole
      power-up table. */
  lemma PowerUpDomains(g: Generator, d: Draws)
    ensures g == Emerald ==> forall i :: 0 <= i < |GridBricks(g, d)| ==>
              GridBricks(g, d)[i].powerup in {None, Some(Sticky), Some(Laser)}
    ensures g == Volcanic ==> forall i :: 0 <= i < |GridBricks(g, d)| ==>
              GridBricks(g, d)[i].powerup in {None, Some(Laser), Some(Multi)}
    ensures g == Midnight ==> forall i :: 0 <= i < |GridBricks(g, d)| ==>
              GridBricks(g, d)[i].powerup in {None, Some(Laser)}
  {
    forall i | 0 <= i < |GridBricks(g, d)|
      ensures var b := GridBricks(g, d)[i];
              0 <= b.y && 0 <= b.x && b.powerup == PowerUpFor(g, d(g, b.y, b.x))
    {
      BrickRules(g, d, i);
    }
  }

  /** Id of catalog position k: the decimal k + 1. */
  lemma CatalogIdAt(info: Generator -> LevelInfo, bricks: Generator -> seq<BrickSpec>, k: nat)
    requires k < 8
    ensures CatalogOf(info, bricks)[k].id == [DigitChar(k + 1)]
  {
    var g := GeneratorAt(k);
    assert CatalogOf(info, bricks)[k] == MakeLevel(g, info(g), bricks(g));
  }

  /** The catalog holds eight levels with ids "1" to "8" in that order, so
      its ids are distinct; entry k carries the bricks of the k-th generator. */
  lemma CatalogIds(info: Generator -> LevelInfo, bricks: Generator -> seq<BrickSpec>)
    ensures |CatalogOf(info, bricks)| == 8
    ensures forall k :: 0 <= k < 8 ==> CatalogOf(info, bricks)[k].id == [DigitChar(k + 1)]
    ensures forall k :: 0 <= k < 8 ==> CatalogOf(info, bricks)[k].bricks == bricks(GeneratorAt(k))
    ensures forall i, j :: 0 <= i < j < |CatalogOf(info, bricks)| ==>
              CatalogOf(info, bricks)[i].id != CatalogOf(info, bricks)[j].id
  {
    var cat := CatalogOf(info, bricks);
    forall k | 0 <= k < 8 ensures cat[k].id == [DigitChar(k + 1)] {
      CatalogIdAt(info, bricks, k);
    }
    forall i, j | 0 <= i < j < |cat| ensures cat[i].id != cat[j].id {
      CatalogIdAt(info, bricks, i);
      CatalogIdAt(info, bricks, j);
      assert cat[i].id[0] != cat[j].id[0];
    }
  }

  /** Looking up id k + 1 in the catalog finds position k. */
  lemma CatalogFind(info: Generator -> LevelInfo, bricks: Generator -> seq<BrickSpec>, k: nat)
    requires k < 8
    ensures FindIndex(CatalogOf(info, bricks), [DigitChar(k + 1)]) == k
    ensures FindLevel(CatalogOf(info, bricks), [DigitChar(k + 1)]) == Some(CatalogOf(info, bricks)[k])
  {
    CatalogIds(info, bricks);
    FindUnique(CatalogOf(info, bricks), [DigitChar(k + 1)], k);
  }

  /** With ids distinct, looking up the id at position k finds k. */
  lemma FindUnique(levels: seq<Level>, id: string, k: nat)
    requires k < |levels| && levels[k].id == id
    requires forall i, j :: 0 <= i < j < |levels| ==> levels[i].id != levels[j].id
    ensures FindIndex(levels, id) == k
  {
    var f := FindIndex(levels, id);
    assert f != -1 by {
      assert levels[k].id == id;
    }
    assert levels[f].id == id;
  }

  /** Level progression through the catalog: after level k + 1 comes level
      k + 2, and after the last level there is none. */
  lemma CatalogNext(info: Generator -> LevelInfo, bricks: Generator -> seq<BrickSpec>, k: nat)
    requires k < 8
    ensures NextLevel(CatalogOf(info, bricks), [DigitChar(k + 1)]) ==
              if k < 7 then Some(CatalogOf(info, bricks)[k + 1]) else None
  {
    CatalogFind(info, bricks, k);
  }

  /** An id that no level carries makes the next level the first one. */
  lemma NextOfUnknown(levels: seq<Level>, id: string)
    requires |levels| > 0 && forall j :: 0 <= j < |levels| ==> levels[j].id != id
    ensures NextLevel(levels, id) == Some(levels[0])
  {
    assert FindIndex(levels, id) == -1;
  }
}
