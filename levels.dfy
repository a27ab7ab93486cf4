/** The level catalog: brick specifications, the eight grid generators that
    build each level's bricks, the ordered catalog, and lookup by id. */
module Levels {
  import opened Common

  datatype PowerUp = Multi | Big | Sticky | Laser

  /** One brick as a level describes it: grid column `x`, grid row `y`,
      remaining hits, colour, optional power-up, optional image URL. */
  datatype BrickSpec = BrickSpec(x: int, y: int, hits: int, color: string,
                                 powerup: Option<PowerUp>, image: Option<string>)

  datatype Difficulty = Easy | Normal | Hard | Insane

  function DifficultyName(d: Difficulty): string
  {
    match d
    case Easy => "Easy"
    case Normal => "Normal"
    case Hard => "Hard"
    case Insane => "Insane"
  }

  datatype Level = Level(id: string, title: string, description: string,
                         difficulty: Difficulty, thumbnail: string, bricks: seq<BrickSpec>)

  /** The power-up table a uniform pick indexes into. */
  const PowerUps: seq<PowerUp> := [Multi, Big, Sticky, Laser]

  function RandomImg(seed: nat): string
  {
    "https://picsum.photos/800/300?random=" + NatToString(seed)
  }

  /** The eight brick generators, in catalog order. */
  datatype Generator = Sunrise | Cobalt | Emerald | Neon | Volcanic | Crystal | Midnight | Aurora

  /** The Math.random() values one brick of a generator may consume:
      up to two for its hit count and up to two for its power-up. */
  datatype CellDraws = CellDraws(hitRoll: Unit, hitRoll2: Unit, powerupRoll: Unit, powerupPick: Unit)

  /** The random draws of a whole catalog build, per generator, row and column. */
  type Draws = (Generator, nat, nat) -> CellDraws

  datatype Cell = Cell(row: nat, col: nat)

  /** Row-major order: row first, then column. */
  predicate Before(a: Cell, b: Cell)
  {
    a.row < b.row || (a.row == b.row && a.col < b.col)
  }

  function Rows(g: Generator): nat
  {
    match g
    case Sunrise => 4
    case Cobalt => 5
    case Emerald => 6
    case Neon => 5
    case Volcanic => 6
    case Crystal => 7
    case Midnight => 6
    case Aurora => 8
  }

  /** Never more columns than the 14 the playfield is laid out in. */
  function Cols(g: Generator): (c: nat)
    ensures 8 <= c <= 14
  {
    match g
    case Sunrise => 8
    case Cobalt => 9
    case Emerald => 10
    case Neon => 11
    case Volcanic => 9
    case Crystal => 12
    case Midnight => 13
    case Aurora => 14
  }

  /** The `if` filter inside each generator's inner loop. */
  predicate Keeps(g: Generator, row: nat, col: nat)
  {
    match g
    case Cobalt => (row + col) % 2 == 0
    case Neon => col % 2 == 0 || row % 2 == 0
    case Crystal => col > row && col < 11 - row
    case Aurora => (row + col) % 3 != 0
    case _ => true
  }

  /** Generators without an inclusion filter emit their whole grid. */
  predicate IsFull(g: Generator)
  {
    g == Sunrise || g == Emerald || g == Volcanic || g == Midnight
  }

  function HitsFor(g: Generator, row: nat, d: CellDraws): (h: int)
    ensures 1 <= h <= 3
    ensures g == Sunrise ==> h == 1
    ensures g == Cobalt || g == Neon || g == Crystal ==> h <= 2
  {
    match g
    case Sunrise => 1
    case Cobalt => if d.hitRoll < 0.25 then 2 else 1
    case Emerald => if row % 3 == 0 then 3 else if row % 2 == 0 then 2 else 1
    case Neon => if d.hitRoll < 0.15 then 2 else 1
    case Volcanic => if d.hitRoll < 0.2 then 3 else if d.hitRoll2 < 0.25 then 2 else 1
    case Crystal => if d.hitRoll < 0.12 then 2 else 1
    case Midnight => if d.hitRoll < 0.35 then 3 else if d.hitRoll2 < 0.3 then 2 else 1
    case Aurora => if d.hitRoll < 0.25 then 3 else if d.hitRoll2 < 0.25 then 2 else 1
  }

  /** With probability `chance`, a uniformly chosen entry of the power-up table. */
  function AnyPowerUp(d: CellDraws, chance: real): Option<PowerUp>
  {
    if d.powerupRoll < chance then Some(PowerUps[FloorIndex(d.powerupPick, |PowerUps|)]) else None
  }

  function PowerUpFor(g: Generator, d: CellDraws): (p: Option<PowerUp>)
    ensures g == Emerald ==> p in {None, Some(Sticky), Some(Laser)}
    ensures g == Volcanic ==> p in {None, Some(Laser), Some(Multi)}
    ensures g == Midnight ==> p in {None, Some(Laser)}
  {
    match g
    case Sunrise => AnyPowerUp(d, 0.06)
    case Cobalt => AnyPowerUp(d, 0.07)
    case Emerald => if d.powerupRoll < 0.06 then (if d.powerupPick < 0.5 then Some(Sticky) else Some(Laser)) else None
    case Neon => AnyPowerUp(d, 0.05)
    case Volcanic => if d.powerupRoll < 0.07 then (if d.powerupPick < 0.5 then Some(Laser) else Some(Multi)) else None
    case Crystal => AnyPowerUp(d, 0.06)
    case Midnight => if d.powerupRoll < 0.05 then Some(Laser) else None
    case Aurora => AnyPowerUp(d, 0.06)
  }

  function ColorFor(g: Generator, row: nat, col: nat): string
  {
    match g
    case Sunrise => ["#FDE68A", "#FCA5A5", "#FBCFE8", "#C7F9CC"][row % 4]
    case Cobalt => ["#93C5FD", "#7DD3FC", "#60A5FA"][row % 3]
    case Emerald => ["#BBF7D0", "#86EFAC", "#4ADE80"][row % 3]
    case Neon => ["#F472B6", "#60A5FA", "#FDE68A"][col % 3]
    case Volcanic => ["#F97316", "#FB923C", "#EF4444"][row % 3]
    case Crystal => ["#C7D2FE", "#A7F3D0", "#FDE68A"][row % 3]
    case Midnight => ["#94A3B8", "#475569", "#0F172A"][row % 3]
    case Aurora => ["#A78BFA", "#60A5FA", "#34D399"][col % 3]
  }

  /** Only the first generator attaches an image to each brick. */
  function ImageFor(g: Generator, row: nat, col: nat): Option<string>
  {
    if g == Sunrise then Some(RandomImg(201 + row * 8 + col)) else None
  }

  /** The brick a generator pushes for grid cell `c`. */
  function CellBrick(g: Generator, c: Cell, d: CellDraws): BrickSpec
  {
    BrickSpec(c.col, c.row, HitsFor(g, c.row, d), ColorFor(g, c.row, c.col),
              PowerUpFor(g, d), ImageFor(g, c.row, c.col))
  }

  /** A generator's inclusion filter as a value: which (row, col) cells it keeps. */
  function Filter(g: Generator): (nat, nat) -> bool
  {
    (row: nat, col: nat) => Keeps(g, row, col)
  }

  /** The cells of row `row` with column below `c` that pass `keep`, left to right. */
  function RowCells(keep: (nat, nat) -> bool, row: nat, c: nat): seq<Cell>
  {
    if c == 0 then []
    else RowCells(keep, row, c - 1) + (if keep(row, c - 1) then [Cell(row, c - 1)] else [])
  }

  /** The cells of the first `r` rows of a `cols`-wide grid that pass `keep`,
      in row-major order. */
  function GridCells(keep: (nat, nat) -> bool, cols: nat, r: nat): seq<Cell>
  {
    if r == 0 then [] else GridCells(keep, cols, r - 1) + RowCells(keep, r - 1, cols)
  }

  /** Every cell a generator emits a brick for, in emission order. */
  function KeptCells(g: Generator): seq<Cell>
  {
    GridCells(Filter(g), Cols(g), Rows(g))
  }

  /** The brick a generator pushes for a cell, given the catalog's draws. */
  function Maker(g: Generator, d: Draws): Cell -> BrickSpec
  {
    (c: Cell) => CellBrick(g, c, d(g, c.row, c.col))
  }

  /** The bricks `make` produces for `cells`, in the same order. */
  function CellBricks(make: Cell -> BrickSpec, cells: seq<Cell>): seq<BrickSpec>
    decreases |cells|
  {
    if cells == [] then [] else CellBricks(make, cells[..|cells| - 1]) + [make(cells[|cells| - 1])]
  }

  /** The bricks a generator returns for the given random draws. */
  function GridBricks(g: Generator, d: Draws): seq<BrickSpec>
  {
    CellBricks(Maker(g, d), KeptCells(g))
  }

  lemma CellBricksSnoc(make: Cell -> BrickSpec, cells: seq<Cell>, c: Cell)
    ensures CellBricks(make, cells + [c]) == CellBricks(make, cells) + [make(c)]
  {
    assert (cells + [c])[..|cells|] == cells;
  }

  /** One more column of a row appends the brick for that cell when it passes the filter. */
  lemma PushStep(make: Cell -> BrickSpec, above: seq<Cell>, keep: (nat, nat) -> bool, row: nat, col: nat)
    ensures CellBricks(make, above + RowCells(keep, row, col + 1)) ==
            CellBricks(make, above + RowCells(keep, row, col)) + (if keep(row, col) then [make(Cell(row, col))] else [])
  {
    var done := above + RowCells(keep, row, col);
    if keep(row, col) {
      assert above + RowCells(keep, row, col + 1) == done + [Cell(row, col)];
      CellBricksSnoc(make, done, Cell(row, col));
    } else {
      assert RowCells(keep, row, col + 1) == RowCells(keep, row, col);
    }
  }

  /** The inner loop of a generator: one row, left to right, appending a
      brick for each column that passes the filter. */
  method PushRow(g: Generator, row: nat, make: Cell -> BrickSpec, bricks: seq<BrickSpec>, ghost above: seq<Cell>)
    returns (out: seq<BrickSpec>)
    requires bricks == CellBricks(make, above)
    ensures out == CellBricks(make, above + RowCells(Filter(g), row, Cols(g)))
  {
    ghost var keep := Filter(g);
    out := bricks;
    var col := 0;
    assert above + RowCells(keep, row, 0) == above;
    while col < Cols(g)
      invariant 0 <= col <= Cols(g)
      invariant out == CellBricks(make, above + RowCells(keep, row, col))
    {
      PushStep(make, above, keep, row, col);
      assert keep(row, col) == Keeps(g, row, col);
      if Keeps(g, row, col) {
        out := out + [make(Cell(row, col))];
      }
      col := col + 1;
    }
  }

  /** The generator's nested loops: rows outer, columns inner, pushing one
      brick per cell that passes the filter. */
  method BuildBricks(g: Generator, d: Draws) returns (bricks: seq<BrickSpec>)
    ensures bricks == GridBricks(g, d)
  {
    ghost var keep := Filter(g);
    var make := Maker(g, d);
    bricks := [];
    var row := 0;
    while row < Rows(g)
      invariant 0 <= row <= Rows(g)
      invariant bricks == CellBricks(make, GridCells(keep, Cols(g), row))
    {
      bricks := PushRow(g, row, make, bricks, GridCells(keep, Cols(g), row));
      assert GridCells(keep, Cols(g), row + 1) == GridCells(keep, Cols(g), row) + RowCells(keep, row, Cols(g));
      row := row + 1;
    }
  }

  function Id(g: Generator): string
  {
    match g
    case Sunrise => "1"
    case Cobalt => "2"
    case Emerald => "3"
    case Neon => "4"
    case Volcanic => "5"
    case Crystal => "6"
    case Midnight => "7"
    case Aurora => "8"
  }

  function Title(g: Generator): string
  {
    match g
    case Sunrise => "Sunrise Break"
    case Cobalt => "Cobalt Formation"
    case Emerald => "Emerald Labyrinth"
    case Neon => "Neon Grid"
    case Volcanic => "Volcanic Core"
    case Crystal => "Crystal Cascade"
    case Midnight => "Midnight Fortress"
    case Aurora => "Aurora Finale"
  }

  function Description(g: Generator): string
  {
    match g
    case Sunrise => "A gentle introduction—low density bricks and slow ball speed. Great for warming up, with bright golden bricks."
    case Cobalt => "Bricks sit in staggered rows with some two-hit bricks. Watch out for narrow lanes."
    case Emerald => "A denser layout with several 3-hit bricks; precise aiming required."
    case Neon => "Bright neon bricks arranged in a challenging grid with narrow gaps."
    case Volcanic => "Aggressive layout with several hard bricks and sporadic powerups—fast ball recommended."
    case Crystal => "A cascading formation requiring multi-ball strategies and careful paddle control."
    case Midnight => "Tough bricks form walls and champions—use laser powerups to thin the defense."
    case Aurora => "A beautiful but demanding finale combining all mechanics—precision and powerups win the day."
  }

  function DifficultyOf(g: Generator): Difficulty
  {
    match g
    case Sunrise => Easy
    case Cobalt => Normal
    case Emerald => Hard
    case Neon => Normal
    case Volcanic => Hard
    case Crystal => Normal
    case Midnight => Insane
    case Aurora => Insane
  }

  function ThumbnailSeed(g: Generator): nat
  {
    match g
    case Sunrise => 101
    case Cobalt => 102
    case Emerald => 103
    case Neon => 104
    case Volcanic => 105
    case Crystal => 106
    case Midnight => 107
    case Aurora => 108
  }

  /** What a catalog entry says about its level besides its id and bricks. */
  datatype LevelInfo = LevelInfo(title: string, description: string, difficulty: Difficulty, thumbnail: string)

  function Info(g: Generator): LevelInfo
  {
    LevelInfo(Title(g), Description(g), DifficultyOf(g), RandomImg(ThumbnailSeed(g)))
  }

  function MakeLevel(g: Generator, info: LevelInfo, bricks: seq<BrickSpec>): Level
  {
    Level(Id(g), info.title, info.description, info.difficulty, info.thumbnail, bricks)
  }

  /** The generator at each catalog position. */
  function GeneratorAt(k: nat): Generator
    requires k < 8
  {
    [Sunrise, Cobalt, Emerald, Neon, Volcanic, Crystal, Midnight, Aurora][k]
  }

  /** The ordered catalog literal, one entry per generator, given each
      generator's metadata and the bricks it returned. */
  function CatalogOf(info: Generator -> LevelInfo, bricks: Generator -> seq<BrickSpec>): (cat: seq<Level>)
    ensures |cat| == 8
  {
    seq(8, k requires 0 <= k < 8 => MakeLevel(GeneratorAt(k), info(GeneratorAt(k)), bricks(GeneratorAt(k))))
  }

  /** The bricks each generator returns for the given random draws. */
  function BrickTable(d: Draws): Generator -> seq<BrickSpec>
  {
    (g: Generator) => GridBricks(g, d)
  }

  /** The ordered catalog, built once from the given random draws. */
  function Catalog(d: Draws): (cat: seq<Level>)
    ensures |cat| == 8
    ensures forall k :: 0 <= k < 8 ==> cat[k].id == Id(GeneratorAt(k)) && cat[k].bricks == GridBricks(GeneratorAt(k), d)
  {
    CatalogOf(Info, BrickTable(d))
  }

  /** `levels.findIndex(l => l.id === id)`: the first position holding `id`, or -1. */
  function FindIndex(levels: seq<Level>, id: string): (k: int)
    ensures -1 <= k < |levels|
    ensures k >= 0 ==> levels[k].id == id && forall j :: 0 <= j < k ==> levels[j].id != id
    ensures k == -1 ==> forall j :: 0 <= j < |levels| ==> levels[j].id != id
  {
    if |levels| == 0 then -1
    else if levels[0].id == id then 0
    else
      var k := FindIndex(levels[1..], id);
      if k == -1 then -1 else k + 1
  }

  /** `levels.find(l => l.id === id)`, with `undefined` as None. */
  function FindLevel(levels: seq<Level>, id: string): (r: Option<Level>)
    ensures r.Some? <==> exists j :: 0 <= j < |levels| && levels[j].id == id
    ensures r.Some? ==> r.value.id == id && r.value == levels[FindIndex(levels, id)]
  {
    var k := FindIndex(levels, id);
    if k >= 0 then Some(levels[k]) else None
  }

  /** The level after the one with id `id`: `levels[findIndex + 1]`, if that exists.
      An id that is not in the catalog gives index -1, hence the first level. */
  function NextLevel(levels: seq<Level>, id: string): (r: Option<Level>)
    ensures r.Some? ==> r.value in levels && FindIndex(levels, id) + 1 < |levels| &&
                        r.value == levels[FindIndex(levels, id) + 1]
    ensures r.None? <==> (|levels| == 0 || FindIndex(levels, id) == |levels| - 1)
  {
    var next := FindIndex(levels, id) + 1;
    if next < |levels| then Some(levels[next]) else None
  }
}
