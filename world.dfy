/**
 * The world: a `height` x `width` grid of cells. Rows 0 and `height - 1` are
 * walls, the x axis wraps around and the y axis is clamped. Every cell carries
 * a kind, an optional occupant id, an organic quantity and a mineral quantity.
 */
module WorldModel {
  import opened Wrappers
  import opened Config

  datatype Kind = Empty | Wall | BotCell | Organic

  /**
   * One grid cell. The fields are independent, as in the source record: an
   * Organic cell may still carry the id of the bot that died there, and an
   * Empty cell keeps whatever organic quantity it had.
   */
  datatype Cell = Cell(kind: Kind, entityId: Option<int>, organic: nat, minerals: nat)

  /** A freshly created cell: Empty, unoccupied, no organic matter, no minerals. */
  const BLANK := Cell(Empty, None, 0, 0)

  /** The grid as a list of rows, indexed `g[y][x]`. */
  type Grid = seq<seq<Cell>>

  ghost predicate Shaped(g: Grid, width: int, height: int) {
    |g| == height && forall y :: 0 <= y < |g| ==> |g[y]| == width
  }

  ghost predicate AllWall(row: seq<Cell>) {
    forall x :: 0 <= x < |row| ==> row[x].kind == Wall
  }

  /** Every cell of the top and bottom rows is a Wall. */
  ghost predicate WallsIntact(g: Grid) {
    |g| >= 2 && AllWall(g[0]) && AllWall(g[|g| - 1])
  }

  /** The grid with the cell at column x, row y replaced by c. */
  function Update(g: Grid, x: int, y: int, c: Cell): (r: Grid)
    requires 0 <= y < |g| && 0 <= x < |g[y]|
    ensures |r| == |g| && forall j :: 0 <= j < |g| ==> |r[j]| == |g[j]|
    ensures r[y][x] == c
    ensures forall j, i :: 0 <= j < |g| && 0 <= i < |g[j]| && (j != y || i != x) ==> r[j][i] == g[j][i]
    ensures c == g[y][x] ==> r == g
  {
    assert c == g[y][x] ==> g[y][x := c] == g[y];
    g[y := g[y][x := c]]
  }

  /** What `set_bot` makes of one cell. */
  function PlacedBot(c: Cell, entityId: Option<int>): Cell {
    if entityId.None? then
      if c.kind == BotCell then c.(kind := Empty, entityId := None) else c
    else
      c.(kind := BotCell, entityId := entityId)
  }

  /** What `set_empty` makes of one cell: minerals and organic quantity stay. */
  function Emptied(c: Cell): Cell {
    c.(kind := Empty, entityId := None)
  }

  /** What `add_organic` makes of one cell; a negative amount adds nothing. */
  function WithOrganic(c: Cell, amount: int): Cell {
    c.(kind := Organic, organic := c.organic + Max(0, amount))
  }

  /** Minerals seeded at row y: from the middle row down to the row above the floor. */
  function InitialMinerals(height: int, y: int): (m: nat)
    ensures m > 0 <==> height / 2 <= y < height - 1
    ensures m > 0 ==> m >= MINERALS_BASE_PER_CELL + MINERALS_PER_DEPTH
  {
    if height / 2 <= y < height - 1 then
      MINERALS_BASE_PER_CELL + (y - height / 2 + 1) * MINERALS_PER_DEPTH
    else 0
  }

  function Distance(a: int, b: int): nat {
    if a <= b then b - a else a - b
  }

  /** Sum of the organic quantities of a row. */
  function RowOrganic(row: seq<Cell>): nat {
    if row == [] then 0 else RowOrganic(row[..|row| - 1]) + row[|row| - 1].organic
  }

  /** Sum of the organic quantities of every cell of the grid, whatever its kind. */
  function TotalOrganic(g: Grid): nat {
    if g == [] then 0 else TotalOrganic(g[..|g| - 1]) + RowOrganic(g[|g| - 1])
  }

  lemma {:induction false} MulAtLeast(k: int, d: int)
    requires d > 0
    ensures k >= 1 ==> d * k >= d
    decreases if k < 1 then 0 else k
  {
    if k > 1 {
      MulAtLeast(k - 1, d);
      assert d * k == d * (k - 1) + d;
    }
  }

  /** a <= b implies a / d <= b / d for a positive divisor. */
  lemma DivMonotone(a: int, b: int, d: int)
    requires 0 <= a <= b && 0 < d
    ensures a / d <= b / d
  {
    var q1, q2 := a / d, b / d;
    assert a == d * q1 + a % d && 0 <= a % d < d;
    assert b == d * q2 + b % d && 0 <= b % d < d;
    assert d * q1 - d * q2 < d;
    assert d * (q1 - q2) == d * q1 - d * q2;
    MulAtLeast(q1 - q2, d);
  }

  /** k * a / d lies in [0, k] when 0 <= a <= d. */
  lemma ScaledBelow(k: int, a: int, d: int)
    requires 0 <= k && 0 <= a <= d && 0 < d
    ensures 0 <= k * a / d <= k
  {
    var q := k * a / d;
    assert k * a == d * q + (k * a) % d && 0 <= (k * a) % d;
    assert k * d - k * a == k * (d - a);
    assert d * (q - k) == d * q - d * k;
    MulAtLeast(q - k, d);
  }

  class World {
    const width: int
    const height: int
    var grid: Grid

    /** The construction-time requirement, which the dimensions keep for ever. */
    predicate Sized() {
      8 <= width && 8 <= height
    }

    ghost predicate Valid()
      reads this
    {
      Sized() && Shaped(grid, width, height)
    }

    constructor (width: int, height: int)
      requires width >= 8 && height >= 8
      ensures this.width == width && this.height == height && Valid()
      ensures WallsIntact(grid)
      ensures forall y, x :: 0 < y < height - 1 && 0 <= x < width ==> grid[y][x].kind == Empty
      ensures forall y, x :: 0 <= y < height && 0 <= x < width ==>
        grid[y][x].entityId == None && grid[y][x].organic == 0
      ensures forall y, x :: 0 <= y < height && 0 <= x < width ==>
        grid[y][x].minerals == InitialMinerals(height, y)
    {
      this.width := width;
      this.height := height;
      grid := seq(height, _ => seq(width, _ => BLANK));
      new;
      var x := 0;
      while x < width
        invariant 0 <= x <= width && Valid()
        invariant forall r, i :: 0 <= r < height && 0 <= i < width ==>
          grid[r][i] == if (r == 0 || r == height - 1) && i < x then BLANK.(kind := Wall) else BLANK
      {
        grid := Update(grid, x, 0, grid[0][x].(kind := Wall, entityId := None));
        grid := Update(grid, x, height - 1, grid[height - 1][x].(kind := Wall, entityId := None));
        x := x + 1;
      }
      var mineralsTop := height / 2;
      var y := mineralsTop;
      while y < height - 1
        invariant mineralsTop <= y <= height - 1 && Valid()
        invariant forall r, i :: 0 <= r < height && 0 <= i < width ==>
          grid[r][i] == Cell(if r == 0 || r == height - 1 then Wall else Empty, None, 0,
                             if r < y then InitialMinerals(height, r) else 0)
      {
        var base := MINERALS_BASE_PER_CELL + (y - mineralsTop + 1) * MINERALS_PER_DEPTH;
        x := 0;
        while x < width
          invariant 0 <= x <= width && Valid()
          invariant forall r, i :: 0 <= r < height && 0 <= i < width ==>
            grid[r][i] == Cell(if r == 0 || r == height - 1 then Wall else Empty, None, 0,
                               if r < y || (r == y && i < x) then InitialMinerals(height, r) else 0)
        {
          grid := Update(grid, x, y, grid[y][x].(minerals := base));
          x := x + 1;
        }
        y := y + 1;
      }
    }

    /** The column x reduced into [0, width): the x axis is a ring. */
    function WrapX(x: int): (r: int)
      requires Sized()
      ensures 0 <= r < width && r == x % width
      ensures 0 <= x < width ==> r == x
    {
      if x < 0 then x % width
      else if x >= width then x % width
      else x
    }

    /** The row y saturated into [0, height): the in-range row nearest to y. */
    function ClampY(y: int): (r: int)
      requires Sized()
      ensures 0 <= r < height
      ensures forall z :: 0 <= z < height ==> Distance(r, y) <= Distance(z, y)
    {
      if y < 0 then 0
      else if y >= height then height - 1
      else y
    }

    /** Inside the grid and on neither wall row. */
    predicate InBoundsPlayable(x: int, y: int)
      requires Sized()
    {
      0 <= x < width && 0 < y < height - 1
    }

    function Get(x: int, y: int): (c: Cell)
      reads this
      requires Valid() && 0 <= x < width && 0 <= y < height
      ensures c == grid[y][x]
      ensures WallsIntact(grid) && (y == 0 || y == height - 1) ==> c.kind == Wall
    {
      grid[y][x]
    }

    method SetBot(x: int, y: int, entityId: Option<int>)
      requires Valid() && 0 <= x < width && 0 <= y < height
      modifies this
      ensures Valid() && grid == Update(old(grid), x, y, grid[y][x])
      ensures entityId.Some? ==> grid[y][x] == old(grid[y][x]).(kind := BotCell, entityId := entityId)
      ensures entityId.None? && old(grid[y][x]).kind == BotCell ==>
        grid[y][x] == old(grid[y][x]).(kind := Empty, entityId := None)
      ensures entityId.None? && old(grid[y][x]).kind != BotCell ==> grid[y][x] == old(grid[y][x])
      ensures grid[y][x] == PlacedBot(old(grid[y][x]), entityId)
    {
      var cell := grid[y][x];
      if entityId.None? {
        if cell.kind == BotCell {
          grid := Update(grid, x, y, cell.(kind := Empty, entityId := None));
        }
      } else {
        grid := Update(grid, x, y, cell.(kind := BotCell, entityId := entityId));
      }
    }

    method SetEmpty(x: int, y: int)
      requires Valid() && 0 <= x < width && 0 <= y < height
      modifies this
      ensures Valid() && grid == Update(old(grid), x, y, grid[y][x])
      ensures grid[y][x].kind == Empty && grid[y][x].entityId == None
      ensures grid[y][x].organic == old(grid[y][x]).organic && grid[y][x].minerals == old(grid[y][x]).minerals
      ensures grid[y][x] == Emptied(old(grid[y][x]))
    {
      var cell := grid[y][x];
      grid := Update(grid, x, y, cell.(kind := Empty, entityId := None));
    }

    method AddOrganic(x: int, y: int, amount: int)
      requires Valid() && 0 <= x < width && 0 <= y < height
      modifies this
      ensures Valid() && grid == Update(old(grid), x, y, grid[y][x])
      ensures grid[y][x].kind == Organic
      ensures grid[y][x].organic == old(grid[y][x]).organic + Max(0, amount)
      ensures grid[y][x].entityId == old(grid[y][x]).entityId && grid[y][x].minerals == old(grid[y][x]).minerals
      ensures grid[y][x] == WithOrganic(old(grid[y][x]), amount)
    {
      var cell := grid[y][x];
      grid := Update(grid, x, y, cell.(kind := Organic, organic := cell.organic + Max(0, amount)));
    }

    /** Organic matter at (x, y) sinks into the cell below if that one is Empty. */
    function Sink(g: Grid, x: int, y: int): (r: Grid)
      requires Sized() && Shaped(g, width, height) && 0 <= x < width && 0 <= y < height - 1
      ensures Shaped(r, width, height)
    {
      var cell := g[y][x];
      var below := g[y + 1][x];
      if cell.kind == Organic && cell.organic > 0 && below.kind == Empty then
        Update(Update(g, x, y + 1, below.(kind := Organic, organic := below.organic + cell.organic)),
               x, y, cell.(kind := Empty, organic := 0))
      else g
    }

    /** Row y visited from column x to the right, as the inner loop of the sweep does. */
    function SweepRow(g: Grid, y: int, x: int): (r: Grid)
      requires Sized() && Shaped(g, width, height) && 0 <= x <= width && 0 <= y < height - 1
      ensures Shaped(r, width, height)
      decreases width - x
    {
      if x == width then g else SweepRow(Sink(g, x, y), y, x + 1)
    }

    /** Rows y, y - 1, ..., 1 visited in turn, bottom-up. */
    function Sweep(g: Grid, y: int): (r: Grid)
      requires Sized() && Shaped(g, width, height) && 0 <= y <= height - 2
      ensures Shaped(r, width, height)
      decreases y
    {
      if y == 0 then g else Sweep(SweepRow(g, y, 0), y - 1)
    }

    /** One physics tick: the sweep from the row above the floor up to row 1. */
    function Ticked(g: Grid): (r: Grid)
      requires Sized() && Shaped(g, width, height)
      ensures Shaped(r, width, height)
    {
      Sweep(g, height - 2)
    }

    method TickPhysics()
      requires Valid()
      modifies this
      ensures Valid() && grid == Ticked(old(grid))
    {
      var y := height - 2;
      assert Sweep(grid, y) == Ticked(grid);
      while y > 0
        invariant 0 <= y <= height - 2 && Valid()
        invariant Sweep(grid, y) == Ticked(old(grid))
      {
        SinkRow(y);
        y := y - 1;
      }
    }

    /** The inner loop of `TickPhysics`: every column of row y, left to right. */
    method SinkRow(y: int)
      requires Valid() && 0 < y < height - 1
      modifies this
      ensures Valid() && grid == SweepRow(old(grid), y, 0)
    {
      var x := 0;
      while x < width
        invariant 0 <= x <= width && Valid()
        invariant SweepRow(grid, y, x) == SweepRow(old(grid), y, 0)
      {
        ghost var before := grid;
        var cell := grid[y][x];
        if cell.kind == Organic && cell.organic > 0 {
          var below := grid[y + 1][x];
          if below.kind == Empty {
            grid := Update(grid, x, y + 1, below.(kind := Organic, organic := below.organic + cell.organic));
            grid := Update(grid, x, y, cell.(kind := Empty, organic := 0));
          }
        }
        assert grid == Sink(before, x, y);
        x := x + 1;
      }
    }

    /** Energy one photosynthesis yields at row y: a linear falloff from row 1 to the middle row. */
    function PhotoEnergyAt(y: int): (e: int)
      requires Sized()
      ensures 0 <= e <= PHOTO_BASE_TOP
      ensures y >= height / 2 ==> e == 0
    {
      if y >= height / 2 then 0
      else
        var depth := Max(0, y - 1);
        var span := Max(1, height / 2 - 1);
        if depth >= span then 0
        else
          ScaledBelow(PHOTO_BASE_TOP, span - depth, span);
          PHOTO_BASE_TOP * (span - depth) / span
    }
  }
}
