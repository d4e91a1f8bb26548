/**
 * Properties of the world: the coordinate helpers, the light gradient and the
 * organic-sinking tick.
 */
module WorldProperties {
  import opened Config
  import opened WorldModel

  lemma WrapClampEdges(w: World)
    requires w.Sized()
    ensures w.WrapX(-1) == w.width - 1 && w.WrapX(w.width) == 0
    ensures w.ClampY(-1) == 0 && w.ClampY(w.height) == w.height - 1
  {
  }

  /** The playable cells are exactly those the coordinate helpers leave alone, off the wall rows. */
  lemma PlayableCells(w: World, x: int, y: int)
    requires w.Sized()
    ensures w.InBoundsPlayable(x, y) <==> w.WrapX(x) == x && w.ClampY(y) == y && y != 0 && y != w.height - 1
  {
  }

  /** A second write to the same cell overrides the first. */
  lemma UpdateTwice(g: Grid, x: int, y: int, a: Cell, b: Cell)
    requires 0 <= y < |g| && 0 <= x < |g[y]|
    ensures Update(Update(g, x, y, a), x, y, b) == Update(g, x, y, b)
  {
    assert Update(g, x, y, a)[y][x := b] == g[y][x := b];
  }

  /** Full light on the first playable row and above it. */
  lemma PhotoEnergyTop(w: World, y: int)
    requires w.Sized() && y <= 1
    ensures w.PhotoEnergyAt(y) == PHOTO_BASE_TOP
  {
  }

  /** Light never grows with depth. */
  lemma PhotoEnergyMonotone(w: World, y1: int, y2: int)
    requires w.Sized() && y1 <= y2
    ensures w.PhotoEnergyAt(y2) <= w.PhotoEnergyAt(y1)
  {
    var span := Max(1, w.height / 2 - 1);
    if y2 < w.height / 2 {
      var d1, d2 := Max(0, y1 - 1), Max(0, y2 - 1);
      assert d1 <= d2 < span;
      DivMonotone(PHOTO_BASE_TOP * (span - d2), PHOTO_BASE_TOP * (span - d1), span);
    }
  }

  /** Inside the mineral band, every row holds more minerals than the row above it. */
  lemma MineralsDeepen(height: int, y1: int, y2: int)
    requires height / 2 <= y1 < y2 < height - 1
    ensures 0 < InitialMinerals(height, y1) < InitialMinerals(height, y2)
    ensures InitialMinerals(height, y2) - InitialMinerals(height, y1) == (y2 - y1) * MINERALS_PER_DEPTH
  {
  }

  // ---- conservation of organic matter ----

  lemma {:induction false} RowOrganicUpdate(row: seq<Cell>, i: int, c: Cell)
    requires 0 <= i < |row|
    ensures RowOrganic(row[i := c]) + row[i].organic == RowOrganic(row) + c.organic
  {
    var n := |row|;
    if i == n - 1 {
      assert row[i := c][..n - 1] == row[..n - 1];
    } else {
      assert row[i := c][..n - 1] == row[..n - 1][i := c];
      RowOrganicUpdate(row[..n - 1], i, c);
    }
  }

  lemma {:induction false} TotalOrganicUpdate(g: Grid, x: int, y: int, c: Cell)
    requires 0 <= y < |g| && 0 <= x < |g[y]|
    ensures TotalOrganic(Update(g, x, y, c)) + g[y][x].organic == TotalOrganic(g) + c.organic
  {
    var n := |g|;
    var u := Update(g, x, y, c);
    if y == n - 1 {
      assert u[..n - 1] == g[..n - 1];
      RowOrganicUpdate(g[y], x, c);
    } else {
      assert u[..n - 1] == Update(g[..n - 1], x, y, c);
      TotalOrganicUpdate(g[..n - 1], x, y, c);
    }
  }

  lemma SinkConserves(w: World, g: Grid, x: int, y: int)
    requires w.Sized() && Shaped(g, w.width, w.height) && 0 <= x < w.width && 0 <= y < w.height - 1
    ensures TotalOrganic(w.Sink(g, x, y)) == TotalOrganic(g)
  {
    var cell, below := g[y][x], g[y + 1][x];
    if cell.kind == Organic && cell.organic > 0 && below.kind == Empty {
      var filled := below.(kind := Organic, organic := below.organic + cell.organic);
      var g1 := Update(g, x, y + 1, filled);
      TotalOrganicUpdate(g, x, y + 1, filled);
      assert g1[y][x] == cell;
      TotalOrganicUpdate(g1, x, y, cell.(kind := Empty, organic := 0));
      assert w.Sink(g, x, y) == Update(g1, x, y, cell.(kind := Empty, organic := 0));
    }
  }

  lemma {:induction false} SweepRowConserves(w: World, g: Grid, y: int, x: int)
    requires w.Sized() && Shaped(g, w.width, w.height) && 0 <= x <= w.width && 0 <= y < w.height - 1
    ensures TotalOrganic(w.SweepRow(g, y, x)) == TotalOrganic(g)
    decreases w.width - x
  {
    if x < w.width {
      SinkConserves(w, g, x, y);
      SweepRowConserves(w, w.Sink(g, x, y), y, x + 1);
    }
  }

  lemma {:induction false} SweepConserves(w: World, g: Grid, y: int)
    requires w.Sized() && Shaped(g, w.width, w.height) && 0 <= y <= w.height - 2
    ensures TotalOrganic(w.Sweep(g, y)) == TotalOrganic(g)
    decreases y
  {
    if y > 0 {
      SweepRowConserves(w, g, y, 0);
      SweepConserves(w, w.SweepRow(g, y, 0), y - 1);
    }
  }

  /** A physics tick neither creates nor destroys organic matter. */
  lemma TickConservesOrganic(w: World, g: Grid)
    requires w.Sized() && Shaped(g, w.width, w.height)
    ensures TotalOrganic(w.Ticked(g)) == TotalOrganic(g)
  {
    assert w.Ticked(g) == w.Sweep(g, w.height - 2);
    SweepConserves(w, g, w.height - 2);
  }

  // ---- what a tick never touches ----

  /**
   * b has the shape of a, the same minerals and occupant ids everywhere,
   * every Wall or Bot cell of a is unchanged in b, and every Wall or Bot cell
   * of b was already that cell in a.
   */
  ghost predicate Keeps(a: Grid, b: Grid) {
    |a| == |b| && (forall y :: 0 <= y < |a| ==> |b[y]| == |a[y]|) &&
    forall y, x :: 0 <= y < |a| && 0 <= x < |a[y]| ==>
      b[y][x].minerals == a[y][x].minerals && b[y][x].entityId == a[y][x].entityId &&
      (a[y][x].kind == Wall || a[y][x].kind == BotCell ==> b[y][x] == a[y][x]) &&
      (b[y][x].kind == Wall || b[y][x].kind == BotCell ==> b[y][x] == a[y][x])
  }

  lemma KeepsTransitive(a: Grid, b: Grid, c: Grid)
    requires Keeps(a, b) && Keeps(b, c)
    ensures Keeps(a, c)
  {
  }

  lemma {:induction false} SweepRowKeeps(w: World, g: Grid, y: int, x: int)
    requires w.Sized() && Shaped(g, w.width, w.height) && 0 <= x <= w.width && 0 <= y < w.height - 1
    ensures Keeps(g, w.SweepRow(g, y, x))
    decreases w.width - x
  {
    if x < w.width {
      var s := w.Sink(g, x, y);
      assert Keeps(g, s);
      SweepRowKeeps(w, s, y, x + 1);
      KeepsTransitive(g, s, w.SweepRow(s, y, x + 1));
    }
  }

  lemma {:induction false} SweepKeeps(w: World, g: Grid, y: int)
    requires w.Sized() && Shaped(g, w.width, w.height) && 0 <= y <= w.height - 2
    ensures Keeps(g, w.Sweep(g, y))
    decreases y
  {
    if y > 0 {
      var s := w.SweepRow(g, y, 0);
      SweepRowKeeps(w, g, y, 0);
      SweepKeeps(w, s, y - 1);
      KeepsTransitive(g, s, w.Sweep(s, y - 1));
    }
  }

  /** A tick changes no mineral, no occupant id, and no Wall or Bot cell. */
  lemma TickKeepsWallsBotsMinerals(w: World, g: Grid)
    requires w.Sized() && Shaped(g, w.width, w.height)
    ensures Keeps(g, w.Ticked(g))
  {
    SweepKeeps(w, g, w.height - 2);
  }

  // ---- each quantity falls exactly one row, at most ----

  /**
   * Whether the sweep moves the organic matter of (x, y) down: it is a
   * positive Organic cell and, when the sweep reaches it, the cell below is
   * Empty, either from the start or because its own content just fell.
   */
  ghost predicate Falls(w: World, g: Grid, x: int, y: int)
    requires w.Sized() && Shaped(g, w.width, w.height) && 0 <= x < w.width && 1 <= y <= w.height - 2
    decreases w.height - y
  {
    g[y][x].kind == Organic && g[y][x].organic > 0 &&
    (g[y + 1][x].kind == Empty || (y + 1 <= w.height - 2 && Falls(w, g, x, y + 1)))
  }

  /** Cell (x, y) once its own content has (or has not) fallen out. */
  ghost function Kept(w: World, g: Grid, x: int, y: int): Cell
    requires w.Sized() && Shaped(g, w.width, w.height) && 0 <= x < w.width && 0 <= y < w.height
  {
    if 1 <= y <= w.height - 2 && Falls(w, g, x, y) then g[y][x].(kind := Empty, organic := 0)
    else g[y][x]
  }

  /** Cell (x, y) after the tick: what it kept, plus what fell from directly above. */
  ghost function AfterTick(w: World, g: Grid, x: int, y: int): Cell
    requires w.Sized() && Shaped(g, w.width, w.height) && 0 <= x < w.width && 0 <= y < w.height
  {
    var k := Kept(w, g, x, y);
    if 2 <= y && Falls(w, g, x, y - 1) then k.(kind := Organic, organic := k.organic + g[y - 1][x].organic)
    else k
  }

  /** The sweep state s on reaching column x of row y: rows below y are done. */
  ghost predicate Stage(w: World, g: Grid, s: Grid, y: int, x: int)
    requires w.Sized() && Shaped(g, w.width, w.height) && Shaped(s, w.width, w.height)
    requires 0 <= y <= w.height - 2 && 0 <= x <= w.width
  {
    forall r, i :: 0 <= r < w.height && 0 <= i < w.width ==>
      s[r][i] == (if r >= y + 2 then AfterTick(w, g, i, r)
                  else if r == y + 1 then (if i < x then AfterTick(w, g, i, r) else Kept(w, g, i, r))
                  else if r == y then (if i < x then Kept(w, g, i, r) else g[r][i])
                  else g[r][i])
  }

  lemma SinkStage(w: World, g: Grid, s: Grid, y: int, x: int)
    requires w.Sized() && Shaped(g, w.width, w.height) && Shaped(s, w.width, w.height)
    requires 1 <= y <= w.height - 2 && 0 <= x < w.width
    requires Stage(w, g, s, y, x)
    ensures Stage(w, g, w.Sink(s, x, y), y, x + 1)
  {
    assert s[y][x] == g[y][x];
    assert s[y + 1][x] == Kept(w, g, x, y + 1);
    var fell := Falls(w, g, x, y);
    assert fell <==> s[y][x].kind == Organic && s[y][x].organic > 0 && s[y + 1][x].kind == Empty;
    var t := w.Sink(s, x, y);
    assert t[y][x] == Kept(w, g, x, y);
    assert t[y + 1][x] == AfterTick(w, g, x, y + 1);
  }

  lemma {:induction false} SweepRowStage(w: World, g: Grid, s: Grid, y: int, x: int)
    requires w.Sized() && Shaped(g, w.width, w.height) && Shaped(s, w.width, w.height)
    requires 1 <= y <= w.height - 2 && 0 <= x <= w.width
    requires Stage(w, g, s, y, x)
    ensures Stage(w, g, w.SweepRow(s, y, x), y - 1, 0)
    decreases w.width - x
  {
    if x < w.width {
      SinkStage(w, g, s, y, x);
      SweepRowStage(w, g, w.Sink(s, x, y), y, x + 1);
    }
  }

  lemma {:induction false} SweepStage(w: World, g: Grid, s: Grid, y: int)
    requires w.Sized() && Shaped(g, w.width, w.height) && Shaped(s, w.width, w.height)
    requires 0 <= y <= w.height - 2
    requires Stage(w, g, s, y, 0)
    ensures forall r, i :: 0 <= r < w.height && 0 <= i < w.width ==> w.Sweep(s, y)[r][i] == AfterTick(w, g, i, r)
    decreases y
  {
    if y > 0 {
      SweepRowStage(w, g, s, y, 0);
      SweepStage(w, g, w.SweepRow(s, y, 0), y - 1);
    }
  }

  /**
   * After one tick every cell holds what it kept of its own content plus what
   * fell from the cell directly above it, and nothing else: no quantity falls
   * more than one row in a tick.
   */
  lemma TickFallsOneRow(w: World, g: Grid)
    requires w.Sized() && Shaped(g, w.width, w.height)
    ensures forall y, x :: 0 <= y < w.height && 0 <= x < w.width ==> w.Ticked(g)[y][x] == AfterTick(w, g, x, y)
  {
    SweepStage(w, g, g, w.height - 2);
  }
}
