/**
 * Properties of the scheduler: how a step changes the population, where a
 * newborn goes, which bot a death makes the cursor skip, and what a removed
 * bot leaves on its cell.
 */
module SimProperties {
  import opened Wrappers
  import opened Config
  import opened WorldModel
  import opened BotModel
  import opened BotProperties
  import opened SimModel

  /** With no bots a step only ticks physics. */
  lemma EmptyStepOnlyTicks(world: World, s: SimState, mutation: Mutation)
    requires SimInv(world, s) && mutation.Valid() && |s.bots| == 0
    ensures Stepped(world, s, mutation) == s.(grid := world.Ticked(s.grid))
  {
  }

  /**
   * A step pops or inserts at most one bot; the population grows exactly when
   * `nextId` is spent, and the only id that can appear is that one.
   */
  lemma {:induction false} StepPopulation(world: World, s: SimState, mutation: Mutation)
    requires SimInv(world, s) && mutation.Valid()
    ensures var r := Stepped(world, s, mutation);
      (r.nextId == s.nextId || r.nextId == s.nextId + 1) &&
      |s.bots| - 1 <= |r.bots| <= |s.bots| + 1 &&
      (|r.bots| == |s.bots| + 1 <==> r.nextId == s.nextId + 1) &&
      (forall k :: k in r.registry && k !in s.registry ==> k == s.nextId)
  {
    if |s.bots| > 0 {
      var id := s.bots[s.cursor];
      if s.registry[id].energy >= 0 {
        var p := Played(world, s);
        var me := p.registry[id];
        if me.energy >= 0 {
          var (parent, child) := Offspring(world, p.grid, me, p.nextId, mutation);
          var s1 := Recorded(world, p, parent);
          assert Settled(world, p, mutation) == if child.Some? then Inserted(world, s1, child.value) else s1;
        }
      }
    }
  }

  /**
   * A birth puts the child at the cursor and the parent right after it, and
   * the cursor moves onto the parent: the parent acts again next, the child
   * only when the cursor comes round.
   */
  lemma BirthBeforeParent(world: World, s: SimState, mutation: Mutation)
    requires SimInv(world, s) && mutation.Valid()
    requires Stepped(world, s, mutation).nextId == s.nextId + 1
    ensures |s.bots| > 0
    ensures var r := Stepped(world, s, mutation);
      r.bots == InsertAt(s.bots, s.cursor, s.nextId) && s.nextId in r.registry &&
      r.cursor == s.cursor + 1 && r.bots[r.cursor] == s.bots[s.cursor]
  {
    var id := s.bots[s.cursor];
    assert s.registry[id].energy >= 0;
    var p := Played(world, s);
    var me := p.registry[id];
    assert me.energy >= 0;
    var (parent, child) := Offspring(world, p.grid, me, p.nextId, mutation);
    var s1 := Recorded(world, p, parent);
    assert child.Some?;
    assert Settled(world, p, mutation) == Inserted(world, s1, child.value);
  }

  /** The bot at the cursor leaves the list only by removal, before or after its turn. */
  lemma ShrinkIsRemoval(world: World, s: SimState, mutation: Mutation)
    requires SimInv(world, s) && mutation.Valid() && |s.bots| > 0
    requires |Moved(world, s, mutation).bots| < |s.bots|
    ensures var m := Moved(world, s, mutation);
      m == Removed(world, s, s.cursor, true) || m == Removed(world, Played(world, s), s.cursor, true)
  {
    var id := s.bots[s.cursor];
    if s.registry[id].energy >= 0 {
      var p := Played(world, s);
      if p.registry[id].energy >= 0 {
        assert false;
      }
    }
  }

  /**
   * A step that shrinks the population has removed the bot at the cursor.
   * The bot that slides into its slot is skipped (the cursor moves past it,
   * wrapping to 0 when it is now the last one), and when the last bot of the
   * list died the cursor wraps and skips the first one.
   */
  lemma DeathSkipsNext(world: World, s: SimState, mutation: Mutation)
    requires SimInv(world, s) && mutation.Valid()
    requires |Stepped(world, s, mutation).bots| < |s.bots|
    ensures |s.bots| > 0
    ensures var r := Stepped(world, s, mutation);
      r.bots == RemoveAt(s.bots, s.cursor) && s.bots[s.cursor] !in r.registry &&
      (s.cursor < |r.bots| ==> r.cursor == (s.cursor + 1) % |r.bots| && r.bots[s.cursor] == s.bots[s.cursor + 1]) &&
      (s.cursor == |r.bots| && |r.bots| > 1 ==> r.cursor == 1)
  {
    var m := Moved(world, s, mutation);
    assert Stepped(world, s, mutation) == Tick(world, Advanced(m));
    ShrinkIsRemoval(world, s, mutation);
    var x := if m == Removed(world, s, s.cursor, true) then s else Played(world, s);
    RemovalSkipsNext(world, x, s.bots, s.cursor, Stepped(world, s, mutation));
  }

  /** The cursor bookkeeping of DeathSkipsNext for one removal at the cursor. */
  lemma RemovalSkipsNext(world: World, x: SimState, bots: seq<int>, cursor: int, r: SimState)
    requires SimInv(world, x) && |x.bots| > 0 && x.bots == bots && x.cursor == cursor
    requires r == Tick(world, Advanced(Removed(world, x, x.cursor, true)))
    ensures r.bots == RemoveAt(bots, cursor) && bots[cursor] !in r.registry &&
      (cursor < |r.bots| ==> r.cursor == (cursor + 1) % |r.bots| && r.bots[cursor] == bots[cursor + 1]) &&
      (cursor == |r.bots| && |r.bots| > 1 ==> r.cursor == 1)
  {
    var m := Removed(world, x, cursor, true);
    var n := |m.bots|;
    assert r.bots == m.bots && r.registry == m.registry && r.cursor == Advanced(m).cursor;
    if n > 0 {
      assert r.cursor == (m.cursor + 1) % n;
      if cursor < n {
        assert m.cursor == cursor;
      } else {
        assert m.cursor == 0;
      }
    }
  }

  /**
   * A bot found dead at the cursor is removed without playing: no other bot,
   * no id and no birth is touched.
   */
  lemma DeadBotRemovedWithoutTurn(world: World, s: SimState, mutation: Mutation)
    requires SimInv(world, s) && mutation.Valid() && |s.bots| > 0
    requires s.registry[s.bots[s.cursor]].energy < 0
    ensures var r := Stepped(world, s, mutation); var id := s.bots[s.cursor]; var b := s.registry[id];
      r.bots == RemoveAt(s.bots, s.cursor) && r.registry == s.registry - {id} &&
      r.eaten == s.eaten - {id} && r.nextId == s.nextId &&
      BotOk(world, b) && r.grid == world.Ticked(Vacated(world, s.grid, b, b.id !in s.eaten))
  {
    Registered(world, s, s.bots[s.cursor]);
  }

  /**
   * After its turn a bot at or above `MAX_ENERGY` buds when a neighbouring
   * cell is free; when none is, it stays in the list with energy -1 and
   * nothing else changes.
   */
  lemma FullBotBudsOrDies(world: World, p: SimState, mutation: Mutation)
    requires SimInv(world, p) && |p.bots| > 0 && mutation.Valid()
    requires p.registry[p.bots[p.cursor]].energy >= MAX_ENERGY
    ensures var r := Settled(world, p, mutation); var id := p.bots[p.cursor]; var me := p.registry[id];
      ((r.nextId == p.nextId + 1 && r.bots == InsertAt(p.bots, p.cursor, p.nextId) && r.registry[p.nextId].id == p.nextId) ||
       (r.nextId == p.nextId && r.bots == p.bots && r.grid == p.grid && r.eaten == p.eaten && r.cursor == p.cursor &&
        r.registry == p.registry[id := me.(energy := -1)])) &&
      (r.nextId == p.nextId <==> !HasRoom(world, p.grid, me))
  {
    var id := p.bots[p.cursor];
    var me := p.registry[id];
    Registered(world, p, id);
    FreeOffsetFirst(world, p.grid, me, 0);
    var (parent, child) := Offspring(world, p.grid, me, p.nextId, mutation);
    var s1 := Recorded(world, p, parent);
    assert Settled(world, p, mutation) == if child.Some? then Inserted(world, s1, child.value) else s1;
  }

  /**
   * What removal leaves on the bot's own cell: the cell no longer shows the
   * bot; a bot that was not eaten and is converted turns its cell into Organic
   * matter with max(0, energy) more, keeping the id `add_organic` does not
   * clear; otherwise a cell still holding the bot is emptied; a cell that no
   * longer holds it is left alone; minerals and every other cell stay.
   */
  lemma RemovedCell(world: World, s: SimState, index: int, convert: bool)
    requires SimInv(world, s) && 0 <= index < |s.bots|
    ensures var r := Removed(world, s, index, convert); var b := s.registry[s.bots[index]];
      var cell := s.grid[b.y][b.x];
      var deposit := convert && b.id !in s.eaten && Holds(cell, b.id);
      0 <= b.y < |r.grid| && 0 <= b.x < |r.grid[b.y]| &&
      !Holds(r.grid[b.y][b.x], b.id) &&
      r.grid[b.y][b.x].minerals == cell.minerals &&
      r.grid[b.y][b.x].organic == cell.organic + (if deposit then Max(0, b.energy) else 0) &&
      (deposit ==> r.grid[b.y][b.x] == cell.(kind := Organic, organic := cell.organic + Max(0, b.energy))) &&
      (Holds(cell, b.id) && !deposit ==> r.grid[b.y][b.x] == cell.(kind := Empty, entityId := None)) &&
      (!Holds(cell, b.id) ==> r.grid[b.y][b.x] == cell) &&
      (forall y, x :: 0 <= y < |s.grid| && 0 <= x < |s.grid[y]| && (y != b.y || x != b.x) ==> r.grid[y][x] == s.grid[y][x])
  {
    Registered(world, s, s.bots[index]);
  }

  /**
   * Below `MAX_ENERGY`, a bot that survived its turn gets a child exactly
   * when its energy lies in the reproduction window and a neighbouring cell
   * is free.
   */
  lemma VoluntaryBirth(world: World, p: SimState, mutation: Mutation)
    requires SimInv(world, p) && |p.bots| > 0 && mutation.Valid()
    requires p.registry[p.bots[p.cursor]].energy < MAX_ENERGY
    ensures var r := Settled(world, p, mutation); var me := p.registry[p.bots[p.cursor]];
      r.nextId == p.nextId + 1 <==> MayReproduce(me.energy) && HasRoom(world, p.grid, me)
  {
    var id := p.bots[p.cursor];
    var me := p.registry[id];
    Registered(world, p, id);
    if me.energy >= 0 {
      var (parent, child) := Offspring(world, p.grid, me, p.nextId, mutation);
      assert Settled(world, p, mutation) == Delivered(world, p, parent, child);
      FreeOffsetFirst(world, p.grid, me, 0);
    }
  }

  /**
   * What a birth does to the grid: the child's cell was Empty and becomes a
   * Bot cell carrying the new id, keeping its minerals and organic matter;
   * every other cell stays as it was.
   */
  lemma BornCell(world: World, p: SimState, mutation: Mutation)
    requires SimInv(world, p) && |p.bots| > 0 && mutation.Valid()
    requires Settled(world, p, mutation).nextId == p.nextId + 1
    ensures var r := Settled(world, p, mutation);
      p.nextId in r.registry && BotOk(world, r.registry[p.nextId]) &&
      var c := r.registry[p.nextId];
      p.grid[c.y][c.x].kind == Empty &&
      r.grid[c.y][c.x] == p.grid[c.y][c.x].(kind := BotCell, entityId := Some(p.nextId)) &&
      forall y, x :: 0 <= y < |p.grid| && 0 <= x < |p.grid[y]| && (y != c.y || x != c.x) ==> r.grid[y][x] == p.grid[y][x]
  {
    var id := p.bots[p.cursor];
    var me := p.registry[id];
    Registered(world, p, id);
    assert me.energy >= 0;
    var (parent, child) := Offspring(world, p.grid, me, p.nextId, mutation);
    assert Settled(world, p, mutation) == Delivered(world, p, parent, child);
    assert child.Some?;
    CloneBirthCell(world, p.grid, me, p.nextId, mutation);
  }
}
