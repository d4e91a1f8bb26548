/**
 * The scheduler: a round-robin cursor over the population list, the id ->
 * bot registry and the set of ids consumed by predation. `SimState` is the
 * whole state as a value and the functions below say what each operation
 * makes of it; the `Simulation` class performs the same operations in place.
 */
module SimModel {
  import opened Wrappers
  import opened Config
  import opened WorldModel
  import opened WorldProperties
  import opened BotModel

  datatype SimState = SimState(
    grid: Grid,
    bots: seq<int>,
    registry: map<int, Bot>,
    eaten: set<int>,
    nextId: int,
    cursor: int)

  /** The part of the state one bot's turn reads and writes. */
  function AsMachine(s: SimState): Machine {
    Machine(s.grid, s.registry, s.eaten)
  }

  ghost predicate Distinct(ids: seq<int>) {
    forall i, j :: 0 <= i < j < |ids| ==> ids[i] != ids[j]
  }

  /** The cursor is 0 for an empty population and a valid index otherwise. */
  ghost predicate CursorOk(s: SimState) {
    if |s.bots| == 0 then s.cursor == 0 else 0 <= s.cursor < |s.bots|
  }

  /**
   * The scheduler invariant: the world invariant, each id listed once, the
   * listed ids exactly the registered ones, every id below `nextId`, and the
   * cursor invariant.
   */
  ghost predicate SimInv(world: World, s: SimState) {
    Inv(world, AsMachine(s)) && Distinct(s.bots) &&
    (forall i :: 0 <= i < |s.bots| ==> s.bots[i] in s.registry) &&
    (forall k :: k in s.registry ==> k in s.bots) &&
    1 <= s.nextId && (forall k :: k in s.registry ==> 1 <= k < s.nextId) &&
    CursorOk(s)
  }

  /** Every registered bot is well-formed and filed under its own id. */
  lemma Registered(world: World, s: SimState, k: int)
    requires SimInv(world, s) && k in s.registry
    ensures s.registry[k].id == k && BotOk(world, s.registry[k])
  {
    assert AsMachine(s).bots == s.registry;
  }

  // ---------------------------------------------------------------------------
  // List operations

  /** `list.pop(i)`: the list without its element at i. */
  function RemoveAt(ids: seq<int>, i: int): (r: seq<int>)
    requires 0 <= i < |ids|
    ensures |r| == |ids| - 1
    ensures forall j :: 0 <= j < i ==> r[j] == ids[j]
    ensures forall j :: i <= j < |r| ==> r[j] == ids[j + 1]
    ensures Distinct(ids) ==> Distinct(r) && forall k :: k in r <==> k in ids && k != ids[i]
  {
    var r := ids[..i] + ids[i + 1..];
    assert forall j :: i <= j < |r| ==> r[j] == ids[j + 1];
    assert forall k :: k in ids && k != ids[i] ==> k in r by {
      forall k | k in ids && k != ids[i]
        ensures k in r
      {
        var j :| 0 <= j < |ids| && ids[j] == k;
        if j < i { assert r[j] == k; } else { assert r[j - 1] == k; }
      }
    }
    r
  }

  /** `list.insert(i, k)`: k placed at index i, the elements from i on moved one place right. */
  function InsertAt(ids: seq<int>, i: int, k: int): (r: seq<int>)
    requires 0 <= i <= |ids|
    ensures |r| == |ids| + 1 && r[i] == k
    ensures forall j :: 0 <= j < i ==> r[j] == ids[j]
    ensures forall j :: i <= j < |ids| ==> r[j + 1] == ids[j]
    ensures forall x :: x in r <==> x in ids || x == k
    ensures Distinct(ids) && k !in ids ==> Distinct(r)
  {
    var r := ids[..i] + [k] + ids[i..];
    assert forall x :: x in ids ==> x in r by {
      forall x | x in ids
        ensures x in r
      {
        var j :| 0 <= j < |ids| && ids[j] == x;
        if j < i { assert r[j] == x; } else { assert r[j + 1] == x; }
      }
    }
    r
  }

  // ---------------------------------------------------------------------------
  // The operations on the state

  /** Physics ticks once: only the grid changes, and the invariant holds. */
  function Tick(world: World, s: SimState): (r: SimState)
    requires SimInv(world, s)
    ensures SimInv(world, r) && r == s.(grid := r.grid)
  {
    TickKeepsWallsBotsMinerals(world, s.grid);
    s.(grid := world.Ticked(s.grid))
  }

  /** The cursor moves to the next slot, wrapping after the last; an empty population keeps it at 0. */
  function Advanced(s: SimState): (r: SimState)
    requires CursorOk(s)
    ensures CursorOk(r) && r == s.(cursor := r.cursor)
    ensures |s.bots| > 0 ==> r.cursor == s.cursor + 1 || (s.cursor == |s.bots| - 1 && r.cursor == 0)
  {
    if |s.bots| == 0 then s.(cursor := 0) else s.(cursor := (s.cursor + 1) % |s.bots|)
  }

  /** The cell at the bot's position is a Bot cell carrying its id. */
  predicate Holds(c: Cell, id: int) {
    c.kind == BotCell && c.entityId == Some(id)
  }

  /**
   * Removal of the bot at list index `index`: out of the list and the
   * registry; an eaten bot loses its mark and leaves no organic matter;
   * otherwise, when converting, the cell that still holds it becomes Organic
   * with max(0, energy) more; a cell still holding it and not converted is
   * emptied. A cursor past the end goes back to 0.
   */
  function Removed(world: World, s: SimState, index: int, convert: bool): (r: SimState)
    requires SimInv(world, s) && 0 <= index < |s.bots|
    ensures SimInv(world, r) && r.nextId == s.nextId
    ensures |r.bots| == |s.bots| - 1 && r.bots == RemoveAt(s.bots, index)
    ensures r.registry == s.registry - {s.bots[index]} && r.eaten == s.eaten - {s.bots[index]}
    ensures s.cursor < |r.bots| ==> r.cursor == s.cursor
    ensures s.cursor >= |r.bots| ==> r.cursor == 0
  {
    var b := s.registry[s.bots[index]];
    Registered(world, s, s.bots[index]);
    var bots := RemoveAt(s.bots, index);
    var grid := Vacated(world, s.grid, b, convert && b.id !in s.eaten);
    SimState(grid, bots, s.registry - {b.id}, s.eaten - {b.id}, s.nextId, if s.cursor >= |bots| then 0 else s.cursor)
  }

  /**
   * The dead bot's cell, if it still holds the bot: turned Organic with
   * max(0, energy) more when depositing, emptied otherwise.
   */
  function Vacated(world: World, g: Grid, b: Bot, deposit: bool): (r: Grid)
    requires Shaped(g, world.width, world.height) && BotOk(world, b)
    ensures Shaped(r, world.width, world.height)
    ensures forall j, i :: 0 <= j < |g| && 0 <= i < |g[j]| && (j != b.y || i != b.x) ==> r[j][i] == g[j][i]
    ensures var cell := g[b.y][b.x];
      (!Holds(cell, b.id) ==> r == g) &&
      (Holds(cell, b.id) && deposit ==> r[b.y][b.x] == cell.(kind := Organic, organic := cell.organic + Max(0, b.energy))) &&
      (Holds(cell, b.id) && !deposit ==> r[b.y][b.x] == cell.(kind := Empty, entityId := None))
  {
    var cell := g[b.y][b.x];
    if deposit && Holds(cell, b.id) then Update(g, b.x, b.y, WithOrganic(cell, Max(0, b.energy)))
    else if Holds(cell, b.id) then Update(g, b.x, b.y, Emptied(cell))
    else g
  }

  /** A new bot with the next id enters the list at the cursor, the registry and its cell. */
  function Inserted(world: World, s: SimState, b: Bot): (r: SimState)
    requires SimInv(world, s) && BotOk(world, b) && b.id == s.nextId
    ensures SimInv(world, r) && forall k :: k in s.registry ==> k < b.id
    ensures r.bots == InsertAt(s.bots, s.cursor, b.id) && r.cursor == s.cursor
    ensures r.registry == s.registry[b.id := b] && r.eaten == s.eaten && r.nextId == s.nextId + 1
    ensures Holds(r.grid[b.y][b.x], b.id)
    ensures r.grid[b.y][b.x] == s.grid[b.y][b.x].(kind := BotCell, entityId := Some(b.id))
    ensures forall j, i :: 0 <= j < |s.grid| && 0 <= i < |s.grid[j]| && (j != b.y || i != b.x) ==> r.grid[j][i] == s.grid[j][i]
  {
    s.(bots := InsertAt(s.bots, s.cursor, b.id),
       registry := s.registry[b.id := b],
       grid := Update(s.grid, b.x, b.y, PlacedBot(s.grid[b.y][b.x], Some(b.id))),
       nextId := s.nextId + 1)
  }

  /** The bot at the cursor takes its turn. */
  function Played(world: World, s: SimState): (r: SimState)
    requires SimInv(world, s) && |s.bots| > 0
    ensures SimInv(world, r)
    ensures r.bots == s.bots && r.nextId == s.nextId && r.cursor == s.cursor
    ensures r.registry.Keys == s.registry.Keys
  {
    var m := Turn(world, AsMachine(s), s.bots[s.cursor]);
    s.(grid := m.grid, registry := m.bots, eaten := m.eaten)
  }

  /** Budding forced by a full store: a clone, or death (energy -1) when no cell is free. */
  function ForcedBud(world: World, grid: Grid, parent: Bot, childId: int, mutation: Mutation): (r: (Bot, Option<Bot>))
    requires world.Sized() && Shaped(grid, world.width, world.height) && BotOk(world, parent) && mutation.Valid()
    ensures r.1.None? ==> r.0 == parent.(energy := -1)
    ensures r.1.Some? ==> r == Clone(world, grid, parent, childId, mutation)
    ensures r.1.None? <==> parent.energy < REPRODUCTION_COST || FreeOffset(world, grid, parent, 0).None?
  {
    var (p, child) := Clone(world, grid, parent, childId, mutation);
    if child.None? then (p.(energy := -1), None) else (p, child)
  }

  /** A full bot must bud; any other may reproduce. */
  function Offspring(world: World, grid: Grid, me: Bot, childId: int, mutation: Mutation): (r: (Bot, Option<Bot>))
    requires world.Sized() && Shaped(grid, world.width, world.height) && BotOk(world, me) && mutation.Valid()
    ensures r.0 == me.(energy := r.0.energy)
    ensures r.1.Some? ==> BotOk(world, r.1.value) && r.1.value.id == childId
    ensures r.1.Some? <==> (me.energy >= MAX_ENERGY || MayReproduce(me.energy)) && FreeOffset(world, grid, me, 0).Some?
  {
    if me.energy >= MAX_ENERGY then ForcedBud(world, grid, me, childId, mutation)
    else Reproduce(world, grid, me, childId, mutation)
  }

  /** The parent's new record, then the child, if any, inserted in front of it. */
  function Delivered(world: World, s: SimState, parent: Bot, child: Option<Bot>): (r: SimState)
    requires SimInv(world, s) && |s.bots| > 0
    requires parent.id == s.bots[s.cursor] && BotOk(world, parent)
    requires child.Some? ==> BotOk(world, child.value) && child.value.id == s.nextId
    ensures SimInv(world, r)
    ensures child.None? ==> r == s.(registry := s.registry[parent.id := parent])
    ensures child.Some? ==>
      r.nextId == s.nextId + 1 && r.bots == InsertAt(s.bots, s.cursor, s.nextId) && r.cursor == s.cursor &&
      r.registry == s.registry[parent.id := parent][s.nextId := child.value] && r.eaten == s.eaten
    ensures child.Some? ==> var c := child.value;
      r.grid[c.y][c.x] == s.grid[c.y][c.x].(kind := BotCell, entityId := Some(s.nextId)) &&
      forall j, i :: 0 <= j < |s.grid| && 0 <= i < |s.grid[j]| && (j != c.y || i != c.x) ==> r.grid[j][i] == s.grid[j][i]
  {
    var s1 := Recorded(world, s, parent);
    if child.Some? then Inserted(world, s1, child.value) else s1
  }

  /** A registered bot's record replaced by a new well-formed one. */
  function Recorded(world: World, s: SimState, b: Bot): (r: SimState)
    requires SimInv(world, s) && b.id in s.registry && BotOk(world, b)
    ensures SimInv(world, r) && r == s.(registry := s.registry[b.id := b])
  {
    s.(registry := s.registry[b.id := b])
  }

  /**
   * After the turn: the bot at the cursor is removed if its energy is
   * negative; otherwise its offspring, if any, is inserted at the cursor, in
   * front of it.
   */
  function Settled(world: World, s: SimState, mutation: Mutation): (r: SimState)
    requires SimInv(world, s) && |s.bots| > 0 && mutation.Valid()
    ensures SimInv(world, r)
  {
    var me := s.registry[s.bots[s.cursor]];
    Registered(world, s, s.bots[s.cursor]);
    if me.energy < 0 then Removed(world, s, s.cursor, true)
    else
      var (parent, child) := Offspring(world, s.grid, me, s.nextId, mutation);
      Delivered(world, s, parent, child)
  }

  /**
   * What happens to the bot at the cursor: removed without a turn when its
   * energy is already negative, otherwise its turn and then the death and
   * birth bookkeeping.
   */
  function Moved(world: World, s: SimState, mutation: Mutation): (r: SimState)
    requires SimInv(world, s) && |s.bots| > 0 && mutation.Valid()
    ensures SimInv(world, r)
  {
    if s.registry[s.bots[s.cursor]].energy < 0 then Removed(world, s, s.cursor, true)
    else Settled(world, Played(world, s), mutation)
  }

  /** One scheduler step; physics ticks exactly once on every path. */
  function Stepped(world: World, s: SimState, mutation: Mutation): (r: SimState)
    requires SimInv(world, s) && mutation.Valid()
    ensures SimInv(world, r)
  {
    if |s.bots| == 0 then Tick(world, s)
    else Tick(world, Advanced(Moved(world, s, mutation)))
  }

  // ---------------------------------------------------------------------------
  // The scheduler object

  class Simulation {
    const world: World
    var bots: seq<int>
    var registry: map<int, Bot>
    var eatenIds: set<int>
    var nextId: int
    var cursor: int

    ghost function State(): SimState
      reads this, world
    {
      SimState(world.grid, bots, registry, eatenIds, nextId, cursor)
    }

    ghost predicate Valid()
      reads this, world
    {
      world.Valid() && SimInv(world, State())
    }

    constructor(world: World)
      requires world.Valid() && WallsIntact(world.grid)
      ensures this.world == world && Valid()
      ensures bots == [] && registry == map[] && eatenIds == {} && nextId == 1 && cursor == 0
    {
      this.world := world;
      bots := [];
      registry := map[];
      eatenIds := {};
      nextId := 1;
      cursor := 0;
    }

    /** Registers a bot under the next id, at the cursor, and places it on its cell. */
    method AddBot(b: Bot) returns (id: int)
      requires Valid() && BotOk(world, b)
      modifies this, world
      ensures Valid() && id == old(nextId)
      ensures State() == Inserted(world, old(State()), b.(id := id))
    {
      id := nextId;
      var bot := b.(id := id);
      nextId := nextId + 1;
      bots := InsertAt(bots, cursor, id);
      registry := registry[id := bot];
      world.SetBot(bot.x, bot.y, Some(id));
    }

    method AdvanceCursor()
      requires Valid()
      modifies this
      ensures Valid() && State() == Advanced(old(State()))
    {
      if |bots| == 0 {
        cursor := 0;
      } else {
        cursor := (cursor + 1) % |bots|;
      }
    }

    method RemoveDeadAtCursor(convert: bool)
      requires Valid() && |bots| > 0
      modifies this, world
      ensures Valid() && State() == Removed(world, old(State()), old(cursor), convert)
    {
      RemoveDeadAt(cursor, convert);
    }

    method RemoveDeadAt(index: int, convert: bool)
      requires Valid() && 0 <= index < |bots|
      modifies this, world
      ensures Valid() && State() == Removed(world, old(State()), index, convert)
    {
      var bot := registry[bots[index]];
      Registered(world, State(), bots[index]);
      bots := RemoveAt(bots, index);
      registry := registry - {bot.id};
      var convertNow := convert;
      if bot.id in eatenIds {
        convertNow := false;
        eatenIds := eatenIds - {bot.id};
      }
      Vacate(bot, convertNow);
      if cursor >= |bots| {
        cursor := 0;
      }
    }

    /** Clears the dead bot from its cell, depositing its energy as organic matter when asked. */
    method Vacate(bot: Bot, deposit: bool)
      requires world.Valid() && BotOk(world, bot)
      modifies world
      ensures world.Valid() && world.grid == Vacated(world, old(world.grid), bot, deposit)
    {
      var cell := world.Get(bot.x, bot.y);
      if deposit && cell.kind == BotCell && cell.entityId == Some(bot.id) {
        world.AddOrganic(bot.x, bot.y, Max(0, bot.energy));
        cell := world.Get(bot.x, bot.y);
      }
      if cell.kind == BotCell && cell.entityId == Some(bot.id) {
        world.SetEmpty(bot.x, bot.y);
      }
    }

    /** Death and birth bookkeeping for the bot at the cursor, after its turn. */
    method Settle(mutation: Mutation)
      requires Valid() && |bots| > 0 && mutation.Valid()
      modifies this, world
      ensures Valid() && State() == Settled(world, old(State()), mutation)
    {
      var bot := registry[bots[cursor]];
      Registered(world, State(), bots[cursor]);
      if bot.energy < 0 {
        RemoveDeadAt(cursor, true);
        return;
      }
      var parent, child := Breed(bot, mutation);
      Deliver(parent, child);
    }

    /** A full bot must bud, and dies (energy -1) when it cannot; any other may reproduce. */
    method Breed(bot: Bot, mutation: Mutation) returns (parent: Bot, child: Option<Bot>)
      requires world.Valid() && BotOk(world, bot) && mutation.Valid()
      ensures (parent, child) == Offspring(world, world.grid, bot, nextId, mutation)
    {
      if bot.energy >= MAX_ENERGY {
        parent, child := CloneWithMutation(bot, nextId, world, mutation);
        if child.None? {
          parent := parent.(energy := -1);
        }
      } else {
        parent, child := TryReproduce(bot, nextId, world, mutation);
      }
    }

    method Deliver(parent: Bot, child: Option<Bot>)
      requires Valid() && |bots| > 0
      requires parent.id == bots[cursor] && BotOk(world, parent)
      requires child.Some? ==> BotOk(world, child.value) && child.value.id == nextId
      modifies this, world
      ensures Valid() && State() == Delivered(world, old(State()), parent, child)
    {
      registry := registry[parent.id := parent];
      assert State() == Recorded(world, old(State()), parent);
      if child.Some? {
        var id := AddBot(child.value);
        assert child.value.(id := id) == child.value;
      }
    }

    /** One scheduler step. */
    method Step(mutation: Mutation)
      requires Valid() && mutation.Valid()
      modifies this, world
      ensures Valid() && State() == Stepped(world, old(State()), mutation)
    {
      if |bots| == 0 {
        world.TickPhysics();
        assert State() == Tick(world, old(State()));
        return;
      }
      Move(mutation);
      ghost var moved := State();
      AdvanceCursor();
      ghost var advanced := State();
      assert advanced == Advanced(moved);
      world.TickPhysics();
      assert State() == Tick(world, advanced);
    }

    /** The bot at the cursor: removed if already dead, otherwise it plays and is settled. */
    method Move(mutation: Mutation)
      requires Valid() && |bots| > 0 && mutation.Valid()
      modifies this, world
      ensures Valid() && State() == Moved(world, old(State()), mutation)
    {
      if registry[bots[cursor]].energy < 0 {
        RemoveDeadAtCursor(true);
        return;
      }
      Play();
      Settle(mutation);
    }

    /** The bot at the cursor runs its turn on the shared registry. */
    method Play()
      requires Valid() && |bots| > 0
      modifies this, world
      ensures Valid() && State() == Played(world, old(State()))
    {
      registry, eatenIds := RunTurn(world, bots[cursor], registry, eatenIds);
    }
  }
}
