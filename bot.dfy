/**
 * Bots and their genome interpreter. A bot is a value; the registry of all
 * bots (id -> bot) and the set of ids consumed by predation are passed to a
 * turn explicitly and returned updated, so predation and sharing are ordinary
 * updates of that registry. Every update of the acting bot also goes through
 * the registry, in the order the interpreter performs it, so the model stays
 * exact even if a lookup returned the acting bot itself.
 */
module BotModel {
  import opened Wrappers
  import opened Config
  import opened WorldModel

  datatype Bot = Bot(
    genome: seq<int>,
    x: int,
    y: int,
    energy: int,
    dir: int,
    ip: int,
    id: int,
    executedNonterm: int)

  /** The world state a turn reads and writes: grid, registry, consumed ids. */
  datatype Machine = Machine(grid: Grid, bots: map<int, Bot>, eaten: set<int>)

  /** One random point mutation drawn at birth, or none. */
  datatype Mutation = NoMutation | Mutate(index: int, value: int) {
    predicate Valid() {
      Mutate? ==> 0 <= index < GENOME_SIZE && 0 <= value < 64
    }
  }

  /** The instruction pointer arithmetic: the low six bits, i.e. v modulo 64. */
  function Mod64(v: int): (r: int)
    ensures 0 <= r < 64 && (v - r) % 64 == 0
  {
    v % 64
  }

  ghost predicate ValidGenome(g: seq<int>) {
    |g| == GENOME_SIZE && forall i :: 0 <= i < |g| ==> 0 <= g[i] < 64
  }

  /** A bot the world can hold: a proper genome, a compass direction, an instruction pointer, a playable cell. */
  ghost predicate BotOk(world: World, b: Bot) {
    world.Sized() && ValidGenome(b.genome) && 0 <= b.dir < 8 && 0 <= b.ip < GENOME_SIZE &&
    world.InBoundsPlayable(b.x, b.y)
  }

  /** Grid of the world's size with intact walls, and every registered bot well-formed. */
  ghost predicate Inv(world: World, m: Machine) {
    world.Sized() && Shaped(m.grid, world.width, world.height) && WallsIntact(m.grid) &&
    forall k :: k in m.bots ==> m.bots[k].id == k && BotOk(world, m.bots[k])
  }

  ghost predicate Ready(world: World, m: Machine, id: int) {
    Inv(world, m) && id in m.bots
  }

  /**
   * What an instruction keeps: the invariant, the registered ids, the acting
   * bot's genome, and everything of the other bots but their energy.
   */
  ghost predicate Preserves(world: World, m: Machine, r: Machine, id: int) {
    Ready(world, m, id) && Ready(world, r, id) && r.bots.Keys == m.bots.Keys &&
    r.bots[id].genome == m.bots[id].genome &&
    forall k :: k in m.bots && k != id ==> r.bots[k] == m.bots[k].(energy := r.bots[k].energy)
  }

  /** The genome value k places after the instruction pointer. */
  function Gene(b: Bot, k: int): int
    requires |b.genome| == GENOME_SIZE
  {
    b.genome[Mod64(b.ip + k)]
  }

  predicate Terminating(op: int) {
    op == OP_PHOTOSYNTHESIS || op == OP_STEP || op == OP_EAT || op == OP_SHARE || op == OP_MINE
  }

  /** Column of the cell next to b in direction d. */
  function TargetX(world: World, b: Bot, d: int): int
    requires world.Sized() && 0 <= d < 8
  {
    world.WrapX(b.x + DeltaX(d))
  }

  /** Row of the cell next to b in direction d. */
  function TargetY(world: World, b: Bot, d: int): int
    requires world.Sized() && 0 <= d < 8
  {
    world.ClampY(b.y + DeltaY(d))
  }

  /** Registry lookup; an id that is no longer registered is no target, not an error. */
  function LookupBot(registry: map<int, Bot>, id: int): (r: Option<Bot>)
    ensures r.Some? <==> id in registry
    ensures r.Some? ==> r.value == registry[id]
  {
    if id in registry then Some(registry[id]) else None
  }

  /** Records that a bot was consumed by predation. */
  function MarkEaten(eaten: set<int>, id: int): (r: set<int>)
    ensures id in r && r - {id} == eaten - {id}
  {
    eaten + {id}
  }

  // ---------------------------------------------------------------------------
  // Species

  /** Number of positions among the first n at which the genomes differ. */
  function Mismatches(a: seq<int>, b: seq<int>, n: nat): nat
    requires n <= |a| && n <= |b|
  {
    if n == 0 then 0 else Mismatches(a, b, n - 1) + (if a[n - 1] != b[n - 1] then 1 else 0)
  }

  /** Positions at which two genomes differ, over their common length. */
  function GenomeDistance(a: seq<int>, b: seq<int>): nat {
    Mismatches(a, b, Min(|a|, |b|))
  }

  lemma {:induction false} MismatchesMonotone(a: seq<int>, b: seq<int>, n: nat, m: nat)
    requires n <= m <= |a| && m <= |b|
    ensures Mismatches(a, b, n) <= Mismatches(a, b, m)
    decreases m - n
  {
    if n < m {
      MismatchesMonotone(a, b, n, m - 1);
    }
  }

  /** Same species: the genomes differ in at most one position; stops at the second difference. */
  method SameSpecies(self: Bot, other: Bot) returns (same: bool)
    ensures same <==> GenomeDistance(self.genome, other.genome) <= 1
  {
    var a, b := self.genome, other.genome;
    var n := Min(|a|, |b|);
    var diff := 0;
    var i := 0;
    while i < n
      invariant 0 <= i <= n
      invariant diff == Mismatches(a, b, i) && diff <= 1
    {
      if a[i] != b[i] {
        diff := diff + 1;
        if diff > 1 {
          MismatchesMonotone(a, b, i + 1, n);
          return false;
        }
      }
      i := i + 1;
    }
    return true;
  }

  // ---------------------------------------------------------------------------
  // Reproduction

  function Mutated(genome: seq<int>, mutation: Mutation): seq<int>
    requires |genome| == GENOME_SIZE && mutation.Valid()
  {
    match mutation
    case NoMutation => genome
    case Mutate(index, value) => genome[index := value]
  }

  /** The neighbour at clockwise offset o from b's facing direction is a playable Empty cell. */
  predicate FreeAt(world: World, grid: Grid, b: Bot, o: int)
    requires world.Sized() && Shaped(grid, world.width, world.height) && 0 <= b.dir < 8 && 0 <= o < 8
  {
    var d := (b.dir + o) % 8;
    var nx, ny := TargetX(world, b, d), TargetY(world, b, d);
    world.InBoundsPlayable(nx, ny) && grid[ny][nx].kind == Empty
  }

  /** Some neighbour of b is playable and Empty, so b could bud. */
  ghost predicate HasRoom(world: World, grid: Grid, b: Bot)
    requires world.Sized() && Shaped(grid, world.width, world.height)
  {
    0 <= b.dir < 8 && exists o :: 0 <= o < 8 && FreeAt(world, grid, b, o)
  }

  /**
   * The first offset in [offset, 8), turning clockwise from the bot's facing
   * direction, whose neighbour cell is playable and Empty.
   */
  function FreeOffset(world: World, grid: Grid, b: Bot, offset: int): Option<int>
    requires world.Sized() && Shaped(grid, world.width, world.height) && 0 <= b.dir < 8 && 0 <= offset
    decreases 8 - offset
  {
    if offset >= 8 then None
    else if FreeAt(world, grid, b, offset) then Some(offset)
    else FreeOffset(world, grid, b, offset + 1)
  }

  /** Cloning: the parent after paying, and the child if one was made. */
  function Clone(world: World, grid: Grid, parent: Bot, childId: int, mutation: Mutation): (r: (Bot, Option<Bot>))
    requires world.Sized() && Shaped(grid, world.width, world.height) && BotOk(world, parent)
    requires mutation.Valid()
    ensures r.0 == parent.(energy := r.0.energy) && r.0.energy <= parent.energy
    ensures r.1.Some? ==> BotOk(world, r.1.value) && r.1.value.id == childId
  {
    if parent.energy < REPRODUCTION_COST then (parent, None)
    else
      match FreeOffset(world, grid, parent, 0)
      case None => (parent, None)
      case Some(offset) =>
        (parent.(energy := parent.energy - REPRODUCTION_COST), Some(Child(world, parent, offset, childId, mutation)))
  }

  /** The newborn placed at the given clockwise offset from the parent's facing direction. */
  function Child(world: World, parent: Bot, offset: int, childId: int, mutation: Mutation): Bot
    requires world.Sized() && BotOk(world, parent) && mutation.Valid()
  {
    var d := (parent.dir + offset) % 8;
    Bot(Mutated(parent.genome, mutation), TargetX(world, parent, d), TargetY(world, parent, d),
        REPRODUCTION_COST, parent.dir, 0, childId, 0)
  }

  method CloneWithMutation(self: Bot, childId: int, world: World, mutation: Mutation)
    returns (parent: Bot, child: Option<Bot>)
    requires world.Valid() && BotOk(world, self) && mutation.Valid()
    ensures (parent, child) == Clone(world, world.grid, self, childId, mutation)
  {
    if self.energy < REPRODUCTION_COST {
      return self, None;
    }
    var free := FindFreeCell(self, world);
    if free.None? {
      return self, None;
    }
    child := Some(Child(world, self, free.value, childId, mutation));
    parent := self.(energy := self.energy - REPRODUCTION_COST);
  }

  /** The clockwise scan for a birth cell: skips unplayable cells, stops at the first Empty one. */
  method FindFreeCell(self: Bot, world: World) returns (r: Option<int>)
    requires world.Valid() && BotOk(world, self)
    ensures r == FreeOffset(world, world.grid, self, 0)
  {
    ghost var first := FreeOffset(world, world.grid, self, 0);
    var offset := 0;
    while offset < 8
      invariant 0 <= offset <= 8
      invariant first == FreeOffset(world, world.grid, self, offset)
      decreases 8 - offset
    {
      if FreeAt(world, world.grid, self, offset) {
        return Some(offset);
      }
      offset := offset + 1;
    }
    return None;
  }

  /** Voluntary reproduction window: only between the threshold and the ceiling minus the cost. */
  predicate MayReproduce(energy: int) {
    REPRODUCTION_THRESHOLD <= energy <= MAX_ENERGY - REPRODUCTION_COST
  }

  /** Voluntary reproduction: a clone inside the window, nothing outside it. */
  function Reproduce(world: World, grid: Grid, parent: Bot, childId: int, mutation: Mutation): (r: (Bot, Option<Bot>))
    requires world.Sized() && Shaped(grid, world.width, world.height) && BotOk(world, parent) && mutation.Valid()
    ensures r.1.Some? <==> MayReproduce(parent.energy) && FreeOffset(world, grid, parent, 0).Some?
  {
    if MayReproduce(parent.energy) then Clone(world, grid, parent, childId, mutation) else (parent, None)
  }

  method TryReproduce(self: Bot, childId: int, world: World, mutation: Mutation)
    returns (parent: Bot, child: Option<Bot>)
    requires world.Valid() && BotOk(world, self) && mutation.Valid()
    ensures (parent, child) == Reproduce(world, world.grid, self, childId, mutation)
  {
    if self.energy >= REPRODUCTION_THRESHOLD && self.energy <= MAX_ENERGY - REPRODUCTION_COST {
      parent, child := CloneWithMutation(self, childId, world, mutation);
    } else {
      parent, child := self, None;
    }
  }

  // ---------------------------------------------------------------------------
  // One instruction, as a function of the machine state

  /** The acting bot replaced in the registry. */
  function WithBot(m: Machine, id: int, b: Bot): Machine {
    m.(bots := m.bots[id := b])
  }

  function Photosynthesis(world: World, me: Bot): Bot
    requires world.Sized()
  {
    me.(energy := me.energy + world.PhotoEnergyAt(me.y), ip := Mod64(me.ip + 1))
  }

  function TurnAbsolute(me: Bot): Bot
    requires |me.genome| == GENOME_SIZE
  {
    me.(dir := Gene(me, 1) % 8, ip := Mod64(me.ip + 2), executedNonterm := me.executedNonterm + 1)
  }

  function TurnRelative(me: Bot): Bot
    requires |me.genome| == GENOME_SIZE
  {
    me.(dir := (me.dir + Gene(me, 1) % 8) % 8, ip := Mod64(me.ip + 2), executedNonterm := me.executedNonterm + 1)
  }

  /** The genome value Look jumps by, chosen by what lies in the looked-at direction. */
  function LookBranch(world: World, grid: Grid, me: Bot): int
    requires world.Sized() && Shaped(grid, world.width, world.height) && BotOk(world, me)
  {
    var d := (me.dir + Gene(me, 1) % 8) % 8;
    var cell := grid[TargetY(world, me, d)][TargetX(world, me, d)];
    if cell.kind == Empty then Gene(me, 2)
    else if cell.kind == BotCell then Gene(me, 3)
    else if cell.kind == Organic then Gene(me, 4)
    else Gene(me, 5)
  }

  function Look(world: World, grid: Grid, me: Bot): Bot
    requires world.Sized() && Shaped(grid, world.width, world.height) && BotOk(world, me)
  {
    me.(ip := Mod64(me.ip + LookBranch(world, grid, me)), executedNonterm := me.executedNonterm + 1)
  }

  function EnergyCompare(me: Bot): Bot
    requires |me.genome| == GENOME_SIZE
  {
    var threshold := Gene(me, 1) * ENERGY_COMPARE_UNIT;
    var branch := if me.energy >= threshold then Gene(me, 2) else Gene(me, 3);
    me.(ip := Mod64(me.ip + branch), executedNonterm := me.executedNonterm + 1)
  }

  /** Any other opcode value, OP_SNIFF_LIGHT included: a relative jump by that value. */
  function Jump(me: Bot, opcode: int): Bot {
    me.(ip := Mod64(me.ip + opcode), executedNonterm := me.executedNonterm + 1)
  }

  function StepOp(world: World, m: Machine, id: int): (r: Machine)
    requires Ready(world, m, id)
    ensures Preserves(world, m, r, id) && r.eaten == m.eaten && r.bots == m.bots[id := r.bots[id]]
    ensures r.bots[id].executedNonterm == m.bots[id].executedNonterm
  {
    var me := m.bots[id];
    var nx, ny := TargetX(world, me, me.dir), TargetY(world, me, me.dir);
    var target := m.grid[ny][nx];
    if target.kind == Empty then
      var g1 := Update(m.grid, me.x, me.y, Emptied(m.grid[me.y][me.x]));
      var g2 := Update(g1, nx, ny, PlacedBot(g1[ny][nx], Some(me.id)));
      Machine(g2, m.bots[id := me.(x := nx, y := ny, energy := me.energy - MOVE_COST, ip := Mod64(me.ip + Gene(me, 1)))], m.eaten)
    else
      var branch := if target.kind == BotCell then Gene(me, 2) else if target.kind == Organic then Gene(me, 3) else Gene(me, 4);
      WithBot(m, id, me.(energy := me.energy - MOVE_COST, ip := Mod64(me.ip + branch)))
  }

  /** Predation on the bot registered under `preyId`, if it is there and alive. */
  function Prey(m: Machine, id: int, preyId: int): (r: Machine)
    requires id in m.bots
    ensures r.grid == m.grid && r.bots.Keys == m.bots.Keys
    ensures forall k :: k in m.bots ==> r.bots[k] == m.bots[k].(energy := r.bots[k].energy)
  {
    var prey := LookupBot(m.bots, preyId);
    if prey.Some? && prey.value.energy >= 0 then
      var bots1 := m.bots[id := m.bots[id].(energy := m.bots[id].energy + Max(0, prey.value.energy))];
      Machine(m.grid, bots1[preyId := bots1[preyId].(energy := -1)], MarkEaten(m.eaten, prey.value.id))
    else m
  }

  /**
   * Eating from a positive Organic cell: up to EAT_MAX_PER_ACTION of it moves
   * to the eater, and a cell left with nothing becomes Empty.
   */
  function Graze(m: Machine, id: int, nx: int, ny: int): (r: Machine)
    requires id in m.bots && 0 <= ny < |m.grid| && 0 <= nx < |m.grid[ny]|
    requires m.grid[ny][nx].kind == Organic && m.grid[ny][nx].organic > 0
    ensures r.eaten == m.eaten && id in r.bots && r.bots == m.bots[id := m.bots[id].(energy := r.bots[id].energy)]
    ensures |r.grid| == |m.grid| && forall j :: 0 <= j < |m.grid| ==> |r.grid[j]| == |m.grid[j]|
    ensures forall j, i :: 0 <= j < |m.grid| && 0 <= i < |m.grid[j]| && (j != ny || i != nx) ==> r.grid[j][i] == m.grid[j][i]
    ensures r.grid[ny][nx].kind != Wall
  {
    var target := m.grid[ny][nx];
    var amount := Min(target.organic, EAT_MAX_PER_ACTION);
    var left := target.(organic := target.organic - amount);
    var g1 := Update(m.grid, nx, ny, left);
    var g2 := if left.organic <= 0 then Update(g1, nx, ny, Emptied(left)) else g1;
    Machine(g2, m.bots[id := m.bots[id].(energy := m.bots[id].energy + amount)], m.eaten)
  }

  function EatOp(world: World, m: Machine, id: int): (r: Machine)
    requires Ready(world, m, id)
    ensures Preserves(world, m, r, id)
    ensures r.bots[id].executedNonterm == m.bots[id].executedNonterm
  {
    var me := m.bots[id];
    var nx, ny := TargetX(world, me, me.dir), TargetY(world, me, me.dir);
    var target := m.grid[ny][nx];
    var (m1, branch) :=
      if target.kind == BotCell && target.entityId.Some? then
        (Prey(m, id, target.entityId.value), Gene(me, 2))
      else if target.kind == Organic && target.organic > 0 then (Graze(m, id, nx, ny), Gene(me, 3))
      else if target.kind == Empty then (m, Gene(me, 1))
      else (m, Gene(me, 4));
    var me1 := m1.bots[id];
    WithBot(m1, id, me1.(energy := me1.energy - EAT_COST, ip := Mod64(me.ip + branch)))
  }

  /** Energy handed to a kin bot registered under `otherId`. */
  function Give(m: Machine, id: int, otherId: int): (r: Machine)
    requires id in m.bots
    ensures r.grid == m.grid && r.eaten == m.eaten && r.bots.Keys == m.bots.Keys
    ensures forall k :: k in m.bots ==> r.bots[k] == m.bots[k].(energy := r.bots[k].energy)
  {
    var me := m.bots[id];
    var other := LookupBot(m.bots, otherId);
    if other.Some? && GenomeDistance(me.genome, other.value.genome) <= 1 && me.energy > 1 then
      var give := Min(Max(1, me.energy / 4), me.energy - 1);
      var bots1 := m.bots[id := me.(energy := me.energy - give)];
      m.(bots := bots1[otherId := bots1[otherId].(energy := Min(MAX_ENERGY, bots1[otherId].energy + give))])
    else m
  }

  function ShareOp(world: World, m: Machine, id: int): (r: Machine)
    requires Ready(world, m, id)
    ensures Preserves(world, m, r, id) && r.grid == m.grid && r.eaten == m.eaten
    ensures r.bots[id].executedNonterm == m.bots[id].executedNonterm
  {
    var me := m.bots[id];
    var nx, ny := TargetX(world, me, me.dir), TargetY(world, me, me.dir);
    var cell := m.grid[ny][nx];
    var (m1, branch) :=
      if cell.kind == BotCell && cell.entityId.Some? then (Give(m, id, cell.entityId.value), Gene(me, 2))
      else if cell.kind == Organic then (m, Gene(me, 3))
      else if cell.kind == Empty then (m, Gene(me, 1))
      else (m, Gene(me, 4));
    var me1 := m1.bots[id];
    WithBot(m1, id, me1.(energy := me1.energy - SHARE_COST, ip := Mod64(me.ip + branch)))
  }

  function MineOp(world: World, m: Machine, id: int): (r: Machine)
    requires Ready(world, m, id)
    ensures Preserves(world, m, r, id) && r.bots == m.bots[id := r.bots[id]] && r.eaten == m.eaten
    ensures r.bots[id].executedNonterm == m.bots[id].executedNonterm
  {
    var me := m.bots[id];
    var cell := m.grid[me.y][me.x];
    if cell.minerals > 0 then
      var mined := Min(MINE_MAX_PER_ACTION, cell.minerals);
      Machine(Update(m.grid, me.x, me.y, cell.(minerals := cell.minerals - mined)),
              m.bots[id := me.(energy := me.energy + mined, ip := Mod64(me.ip + 1))], m.eaten)
    else WithBot(m, id, me.(ip := Mod64(me.ip + 1)))
  }

  /** The outcome of one instruction: the turn goes on, or it is over. */
  datatype Outcome = Continue(next: Machine) | Halt(next: Machine)

  /** The opcode the acting bot's instruction pointer designates. */
  function Opcode(m: Machine, id: int): int
    requires id in m.bots && |m.bots[id].genome| == GENOME_SIZE
  {
    Gene(m.bots[id], 0)
  }

  /** One instruction of the interpreter. */
  function Exec(world: World, m: Machine, id: int): (r: Outcome)
    requires Ready(world, m, id)
    ensures Preserves(world, m, r.next, id)
    ensures r.Halt? <==> Terminating(Opcode(m, id))
    ensures r.Halt? ==> r.next.bots[id].executedNonterm == m.bots[id].executedNonterm
    ensures r.Continue? ==> r.next.bots[id].executedNonterm == m.bots[id].executedNonterm + 1
  {
    var me := m.bots[id];
    var opcode := Opcode(m, id);
    if opcode == OP_PHOTOSYNTHESIS then Halt(WithBot(m, id, Photosynthesis(world, me)))
    else if opcode == OP_TURN_ABS then Continue(WithBot(m, id, TurnAbsolute(me)))
    else if opcode == OP_TURN_REL then Continue(WithBot(m, id, TurnRelative(me)))
    else if opcode == OP_LOOK then Continue(WithBot(m, id, Look(world, m.grid, me)))
    else if opcode == OP_STEP then Halt(StepOp(world, m, id))
    else if opcode == OP_EAT then Halt(EatOp(world, m, id))
    else if opcode == OP_SHARE then Halt(ShareOp(world, m, id))
    else if opcode == OP_ENERGY_COMPARE then Continue(WithBot(m, id, EnergyCompare(me)))
    else if opcode == OP_MINE then Halt(MineOp(world, m, id))
    else Continue(WithBot(m, id, Jump(me, opcode)))
  }

  /** Basal metabolism, charged once at the end of every turn. */
  function Metabolized(m: Machine, id: int): Machine
    requires id in m.bots
  {
    WithBot(m, id, m.bots[id].(energy := m.bots[id].energy - BASE_METABOLISM))
  }

  /**
   * The interpreter loop from machine state m: instructions run until a
   * terminating one has run or the budget of non-terminating ones is spent.
   */
  function RunLoop(world: World, m: Machine, id: int): (r: Machine)
    requires Ready(world, m, id) && m.bots[id].executedNonterm <= VM_MAX_NONTERMINATING
    ensures Preserves(world, m, r, id)
    ensures m.bots[id].executedNonterm <= r.bots[id].executedNonterm <= VM_MAX_NONTERMINATING
    decreases VM_MAX_NONTERMINATING - m.bots[id].executedNonterm
  {
    if m.bots[id].executedNonterm >= VM_MAX_NONTERMINATING then m
    else
      match Exec(world, m, id)
      case Halt(next) => next
      case Continue(next) => RunLoop(world, next, id)
  }

  /** The interpreter's counter is reset at the start of each turn. */
  function Restarted(m: Machine, id: int): Machine
    requires id in m.bots
  {
    WithBot(m, id, m.bots[id].(executedNonterm := 0))
  }

  /** One whole turn of bot `id`. */
  function Turn(world: World, m: Machine, id: int): (r: Machine)
    requires Ready(world, m, id)
    ensures Preserves(world, m, r, id)
    ensures 0 <= r.bots[id].executedNonterm <= VM_MAX_NONTERMINATING
  {
    Metabolized(RunLoop(world, Restarted(m, id), id), id)
  }

  // ---------------------------------------------------------------------------
  // The interpreter as it runs: the world's grid is updated in place

  method DoStep(world: World, id: int, bots: map<int, Bot>, eaten: set<int>) returns (bots': map<int, Bot>)
    requires world.Valid() && Ready(world, Machine(world.grid, bots, eaten), id)
    modifies world
    ensures world.Valid() && Machine(world.grid, bots', eaten) == StepOp(world, Machine(old(world.grid), bots, eaten), id)
  {
    var me := bots[id];
    var nx, ny := TargetX(world, me, me.dir), TargetY(world, me, me.dir);
    var target := world.Get(nx, ny);
    var branch: int;
    if target.kind == Empty {
      world.SetEmpty(me.x, me.y);
      world.SetBot(nx, ny, Some(me.id));
      branch := Gene(me, 1);
      me := me.(x := nx, y := ny);
    } else if target.kind == BotCell {
      branch := Gene(me, 2);
    } else if target.kind == Organic {
      branch := Gene(me, 3);
    } else {
      branch := Gene(me, 4);
    }
    bots' := bots[id := me.(energy := me.energy - MOVE_COST, ip := Mod64(me.ip + branch))];
  }

  method DoEat(world: World, id: int, bots: map<int, Bot>, eaten: set<int>) returns (bots': map<int, Bot>, eaten': set<int>)
    requires world.Valid() && Ready(world, Machine(world.grid, bots, eaten), id)
    modifies world
    ensures world.Valid() && Machine(world.grid, bots', eaten') == EatOp(world, Machine(old(world.grid), bots, eaten), id)
  {
    var me := bots[id];
    var nx, ny := TargetX(world, me, me.dir), TargetY(world, me, me.dir);
    var target := world.Get(nx, ny);
    var branch: int;
    bots', eaten' := bots, eaten;
    if target.kind == BotCell && target.entityId.Some? {
      var prey := LookupBot(bots', target.entityId.value);
      if prey.Some? && prey.value.energy >= 0 {
        bots' := bots'[id := bots'[id].(energy := bots'[id].energy + Max(0, prey.value.energy))];
        bots' := bots'[target.entityId.value := bots'[target.entityId.value].(energy := -1)];
        eaten' := MarkEaten(eaten', prey.value.id);
      }
      branch := Gene(me, 2);
    } else if target.kind == Organic && target.organic > 0 {
      bots' := DoGraze(world, id, bots', nx, ny, eaten);
      branch := Gene(me, 3);
    } else if target.kind == Empty {
      branch := Gene(me, 1);
    } else {
      branch := Gene(me, 4);
    }
    bots' := bots'[id := bots'[id].(energy := bots'[id].energy - EAT_COST, ip := Mod64(me.ip + branch))];
  }

  method DoGraze(world: World, id: int, bots: map<int, Bot>, nx: int, ny: int, ghost eaten: set<int>)
    returns (bots': map<int, Bot>)
    requires world.Valid() && id in bots && 0 <= nx < world.width && 0 <= ny < world.height
    requires world.grid[ny][nx].kind == Organic && world.grid[ny][nx].organic > 0
    modifies world
    ensures world.Valid() && Machine(world.grid, bots', eaten) == Graze(Machine(old(world.grid), bots, eaten), id, nx, ny)
  {
    var target := world.Get(nx, ny);
    var amount := Min(target.organic, EAT_MAX_PER_ACTION);
    world.grid := Update(world.grid, nx, ny, target.(organic := target.organic - amount));
    bots' := bots[id := bots[id].(energy := bots[id].energy + amount)];
    if target.organic - amount <= 0 {
      world.SetEmpty(nx, ny);
    }
  }

  method DoShare(world: World, id: int, bots: map<int, Bot>, eaten: set<int>) returns (bots': map<int, Bot>)
    requires world.Valid() && Ready(world, Machine(world.grid, bots, eaten), id)
    ensures Machine(world.grid, bots', eaten) == ShareOp(world, Machine(world.grid, bots, eaten), id)
  {
    var me := bots[id];
    var nx, ny := TargetX(world, me, me.dir), TargetY(world, me, me.dir);
    var cell := world.Get(nx, ny);
    var branch: int;
    bots' := bots;
    if cell.kind == BotCell && cell.entityId.Some? {
      var other := LookupBot(bots', cell.entityId.value);
      var kin := false;
      if other.Some? {
        kin := SameSpecies(me, other.value);
      }
      if other.Some? && kin && me.energy > 1 {
        var give := Max(1, me.energy / 4);
        give := Min(give, me.energy - 1);
        bots' := bots'[id := me.(energy := me.energy - give)];
        var k := cell.entityId.value;
        bots' := bots'[k := bots'[k].(energy := Min(MAX_ENERGY, bots'[k].energy + give))];
      }
      branch := Gene(me, 2);
    } else if cell.kind == Organic {
      branch := Gene(me, 3);
    } else if cell.kind == Empty {
      branch := Gene(me, 1);
    } else {
      branch := Gene(me, 4);
    }
    bots' := bots'[id := bots'[id].(energy := bots'[id].energy - SHARE_COST, ip := Mod64(me.ip + branch))];
  }

  method DoMine(world: World, id: int, bots: map<int, Bot>, eaten: set<int>) returns (bots': map<int, Bot>)
    requires world.Valid() && Ready(world, Machine(world.grid, bots, eaten), id)
    modifies world
    ensures world.Valid() && Machine(world.grid, bots', eaten) == MineOp(world, Machine(old(world.grid), bots, eaten), id)
  {
    var me := bots[id];
    var cell := world.Get(me.x, me.y);
    if cell.minerals > 0 {
      var mined := Min(MINE_MAX_PER_ACTION, cell.minerals);
      world.grid := Update(world.grid, me.x, me.y, cell.(minerals := cell.minerals - mined));
      me := me.(energy := me.energy + mined);
    }
    bots' := bots[id := me.(ip := Mod64(me.ip + 1))];
  }

  /** One instruction as the interpreter runs it, proved to be `Exec`; `halted` says whether it ends the turn. */
  method ExecInstruction(world: World, id: int, bots: map<int, Bot>, eaten: set<int>)
    returns (bots': map<int, Bot>, eaten': set<int>, halted: bool)
    requires world.Valid() && Ready(world, Machine(world.grid, bots, eaten), id)
    modifies world
    ensures world.Valid()
    ensures var next := Machine(world.grid, bots', eaten');
      Exec(world, Machine(old(world.grid), bots, eaten), id) == if halted then Halt(next) else Continue(next)
  {
    var me := bots[id];
    var opcode := me.genome[Mod64(me.ip)];
    bots', eaten', halted := bots, eaten, true;
    if opcode == OP_PHOTOSYNTHESIS {
      bots' := bots[id := me.(energy := me.energy + world.PhotoEnergyAt(me.y), ip := Mod64(me.ip + 1))];
    } else if opcode == OP_STEP {
      bots' := DoStep(world, id, bots, eaten);
    } else if opcode == OP_EAT {
      bots', eaten' := DoEat(world, id, bots, eaten);
    } else if opcode == OP_SHARE {
      bots' := DoShare(world, id, bots, eaten);
    } else if opcode == OP_MINE {
      bots' := DoMine(world, id, bots, eaten);
    } else {
      var next := Control(world, me);
      bots', halted := bots[id := next], false;
    }
  }

  /** The non-terminating instructions: they change only the acting bot's registers. */
  method Control(world: World, me: Bot) returns (next: Bot)
    requires world.Valid() && BotOk(world, me) && !Terminating(Gene(me, 0))
    ensures var opcode := Gene(me, 0);
      next == if opcode == OP_TURN_ABS then TurnAbsolute(me)
              else if opcode == OP_TURN_REL then TurnRelative(me)
              else if opcode == OP_LOOK then Look(world, world.grid, me)
              else if opcode == OP_ENERGY_COMPARE then EnergyCompare(me)
              else Jump(me, opcode)
  {
    var opcode := me.genome[Mod64(me.ip)];
    if opcode == OP_TURN_ABS {
      var param := me.genome[Mod64(me.ip + 1)];
      next := me.(dir := param % 8, ip := Mod64(me.ip + 2), executedNonterm := me.executedNonterm + 1);
    } else if opcode == OP_TURN_REL {
      var param := me.genome[Mod64(me.ip + 1)];
      next := me.(dir := (me.dir + param % 8) % 8, ip := Mod64(me.ip + 2), executedNonterm := me.executedNonterm + 1);
    } else if opcode == OP_LOOK {
      next := DoLook(world, me);
    } else if opcode == OP_ENERGY_COMPARE {
      var threshold := me.genome[Mod64(me.ip + 1)] * ENERGY_COMPARE_UNIT;
      var geBranch, ltBranch := me.genome[Mod64(me.ip + 2)], me.genome[Mod64(me.ip + 3)];
      if me.energy >= threshold {
        next := me.(ip := Mod64(me.ip + geBranch), executedNonterm := me.executedNonterm + 1);
      } else {
        next := me.(ip := Mod64(me.ip + ltBranch), executedNonterm := me.executedNonterm + 1);
      }
    } else {
      next := me.(ip := Mod64(me.ip + opcode), executedNonterm := me.executedNonterm + 1);
    }
  }

  /** Look: the kind of the cell in the relative direction picks the branch. */
  method DoLook(world: World, me: Bot) returns (next: Bot)
    requires world.Valid() && BotOk(world, me)
    ensures next == Look(world, world.grid, me)
  {
    var param := me.genome[Mod64(me.ip + 1)];
    var d := (me.dir + param % 8) % 8;
    var cell := world.Get(TargetX(world, me, d), TargetY(world, me, d));
    var branch;
    if cell.kind == Empty {
      branch := me.genome[Mod64(me.ip + 2)];
    } else if cell.kind == BotCell {
      branch := me.genome[Mod64(me.ip + 3)];
    } else if cell.kind == Organic {
      branch := me.genome[Mod64(me.ip + 4)];
    } else {
      branch := me.genome[Mod64(me.ip + 5)];
    }
    next := me.(ip := Mod64(me.ip + branch), executedNonterm := me.executedNonterm + 1);
  }

  /**
   * One turn of bot `id` as the interpreter runs it, proved to be `Turn`:
   * the counter is reset, instructions run until a terminating one or the
   * budget, and metabolism is charged.
   */
  method RunTurn(world: World, id: int, bots: map<int, Bot>, eaten: set<int>)
    returns (bots': map<int, Bot>, eaten': set<int>)
    requires world.Valid() && Ready(world, Machine(world.grid, bots, eaten), id)
    modifies world
    ensures world.Valid() && Machine(world.grid, bots', eaten') == Turn(world, Machine(old(world.grid), bots, eaten), id)
  {
    bots', eaten' := bots[id := bots[id].(executedNonterm := 0)], eaten;
    assert Machine(world.grid, bots', eaten') == Restarted(Machine(world.grid, bots, eaten), id);
    bots', eaten' := RunInstructions(world, id, bots', eaten');
    bots' := bots'[id := bots'[id].(energy := bots'[id].energy - BASE_METABOLISM)];
  }

  /** The instruction loop of a turn, from the current counter on. */
  method RunInstructions(world: World, id: int, bots: map<int, Bot>, eaten: set<int>)
    returns (bots': map<int, Bot>, eaten': set<int>)
    requires world.Valid() && Ready(world, Machine(world.grid, bots, eaten), id)
    requires bots[id].executedNonterm <= VM_MAX_NONTERMINATING
    modifies world
    ensures world.Valid() && Machine(world.grid, bots', eaten') == RunLoop(world, Machine(old(world.grid), bots, eaten), id)
  {
    ghost var goal := RunLoop(world, Machine(world.grid, bots, eaten), id);
    bots', eaten' := bots, eaten;
    while bots'[id].executedNonterm < VM_MAX_NONTERMINATING
      invariant world.Valid() && Ready(world, Machine(world.grid, bots', eaten'), id)
      invariant bots'[id].executedNonterm <= VM_MAX_NONTERMINATING
      invariant RunLoop(world, Machine(world.grid, bots', eaten'), id) == goal
      decreases VM_MAX_NONTERMINATING - bots'[id].executedNonterm
    {
      ghost var before := Machine(world.grid, bots', eaten');
      var halted;
      bots', eaten', halted := ExecInstruction(world, id, bots', eaten');
      if halted {
        assert goal == Machine(world.grid, bots', eaten');
        break;
      }
      assert RunLoop(world, before, id) == RunLoop(world, Machine(world.grid, bots', eaten'), id);
    }
    assert goal == Machine(world.grid, bots', eaten');
  }
}
