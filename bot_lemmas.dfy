/**
 * Properties of the genome interpreter, of the species test and of cloning.
 */
module BotProperties {
  import opened Wrappers
  import opened Config
  import opened WorldModel
  import opened WorldProperties
  import opened BotModel

  // ---------------------------------------------------------------------------
  // Geometry

  /** A neighbour is never the bot's own cell: the grid is at least 8 wide and the bot is off the wall rows. */
  lemma NeighbourIsOther(world: World, b: Bot, d: int)
    requires BotOk(world, b) && 0 <= d < 8
    ensures TargetX(world, b, d) != b.x || TargetY(world, b, d) != b.y
  {
    WrapClampEdges(world);
    if DeltaX(d) == 0 {
      var y := b.y + DeltaY(d);
      assert Distance(world.ClampY(y), y) <= Distance(y, y);
    }
  }

  // ---------------------------------------------------------------------------
  // The turn: budget, trace and metabolism

  /** The opcodes the interpreter loop executes from machine state m, in order. */
  ghost function Executed(world: World, m: Machine, id: int): seq<int>
    requires Ready(world, m, id) && m.bots[id].executedNonterm <= VM_MAX_NONTERMINATING
    decreases VM_MAX_NONTERMINATING - m.bots[id].executedNonterm
  {
    if m.bots[id].executedNonterm >= VM_MAX_NONTERMINATING then []
    else
      match Exec(world, m, id)
      case Halt(_) => [Opcode(m, id)]
      case Continue(next) => [Opcode(m, id)] + Executed(world, next, id)
  }

  /**
   * The loop runs at most the remaining budget of non-terminating instructions
   * plus one terminating instruction, which can only come last; the counter
   * ends at the budget exactly when no terminating instruction ran.
   */
  lemma {:induction false} LoopBudget(world: World, m: Machine, id: int)
    requires Ready(world, m, id) && 0 <= m.bots[id].executedNonterm <= VM_MAX_NONTERMINATING
    ensures var t, c := Executed(world, m, id), m.bots[id].executedNonterm;
      var after := RunLoop(world, m, id).bots[id].executedNonterm;
      |t| <= VM_MAX_NONTERMINATING - c + 1 &&
      (forall i :: 0 <= i < |t| - 1 ==> !Terminating(t[i])) &&
      (|t| > 0 && Terminating(t[|t| - 1]) ==> after == c + |t| - 1) &&
      (|t| == 0 || !Terminating(t[|t| - 1]) ==> after == c + |t| == VM_MAX_NONTERMINATING)
    decreases VM_MAX_NONTERMINATING - m.bots[id].executedNonterm
  {
    if m.bots[id].executedNonterm < VM_MAX_NONTERMINATING {
      match Exec(world, m, id)
      case Halt(next) =>
      case Continue(next) =>
        LoopBudget(world, next, id);
        var rest := Executed(world, next, id);
        assert Executed(world, m, id) == [Opcode(m, id)] + rest;
    }
  }

  /** The opcodes one whole turn executes. */
  ghost function TurnTrace(world: World, m: Machine, id: int): seq<int>
    requires Ready(world, m, id)
  {
    Executed(world, Restarted(m, id), id)
  }

  /**
   * Every turn terminates after executing between 1 and 16 instructions:
   * at most 15 non-terminating ones, and at most one terminating one, last.
   * The counter left behind counts exactly the non-terminating ones.
   */
  lemma TurnBudget(world: World, m: Machine, id: int)
    requires Ready(world, m, id)
    ensures var t := TurnTrace(world, m, id);
      var after := Turn(world, m, id).bots[id].executedNonterm;
      1 <= |t| <= VM_MAX_NONTERMINATING + 1 &&
      (forall i :: 0 <= i < |t| - 1 ==> !Terminating(t[i])) &&
      (Terminating(t[|t| - 1]) ==> after == |t| - 1) &&
      (!Terminating(t[|t| - 1]) ==> after == |t| == VM_MAX_NONTERMINATING)
  {
    LoopBudget(world, Restarted(m, id), id);
  }

  /** Metabolism is charged once, after the loop, on whichever path the loop ended. */
  lemma TurnMetabolism(world: World, m: Machine, id: int)
    requires Ready(world, m, id)
    ensures var before, after := RunLoop(world, Restarted(m, id), id), Turn(world, m, id);
      after.grid == before.grid && after.eaten == before.eaten &&
      after.bots == before.bots[id := before.bots[id].(energy := before.bots[id].energy - BASE_METABOLISM)]
  {
  }

  ghost predicate AllGenes(b: Bot, v: int) {
    |b.genome| == GENOME_SIZE && forall i :: 0 <= i < GENOME_SIZE ==> b.genome[i] == v
  }

  lemma {:induction false} ZeroJumpLoop(world: World, m: Machine, id: int)
    requires Ready(world, m, id) && m.bots[id].executedNonterm <= VM_MAX_NONTERMINATING
    requires AllGenes(m.bots[id], 0)
    ensures RunLoop(world, m, id) == WithBot(m, id, m.bots[id].(executedNonterm := VM_MAX_NONTERMINATING))
    ensures |Executed(world, m, id)| == VM_MAX_NONTERMINATING - m.bots[id].executedNonterm
    decreases VM_MAX_NONTERMINATING - m.bots[id].executedNonterm
  {
    var me := m.bots[id];
    if me.executedNonterm < VM_MAX_NONTERMINATING {
      var next := WithBot(m, id, me.(executedNonterm := me.executedNonterm + 1));
      assert Exec(world, m, id) == Continue(next);
      ZeroJumpLoop(world, next, id);
      assert next.bots[id := next.bots[id].(executedNonterm := VM_MAX_NONTERMINATING)] ==
             m.bots[id := me.(executedNonterm := VM_MAX_NONTERMINATING)];
    } else {
      assert m.bots[id := me] == m.bots;
    }
  }

  /**
   * A genome of zero-jumps spends the whole budget: 15 jumps by 0, the
   * instruction pointer where it was, no effect on the world, and one unit
   * of metabolism.
   */
  lemma ZeroJumpTurn(world: World, m: Machine, id: int)
    requires Ready(world, m, id) && AllGenes(m.bots[id], 0)
    ensures var me := m.bots[id];
      Turn(world, m, id) ==
        WithBot(m, id, me.(energy := me.energy - BASE_METABOLISM, executedNonterm := VM_MAX_NONTERMINATING))
    ensures |TurnTrace(world, m, id)| == VM_MAX_NONTERMINATING
  {
    ZeroJumpLoop(world, Restarted(m, id), id);
  }

  /** A genome of Photosynthesis only: one instruction per turn, the light of its row minus metabolism. */
  lemma PhotosynthesisTurn(world: World, m: Machine, id: int)
    requires Ready(world, m, id) && AllGenes(m.bots[id], OP_PHOTOSYNTHESIS)
    ensures var me := m.bots[id];
      Turn(world, m, id) ==
        WithBot(m, id, me.(energy := me.energy + world.PhotoEnergyAt(me.y) - BASE_METABOLISM,
                           ip := Mod64(me.ip + 1), executedNonterm := 0))
    ensures TurnTrace(world, m, id) == [OP_PHOTOSYNTHESIS]
  {
    var start := Restarted(m, id);
    assert Opcode(start, id) == OP_PHOTOSYNTHESIS;
  }

  /** n turns of the same bot in a row. */
  ghost function Turns(world: World, m: Machine, id: int, n: nat): (r: Machine)
    requires Ready(world, m, id)
    ensures Ready(world, r, id)
    decreases n
  {
    if n == 0 then m else Turns(world, Turn(world, m, id), id, n - 1)
  }

  /** One turn of a plant, as the facts the n-turn lemma needs. */
  lemma PlantTurnStep(world: World, m: Machine, id: int)
    requires Ready(world, m, id) && AllGenes(m.bots[id], OP_PHOTOSYNTHESIS)
    ensures var me, next := m.bots[id], Turn(world, m, id);
      Ready(world, next, id) && AllGenes(next.bots[id], OP_PHOTOSYNTHESIS) &&
      next.grid == m.grid && next.eaten == m.eaten &&
      next.bots[id].x == me.x && next.bots[id].y == me.y &&
      next.bots[id].energy == me.energy + world.PhotoEnergyAt(me.y) - BASE_METABOLISM
  {
    PhotosynthesisTurn(world, m, id);
  }

  /**
   * A plant that does not move keeps its row, so over n turns it gains the
   * same light every turn and the grid is never touched.
   */
  lemma {:induction false} PhotosynthesisTurns(world: World, m: Machine, id: int, n: nat, gain: int)
    requires Ready(world, m, id) && AllGenes(m.bots[id], OP_PHOTOSYNTHESIS)
    requires gain == world.PhotoEnergyAt(m.bots[id].y) - BASE_METABOLISM
    ensures var me, r := m.bots[id], Turns(world, m, id, n);
      r.grid == m.grid && r.eaten == m.eaten &&
      r.bots[id].x == me.x && r.bots[id].y == me.y &&
      r.bots[id].energy == me.energy + n * gain
    decreases n
  {
    if n > 0 {
      var next := Turn(world, m, id);
      PlantTurnStep(world, m, id);
      PhotosynthesisTurns(world, next, id, n - 1, gain);
      assert Turns(world, m, id, n) == Turns(world, next, id, n - 1);
      Accumulate(m.bots[id].energy, next.bots[id].energy, Turns(world, m, id, n).bots[id].energy, gain, n);
    }
  }

  /** A first gain of g, then n - 1 more: n gains of g. */
  lemma Accumulate(e0: int, e1: int, e2: int, g: int, n: nat)
    requires n > 0 && e1 == e0 + g && e2 == e1 + (n - 1) * g
    ensures e2 == e0 + n * g
  {
  }

  // ---------------------------------------------------------------------------
  // The instructions, one by one

  /** Photosynthesis adds the light of the bot's row, advances by one and ends the turn. */
  lemma PhotosynthesisEffect(world: World, m: Machine, id: int)
    requires Ready(world, m, id) && Opcode(m, id) == OP_PHOTOSYNTHESIS
    ensures var me, r := m.bots[id], Exec(world, m, id);
      r.Halt? && r.next.grid == m.grid && r.next.eaten == m.eaten &&
      r.next.bots == m.bots[id := me.(energy := r.next.bots[id].energy, ip := r.next.bots[id].ip)] &&
      me.energy <= r.next.bots[id].energy == me.energy + world.PhotoEnergyAt(me.y) <= me.energy + PHOTO_BASE_TOP &&
      r.next.bots[id].ip == (me.ip + 1) % GENOME_SIZE
  {
  }

  /** Mine moves min(6, m) units from the bot's own cell into its energy, advances by one and ends the turn. */
  lemma MineEffect(world: World, m: Machine, id: int)
    requires Ready(world, m, id) && Opcode(m, id) == OP_MINE
    ensures var me, r := m.bots[id], Exec(world, m, id);
      var before, after := m.grid[me.y][me.x], r.next.grid[me.y][me.x];
      var mined := Min(MINE_MAX_PER_ACTION, before.minerals);
      r.Halt? && r.next.eaten == m.eaten &&
      after == before.(minerals := before.minerals - mined) &&
      r.next.grid == Update(m.grid, me.x, me.y, after) &&
      r.next.bots == m.bots[id := me.(energy := me.energy + mined, ip := (me.ip + 1) % GENOME_SIZE)] &&
      r.next.bots[id].energy + after.minerals == me.energy + before.minerals
  {
  }

  /**
   * Step moves only into an Empty neighbour: the old cell is emptied and the
   * new one holds the bot. Any other target leaves the grid alone. The move
   * is paid for either way.
   */
  lemma StepEffect(world: World, m: Machine, id: int)
    requires Ready(world, m, id) && Opcode(m, id) == OP_STEP
    ensures var me, r := m.bots[id], Exec(world, m, id);
      var nx, ny := TargetX(world, me, me.dir), TargetY(world, me, me.dir);
      var target := m.grid[ny][nx];
      r.Halt? && r.next.eaten == m.eaten &&
      r.next.bots == m.bots[id := r.next.bots[id]] &&
      r.next.bots[id].energy == me.energy - MOVE_COST &&
      (target.kind == Empty ==>
         r.next.bots[id] == me.(x := nx, y := ny, energy := me.energy - MOVE_COST, ip := Mod64(me.ip + Gene(me, 1))) &&
         r.next.grid == Update(Update(m.grid, me.x, me.y, Emptied(m.grid[me.y][me.x])), nx, ny, PlacedBot(target, Some(id))) &&
         r.next.grid[me.y][me.x].kind == Empty && r.next.grid[me.y][me.x].entityId == None &&
         r.next.grid[ny][nx].kind == BotCell && r.next.grid[ny][nx].entityId == Some(id)) &&
      (target.kind != Empty ==>
         r.next.grid == m.grid && r.next.bots[id].x == me.x && r.next.bots[id].y == me.y &&
         r.next.bots[id].ip == Mod64(me.ip + Gene(me, if target.kind == BotCell then 2 else if target.kind == Organic then 3 else 4)))
  {
    NeighbourIsOther(world, m.bots[id], m.bots[id].dir);
  }

  /** Eating a registered, living bot: its energy passes to the eater, it is left at -1 and marked eaten. */
  lemma EatBotEffect(world: World, m: Machine, id: int, k: int)
    requires Ready(world, m, id) && Opcode(m, id) == OP_EAT
    requires var me := m.bots[id];
      var target := m.grid[TargetY(world, me, me.dir)][TargetX(world, me, me.dir)];
      target.kind == BotCell && target.entityId == Some(k)
    requires k in m.bots && k != id && m.bots[k].energy >= 0
    ensures var me, r := m.bots[id], Exec(world, m, id);
      r.Halt? && r.next.grid == m.grid && r.next.eaten == m.eaten + {k} &&
      r.next.bots == m.bots[id := me.(energy := me.energy + m.bots[k].energy - EAT_COST, ip := Mod64(me.ip + Gene(me, 2)))]
                           [k := m.bots[k].(energy := -1)]
  {
  }

  /** A bot cell whose bot is gone or already dead gives nothing; only the instruction pointer moves. */
  lemma EatNoPreyEffect(world: World, m: Machine, id: int, k: int)
    requires Ready(world, m, id) && Opcode(m, id) == OP_EAT
    requires var me := m.bots[id];
      var target := m.grid[TargetY(world, me, me.dir)][TargetX(world, me, me.dir)];
      target.kind == BotCell && target.entityId == Some(k)
    requires k !in m.bots || m.bots[k].energy < 0
    ensures var me, r := m.bots[id], Exec(world, m, id);
      r.Halt? && r.next.grid == m.grid && r.next.eaten == m.eaten &&
      r.next.bots == m.bots[id := me.(energy := me.energy - EAT_COST, ip := Mod64(me.ip + Gene(me, 2)))]
  {
  }

  /**
   * Eating organic matter takes min(q, 8) from the cell into the bot's energy;
   * the cell becomes Empty exactly when nothing is left.
   */
  lemma EatOrganicEffect(world: World, m: Machine, id: int)
    requires Ready(world, m, id) && Opcode(m, id) == OP_EAT
    requires var me := m.bots[id];
      var target := m.grid[TargetY(world, me, me.dir)][TargetX(world, me, me.dir)];
      target.kind == Organic && target.organic > 0
    ensures var me, r := m.bots[id], Exec(world, m, id);
      var nx, ny := TargetX(world, me, me.dir), TargetY(world, me, me.dir);
      var before, after := m.grid[ny][nx], r.next.grid[ny][nx];
      var amount := Min(before.organic, EAT_MAX_PER_ACTION);
      r.Halt? && r.next.eaten == m.eaten &&
      r.next.grid == Update(m.grid, nx, ny, after) &&
      after.organic == before.organic - amount && after.minerals == before.minerals &&
      (after.kind == Empty <==> before.organic <= EAT_MAX_PER_ACTION) &&
      (after.kind != Empty ==> after.kind == Organic) &&
      r.next.bots == m.bots[id := me.(energy := me.energy + amount - EAT_COST, ip := Mod64(me.ip + Gene(me, 3)))] &&
      r.next.bots[id].energy + after.organic == me.energy + before.organic - EAT_COST
  {
    var me := m.bots[id];
    var nx, ny := TargetX(world, me, me.dir), TargetY(world, me, me.dir);
    var target := m.grid[ny][nx];
    var left := target.(organic := target.organic - Min(target.organic, EAT_MAX_PER_ACTION));
    var g1 := Update(m.grid, nx, ny, left);
    if left.organic <= 0 {
      UpdateTwice(m.grid, nx, ny, left, Emptied(left));
    }
  }

  /**
   * Eating at an Empty cell, a wall, an Organic cell holding nothing or a bot
   * cell with no id changes nothing but the instruction pointer: Empty jumps
   * by the gene at ip+1, everything else by the gene at ip+4.
   */
  lemma EatNothingEffect(world: World, m: Machine, id: int)
    requires Ready(world, m, id) && Opcode(m, id) == OP_EAT
    requires var me := m.bots[id];
      var target := m.grid[TargetY(world, me, me.dir)][TargetX(world, me, me.dir)];
      !(target.kind == BotCell && target.entityId.Some?) && !(target.kind == Organic && target.organic > 0)
    ensures var me, r := m.bots[id], Exec(world, m, id);
      var target := m.grid[TargetY(world, me, me.dir)][TargetX(world, me, me.dir)];
      r.Halt? && r.next.grid == m.grid && r.next.eaten == m.eaten &&
      r.next.bots == m.bots[id := me.(energy := me.energy - EAT_COST,
                                      ip := Mod64(me.ip + Gene(me, if target.kind == Empty then 1 else 4)))]
  {
  }

  /**
   * Sharing with a registered kin bot while holding more than 1: the giver
   * hands over max(1, e/4) but keeps at least 1, the receiver is capped at
   * MAX_ENERGY, and the giver pays SHARE_COST.
   */
  lemma ShareGiftEffect(world: World, m: Machine, id: int, k: int)
    requires Ready(world, m, id) && Opcode(m, id) == OP_SHARE
    requires var me := m.bots[id];
      var cell := m.grid[TargetY(world, me, me.dir)][TargetX(world, me, me.dir)];
      cell.kind == BotCell && cell.entityId == Some(k)
    requires k in m.bots && k != id && GenomeDistance(m.bots[id].genome, m.bots[k].genome) <= 1
    requires m.bots[id].energy > 1
    ensures var me, r := m.bots[id], Exec(world, m, id);
      var give := Min(Max(1, me.energy / 4), me.energy - 1);
      1 <= give && me.energy - give >= 1 &&
      r.Halt? && r.next.grid == m.grid && r.next.eaten == m.eaten &&
      r.next.bots == m.bots[id := me.(energy := me.energy - give - SHARE_COST, ip := Mod64(me.ip + Gene(me, 2)))]
                           [k := m.bots[k].(energy := Min(MAX_ENERGY, m.bots[k].energy + give))]
  {
  }

  /** Without a registered kin bot ahead, or with energy 1 or less, Share gives nothing to anyone. */
  lemma ShareNoGiftEffect(world: World, m: Machine, id: int)
    requires Ready(world, m, id) && Opcode(m, id) == OP_SHARE
    requires var me := m.bots[id];
      var cell := m.grid[TargetY(world, me, me.dir)][TargetX(world, me, me.dir)];
      !(cell.kind == BotCell && cell.entityId.Some? && cell.entityId.value in m.bots &&
        GenomeDistance(me.genome, m.bots[cell.entityId.value].genome) <= 1 && me.energy > 1)
    ensures var me, r := m.bots[id], Exec(world, m, id);
      var cell := m.grid[TargetY(world, me, me.dir)][TargetX(world, me, me.dir)];
      var gene := if cell.kind == BotCell && cell.entityId.Some? then 2
                  else if cell.kind == Organic then 3 else if cell.kind == Empty then 1 else 4;
      r.Halt? && r.next.grid == m.grid && r.next.eaten == m.eaten &&
      r.next.bots == m.bots[id := me.(energy := me.energy - SHARE_COST, ip := Mod64(me.ip + Gene(me, gene)))]
  {
  }

  /** Look reads the world but changes only the instruction pointer and the counter. */
  lemma LookEffect(world: World, m: Machine, id: int)
    requires Ready(world, m, id) && Opcode(m, id) == OP_LOOK
    ensures var me, r := m.bots[id], Exec(world, m, id);
      var d := (me.dir + Gene(me, 1) % 8) % 8;
      var cell := m.grid[TargetY(world, me, d)][TargetX(world, me, d)];
      var gene := if cell.kind == Empty then 2 else if cell.kind == BotCell then 3 else if cell.kind == Organic then 4 else 5;
      r.Continue? && r.next.grid == m.grid && r.next.eaten == m.eaten &&
      r.next.bots == m.bots[id := me.(ip := Mod64(me.ip + Gene(me, gene)), executedNonterm := me.executedNonterm + 1)]
  {
  }

  /** The turning instructions change only the direction, which stays a compass point, and skip their operand. */
  lemma TurnEffect(world: World, m: Machine, id: int)
    requires Ready(world, m, id) && (Opcode(m, id) == OP_TURN_ABS || Opcode(m, id) == OP_TURN_REL)
    ensures var me, r := m.bots[id], Exec(world, m, id);
      var turn := Gene(me, 1) % 8;
      r.Continue? && r.next.grid == m.grid && r.next.eaten == m.eaten &&
      r.next.bots == m.bots[id := me.(dir := r.next.bots[id].dir, ip := (me.ip + 2) % GENOME_SIZE,
                                      executedNonterm := me.executedNonterm + 1)] &&
      0 <= r.next.bots[id].dir < 8 &&
      r.next.bots[id].dir == if Opcode(m, id) == OP_TURN_ABS then turn else (me.dir + turn) % 8
  {
  }

  /** EnergyCompare branches on energy against 15 times its operand; nothing else changes. */
  lemma EnergyCompareEffect(world: World, m: Machine, id: int)
    requires Ready(world, m, id) && Opcode(m, id) == OP_ENERGY_COMPARE
    ensures var me, r := m.bots[id], Exec(world, m, id);
      r.Continue? && r.next.grid == m.grid && r.next.eaten == m.eaten &&
      r.next.bots == m.bots[id := me.(ip := Mod64(me.ip + Gene(me, if me.energy >= ENERGY_COMPARE_UNIT * Gene(me, 1) then 2 else 3)),
                                      executedNonterm := me.executedNonterm + 1)]
  {
  }

  /** Every value that is not one of the nine instructions, OP_SNIFF_LIGHT included, is a relative jump by itself. */
  lemma JumpEffect(world: World, m: Machine, id: int)
    requires Ready(world, m, id)
    requires var op := Opcode(m, id);
      op !in {OP_PHOTOSYNTHESIS, OP_TURN_ABS, OP_TURN_REL, OP_LOOK, OP_STEP, OP_EAT, OP_SHARE, OP_ENERGY_COMPARE, OP_MINE}
    ensures var me, r := m.bots[id], Exec(world, m, id);
      r.Continue? && r.next.grid == m.grid && r.next.eaten == m.eaten &&
      r.next.bots == m.bots[id := me.(ip := (me.ip + Opcode(m, id)) % GENOME_SIZE, executedNonterm := me.executedNonterm + 1)]
  {
  }

  // ---------------------------------------------------------------------------
  // Species

  lemma {:induction false} MismatchesSelf(a: seq<int>, n: nat)
    requires n <= |a|
    ensures Mismatches(a, a, n) == 0
  {
    if n > 0 {
      MismatchesSelf(a, n - 1);
    }
  }

  lemma {:induction false} MismatchesSymmetric(a: seq<int>, b: seq<int>, n: nat)
    requires n <= |a| && n <= |b|
    ensures Mismatches(a, b, n) == Mismatches(b, a, n)
  {
    if n > 0 {
      MismatchesSymmetric(a, b, n - 1);
    }
  }

  /** Changing one position makes at most one mismatch. */
  lemma {:induction false} MismatchesPoint(a: seq<int>, i: int, v: int, n: nat)
    requires 0 <= i < |a| && n <= |a|
    ensures Mismatches(a, a[i := v], n) <= 1
    ensures n <= i ==> Mismatches(a, a[i := v], n) == 0
  {
    if n > 0 {
      MismatchesPoint(a, i, v, n - 1);
    }
  }

  /** Every bot is of its own species, and the relation is symmetric. */
  lemma SpeciesReflexiveSymmetric(a: seq<int>, b: seq<int>)
    ensures GenomeDistance(a, a) == 0
    ensures GenomeDistance(a, b) == GenomeDistance(b, a)
  {
    MismatchesSelf(a, |a|);
    MismatchesSymmetric(a, b, Min(|a|, |b|));
  }

  /** A child is always of its parent's species. */
  lemma MutationKeepsSpecies(genome: seq<int>, mutation: Mutation)
    requires |genome| == GENOME_SIZE && mutation.Valid()
    ensures GenomeDistance(genome, Mutated(genome, mutation)) <= 1
    ensures ValidGenome(genome) ==> ValidGenome(Mutated(genome, mutation))
  {
    match mutation
    case NoMutation => MismatchesSelf(genome, |genome|);
    case Mutate(i, v) => MismatchesPoint(genome, i, v, |genome|);
  }

  // ---------------------------------------------------------------------------
  // Cloning

  /** The scan finds the first free offset at or after `offset`, and finds none exactly when there is none. */
  lemma {:induction false} FreeOffsetFirst(world: World, grid: Grid, b: Bot, offset: int)
    requires world.Sized() && Shaped(grid, world.width, world.height) && 0 <= b.dir < 8 && 0 <= offset
    ensures var r := FreeOffset(world, grid, b, offset);
      (r.None? <==> forall o :: offset <= o < 8 ==> !FreeAt(world, grid, b, o)) &&
      (r.Some? ==> offset <= r.value < 8 && FreeAt(world, grid, b, r.value) &&
                   forall o :: offset <= o < r.value ==> !FreeAt(world, grid, b, o))
    decreases 8 - offset
  {
    if offset < 8 {
      FreeOffsetFirst(world, grid, b, offset + 1);
      if FreeAt(world, grid, b, offset) {
        assert FreeOffset(world, grid, b, offset) == Some(offset);
      } else {
        var r := FreeOffset(world, grid, b, offset + 1);
        assert FreeOffset(world, grid, b, offset) == r;
        var last := if r.Some? then r.value else 8;
        forall o | offset <= o < last
          ensures !FreeAt(world, grid, b, o)
        {
          if o == offset {
            assert !FreeAt(world, grid, b, offset);
          }
        }
      }
    }
  }

  /** No child when the parent cannot pay or no neighbour is a playable Empty cell; then the parent is untouched. */
  lemma CloneRefused(world: World, grid: Grid, parent: Bot, childId: int, mutation: Mutation)
    requires world.Sized() && Shaped(grid, world.width, world.height) && BotOk(world, parent) && mutation.Valid()
    ensures var (p, child) := Clone(world, grid, parent, childId, mutation);
      (child.None? <==> parent.energy < REPRODUCTION_COST || forall o :: 0 <= o < 8 ==> !FreeAt(world, grid, parent, o)) &&
      (child.None? ==> p == parent)
  {
    FreeOffsetFirst(world, grid, parent, 0);
  }

  /**
   * A child has REPRODUCTION_COST energy, ip 0, the parent's direction, the
   * requested id and a genome of the parent's species; the parent pays
   * exactly REPRODUCTION_COST.
   */
  lemma CloneBirth(world: World, grid: Grid, parent: Bot, childId: int, mutation: Mutation)
    requires world.Sized() && Shaped(grid, world.width, world.height) && BotOk(world, parent) && mutation.Valid()
    ensures var (p, child) := Clone(world, grid, parent, childId, mutation);
      child.Some? ==>
        var c := child.value;
        p == parent.(energy := parent.energy - REPRODUCTION_COST) && p.energy >= 0 &&
        c.energy == REPRODUCTION_COST && c.ip == 0 && c.dir == parent.dir && c.id == childId &&
        c.executedNonterm == 0 && BotOk(world, c) &&
        GenomeDistance(parent.genome, c.genome) <= 1
  {
    MutationKeepsSpecies(parent.genome, mutation);
  }

  /**
   * A child sits on an Empty cell: the first free neighbour clockwise from
   * the parent's facing direction.
   */
  lemma CloneBirthCell(world: World, grid: Grid, parent: Bot, childId: int, mutation: Mutation)
    requires world.Sized() && Shaped(grid, world.width, world.height) && BotOk(world, parent) && mutation.Valid()
    ensures var (p, child) := Clone(world, grid, parent, childId, mutation);
      child.Some? ==>
        var c := child.value;
        grid[c.y][c.x].kind == Empty &&
        exists o :: 0 <= o < 8 && FreeAt(world, grid, parent, o) && (forall q :: 0 <= q < o ==> !FreeAt(world, grid, parent, q)) &&
          c == Child(world, parent, o, childId, mutation)
  {
    FreeOffsetFirst(world, grid, parent, 0);
    var r := FreeOffset(world, grid, parent, 0);
    if parent.energy >= REPRODUCTION_COST && r.Some? {
      var o := r.value;
      var c := Child(world, parent, o, childId, mutation);
      assert Clone(world, grid, parent, childId, mutation) ==
        (parent.(energy := parent.energy - REPRODUCTION_COST), Some(c));
      assert FreeAt(world, grid, parent, o);
    }
  }

  /**
   * Voluntary reproduction yields a child exactly when the energy lies in the
   * window and some neighbour is playable and Empty.
   */
  lemma ReproduceBirth(world: World, grid: Grid, parent: Bot, childId: int, mutation: Mutation)
    requires world.Sized() && Shaped(grid, world.width, world.height) && BotOk(world, parent) && mutation.Valid()
    ensures Reproduce(world, grid, parent, childId, mutation).1.Some? <==>
      MayReproduce(parent.energy) && HasRoom(world, grid, parent)
  {
    FreeOffsetFirst(world, grid, parent, 0);
  }
}
