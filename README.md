# evolife core in Dafny

A model of the core of **evolife**, an artificial-life simulator. Bots live on a
grid that wraps horizontally and is closed by a wall row at the top and at the
bottom. Each bot carries a genome of 64 small integers and runs it as a program.
The model covers three parts:

* **World** (`world.dfy`, module `WorldModel`). The `World` class owns the grid
  of cells and updates it in place. Each cell has a kind (Empty, Wall, Bot or
  Organic), an optional bot id, an organic amount and a mineral amount.
  - The constructor builds the walls and seeds minerals in the lower half, more
    the deeper the row.
  - The coordinate helpers wrap x and clamp y.
  - The cell setters are methods whose contracts give the whole new grid.
  - `TickPhysics` lets organic matter fall one cell into an Empty cell below
    it, sweeping from the lowest playable row upwards. It is a loop proved
    equal to the function `Ticked`.
  - `PhotoEnergyAt` gives the light of a row: 8 at the top, falling linearly to
    0 at the middle row.
* **Bots** (`bot.dfy`, module `BotModel`). A bot is a value: genome, position,
  energy, direction, instruction pointer, id and its counter of
  non-terminating instructions.
  - One turn reads and writes a `Machine`: the grid, the registry of bots by
    id, and the set of ids eaten by predation.
  - The interpreter is the spec function `Exec`, one instruction. `RunLoop` is
    the instruction loop, bounded by 15 non-terminating instructions, and
    `Turn` is a whole turn including metabolism.
  - `RunTurn` is the imperative loop that updates the world's grid in place. It
    is proved equal to `Turn`.
  - Reproduction (`CloneWithMutation`, `TryReproduce`) scans the eight
    neighbours clockwise from the bot's heading for a free cell. The newborn
    gets a copy of the genome with at most one point mutation.
  - `SameSpecies` is the early-exit comparison loop, proved equal to "the
    genomes differ in at most one position".
* **Scheduler** (`sim.dfy`, module `SimModel`). The `Simulation` class holds
  the world, the list of bot ids in acting order, the registry, the eaten set,
  the next id and a cursor.
  - `Step` lets the bot at the cursor act, or removes it if it is dead. It then
    handles death, forced budding at full energy, or voluntary reproduction;
    inserts the newborn before the parent; advances the cursor; and ticks
    physics.
  - Every method that changes the simulation state is proved equal to a
    function on `SimState`, and `SimInv` (ids distinct, list and registry
    agree, ids below `nextId`, cursor in range) is preserved. `Breed` is
    proved equal to `Offspring`, the parent and newborn it computes, and
    `Vacate` to `Vacated`, the grid it leaves.

The lemma modules `WorldProperties`, `BotProperties` and `SimProperties` state
the properties:

* the conservation of organic matter by a physics tick, and that the tick
  drops every qualifying unit exactly one row;
* the monotone light gradient and the mineral gradient;
* the effect of every instruction;
* the instruction budget of a turn;
* the species relation and the effect of mutation on it;
* the first-free-neighbour rule of budding;
* how a step changes the population, where a newborn goes, which bot a death
  makes the cursor skip, and what a removed bot leaves on its cell.

Python's `%` with a positive divisor and `& 7`/`& 63` on the values that occur
here coincide with Dafny's Euclidean `%`, so they are written as `%`.

## Model

| member | source | states |
|---|---|---|
| WorldModel.InitialMinerals | evolife/world.py:45-51 | a row holds minerals exactly when it lies between the middle row and the row above the floor, and then at least 20 + 10 |
| WorldModel.World.constructor | evolife/world.py:29-51 | top and bottom rows are Wall, every interior cell is Empty with no id and no organic matter, and each cell's minerals are those of its row |
| WorldModel.World.WrapX | evolife/world.py:53-58 | the column lies in [0, width), is congruent to x, and equals x when x is already in range |
| WorldModel.World.ClampY | evolife/world.py:60-65 | the row lies in [0, height) and is the in-range row nearest to y |
| WorldModel.World.Get | evolife/world.py:70-71 | the cell stored at column x, row y; on the top and bottom rows of a grid with intact walls it is a Wall |
| WorldProperties.PlayableCells | evolife/world.py:67-68 | a cell is playable exactly when the column needs no wrapping, the row no clamping, and the row is neither wall row |
| WorldModel.World.SetBot | evolife/world.py:73-81 | only cell (x, y) changes; an id makes it a Bot cell with that id; None empties a Bot cell and leaves any other kind alone; organic and minerals kept |
| WorldModel.World.SetEmpty | evolife/world.py:83-86 | only cell (x, y) changes; it becomes Empty with no id; organic and minerals kept |
| WorldModel.World.AddOrganic | evolife/world.py:88-91 | only cell (x, y) changes; it becomes Organic with max(0, amount) more organic matter; id and minerals kept |
| WorldModel.World.TickPhysics | evolife/world.py:93-104 | the new grid is `Ticked` of the old one; the properties of `Ticked` are the WorldProperties lemmas below |
| WorldModel.World.SinkRow | evolife/world.py:96-104 | one row's pass of the sweep over all columns, equal to `SweepRow` |
| WorldModel.World.PhotoEnergyAt | evolife/world.py:106-118 | light is between 0 and 8, and 0 from the middle row down |
| WorldProperties.WrapClampEdges | evolife/world.py:53-65 | column -1 wraps to the last column and column `width` to 0; rows clamp to 0 and height-1 |
| WorldProperties.UpdateTwice | evolife/bot.py:183-186 | a second write to a cell overrides the first (Eat lowers the organic amount of the target cell, then `set_empty` clears the same cell) |
| WorldProperties.PhotoEnergyTop | evolife/world.py:106-118 | the first playable row, and any row above it, gets the full 8 units of light |
| WorldProperties.PhotoEnergyMonotone | evolife/world.py:106-118 | light never increases with depth |
| WorldProperties.MineralsDeepen | evolife/world.py:45-51 | inside the band every row holds more minerals than any row above it, 10 more per row of depth |
| WorldProperties.SinkConserves | evolife/world.py:97-104 | moving one cell's organic matter down leaves the grid's total organic matter unchanged |
| WorldProperties.TickConservesOrganic | evolife/world.py:93-104 | a physics tick leaves the total organic matter of the grid unchanged |
| WorldProperties.TickKeepsWallsBotsMinerals | evolife/world.py:93-104 | a tick changes no cell's minerals and no Wall or Bot cell, and creates no Wall or Bot cell |
| WorldProperties.TickFallsOneRow | evolife/world.py:93-104 | after a tick every cell equals `AfterTick`: a positive Organic cell above an Empty cell (as seen after the row below was swept) drops its whole amount one row; nothing falls twice |
| BotModel.Mod64 | evolife/bot.py:34-35 | the result lies in [0, 64) and is congruent to the input modulo 64 |
| BotModel.LookupBot | evolife/sim.py:15-17 | a bot is returned exactly when the id is registered, and it is the registered bot |
| BotModel.MarkEaten | evolife/sim.py:19-21 | the id joins the eaten set and no other id is added or removed |
| BotModel.SameSpecies | evolife/bot.py:86-94 | true exactly when the genomes differ in at most one position over their common length |
| BotModel.Clone | evolife/bot.py:51-84 | the parent changes only in energy, which never grows; a child, when there is one, is a well-formed bot with the requested id |
| BotModel.CloneWithMutation | evolife/bot.py:51-84 | parent and child are those of `Clone` on the current grid (see CloneRefused, CloneBirth, CloneBirthCell) |
| BotModel.FindFreeCell | evolife/bot.py:54-67 | the scan returns `FreeOffset`, the first offset clockwise from the heading whose cell is playable and Empty (see FreeOffsetFirst) |
| BotModel.Reproduce | evolife/bot.py:96-99 | a child is produced exactly when the energy lies in the voluntary reproduction window [40, 60] and the clockwise scan finds a free neighbour |
| BotModel.TryReproduce | evolife/bot.py:96-99 | parent and child are those of `Reproduce` on the current grid |
| BotModel.StepOp | evolife/bot.py:146-165 | Step keeps the machine invariant, the registered ids, the eaten set and the counter, and changes no bot but the acting one |
| BotModel.Prey | evolife/bot.py:175-179 | predation changes only energies, never the grid or the registered ids |
| BotModel.Graze | evolife/bot.py:181-187 | grazing changes only the eater's energy and the target cell, which does not become a Wall |
| BotModel.EatOp | evolife/bot.py:167-194 | Eat keeps the machine invariant, the registered ids and every other bot but its energy |
| BotModel.Give | evolife/bot.py:205-210 | sharing changes only energies, never the grid, the eaten set or the registered ids |
| BotModel.ShareOp | evolife/bot.py:196-220 | Share keeps the invariant and changes neither the grid nor the eaten set |
| BotModel.MineOp | evolife/bot.py:234-242 | Mine changes only the acting bot among the bots, keeps the invariant and the eaten set |
| BotModel.Exec | evolife/bot.py:105-248 | an instruction ends the turn exactly when it is one of the five terminating opcodes; a non-terminating one raises the counter by one and a terminating one leaves it |
| BotModel.RunLoop | evolife/bot.py:104-248 | the loop keeps the invariant and never takes the counter past 15 |
| BotModel.Turn | evolife/bot.py:101-251 | a whole turn keeps the invariant and ends with the counter in [0, 15] |
| BotModel.DoStep | evolife/bot.py:146-165 | the in-place Step equals `StepOp` |
| BotModel.DoEat | evolife/bot.py:167-194 | the in-place Eat equals `EatOp` |
| BotModel.DoGraze | evolife/bot.py:181-187 | the in-place organic branch of Eat equals `Graze` |
| BotModel.DoShare | evolife/bot.py:196-220 | the in-place Share equals `ShareOp` |
| BotModel.DoMine | evolife/bot.py:234-242 | the in-place Mine equals `MineOp` |
| BotModel.ExecInstruction | evolife/bot.py:105-248 | one pass of the loop body equals `Exec` |
| BotModel.Control | evolife/bot.py:112-248 | the bot after a non-terminating instruction: absolute or relative turn, Look, EnergyCompare or jump, dispatched on the opcode at ip |
| BotModel.DoLook | evolife/bot.py:126-144 | Look's branch equals `Look` on the current grid |
| BotModel.RunTurn | evolife/bot.py:101-251 | the in-place turn equals `Turn` of the state before it |
| BotModel.RunInstructions | evolife/bot.py:104-248 | the while loop equals `RunLoop` |
| BotProperties.NeighbourIsOther | evolife/bot.py:147-150 | the neighbour in any direction is a different cell from the bot's own |
| BotProperties.LoopBudget | evolife/bot.py:104-248 | the loop runs at most 16 instructions; all but the last are non-terminating; it ends on a terminating one or when the counter reaches 15 |
| BotProperties.TurnBudget | evolife/bot.py:101-251 | a turn runs 1 to 16 instructions; the final counter is the number of non-terminating ones |
| BotProperties.TurnMetabolism | evolife/bot.py:250-251 | metabolism is charged once, after the loop, on every exit path |
| BotProperties.ZeroJumpLoop | evolife/bot.py:244-248 | an all-zero genome spins on the jump by 0 until the counter reaches 15 and changes nothing else |
| BotProperties.ZeroJumpTurn | evolife/bot.py:101-251 | an all-zero genome's turn costs exactly the metabolism and executes 15 instructions |
| BotProperties.PhotosynthesisTurn | evolife/bot.py:107-110 | an all-Photosynthesis genome executes one instruction a turn and gains the light of its row minus metabolism |
| BotProperties.PhotosynthesisTurns | evolife/bot.py:101-251 | n such turns leave the bot in place and change its energy by n times (light minus metabolism) |
| BotProperties.PhotosynthesisEffect | evolife/bot.py:107-110 | Photosynthesis adds the row's light (at most 8), advances by one and ends the turn |
| BotProperties.MineEffect | evolife/bot.py:234-242 | Mine moves min(6, minerals) from the own cell to energy, so energy plus cell minerals is conserved, and ends the turn |
| BotProperties.StepEffect | evolife/bot.py:146-165 | Step always costs 1; into an Empty cell it moves the bot and updates both cells; otherwise the grid stays and the branch gene follows the target's kind |
| BotProperties.EatBotEffect | evolife/bot.py:172-180 | eating a living registered bot transfers its energy, leaves it at -1 and marks it eaten |
| BotProperties.EatNoPreyEffect | evolife/bot.py:172-180 | a bot cell whose id is unregistered or dead yields nothing; only the pointer moves |
| BotProperties.EatOrganicEffect | evolife/bot.py:181-187 | grazing takes min(q, 8), conserves energy plus organic matter, and empties the cell exactly when nothing is left |
| BotProperties.EatNothingEffect | evolife/bot.py:188-194 | at an Empty cell, a Wall, an exhausted Organic cell or an id-less Bot cell nothing but the pointer changes |
| BotProperties.ShareGiftEffect | evolife/bot.py:202-211 | a kin bot ahead receives max(1, e/4), capped so the giver keeps at least 1, up to 80 in the receiver; the giver also pays 1 |
| BotProperties.ShareNoGiftEffect | evolife/bot.py:196-220 | without kin ahead, or with energy at most 1, Share only costs 1 and branches by the cell's kind |
| BotProperties.LookEffect | evolife/bot.py:126-144 | Look branches by the kind of the cell in the chosen direction and changes nothing else |
| BotProperties.TurnEffect | evolife/bot.py:112-124 | the turning instructions set or rotate the direction within 0..7 and skip their operand |
| BotProperties.EnergyCompareEffect | evolife/bot.py:222-232 | EnergyCompare branches on energy against 15 times its operand and changes nothing else |
| BotProperties.JumpEffect | evolife/bot.py:244-248 | every other opcode, including the unused Sniff-Light value, is a relative jump by its own value |
| BotProperties.SpeciesReflexiveSymmetric | evolife/bot.py:86-94 | a genome is its own species and the species relation is symmetric |
| BotProperties.MutationKeepsSpecies | evolife/bot.py:69-72 | a child's genome differs from its parent's in at most one position, and stays a valid genome |
| BotProperties.FreeOffsetFirst | evolife/bot.py:54-67 | the scan finds no offset exactly when none of the eight is free, else the first free one clockwise |
| BotProperties.CloneRefused | evolife/bot.py:51-67 | cloning fails exactly when energy is below 20 or no neighbour is free, and then the parent is untouched |
| BotProperties.CloneBirth | evolife/bot.py:69-84 | a birth costs the parent exactly 20; the child has 20 energy, the parent's heading, ip 0, the given id and a genome within one mutation |
| BotProperties.CloneBirthCell | evolife/bot.py:54-84 | the child sits on an Empty cell, the first free neighbour clockwise from the parent's heading |
| BotProperties.ReproduceBirth | evolife/bot.py:96-99 | voluntary reproduction yields a child exactly when the energy is in [40, 60] and some neighbour is playable and Empty |
| SimModel.RemoveAt | evolife/sim.py:89 | the list without position i, in order, and with distinct ids only that id goes |
| SimModel.InsertAt | evolife/sim.py:32 | the list with k at position i, the rest shifted in order, distinctness kept for a fresh k |
| SimModel.Tick | evolife/sim.py:76-77 | ticking physics changes only the grid and keeps the scheduler invariant |
| SimModel.Advanced | evolife/sim.py:79-83 | the cursor moves to the next position, wrapping to 0 after the last |
| SimModel.Removed | evolife/sim.py:88-102 | the bot leaves list, registry and eaten set; the invariant holds; the cursor stays unless it fell off the end, then 0 |
| SimModel.Vacated | evolife/sim.py:91-100 | only the bot's cell can change; a cell that no longer holds the bot is untouched; with a deposit it becomes Organic with max(0, energy) more and keeps its id; without one it becomes Empty with no id |
| SimModel.Inserted | evolife/sim.py:29-35 | the new id exceeds every registered one and goes in at the cursor; the registry gains the bot; its cell becomes a Bot cell carrying its id, keeping minerals and organic; every other cell is unchanged |
| SimModel.Played | evolife/sim.py:49 | a turn keeps list, cursor, ids and the invariant |
| SimModel.ForcedBud | evolife/sim.py:57-61 | a full bot buds as `Clone` does, or is set to energy -1; there is no child exactly when the energy is below 20 or the scan finds no free neighbour |
| SimModel.Offspring | evolife/sim.py:55-64 | the parent changes only in energy; a child is well-formed with the next id; there is a child exactly when the bot is full (80 or more) or in the voluntary window, and the scan finds a free neighbour |
| SimModel.Delivered | evolife/sim.py:65-70 | the parent's record is replaced; with a newborn, it enters the list at the cursor (in front of the parent) and the registry, and the next id is spent; the child's cell becomes a Bot cell with the new id and every other cell is unchanged; the scheduler invariant holds |
| SimModel.Settled | evolife/sim.py:51-74 | the after-turn handling of death and birth keeps the scheduler invariant |
| SimModel.Stepped | evolife/sim.py:37-77 | a whole step keeps the scheduler invariant |
| SimModel.Simulation.constructor | evolife/sim.py:23-27 | no bots, empty registry and eaten set, next id 1, cursor 0 |
| SimModel.Simulation.AddBot | evolife/sim.py:29-35 | the bot gets the next id and the state becomes `Inserted` |
| SimModel.Simulation.AdvanceCursor | evolife/sim.py:79-83 | the state becomes `Advanced` |
| SimModel.Simulation.RemoveDeadAtCursor | evolife/sim.py:85-86 | the state becomes `Removed` at the cursor |
| SimModel.Simulation.RemoveDeadAt | evolife/sim.py:88-102 | the state becomes `Removed` at the index |
| SimModel.Simulation.Vacate | evolife/sim.py:91-100 | the grid becomes `Vacated` |
| SimModel.Simulation.Settle | evolife/sim.py:51-74 | the state becomes `Settled` |
| SimModel.Simulation.Breed | evolife/sim.py:55-64 | the pair returned is `Offspring` of the current grid |
| SimModel.Simulation.Deliver | evolife/sim.py:65-70 | the state becomes `Delivered` |
| SimModel.Simulation.Step | evolife/sim.py:37-77 | the state becomes `Stepped`, which keeps the scheduler invariant |
| SimModel.Simulation.Move | evolife/sim.py:42-74 | the state becomes `Moved`, the bot's action and its aftermath |
| SimModel.Simulation.Play | evolife/sim.py:49 | the state becomes `Played`, the bot's turn on the registry |
| SimProperties.EmptyStepOnlyTicks | evolife/sim.py:38-40 | with no bots a step only ticks physics |
| SimProperties.StepPopulation | evolife/sim.py:37-77 | a step changes the population by at most one; it grows exactly when the next id is spent, and only that id is new |
| SimProperties.BirthBeforeParent | evolife/sim.py:63-77 | a birth puts the child at the cursor and the parent right after it, and the cursor lands on the parent |
| SimProperties.ShrinkIsRemoval | evolife/sim.py:42-53 | the list shrinks only by removing the bot at the cursor, before or after its turn |
| SimProperties.DeathSkipsNext | evolife/sim.py:42-83 | after a death the cursor moves past the bot that slid into the slot, wrapping to 0 when that bot is now last; if the last bot died the cursor wraps and the first bot is skipped |
| SimProperties.DeadBotRemovedWithoutTurn | evolife/sim.py:42-47 | a bot found dead is removed without playing: list, registry and eaten set lose only its id, no id is spent, and the grid is the old grid with its cell vacated, then ticked |
| SimProperties.FullBotBudsOrDies | evolife/sim.py:57-61 | a bot at full energy after its turn buds exactly when a neighbour is free; otherwise it gets energy -1 and list, grid, eaten set and cursor stay |
| SimProperties.VoluntaryBirth | evolife/sim.py:63-70 | below full energy, a bot gets a child after its turn exactly when its energy is in [40, 60] and a neighbour is free |
| SimProperties.RemovedCell | evolife/sim.py:91-100 | the cell no longer holds the bot; an uneaten converted bot leaves it Organic with max(0, e) more and its id kept; otherwise a cell still holding the bot becomes Empty with no id; a cell no longer holding it is untouched; minerals and other cells stay |
| SimProperties.BornCell | evolife/sim.py:57-70 | after a birth the child's cell was Empty and becomes a Bot cell carrying the new id, keeping its minerals and organic; every other cell is unchanged |

## Left out

- The driver loop, the initial population and the rendering (`main.py`, `evolife/render.py`) are not part of this model.
- Randomness: the mutation decision in `clone_with_mutation` is a `Mutation` parameter, either no mutation or one point mutation. The mutation rate is not modelled.
- Floating point: organic matter, minerals and light are integers. Every quantity the core produces is integral: bot energies, 20 + 10k minerals, at most 6 mined, at most 8 eaten. The light `int(8 * (1 - depth/span))` is computed exactly as `8 * (span - depth) / span`.
- The registry and eaten set are class-level in the source and shared by every `Simulation` instance. Here they belong to the one simulation modelled.
- Bots are values filed by id, not shared objects. The list holds ids and the registry holds bots. Updates to another bot (prey, share partner) are registry updates, done in the source's order. This is exact even when a lookup would return the acting bot.
- BotProperties.EatBotEffect: states only the case where the prey is another bot; a bot eating its own id is modelled by `EatOp` but has no lemma of its own.
- BotProperties.ShareGiftEffect: states only the case where the partner is another bot; sharing with itself is modelled by `ShareOp` but has no lemma of its own.
- SimModel.Simulation.AddBot: requires a well-formed bot on a playable cell, with a 64-gene genome of values in 0..63, a direction in 0..7 and ip in 0..63. The source does not check this; its only caller creates such bots.
- The world constructor requires width and height of at least 8, as the source's assertion does. Cell reads and writes take in-range coordinates, which is how every caller uses them; Python's negative indexing is not modelled.
- The energy-cap branch at `evolife/sim.py:72-74` does nothing and has no counterpart.
- The lazy `from .sim import Simulation` imports inside the interpreter are not modelled; lookups go to the registry passed to the turn.
- `bot.id or -1` at `evolife/sim.py:90` is the id itself, because ids start at 1.
- SimModel.Stepped: its own contract states only the scheduler invariant; its effects are stated by the SimProperties lemmas.
- SimModel.Settled: its own contract states only the scheduler invariant; its effects are stated by FullBotBudsOrDies, VoluntaryBirth and the other SimProperties lemmas.
