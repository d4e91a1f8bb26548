/** Optional values, used where the simulator returns `None`. */
module Wrappers {
  datatype Option<+T> = None | Some(value: T)
}

/**
 * The fixed tuning constants of the simulator, taken as they are configured.
 * Quantities the configuration writes as floats (mineral amounts, the mining
 * efficiency 1.0) only ever take integral values, so they are integers here.
 */
module Config {
  const GENOME_SIZE := 64
  const VM_MAX_NONTERMINATING := 15

  const INITIAL_ENERGY := 20
  const BASE_METABOLISM := 1
  const MOVE_COST := 1
  const SHARE_COST := 1
  const EAT_COST := 0
  const PHOTO_BASE_TOP := 8

  /** The mineral band starts at row `height * 0.5`, i.e. `height / 2`. */
  const MINERALS_BASE_PER_CELL := 20
  /** MINERALS_DEPTH_MULT (0.5) times MINERALS_BASE_PER_CELL: extra minerals per row of depth. */
  const MINERALS_PER_DEPTH := 10
  const MINE_MAX_PER_ACTION := 6

  /** The most organic matter one Eat action takes from a cell. */
  const EAT_MAX_PER_ACTION := 8
  /** EnergyCompare multiplies its operand by this to get the threshold. */
  const ENERGY_COMPARE_UNIT := 15

  const REPRODUCTION_THRESHOLD := 40
  const MAX_ENERGY := 80
  const REPRODUCTION_COST := 20

  const OP_PHOTOSYNTHESIS := 23
  const OP_TURN_ABS := 25
  const OP_STEP := 26
  const OP_LOOK := 30
  const OP_EAT := 31
  const OP_SHARE := 32
  const OP_ENERGY_COMPARE := 33
  const OP_MINE := 34
  const OP_TURN_REL := 35
  /** Declared but never dispatched on: it behaves as a relative jump by 36. */
  const OP_SNIFF_LIGHT := 36

  function Max(a: int, b: int): int { if a >= b then a else b }
  function Min(a: int, b: int): int { if a <= b then a else b }

  /** Column step of compass direction d (0 = N, clockwise to 7 = NW). */
  function DeltaX(d: int): (dx: int)
    requires 0 <= d < 8
    ensures -1 <= dx <= 1
  {
    [0, 1, 1, 1, 0, -1, -1, -1][d]
  }

  /** Row step of compass direction d; rows grow downwards. */
  function DeltaY(d: int): (dy: int)
    requires 0 <= d < 8
    ensures -1 <= dy <= 1
    ensures dy != 0 || DeltaX(d) != 0
  {
    [-1, -1, 0, 1, 1, 1, 0, -1][d]
  }
}
