/**
 * The host game's block, item and world types, reduced to the plain values the
 * easy-harvesting rule reads and writes.
 *
 * The world is one vertical column of block states: the rule only ever reads the
 * clicked position and positions straight above or below it. Heights are indices
 * 0 .. |column| - 1; anything outside reads as air and cannot be written, as
 * outside the host's build height.
 */
module Blocks {

  datatype Option<+T> = None | Some(value: T)

  /** Block types. A crop block carries the maximum of its own age property. */
  datatype Block =
    | Crop(cropId: nat, maxAge: nat)
    | NetherWart
    | Cocoa
    | SugarCane
    | Cactus
    | Bamboo
    | Kelp
    | KelpPlant
    | TwistingVines
    | TwistingVinesPlant
    | WeepingVines
    | WeepingVinesPlant
    | CaveVines
    | CaveVinesPlant
    | Air
    | Other(id: nat)

  /**
   * A block state: its block, the value of its age property (zero for blocks
   * without one) and all its other properties (facing, waterlogging, ...) as one
   * opaque value.
   */
  datatype BlockState = BlockState(block: Block, age: nat, rest: nat)

  /** The default state of air. */
  const AIR_STATE := BlockState(Air, 0, 0)

  /** Items: block items (seeds are block items of their crop), hoes, everything else. */
  datatype Item = BlockItem(block: Block) | Hoe(tier: nat) | OtherItem(id: nat)

  /** An item stack: item, count and the wear of a tool. */
  datatype ItemStack = ItemStack(item: Item, count: int, damage: int)

  /** The host's empty stack: nothing (air) in it. */
  const EMPTY_STACK := ItemStack(BlockItem(Air), 0, 0)

  datatype Direction = Up | Down | North | South | East | West {
    predicate IsVertical() { this == Up || this == Down }
  }

  datatype Hand = MainHand | OffHand

  /** The state at height `y`; air outside the column. */
  function Get(column: seq<BlockState>, y: int): BlockState
  {
    if 0 <= y < |column| then column[y] else AIR_STATE
  }

  /** The column with height `y` set to `s`; unchanged when `y` lies outside it. */
  function Put(column: seq<BlockState>, y: int, s: BlockState): (r: seq<BlockState>)
    ensures |r| == |column|
    ensures forall k :: 0 <= k < |r| && k != y ==> r[k] == column[k]
    ensures 0 <= y < |column| ==> Get(r, y) == s
  {
    if 0 <= y < |column| then column[y := s] else column
  }

  /** `state.isOf(b)` for the state at height `y`. */
  predicate IsOf(column: seq<BlockState>, y: int, b: Block)
  {
    Get(column, y).block == b
  }

  /** `y` moved `k` blocks along a vertical direction: `offset(dir, k)`. */
  function Ahead(y: int, dir: Direction, k: int): int
    requires dir.IsVertical()
  {
    if dir == Up then y + k else y - k
  }

  /** `y` moved `k` blocks against a vertical direction. */
  function Behind(y: int, dir: Direction, k: int): int
    requires dir.IsVertical()
  {
    if dir == Up then y - k else y + k
  }
}
