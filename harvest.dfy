/**
 * Easy harvesting: what a right-click with the main hand on a plant does when the
 * `easyHarvesting` setting is on. A mature crop drops its loot minus one seed and
 * is replanted at age 0; a stem plant (sugar cane, cactus, bamboo, kelp, vines)
 * loses the block two above (or below) its root, so that its base stays planted.
 */
module EasyHarvesting {
  import opened Blocks

  datatype ActionResult = Pass | Success

  /** The age properties of the three kinds of ageing plants the rule knows. */
  datatype AgeProperty = CropAge(max: nat) | NetherWartAge | CocoaAge

  /** `getAgeProperty`: `None` stands for the `null` it returns for any other block. */
  function GetAgeProperty(b: Block): Option<AgeProperty>
  {
    match b
    case Crop(_, maxAge) => Some(CropAge(maxAge))
    case NetherWart => Some(NetherWartAge)
    case Cocoa => Some(CocoaAge)
    case _ => None
  }

  /**
   * `isMature`. A crop block decides for itself; the host's crops are mature once
   * their age reaches their maximum age.
   */
  function IsMature(s: BlockState): (mature: bool)
    ensures mature ==> GetAgeProperty(s.block).Some?
    ensures mature ==> s.block != Air
  {
    match s.block
    case Crop(_, maxAge) => s.age >= maxAge
    case NetherWart => s.age == 3
    case Cocoa => s.age == 2
    case _ => false
  }

  /** `state.with(p, v)` for an age property `p` the block has. */
  function WithAge(s: BlockState, p: AgeProperty, v: nat): BlockState
    requires GetAgeProperty(s.block) == Some(p)
  {
    s.(age := v)
  }

  /**
   * Replanting undoes maturity: the block reset to age 0 is no longer mature, so
   * a second click does not harvest it again, unless it is a crop whose maximum
   * age is 0. The block and its other properties are kept.
   */
  lemma ReplantedIsYoung(s: BlockState)
    requires IsMature(s)
    ensures IsMature(WithAge(s, GetAgeProperty(s.block).value, 0))
      <==> s.block.Crop? && s.block.maxAge == 0
    ensures WithAge(s, GetAgeProperty(s.block).value, 0).block == s.block
    ensures WithAge(s, GetAgeProperty(s.block).value, 0).rest == s.rest
  {
  }

  // ---------------------------------------------------------------------------
  // Seed removal

  /** The stack holds the block item of `b`: the seed that replants `b`. */
  predicate IsSeedOf(stack: ItemStack, b: Block)
  {
    stack.item.BlockItem? && stack.item.block == b
  }

  /** Index of the first seed of `b` among `stacks`, or `|stacks|` when there is none. */
  function FirstSeed(stacks: seq<ItemStack>, b: Block): (j: nat)
    ensures j <= |stacks|
    ensures forall k :: 0 <= k < j ==> !IsSeedOf(stacks[k], b)
    ensures j < |stacks| ==> IsSeedOf(stacks[j], b)
  {
    if stacks == [] || IsSeedOf(stacks[0], b) then 0
    else 1 + FirstSeed(stacks[1..], b)
  }

  /** `itemStack.decrement(1)`. */
  function Decrement(stack: ItemStack): ItemStack
  {
    stack.(count := stack.count - 1)
  }

  /** The dropped stacks after the loop has taken one seed out of them. */
  function WithoutSeed(stacks: seq<ItemStack>, b: Block): seq<ItemStack>
  {
    var j := FirstSeed(stacks, b);
    if j < |stacks| then stacks[j := Decrement(stacks[j])] else stacks
  }

  /** Number of items in all the stacks together. */
  function TotalCount(stacks: seq<ItemStack>): int
  {
    if stacks == [] then 0 else stacks[0].count + TotalCount(stacks[1..])
  }

  lemma {:induction false} TotalCountUpdate(stacks: seq<ItemStack>, j: nat, x: ItemStack)
    requires j < |stacks|
    ensures TotalCount(stacks[j := x]) == TotalCount(stacks) - stacks[j].count + x.count
  {
    if j > 0 {
      TotalCountUpdate(stacks[1..], j - 1, x);
      assert stacks[j := x][1..] == stacks[1..][j - 1 := x];
    }
  }

  /**
   * Taking the seed out touches at most one stack, the first seed of the block,
   * and only lowers its count by one; so one item in all is withheld exactly when
   * the drops hold a seed.
   */
  lemma WithoutSeedTakesOne(stacks: seq<ItemStack>, b: Block)
    ensures |WithoutSeed(stacks, b)| == |stacks|
    ensures forall k :: 0 <= k < |stacks| ==>
      WithoutSeed(stacks, b)[k].item == stacks[k].item && WithoutSeed(stacks, b)[k].damage == stacks[k].damage
    ensures forall k :: 0 <= k < |stacks| && WithoutSeed(stacks, b)[k] != stacks[k] ==>
      k == FirstSeed(stacks, b) && WithoutSeed(stacks, b)[k].count == stacks[k].count - 1
    ensures forall k :: 0 <= k < |stacks| && IsSeedOf(stacks[k], b) ==>
      WithoutSeed(stacks, b)[FirstSeed(stacks, b)].count == stacks[FirstSeed(stacks, b)].count - 1
    ensures TotalCount(WithoutSeed(stacks, b)) ==
      TotalCount(stacks) - (if exists k :: 0 <= k < |stacks| && IsSeedOf(stacks[k], b) then 1 else 0)
  {
    var j := FirstSeed(stacks, b);
    if j < |stacks| {
      TotalCountUpdate(stacks, j, Decrement(stacks[j]));
    }
  }

  // ---------------------------------------------------------------------------
  // Stem plants

  /** The stem blocks `harvestStemPlant` is called with. */
  predicate IsStem(b: Block)
  {
    b in {SugarCane, Cactus, Bamboo, KelpPlant, TwistingVinesPlant, WeepingVinesPlant, CaveVinesPlant}
  }

  /** The stem block and grow direction the callback picks for a clicked block. */
  function StemOf(b: Block): (r: Option<(Block, Direction)>)
    ensures r.Some? ==> IsStem(r.value.0) && r.value.1.IsVertical()
    ensures r.Some? ==> (r.value.1 == Up <==> b in {SugarCane, Cactus, Bamboo, KelpPlant, TwistingVinesPlant, Kelp, TwistingVines})
    ensures r.Some? <==> b in {SugarCane, Cactus, Bamboo, KelpPlant, TwistingVinesPlant, Kelp, TwistingVines,
                               WeepingVinesPlant, CaveVinesPlant, WeepingVines, CaveVines}
    ensures r.Some? ==>
      (r.value.0 == b ||
       (b, r.value.0) in {(Kelp, KelpPlant), (TwistingVines, TwistingVinesPlant),
                          (WeepingVines, WeepingVinesPlant), (CaveVines, CaveVinesPlant)})
  {
    match b
    case SugarCane => Some((SugarCane, Up))
    case Cactus => Some((Cactus, Up))
    case Bamboo => Some((Bamboo, Up))
    case KelpPlant => Some((KelpPlant, Up))
    case TwistingVinesPlant => Some((TwistingVinesPlant, Up))
    case Kelp => Some((KelpPlant, Up))
    case TwistingVines => Some((TwistingVinesPlant, Up))
    case WeepingVinesPlant => Some((WeepingVinesPlant, Down))
    case CaveVinesPlant => Some((CaveVinesPlant, Down))
    case WeepingVines => Some((WeepingVinesPlant, Down))
    case CaveVines => Some((CaveVinesPlant, Down))
    case _ => None
  }

  /** Number of consecutive `stem` blocks starting at `y` and going against `grow`. */
  function StemLength(column: seq<BlockState>, y: int, stem: Block, grow: Direction): nat
    requires IsStem(stem) && grow.IsVertical()
    decreases if grow == Up then y + 1 else |column| - y
  {
    if IsOf(column, y, stem) then 1 + StemLength(column, Behind(y, grow, 1), stem, grow) else 0
  }

  lemma {:induction false} StemLengthSpan(column: seq<BlockState>, y: int, stem: Block, grow: Direction)
    requires IsStem(stem) && grow.IsVertical()
    ensures forall k :: 0 <= k < StemLength(column, y, stem, grow) ==> IsOf(column, Behind(y, grow, k), stem)
    ensures !IsOf(column, Behind(y, grow, StemLength(column, y, stem, grow)), stem)
    decreases if grow == Up then y + 1 else |column| - y
  {
    var n := StemLength(column, y, stem, grow);
    if IsOf(column, y, stem) {
      var next := Behind(y, grow, 1);
      StemLengthSpan(column, next, stem, grow);
      forall k | 1 <= k < n
        ensures IsOf(column, Behind(y, grow, k), stem)
      {
        assert Behind(y, grow, k) == Behind(next, grow, k - 1);
      }
      assert Behind(y, grow, n) == Behind(next, grow, n - 1);
    }
  }

  /** The final `count` of `harvestStemPlant`'s loop. */
  function StemCount(column: seq<BlockState>, pos: int, stem: Block, grow: Direction): nat
    requires IsStem(stem) && grow.IsVertical()
  {
    1 + StemLength(column, Behind(pos, grow, 1), stem, grow)
  }

  /** The final `root` of `harvestStemPlant`'s loop. */
  function StemRoot(column: seq<BlockState>, pos: int, stem: Block, grow: Direction): int
    requires IsStem(stem) && grow.IsVertical()
  {
    Behind(pos, grow, StemCount(column, pos, stem, grow))
  }

  /** The position `harvestStemPlant` breaks: two blocks past the root. */
  function StemTarget(column: seq<BlockState>, pos: int, stem: Block, grow: Direction): int
    requires IsStem(stem) && grow.IsVertical()
  {
    Ahead(StemRoot(column, pos, stem, grow), grow, 2)
  }

  /** The guard of `harvestStemPlant`: not a lone block. */
  predicate StemHarvestable(column: seq<BlockState>, pos: int, stem: Block, grow: Direction)
    requires IsStem(stem) && grow.IsVertical()
  {
    !(StemCount(column, pos, stem, grow) == 1 && !IsOf(column, Ahead(pos, grow, 1), stem))
  }

  /** A stem plant is harvested exactly when a stem block lies right behind or right ahead of the click. */
  lemma StemHarvestableIff(column: seq<BlockState>, pos: int, stem: Block, grow: Direction)
    requires IsStem(stem) && grow.IsVertical()
    ensures StemHarvestable(column, pos, stem, grow) <==>
      IsOf(column, Behind(pos, grow, 1), stem) || IsOf(column, Ahead(pos, grow, 1), stem)
  {
  }

  /**
   * What the loop finds: `root` is `count` steps behind `pos`, the `count - 1`
   * positions strictly between hold the stem and `root` does not. The block
   * broken two past the root is then the clicked block or part of its stem, and
   * it is never the base block just past the root, which is the clicked block or
   * a stem block itself.
   */
  lemma StemRootFacts(column: seq<BlockState>, pos: int, stem: Block, grow: Direction)
    requires IsStem(stem) && grow.IsVertical()
    ensures StemCount(column, pos, stem, grow) >= 1
    ensures !IsOf(column, StemRoot(column, pos, stem, grow), stem)
    ensures forall k :: 1 <= k < StemCount(column, pos, stem, grow) ==> IsOf(column, Behind(pos, grow, k), stem)
    ensures var root := StemRoot(column, pos, stem, grow);
      Ahead(root, grow, 1) == pos || IsOf(column, Ahead(root, grow, 1), stem)
    ensures StemHarvestable(column, pos, stem, grow) ==>
      var target := StemTarget(column, pos, stem, grow);
      && (target == pos || IsOf(column, target, stem))
      && target != Ahead(StemRoot(column, pos, stem, grow), grow, 1)
  {
    var behind := Behind(pos, grow, 1);
    var n := StemLength(column, behind, stem, grow);
    StemLengthSpan(column, behind, stem, grow);
    forall k | 1 <= k < n + 1
      ensures IsOf(column, Behind(pos, grow, k), stem)
    {
      assert Behind(pos, grow, k) == Behind(behind, grow, k - 1);
    }
    assert StemRoot(column, pos, stem, grow) == Behind(behind, grow, n);
    if n > 0 {
      assert Ahead(StemRoot(column, pos, stem, grow), grow, 1) == Behind(pos, grow, n);
    }
    if n > 1 {
      assert StemTarget(column, pos, stem, grow) == Behind(pos, grow, n - 1);
    }
  }

  // ---------------------------------------------------------------------------
  // What a click changes

  /** New column, stacks dropped (in order) and positions broken, by one click. */
  datatype Change = Change(column: seq<BlockState>, dropped: seq<ItemStack>, broken: seq<int>)

  function NoChange(column: seq<BlockState>): Change
  {
    Change(column, [], [])
  }

  /** `world.breakBlock(y, true)`: nothing on air, otherwise the block is broken and turns to air. */
  function BreakAt(column: seq<BlockState>, y: int): Change
  {
    if Get(column, y).block == Air then NoChange(column)
    else Change(Put(column, y, AIR_STATE), [], [y])
  }

  /** `harvestStemPlant`, on values: `None` when it returns false. */
  function HarvestStem(column: seq<BlockState>, pos: int, stem: Block, grow: Direction): Option<Change>
    requires IsStem(stem) && grow.IsVertical()
  {
    if StemHarvestable(column, pos, stem, grow) then Some(BreakAt(column, StemTarget(column, pos, stem, grow)))
    else None
  }

  /** The mature-crop branch: loot minus one seed is dropped, then the crop is replanted or cleared. */
  function HarvestCrop(column: seq<BlockState>, pos: int, loot: seq<ItemStack>): Change
    requires IsMature(Get(column, pos))
  {
    var state := Get(column, pos);
    var seeded := FirstSeed(loot, state.block) < |loot|;
    var replanted := if seeded then WithAge(state, GetAgeProperty(state.block).value, 0) else AIR_STATE;
    Change(Put(column, pos, replanted), WithoutSeed(loot, state.block), [])
  }

  /** The branches after the gating: `None` is a PASS. */
  function Harvest(mode: string, column: seq<BlockState>, pos: int, side: Direction, loot: seq<ItemStack>): Option<Change>
  {
    var state := Get(column, pos);
    var allowsHarvestFromTop := mode == "require_hoe" || side != Up;
    var allowsHarvestFromBottom := mode == "require_hoe" || side != Down;
    if IsMature(state) then Some(HarvestCrop(column, pos, loot))
    else match StemOf(state.block)
      case None => None
      case Some((stem, grow)) =>
        if (grow == Up && !allowsHarvestFromTop) || (grow == Down && !allowsHarvestFromBottom) then None
        else HarvestStem(column, pos, stem, grow)
  }

  /** The stack in the main hand, or the empty stack when there is no player. */
  function ToolOf(held: Option<ItemStack>): ItemStack
  {
    if held.Some? then held.value else EMPTY_STACK
  }

  /** The action result, the world change and the held stack afterwards. */
  datatype Outcome = Outcome(result: ActionResult, change: Change, tool: ItemStack)

  /** The `UseBlockCallback` registered in `onServerLoaded`, on values. */
  function UseBlockSpec(
    mode: string, isClient: bool, held: Option<ItemStack>, hand: Hand,
    pos: int, side: Direction, column: seq<BlockState>, loot: seq<ItemStack>
  ): Outcome
  {
    var tool := ToolOf(held);
    if mode == "off" || isClient || hand != MainHand then Outcome(Pass, NoChange(column), tool)
    else if mode == "require_hoe" && !tool.item.Hoe? then Outcome(Pass, NoChange(column), tool)
    else match Harvest(mode, column, pos, side, loot)
      case None => Outcome(Pass, NoChange(column), tool)
      case Some(change) =>
        Outcome(Success, change, if mode == "require_hoe" && held.Some? then tool.(damage := tool.damage + 1) else tool)
  }

  /** The gate: the setting is on, the world is the server's and the hand is the main hand. */
  predicate GateOpen(mode: string, isClient: bool, held: Option<ItemStack>, hand: Hand)
  {
    mode != "off" && !isClient && hand == MainHand && (mode == "require_hoe" ==> ToolOf(held).item.Hoe?)
  }

  // ---------------------------------------------------------------------------
  // Properties of a click

  /** With the setting off, on the client or with the off hand, the click passes and nothing changes. */
  lemma ClosedGatePasses(
    mode: string, isClient: bool, held: Option<ItemStack>, hand: Hand,
    pos: int, side: Direction, column: seq<BlockState>, loot: seq<ItemStack>
  )
    requires mode == "off" || isClient || hand != MainHand
    ensures UseBlockSpec(mode, isClient, held, hand, pos, side, column, loot) ==
      Outcome(Pass, NoChange(column), ToolOf(held))
  {
  }

  /** In `require_hoe` mode anything but a hoe passes and changes nothing. */
  lemma RequireHoeWithoutHoePasses(
    mode: string, isClient: bool, held: Option<ItemStack>, hand: Hand,
    pos: int, side: Direction, column: seq<BlockState>, loot: seq<ItemStack>
  )
    requires mode == "require_hoe" && !ToolOf(held).item.Hoe?
    ensures UseBlockSpec(mode, isClient, held, hand, pos, side, column, loot) ==
      Outcome(Pass, NoChange(column), ToolOf(held))
  {
  }

  /**
   * A PASS changes nothing; the tool is worn by exactly one, and only in
   * `require_hoe` mode on SUCCESS.
   */
  lemma PassChangesNothingAndToolWear(
    mode: string, isClient: bool, held: Option<ItemStack>, hand: Hand,
    pos: int, side: Direction, column: seq<BlockState>, loot: seq<ItemStack>
  )
    ensures var o := UseBlockSpec(mode, isClient, held, hand, pos, side, column, loot);
      o.result == Pass ==> o.change == NoChange(column) && o.tool == ToolOf(held)
    ensures var o := UseBlockSpec(mode, isClient, held, hand, pos, side, column, loot);
      o.tool == if mode == "require_hoe" && o.result == Success
                then ToolOf(held).(damage := ToolOf(held).damage + 1) else ToolOf(held)
    ensures var o := UseBlockSpec(mode, isClient, held, hand, pos, side, column, loot);
      o.result == Success ==> GateOpen(mode, isClient, held, hand)
  {
  }

  /**
   * A mature crop behind an open gate is harvested: every loot stack is dropped
   * in order, one seed withheld, and the crop is replanted (same block, same
   * other properties, age 0) when a seed was withheld and cleared to air otherwise.
   */
  lemma MatureCropReplanted(
    mode: string, isClient: bool, held: Option<ItemStack>, hand: Hand,
    pos: int, side: Direction, column: seq<BlockState>, loot: seq<ItemStack>
  )
    requires GateOpen(mode, isClient, held, hand)
    requires IsMature(Get(column, pos))
    ensures var o := UseBlockSpec(mode, isClient, held, hand, pos, side, column, loot);
      var state := Get(column, pos);
      && o.result == Success
      && 0 <= pos < |column|
      && o.change.dropped == WithoutSeed(loot, state.block)
      && o.change.broken == []
      && |o.change.column| == |column|
      && (forall k :: 0 <= k < |column| && k != pos ==> o.change.column[k] == column[k])
      && o.change.column[pos] ==
         if exists k :: 0 <= k < |loot| && IsSeedOf(loot[k], state.block)
         then BlockState(state.block, 0, state.rest) else AIR_STATE
  {
  }

  /**
   * A stem plant behind an open gate, clicked on an allowed face, is harvested
   * exactly when it is not a lone block, and then exactly one block of it is
   * broken, two past its root; the base block is kept.
   */
  lemma StemPlantHarvest(
    mode: string, isClient: bool, held: Option<ItemStack>, hand: Hand,
    pos: int, side: Direction, column: seq<BlockState>, loot: seq<ItemStack>,
    stem: Block, grow: Direction
  )
    requires GateOpen(mode, isClient, held, hand)
    requires StemOf(Get(column, pos).block) == Some((stem, grow))
    requires mode == "require_hoe" || side != (if grow == Up then Up else Down)
    ensures var o := UseBlockSpec(mode, isClient, held, hand, pos, side, column, loot);
      && (o.result == Success <==>
          IsOf(column, Behind(pos, grow, 1), stem) || IsOf(column, Ahead(pos, grow, 1), stem))
      && o.change.dropped == []
    ensures var o := UseBlockSpec(mode, isClient, held, hand, pos, side, column, loot);
      var target := StemTarget(column, pos, stem, grow);
      var base := Ahead(StemRoot(column, pos, stem, grow), grow, 1);
      o.result == Success ==>
        && 0 <= target < |column|
        && (target == pos || IsOf(column, target, stem))
        && o.change.broken == [target]
        && o.change.column == column[target := AIR_STATE]
        && Get(o.change.column, base) == Get(column, base)
  {
    StemHarvestableIff(column, pos, stem, grow);
    StemRootFacts(column, pos, stem, grow);
  }

  /**
   * Outside `require_hoe` mode a stem plant clicked on the face it grows
   * towards (the top of one growing up, the bottom of one growing down) is
   * refused: the click passes and nothing changes.
   */
  lemma DisallowedFacePasses(
    mode: string, isClient: bool, held: Option<ItemStack>, hand: Hand,
    pos: int, side: Direction, column: seq<BlockState>, loot: seq<ItemStack>,
    stem: Block, grow: Direction
  )
    requires mode != "require_hoe"
    requires StemOf(Get(column, pos).block) == Some((stem, grow))
    requires side == grow
    ensures UseBlockSpec(mode, isClient, held, hand, pos, side, column, loot) ==
      Outcome(Pass, NoChange(column), ToolOf(held))
  {
  }

  /**
   * The face check does not apply to a mature crop: behind an open gate it is
   * harvested whichever face is clicked, with the same outcome on every face.
   */
  lemma MatureCropAnyFace(
    mode: string, isClient: bool, held: Option<ItemStack>, hand: Hand,
    pos: int, side: Direction, other: Direction, column: seq<BlockState>, loot: seq<ItemStack>
  )
    requires GateOpen(mode, isClient, held, hand)
    requires IsMature(Get(column, pos))
    ensures UseBlockSpec(mode, isClient, held, hand, pos, side, column, loot).result == Success
    ensures UseBlockSpec(mode, isClient, held, hand, pos, side, column, loot) ==
      UseBlockSpec(mode, isClient, held, hand, pos, other, column, loot)
  {
  }

  // ---------------------------------------------------------------------------
  // The world and the player, as the host objects the callback mutates

  class World {
    const isClient: bool
    /** The block states of the column, bottom up. */
    var column: seq<BlockState>
    /** Every stack spawned with `Block.dropStack`, in order. */
    var dropped: seq<ItemStack>
    /** Every position broken with `breakBlock(_, true)`, in order. */
    var broken: seq<int>

    constructor (isClient: bool, column: seq<BlockState>)
      ensures this.isClient == isClient && this.column == column
      ensures dropped == [] && broken == []
    {
      this.isClient := isClient;
      this.column := column;
      dropped := [];
      broken := [];
    }

    function GetBlockState(y: int): BlockState
      reads this
    {
      Get(column, y)
    }

    method SetBlockState(y: int, s: BlockState)
      modifies this
      ensures column == Put(old(column), y, s)
      ensures dropped == old(dropped) && broken == old(broken)
    {
      column := Put(column, y, s);
    }

    method BreakBlock(y: int)
      modifies this
      ensures var c := BreakAt(old(column), y);
        column == c.column && broken == old(broken) + c.broken && dropped == old(dropped)
    {
      if GetBlockState(y).block != Air {
        column := Put(column, y, AIR_STATE);
        broken := broken + [y];
      }
    }

    method DropStack(stack: ItemStack)
      modifies this
      ensures dropped == old(dropped) + [stack]
      ensures column == old(column) && broken == old(broken)
    {
      dropped := dropped + [stack];
    }
  }

  class Player {
    /** The stack in the main hand. */
    var mainHand: ItemStack

    constructor (mainHand: ItemStack)
      ensures this.mainHand == mainHand
    {
      this.mainHand := mainHand;
    }

    /** `tool.damage(amount, player, ...)` on the main-hand stack. */
    method DamageMainHand(amount: int)
      modifies this
      ensures mainHand == old(mainHand).(damage := old(mainHand).damage + amount)
    {
      mainHand := mainHand.(damage := mainHand.damage + amount);
    }
  }

  /**
   * The drop loop of the mature-crop branch: every stack is dropped in list order,
   * and the first seed of `b` is decremented in place before it is dropped.
   */
  method DropStacks(world: World, drops: array<ItemStack>, b: Block) returns (removedSeed: bool)
    modifies world, drops
    ensures drops[..] == WithoutSeed(old(drops[..]), b)
    ensures removedSeed == (FirstSeed(old(drops[..]), b) < drops.Length)
    ensures world.dropped == old(world.dropped) + drops[..]
    ensures world.column == old(world.column) && world.broken == old(world.broken)
  {
    ghost var original := drops[..];
    ghost var j := FirstSeed(original, b);
    removedSeed := false;
    for i := 0 to drops.Length
      invariant removedSeed == (j < i)
      invariant forall k :: 0 <= k < drops.Length && k != j ==> drops[k] == original[k]
      invariant j < drops.Length ==> drops[j] == if j < i then Decrement(original[j]) else original[j]
      invariant world.dropped == old(world.dropped) + drops[..i]
      invariant world.column == old(world.column) && world.broken == old(world.broken)
    {
      if !removedSeed {
        var item := drops[i].item;
        if item.BlockItem? && item.block == b {
          drops[i] := Decrement(drops[i]);
          removedSeed := true;
        }
      }
      world.DropStack(drops[i]);
    }
  }

  /**
   * `harvestStemPlant`: walk from `pos` against `grow` over the stem, then break
   * the block two past the first non-stem position, unless `pos` is a lone block.
   */
  method HarvestStemPlant(world: World, pos: int, stem: Block, grow: Direction) returns (harvested: bool)
    requires IsStem(stem) && grow.IsVertical()
    modifies world
    ensures harvested == StemHarvestable(old(world.column), pos, stem, grow)
    ensures var c := if harvested then BreakAt(old(world.column), StemTarget(old(world.column), pos, stem, grow))
                     else NoChange(old(world.column));
      world.column == c.column && world.broken == old(world.broken) + c.broken
    ensures world.dropped == old(world.dropped)
  {
    var count := 1;
    var root := Behind(pos, grow, 1);
    while world.GetBlockState(root).block == stem
      invariant 1 <= count
      invariant root == Behind(pos, grow, count)
      invariant count - 1 + StemLength(world.column, root, stem, grow) ==
                StemLength(world.column, Behind(pos, grow, 1), stem, grow)
      decreases StemLength(world.column, root, stem, grow)
    {
      count := count + 1;
      root := Behind(root, grow, 1);
    }
    if count == 1 && world.GetBlockState(Ahead(pos, grow, 1)).block != stem {
      return false;
    }
    world.BreakBlock(Ahead(root, grow, 2));
    return true;
  }

  /** Behind an open gate the click's outcome is that of the harvesting branches. */
  lemma OpenGateOutcome(
    mode: string, isClient: bool, held: Option<ItemStack>, hand: Hand,
    pos: int, side: Direction, column: seq<BlockState>, loot: seq<ItemStack>
  )
    requires GateOpen(mode, isClient, held, hand)
    ensures var tool := ToolOf(held);
      UseBlockSpec(mode, isClient, held, hand, pos, side, column, loot) ==
        match Harvest(mode, column, pos, side, loot)
        case None => Outcome(Pass, NoChange(column), tool)
        case Some(change) =>
          Outcome(Success, change, if mode == "require_hoe" && held.Some? then tool.(damage := tool.damage + 1) else tool)
  {
  }

  /** The harvesting branches on a clicked stem plant reduce to `harvestStemPlant`. */
  lemma HarvestOfStem(
    mode: string, column: seq<BlockState>, pos: int, side: Direction, loot: seq<ItemStack>,
    stem: Block, grow: Direction
  )
    requires !IsMature(Get(column, pos))
    requires StemOf(Get(column, pos).block) == Some((stem, grow))
    requires if grow == Up then mode == "require_hoe" || side != Up else mode == "require_hoe" || side != Down
    ensures Harvest(mode, column, pos, side, loot) == HarvestStem(column, pos, stem, grow)
  {
  }

  /**
   * The branches of the `UseBlockCallback` after its gating, in the source's
   * order: a mature crop first, then the stem plants growing up (clicked from
   * an allowed face), then those growing down. `false` stands for PASS.
   */
  method HarvestClicked(mode: string, world: World, pos: int, side: Direction, loot: seq<ItemStack>)
    returns (success: bool)
    modifies world
    ensures var h := Harvest(mode, old(world.column), pos, side, loot);
      && success == h.Some?
      && world.column == (if success then h.value.column else old(world.column))
      && world.dropped == old(world.dropped) + (if success then h.value.dropped else [])
      && world.broken == old(world.broken) + (if success then h.value.broken else [])
  {
    var state := world.GetBlockState(pos);
    var b := state.block;
    var allowsHarvestFromTop := mode == "require_hoe" || side != Up;
    var allowsHarvestFromBottom := mode == "require_hoe" || side != Down;
    ghost var column := world.column;

    if IsMature(state) {
      var drops := new ItemStack[|loot|](k requires 0 <= k < |loot| => loot[k]);
      assert drops[..] == loot;
      var removedSeed := DropStacks(world, drops, b);
      world.SetBlockState(pos, if removedSeed then WithAge(state, GetAgeProperty(b).value, 0) else AIR_STATE);
      return true;
    } else if b in {SugarCane, Cactus, Bamboo, KelpPlant, TwistingVinesPlant} && allowsHarvestFromTop {
      HarvestOfStem(mode, column, pos, side, loot, b, Up);
      success := HarvestStemPlant(world, pos, b, Up);
    } else if b == Kelp && allowsHarvestFromTop {
      HarvestOfStem(mode, column, pos, side, loot, KelpPlant, Up);
      success := HarvestStemPlant(world, pos, KelpPlant, Up);
    } else if b == TwistingVines && allowsHarvestFromTop {
      HarvestOfStem(mode, column, pos, side, loot, TwistingVinesPlant, Up);
      success := HarvestStemPlant(world, pos, TwistingVinesPlant, Up);
    } else if b in {WeepingVinesPlant, CaveVinesPlant} && allowsHarvestFromBottom {
      HarvestOfStem(mode, column, pos, side, loot, b, Down);
      success := HarvestStemPlant(world, pos, b, Down);
    } else if b == WeepingVines && allowsHarvestFromBottom {
      HarvestOfStem(mode, column, pos, side, loot, WeepingVinesPlant, Down);
      success := HarvestStemPlant(world, pos, WeepingVinesPlant, Down);
    } else if b == CaveVines && allowsHarvestFromBottom {
      HarvestOfStem(mode, column, pos, side, loot, CaveVinesPlant, Down);
      success := HarvestStemPlant(world, pos, CaveVinesPlant, Down);
    } else {
      return false;
    }
  }

  /** The `UseBlockCallback` registered in `onServerLoaded`. */
  method UseBlock(
    mode: string, world: World, player: Player?, hand: Hand,
    pos: int, side: Direction, loot: seq<ItemStack>
  ) returns (result: ActionResult)
    modifies world, player
    ensures var held := if player == null then None else Some(old(player.mainHand));
      var o := UseBlockSpec(mode, world.isClient, held, hand, pos, side, old(world.column), loot);
      && result == o.result
      && world.column == o.change.column
      && world.dropped == old(world.dropped) + o.change.dropped
      && world.broken == old(world.broken) + o.change.broken
      && (player != null ==> player.mainHand == o.tool)
  {
    if mode == "off" || world.isClient || hand != MainHand {
      return Pass;
    }
    var tool := if player != null then player.mainHand else EMPTY_STACK;
    if mode == "require_hoe" && !tool.item.Hoe? {
      return Pass;
    }
    OpenGateOutcome(mode, world.isClient, if player == null then None else Some(tool), hand, pos, side, world.column, loot);
    var success := HarvestClicked(mode, world, pos, side, loot);
    if !success {
      return Pass;
    }
    if mode == "require_hoe" && player != null {
      player.DamageMainHand(1);
    }
    return Success;
  }
}
