/** The data the two inventory handlers read: one table per block category
    (attacker_type, defender_type, mine_type, building_type) keyed by variant
    id, the block_type table that links a block to its category row, the
    available_blocks rows that say which user owns which block, and the
    next-level rows the inventory shows as upgrade targets.

    Every Diesel `find(..).first(..)` or `filter(id.eq(..)).first(..)` of the
    handlers is a map lookup here; a missing key is the lookup failure. */
module Catalog {
  import opened Wrappers

  /** A row of attacker_type. The upgrade reads `hp`, the inventory reads
      `max_health`; both columns are kept. */
  datatype AttackerRow = AttackerRow(
    id: int, level: int, cost: int,
    hp: int, maxHealth: int, damage: int, radius: int, speed: int)

  /** A row of defender_type. */
  datatype DefenderRow = DefenderRow(
    id: int, level: int, cost: int, damage: int, radius: int, speed: int)

  /** A row of mine_type. */
  datatype MineRow = MineRow(
    id: int, level: int, cost: int, damage: int, radius: int)

  /** A row of building_type (buildings and banks). */
  datatype BuildingRow = BuildingRow(id: int, level: int, cost: int)

  /** A row of block_type: the category name and, per category, the id of
      the category row that describes this block. */
  datatype BlockTypeRow = BlockTypeRow(
    id: int, category: string,
    attackerType: int, defenderType: int, mineType: int, buildingType: int)

  /** A row of available_blocks: user `userId` owns a block of type `blockTypeId`. */
  datatype AvailableBlock = AvailableBlock(userId: int, blockTypeId: int)

  /** What `get_next_level` yields for a non-attacker block: the columns the
      inventory reads from it. */
  datatype NextLevelRow = NextLevelRow(cost: int, damage: int, radius: int, speed: int)

  /** What `get_next_level_attacker` yields for an attacker block. */
  datatype NextAttackerRow = NextAttackerRow(
    cost: int, damage: int, maxHealth: int, radius: int, speed: int)

  /** The store. `nextLevel` and `nextLevelAttacker` stand for the two
      next-level lookups, keyed by block_type id; `userArtifacts` is the
      user table's artifact column, which only the abstract debit touches. */
  datatype Store = Store(
    attackerType: map<int, AttackerRow>,
    defenderType: map<int, DefenderRow>,
    mineType: map<int, MineRow>,
    buildingType: map<int, BuildingRow>,
    blockType: map<int, BlockTypeRow>,
    availableBlocks: seq<AvailableBlock>,
    nextLevel: map<int, NextLevelRow>,
    nextLevelAttacker: map<int, NextAttackerRow>,
    userArtifacts: map<int, int>)

  /** The tables a lookup can fail on; carried by lookup errors the way the
      source's DieselError carries its `table` name. */
  datatype Table =
    | AttackerTypeTable
    | DefenderTypeTable
    | MineTypeTable
    | BuildingTypeTable
    | BlockTypeTable

  /** The closed set of block categories. "building" and "bank" name the same one. */
  datatype Category = Attacker | Defender | Mine | Building

  /** The category named by a block type or category string, if it is one
      of the five names both handlers dispatch on. */
  function ParseCategory(name: string): Option<Category> {
    if name == "attacker" then Some(Attacker)
    else if name == "defender" then Some(Defender)
    else if name == "mine" then Some(Mine)
    else if name == "building" || name == "bank" then Some(Building)
    else None
  }

  /** The table that holds the rows of a category. */
  function TableOf(c: Category): Table {
    match c
    case Attacker => AttackerTypeTable
    case Defender => DefenderTypeTable
    case Mine => MineTypeTable
    case Building => BuildingTypeTable
  }

  /** A keyed lookup that may find nothing. */
  function Find<V>(m: map<int, V>, key: int): Option<V> {
    if key in m then Some(m[key]) else None
  }

  /** A write the handlers hand to a helper outside this model: the debit
      of a user's artifacts and the two updates of a user's blocks. */
  datatype Call =
    | DeductUserArtifacts(userId: int, amount: int)
    | UpdateAvailableBlocksAttacker(userId: int, variant: int)
    | UpdateAvailableBlocks(userId: int, variant: int)

  /** The errors the two handlers answer with. */
  datatype Error =
    | LookupFailed(table: Table)    // a row lookup found nothing
    | NotFound(message: string)     // the block type to upgrade is none of the known ones
    | BadRequest(message: string)   // the balance does not cover the cost
    | CallFailed(call: Call)        // a helper reported failure and `?` passed it on
    | UnknownCategory(name: string) // a block_type category none of the inventory arms names
}
