/** The inventory handler (`get_inventory`): a read-only projection of the
    user's owned blocks into a list of category entries, one entry per owned
    block, each holding exactly one item. An item shows the block's current
    row and, as upgrade values, the next-level row, with 0 where there is no
    next level and 0 for every stat the category does not carry. */
module Inventory {
  import opened Wrappers
  import opened Catalog

  datatype InventoryItem = InventoryItem(
    itemId: int,
    itemLevel: int,
    upgradeCost: int,
    currentDamage: Option<int>,
    currentHp: Option<int>,
    currentArtifacts: Option<int>,
    currentRadius: Option<int>,
    currentSpeed: Option<int>,
    upgradeDamage: Option<int>,
    upgradeHp: Option<int>,
    upgradeArtifacts: Option<int>,
    upgradeRadius: Option<int>,
    upgradeSpeed: Option<int>)

  datatype InventoryCategory = InventoryCategory(category: string, items: seq<InventoryItem>)

  datatype InventoryResponse = InventoryResponse(categories: seq<InventoryCategory>)

  /** The five stats an item shows twice, as current and as upgrade value. */
  datatype Stat = Damage | Hp | Artifacts | Radius | Speed

  /** The current value an item shows for a stat. */
  function Current(item: InventoryItem, f: Stat): Option<int> {
    match f
    case Damage => item.currentDamage
    case Hp => item.currentHp
    case Artifacts => item.currentArtifacts
    case Radius => item.currentRadius
    case Speed => item.currentSpeed
  }

  /** The upgrade value an item shows for a stat. */
  function UpgradeValue(item: InventoryItem, f: Stat): Option<int> {
    match f
    case Damage => item.upgradeDamage
    case Hp => item.upgradeHp
    case Artifacts => item.upgradeArtifacts
    case Radius => item.upgradeRadius
    case Speed => item.upgradeSpeed
  }

  /** The stats a category takes from its rows; every other stat is shown as 0. */
  function Populated(c: Category): set<Stat> {
    match c
    case Building => {}
    case Mine => {Damage, Radius}
    case Defender => {Damage, Radius, Speed}
    case Attacker => {Damage, Hp, Radius, Speed}
  }

  /** Reading a column of an absent next-level row with `unwrap_or_default`
      gives 0, which is reading it from this all-zero row. */
  const ZeroNextLevel := NextLevelRow(0, 0, 0, 0)

  const ZeroNextAttackerLevel := NextAttackerRow(0, 0, 0, 0, 0)

  // ---------------------------------------------------------------------
  // One item per category arm, field by field as the source builds it.

  /** The building and bank arm: a building or bank shows its level and the next level's
      cost; every stat is 0. */
  function BuildingItem(building: BuildingRow, next: Option<NextLevelRow>): InventoryItem {
    InventoryItem(
      itemId := building.id,
      itemLevel := building.level,
      upgradeCost := match next case Some(n) => n.cost case None => 0,
      currentDamage := Some(0),
      currentHp := Some(0),
      currentArtifacts := Some(0),
      currentRadius := Some(0),
      currentSpeed := Some(0),
      upgradeDamage := Some(0),
      upgradeHp := Some(0),
      upgradeArtifacts := Some(0),
      upgradeRadius := Some(0),
      upgradeSpeed := Some(0))
  }

  /** The mine arm: a mine shows damage and radius. */
  function MineItem(mine: MineRow, next: Option<NextLevelRow>): InventoryItem {
    InventoryItem(
      itemId := mine.id,
      itemLevel := mine.level,
      upgradeCost := match next case Some(n) => n.cost case None => 0,
      currentDamage := Some(mine.damage),
      currentHp := Some(0),
      currentArtifacts := Some(0),
      currentRadius := Some(mine.radius),
      currentSpeed := Some(0),
      upgradeDamage := Some(match next case Some(n) => n.damage case None => 0),
      upgradeHp := Some(0),
      upgradeArtifacts := Some(0),
      upgradeRadius := Some(match next case Some(n) => n.radius case None => 0),
      upgradeSpeed := Some(0))
  }

  /** The defender arm: a defender shows damage, radius and speed. */
  function DefenderItem(defender: DefenderRow, next: Option<NextLevelRow>): InventoryItem {
    InventoryItem(
      itemId := defender.id,
      itemLevel := defender.level,
      upgradeCost := match next case Some(n) => n.cost case None => 0,
      currentDamage := Some(defender.damage),
      currentHp := Some(0),
      currentArtifacts := Some(0),
      currentRadius := Some(defender.radius),
      currentSpeed := Some(defender.speed),
      upgradeDamage := Some(match next case Some(n) => n.damage case None => 0),
      upgradeHp := Some(0),
      upgradeArtifacts := Some(0),
      upgradeRadius := Some(match next case Some(n) => n.radius case None => 0),
      upgradeSpeed := Some(match next case Some(n) => n.speed case None => 0))
  }

  /** The attacker arm: an attacker shows everything but artifacts, its hp
      being the max_health column. */
  function AttackerItem(attacker: AttackerRow, next: Option<NextAttackerRow>): InventoryItem {
    InventoryItem(
      itemId := attacker.id,
      itemLevel := attacker.level,
      upgradeCost := match next case Some(n) => n.cost case None => 0,
      currentDamage := Some(attacker.damage),
      currentHp := Some(attacker.maxHealth),
      currentArtifacts := Some(0),
      currentRadius := Some(attacker.radius),
      currentSpeed := Some(attacker.speed),
      upgradeDamage := Some(match next case Some(n) => n.damage case None => 0),
      upgradeHp := Some(match next case Some(n) => n.maxHealth case None => 0),
      upgradeArtifacts := Some(0),
      upgradeRadius := Some(match next case Some(n) => n.radius case None => 0),
      upgradeSpeed := Some(match next case Some(n) => n.speed case None => 0))
  }

  /** The match on the category: the item for one block_type row, by its category. The
      current row comes from the category's table, the next-level row from
      the lookup keyed by the block_type id. */
  function ProjectItem(s: Store, block: BlockTypeRow): (r: Result<InventoryItem, Error>)
    // Unknown categories are an error; a known one decides the table.
    ensures ParseCategory(block.category).None? ==> r == Err(UnknownCategory(block.category))
    ensures ParseCategory(block.category) == Some(Building) ==>
      (r.Ok? <==> block.buildingType in s.buildingType) && (r.Err? ==> r.error == LookupFailed(BuildingTypeTable))
    ensures ParseCategory(block.category) == Some(Mine) ==>
      (r.Ok? <==> block.mineType in s.mineType) && (r.Err? ==> r.error == LookupFailed(MineTypeTable))
    ensures ParseCategory(block.category) == Some(Defender) ==>
      (r.Ok? <==> block.defenderType in s.defenderType) && (r.Err? ==> r.error == LookupFailed(DefenderTypeTable))
    ensures ParseCategory(block.category) == Some(Attacker) ==>
      (r.Ok? <==> block.attackerType in s.attackerType) && (r.Err? ==> r.error == LookupFailed(AttackerTypeTable))
    // Every field is present, and every stat the category lacks is 0.
    ensures r.Ok? ==> forall f :: Current(r.value, f).Some? && UpgradeValue(r.value, f).Some?
    ensures r.Ok? ==>
      && ParseCategory(block.category).Some?
      && (forall f :: f !in Populated(ParseCategory(block.category).value) ==>
            Current(r.value, f) == Some(0) && UpgradeValue(r.value, f) == Some(0))
    // The populated stats: current ones from the category row, upgrade ones
    // and the cost from the next-level row, or the all-zero row without one.
    ensures r.Ok? && ParseCategory(block.category) == Some(Building) ==>
      var b := s.buildingType[block.buildingType];
      var n := Find(s.nextLevel, block.id).GetOr(ZeroNextLevel);
      r.value.itemId == b.id && r.value.itemLevel == b.level && r.value.upgradeCost == n.cost
    ensures r.Ok? && ParseCategory(block.category) == Some(Mine) ==>
      var m := s.mineType[block.mineType];
      var n := Find(s.nextLevel, block.id).GetOr(ZeroNextLevel);
      && r.value.itemId == m.id && r.value.itemLevel == m.level && r.value.upgradeCost == n.cost
      && Current(r.value, Damage) == Some(m.damage) && UpgradeValue(r.value, Damage) == Some(n.damage)
      && Current(r.value, Radius) == Some(m.radius) && UpgradeValue(r.value, Radius) == Some(n.radius)
    ensures r.Ok? && ParseCategory(block.category) == Some(Defender) ==>
      var d := s.defenderType[block.defenderType];
      var n := Find(s.nextLevel, block.id).GetOr(ZeroNextLevel);
      && r.value.itemId == d.id && r.value.itemLevel == d.level && r.value.upgradeCost == n.cost
      && Current(r.value, Damage) == Some(d.damage) && UpgradeValue(r.value, Damage) == Some(n.damage)
      && Current(r.value, Radius) == Some(d.radius) && UpgradeValue(r.value, Radius) == Some(n.radius)
      && Current(r.value, Speed) == Some(d.speed) && UpgradeValue(r.value, Speed) == Some(n.speed)
    ensures r.Ok? && ParseCategory(block.category) == Some(Attacker) ==>
      var a := s.attackerType[block.attackerType];
      var n := Find(s.nextLevelAttacker, block.id).GetOr(ZeroNextAttackerLevel);
      && r.value.itemId == a.id && r.value.itemLevel == a.level && r.value.upgradeCost == n.cost
      && Current(r.value, Damage) == Some(a.damage) && UpgradeValue(r.value, Damage) == Some(n.damage)
      && Current(r.value, Hp) == Some(a.maxHealth) && UpgradeValue(r.value, Hp) == Some(n.maxHealth)
      && Current(r.value, Radius) == Some(a.radius) && UpgradeValue(r.value, Radius) == Some(n.radius)
      && Current(r.value, Speed) == Some(a.speed) && UpgradeValue(r.value, Speed) == Some(n.speed)
  {
    match ParseCategory(block.category)
    case Some(Building) =>
      var building :- Find(s.buildingType, block.buildingType).ToResult(LookupFailed(BuildingTypeTable));
      Ok(BuildingItem(building, Find(s.nextLevel, block.id)))
    case Some(Mine) =>
      var mine :- Find(s.mineType, block.mineType).ToResult(LookupFailed(MineTypeTable));
      Ok(MineItem(mine, Find(s.nextLevel, block.id)))
    case Some(Defender) =>
      var defender :- Find(s.defenderType, block.defenderType).ToResult(LookupFailed(DefenderTypeTable));
      Ok(DefenderItem(defender, Find(s.nextLevel, block.id)))
    case Some(Attacker) =>
      var attacker :- Find(s.attackerType, block.attackerType).ToResult(LookupFailed(AttackerTypeTable));
      Ok(AttackerItem(attacker, Find(s.nextLevelAttacker, block.id)))
    case None => Err(UnknownCategory(block.category))
  }

  /** The loop body: the entry for one owned block: its block_type row is
      looked up, and the entry carries that row's category name and exactly
      one item. */
  function ProjectBlock(s: Store, owned: AvailableBlock): (r: Result<InventoryCategory, Error>)
    ensures owned.blockTypeId !in s.blockType ==> r == Err(LookupFailed(BlockTypeTable))
    ensures owned.blockTypeId in s.blockType ==>
      var block := s.blockType[owned.blockTypeId];
      && (r.Ok? <==> ProjectItem(s, block).Ok?)
      && (r.Ok? ==> r.value.category == block.category && r.value.items == [ProjectItem(s, block).value])
      && (r.Err? ==> r.error == ProjectItem(s, block).error)
  {
    var block :- Find(s.blockType, owned.blockTypeId).ToResult(LookupFailed(BlockTypeTable));
    var item :- ProjectItem(s, block);
    Ok(InventoryCategory(block.category, [item]))
  }

  // ---------------------------------------------------------------------
  // The list of entries.

  /** The available_blocks query: the rows of one user, in the order the
      query returns them (`rows` stands for the table in that order). */
  function OwnedBy(rows: seq<AvailableBlock>, userId: int): (r: seq<AvailableBlock>)
    ensures forall x :: multiset(r)[x] == if x.userId == userId then multiset(rows)[x] else 0
    decreases |rows|
  {
    if |rows| == 0 then []
    else
      assert rows == [rows[0]] + rows[1..];
      if rows[0].userId == userId then [rows[0]] + OwnedBy(rows[1..], userId)
      else OwnedBy(rows[1..], userId)
  }

  /** Filtering keeps the order of the table: the rows of a concatenation
      are the rows of each part, one part after the other. */
  lemma {:induction false} OwnedByConcat(a: seq<AvailableBlock>, b: seq<AvailableBlock>, userId: int)
    ensures OwnedBy(a + b, userId) == OwnedBy(a, userId) + OwnedBy(b, userId)
    decreases |a|
  {
    if |a| == 0 {
      assert a + b == b;
    } else {
      assert (a + b)[0] == a[0];
      assert (a + b)[1..] == a[1..] + b;
      OwnedByConcat(a[1..], b, userId);
    }
  }

  /** The loop over the owned blocks: one entry per block, in block order, stopping at the
      first block whose entry cannot be built. */
  function Project(s: Store, blocks: seq<AvailableBlock>): Result<seq<InventoryCategory>, Error> {
    Collect(owned => ProjectBlock(s, owned), blocks)
  }

  /** `get_inventory`: the entries of the user's owned blocks. */
  function GetInventory(s: Store, userId: int): (r: Result<InventoryResponse, Error>)
    ensures r.Ok? <==> forall i :: 0 <= i < |OwnedBy(s.availableBlocks, userId)| ==>
      ProjectBlock(s, OwnedBy(s.availableBlocks, userId)[i]).Ok?
    ensures r.Ok? ==> |r.value.categories| == |OwnedBy(s.availableBlocks, userId)|
    ensures r.Ok? ==> forall i :: 0 <= i < |r.value.categories| ==>
      var owned := OwnedBy(s.availableBlocks, userId)[i];
      && owned.blockTypeId in s.blockType
      && r.value.categories[i].category == s.blockType[owned.blockTypeId].category
      && |r.value.categories[i].items| == 1
      && r.value.categories[i] == ProjectBlock(s, owned).value
    ensures r.Err? ==>
      var owned := OwnedBy(s.availableBlocks, userId);
      exists i :: && 0 <= i < |owned|
                  && ProjectBlock(s, owned[i]) == Err(r.error)
                  && (forall j :: 0 <= j < i ==> ProjectBlock(s, owned[j]).Ok?)
  {
    match Project(s, OwnedBy(s.availableBlocks, userId))
    case Err(e) => Err(e)
    case Ok(entries) => Ok(InventoryResponse(entries))
  }

  // ---------------------------------------------------------------------
  // Properties of the projection.

  /** A user who owns no block gets an empty list, not an error. */
  lemma EmptyInventory(s: Store, userId: int)
    requires forall i :: 0 <= i < |s.availableBlocks| ==> s.availableBlocks[i].userId != userId
    ensures GetInventory(s, userId) == Ok(InventoryResponse([]))
  {
  }

  /** Entries are never merged: the entries of a concatenation of blocks
      are the entries of each part, one part after the other. */
  lemma ProjectConcat(s: Store, a: seq<AvailableBlock>, b: seq<AvailableBlock>)
    requires Project(s, a).Ok? && Project(s, b).Ok?
    ensures Project(s, a + b) == Ok(Project(s, a).value + Project(s, b).value)
  {
    CollectConcat(owned => ProjectBlock(s, owned), a, b);
  }

  /** Without a next level, the upgrade cost and every upgrade stat is 0. */
  lemma NoNextLevelShowsZero(s: Store, block: BlockTypeRow)
    requires ProjectItem(s, block).Ok?
    requires if block.category == "attacker" then block.id !in s.nextLevelAttacker else block.id !in s.nextLevel
    ensures ProjectItem(s, block).value.upgradeCost == 0
    ensures forall f :: UpgradeValue(ProjectItem(s, block).value, f) == Some(0)
  {
  }
}
