/** The upgrade handler (`upgrade_block`): read the level and hp to report,
    pick the cost from the table the block type names, reject unknown types
    and unaffordable upgrades, then ask for a debit of the cost followed by
    one update of the user's blocks.

    The debit and the updates are helpers whose code is not part of this
    model. They are one abstract `Backend`: given the store and the call,
    it returns the store afterwards and whether the call reported failure.
    The handler's result records the calls it issued, in order, so the
    guard order and the call sequence can be stated. */
module Upgrade {
  import opened Wrappers
  import opened Catalog

  /** The message of both rejections, the not-found one and the
      unaffordable one. */
  const UpgradeFailedMessage := "Block not found or cannot be upgraded"

  const UpgradeSuccessMessage := "Upgrade success"

  /** The authenticated caller: its id and the artifact balance read at
      authentication. */
  datatype User = User(id: int, artifacts: int)

  /** The request body: which table (`blockType`) and which row (`variant`). */
  datatype UpgradeRequest = UpgradeRequest(blockType: string, variant: int)

  datatype UpgradeSuccessResponse = UpgradeSuccessResponse(
    message: string, blockLevel: int, blockHp: int, artifactsStored: int)

  /** The store after a helper call, and whether the call reported failure. */
  datatype CallResult = CallResult(store: Store, failed: bool)

  /** The helpers, as one function from store and call to its result. */
  type Backend = (Store, Call) -> CallResult

  /** What one upgrade request leaves behind: the store, the helper calls
      issued in order, and the handler's answer. */
  datatype Outcome = Outcome(
    store: Store, calls: seq<Call>, result: Result<UpgradeSuccessResponse, Error>)

  /** The store after the given helper calls were issued in order. */
  function Replay(backend: Backend, s: Store, calls: seq<Call>): Store
    decreases |calls|
  {
    if |calls| == 0 then s
    else Replay(backend, backend(s, calls[0]).store, calls[1..])
  }

  /** Replaying two traces one after the other is replaying their concatenation. */
  lemma {:induction false} ReplayConcat(backend: Backend, s: Store, a: seq<Call>, b: seq<Call>)
    ensures Replay(backend, s, a + b) == Replay(backend, Replay(backend, s, a), b)
    decreases |a|
  {
    if |a| == 0 {
      assert a + b == b;
    } else {
      assert (a + b)[0] == a[0];
      assert (a + b)[1..] == a[1..] + b;
      ReplayConcat(backend, backend(s, a[0]).store, a[1..], b);
    }
  }

  // ---------------------------------------------------------------------
  // The reference description of the guards, in terms of the tables.

  /** The table the response's level is read from: attacker_type for
      "attacker", building_type for every other block type. */
  function LevelTable(blockType: string): Table {
    if blockType == "attacker" then AttackerTypeTable else BuildingTypeTable
  }

  /** Whether the row the response's level is read from exists. */
  predicate LevelRowPresent(s: Store, blockType: string, variant: int) {
    if blockType == "attacker" then variant in s.attackerType
    else variant in s.buildingType
  }

  /** The cost column of the variant's own row in the table of its category,
      or None when the type is unknown or the row is missing. */
  function ChargedCost(s: Store, blockType: string, variant: int): Option<int> {
    match ParseCategory(blockType)
    case None => None
    case Some(Attacker) => if variant in s.attackerType then Some(s.attackerType[variant].cost) else None
    case Some(Defender) => if variant in s.defenderType then Some(s.defenderType[variant].cost) else None
    case Some(Mine) => if variant in s.mineType then Some(s.mineType[variant].cost) else None
    case Some(Building) => if variant in s.buildingType then Some(s.buildingType[variant].cost) else None
  }

  /** All guards pass: the level row and the cost row exist and the balance
      is at least the cost. */
  predicate Admitted(s: Store, user: User, req: UpgradeRequest) {
    && LevelRowPresent(s, req.blockType, req.variant)
    && ChargedCost(s, req.blockType, req.variant).Some?
    && user.artifacts >= ChargedCost(s, req.blockType, req.variant).value
  }

  // ---------------------------------------------------------------------
  // The handler, step by step as the source performs it.

  /** First step: the level and hp the response reports. An attacker's come
      from its attacker_type row; every other type reads the level from the
      building_type row of the same variant and reports hp 0. */
  function ReadLevelAndHp(s: Store, blockType: string, variant: int): Result<(int, int), Error> {
    if blockType == "attacker" then
      // The source reads the same row twice, once per field; both reads
      // see the same store, so one lookup stands for both.
      var attacker :- Find(s.attackerType, variant).ToResult(LookupFailed(AttackerTypeTable));
      Ok((attacker.level, attacker.hp))
    else
      var building :- Find(s.buildingType, variant).ToResult(LookupFailed(BuildingTypeTable));
      Ok((building.level, 0))
  }

  /** Second step: the cost column of the variant's row in the table the
      block type names; any other type is not found. */
  function LookupUpgradeCost(s: Store, blockType: string, variant: int): Result<int, Error> {
    match ParseCategory(blockType)
    case Some(Attacker) =>
      var row :- Find(s.attackerType, variant).ToResult(LookupFailed(AttackerTypeTable));
      Ok(row.cost)
    case Some(Defender) =>
      var row :- Find(s.defenderType, variant).ToResult(LookupFailed(DefenderTypeTable));
      Ok(row.cost)
    case Some(Mine) =>
      var row :- Find(s.mineType, variant).ToResult(LookupFailed(MineTypeTable));
      Ok(row.cost)
    case Some(Building) =>
      var row :- Find(s.buildingType, variant).ToResult(LookupFailed(BuildingTypeTable));
      Ok(row.cost)
    case None => Err(NotFound(UpgradeFailedMessage))
  }

  /** The update the handler issues after the debit: the attacker helper for
      "attacker", the generic one for every other type. */
  function UpdateCall(userId: int, req: UpgradeRequest): Call {
    if req.blockType == "attacker" then UpdateAvailableBlocksAttacker(userId, req.variant)
    else UpdateAvailableBlocks(userId, req.variant)
  }

  /** `upgrade_block`. A request is either rejected with the store untouched
      and no call issued, or it issues the debit of the looked-up cost and,
      if that succeeds, exactly one block update. The attacker update's
      failure is not checked (the source calls it without `?`), the generic
      one's is. */
  function UpgradeBlock(backend: Backend, s: Store, user: User, req: UpgradeRequest): (r: Outcome)
    // The store changes only through the calls issued, in the order issued.
    ensures r.store == Replay(backend, s, r.calls)
    // Rejected before any call: store untouched, an error answer.
    ensures r.calls == [] ==> r.store == s && r.result.Err?
    // A call is issued exactly when every guard passes.
    ensures r.calls != [] <==> Admitted(s, user, req)
    // Guard order and the error each failing guard yields.
    ensures !LevelRowPresent(s, req.blockType, req.variant) ==>
      r.result == Err(LookupFailed(LevelTable(req.blockType)))
    ensures LevelRowPresent(s, req.blockType, req.variant) && ParseCategory(req.blockType).None? ==>
      r.result == Err(NotFound(UpgradeFailedMessage))
    ensures (&& LevelRowPresent(s, req.blockType, req.variant)
             && ParseCategory(req.blockType).Some?
             && ChargedCost(s, req.blockType, req.variant).None?) ==>
      r.result == Err(LookupFailed(TableOf(ParseCategory(req.blockType).value)))
    ensures (&& LevelRowPresent(s, req.blockType, req.variant)
             && ChargedCost(s, req.blockType, req.variant).Some?
             && user.artifacts < ChargedCost(s, req.blockType, req.variant).value) ==>
      r.result == Err(BadRequest(UpgradeFailedMessage))
    // Unknown block types are never charged.
    ensures r.calls != [] ==> req.blockType in ["attacker", "defender", "mine", "building", "bank"]
    // The debit is first, for the cost of the variant's own row in its type's table.
    ensures r.calls != [] && req.blockType == "attacker" ==>
      req.variant in s.attackerType && r.calls[0] == DeductUserArtifacts(user.id, s.attackerType[req.variant].cost)
    ensures r.calls != [] && req.blockType == "defender" ==>
      req.variant in s.defenderType && r.calls[0] == DeductUserArtifacts(user.id, s.defenderType[req.variant].cost)
    ensures r.calls != [] && req.blockType == "mine" ==>
      req.variant in s.mineType && r.calls[0] == DeductUserArtifacts(user.id, s.mineType[req.variant].cost)
    ensures r.calls != [] && (req.blockType == "building" || req.blockType == "bank") ==>
      req.variant in s.buildingType && r.calls[0] == DeductUserArtifacts(user.id, s.buildingType[req.variant].cost)
    // At most one update, only after a debit that did not fail.
    ensures |r.calls| <= 2
    ensures r.calls != [] ==> (|r.calls| == 2 <==> !backend(s, r.calls[0]).failed)
    ensures |r.calls| == 1 ==> r.result == Err(CallFailed(r.calls[0]))
    ensures |r.calls| == 2 ==>
      (r.calls[1] == if req.blockType == "attacker" then UpdateAvailableBlocksAttacker(user.id, req.variant)
                     else UpdateAvailableBlocks(user.id, req.variant))
    ensures |r.calls| == 2 ==>
      (r.result.Ok? <==> req.blockType == "attacker" || !backend(backend(s, r.calls[0]).store, r.calls[1]).failed)
    ensures |r.calls| == 2 && r.result.Err? ==> r.result == Err(CallFailed(r.calls[1]))
    // The success answer.
    ensures r.result.Ok? ==> |r.calls| == 2
    ensures r.result.Ok? ==>
      r.result.value.message == UpgradeSuccessMessage && r.result.value.artifactsStored == user.artifacts
    ensures r.result.Ok? && req.blockType == "attacker" ==>
      req.variant in s.attackerType
      && r.result.value.blockLevel == s.attackerType[req.variant].level
      && r.result.value.blockHp == s.attackerType[req.variant].hp
    ensures r.result.Ok? && req.blockType != "attacker" ==>
      req.variant in s.buildingType
      && r.result.value.blockLevel == s.buildingType[req.variant].level
      && r.result.value.blockHp == 0
  {
    var levelHp := ReadLevelAndHp(s, req.blockType, req.variant);
    if levelHp.Err? then Outcome(s, [], Err(levelHp.error))
    else
      var cost := LookupUpgradeCost(s, req.blockType, req.variant);
      if cost.Err? then Outcome(s, [], Err(cost.error))
      else if user.artifacts < cost.value then Outcome(s, [], Err(BadRequest(UpgradeFailedMessage)))
      else
        var debit := DeductUserArtifacts(user.id, cost.value);
        var afterDebit := backend(s, debit);
        if afterDebit.failed then Outcome(afterDebit.store, [debit], Err(CallFailed(debit)))
        else
          var update := UpdateCall(user.id, req);
          var afterUpdate := backend(afterDebit.store, update);
          assert [update][1..] == [] && [debit] + [update] == [debit, update];
          ReplayConcat(backend, s, [debit], [update]);
          if afterUpdate.failed && req.blockType != "attacker" then
            Outcome(afterUpdate.store, [debit, update], Err(CallFailed(update)))
          else
            var (level, hp) := levelHp.value;
            Outcome(afterUpdate.store, [debit, update],
                    Ok(UpgradeSuccessResponse(UpgradeSuccessMessage, level, hp, user.artifacts)))
  }

  // ---------------------------------------------------------------------
  // Properties relating several requests.

  /** "building" and "bank" are the same request: same calls, same store,
      same answer. */
  lemma BuildingAndBankAgree(backend: Backend, s: Store, user: User, variant: int)
    ensures UpgradeBlock(backend, s, user, UpgradeRequest("building", variant))
         == UpgradeBlock(backend, s, user, UpgradeRequest("bank", variant))
  {
  }

  /** The affordability guard is `artifacts >= cost`: a balance equal to the
      cost is charged exactly the whole balance, and one artifact less is
      rejected as a bad request with nothing issued and the store untouched. */
  lemma AffordabilityBoundary(backend: Backend, s: Store, user: User, req: UpgradeRequest)
    requires LevelRowPresent(s, req.blockType, req.variant)
    requires ChargedCost(s, req.blockType, req.variant) == Some(user.artifacts)
    ensures UpgradeBlock(backend, s, user, req).calls[0] == DeductUserArtifacts(user.id, user.artifacts)
    ensures UpgradeBlock(backend, s, user.(artifacts := user.artifacts - 1), req)
         == Outcome(s, [], Err(BadRequest(UpgradeFailedMessage)))
  {
  }

  /** Once the guards pass, the balance only shows in the answer's
      `artifactsStored`: the calls, the store and the rest of the answer
      do not depend on how much the balance exceeds the cost. */
  lemma SurplusOnlyReported(backend: Backend, s: Store, user: User, richer: User, req: UpgradeRequest)
    requires richer.id == user.id && richer.artifacts >= user.artifacts
    requires Admitted(s, user, req)
    ensures var a := UpgradeBlock(backend, s, user, req);
            var b := UpgradeBlock(backend, s, richer, req);
            && a.calls == b.calls && a.store == b.store
            && a.result.Ok? == b.result.Ok?
            && (a.result.Ok? ==> b.result.value == a.result.value.(artifactsStored := richer.artifacts))
  {
  }

  /** An attacker upgrade reports success even when the attacker update
      reports failure, after the debit has been applied. */
  lemma AttackerUpdateFailureIgnored(backend: Backend, s: Store, user: User, variant: int)
    requires Admitted(s, user, UpgradeRequest("attacker", variant))
    requires !backend(s, DeductUserArtifacts(user.id, s.attackerType[variant].cost)).failed
    ensures UpgradeBlock(backend, s, user, UpgradeRequest("attacker", variant)).result.Ok?
  {
  }
}
