# Block inventory and upgrade, modelled in Dafny

This project models the two handlers behind the game backend's inventory
endpoints: `upgrade_block` and `get_inventory` in `src/api/inventory/mod.rs`.

- `upgrade_block` spends a player's artifacts to upgrade one block variant.
- `get_inventory` lists the player's owned blocks with their current stats
  and their next-level stats.

The database is an abstract store (`Catalog.Store`). It has:

- one map per category table (`attacker_type`, `defender_type`,
  `mine_type`, `building_type`), from variant id to stat row;
- the `block_type` table;
- the `available_blocks` rows;
- the next-level lookups, as maps keyed by block_type id;
- the user table's artifact column.

Every `find(..).first(..)` lookup is a map lookup. A missing key gives a lookup
error that names the table.

- `Wrappers`: `Option`, `Result` and `Collect`. `Collect` is the "map each
  element, stop at the first error" loop that `?` inside a `for` loop
  produces.
- `Catalog`: the row records, the store, the `Category` enum and the string
  dispatch `ParseCategory`. "building" and "bank" both map to `Building`.
- `Upgrade`: `upgrade_block`. The unseen helpers `deduct_user_artifacts`,
  `update_available_blocks` and `update_available_blocks_attacker` are one
  abstract `Backend` parameter. It takes the store and a call, and returns
  the store afterwards plus whether the call reported failure.
  - The handler returns an `Outcome`: the resulting store, the calls issued
    in order, and the answer.
  - An upgrade is either rejected with no call issued and the store
    untouched, or it issues the debit of the looked-up cost, then one
    update if the debit succeeded.
  - The resulting store is always the issued calls replayed in order
    (`Replay`).
- `Inventory`: `get_inventory`, a pure projection. It yields one
  category entry per owned block, in the order the available_blocks query
  returns the rows, each with exactly one item. The query has no ORDER BY,
  so `Store.availableBlocks` stands for the rows in whatever order the
  database returns them.
  - The stats a category shows are described by `Populated`; every other
    stat is shown as 0.
  - With no next level, every upgrade value and the upgrade cost read 0,
    because `unwrap_or_default` reads them from an all-zero row.

What the handlers do, and what they do not do:

- The upgrade charges the variant's own row's `cost`. The inventory shows
  the next-level row's cost as `upgrade_cost`. The two are different
  numbers, and the model keeps both as written.
- The upgrade has no maximum-tier check and no concurrency-conflict
  check. It does not check that the user owns the upgraded block.
- The upgrade takes the block type from the request and trusts it.
- The debit and the block update are two separate calls with no
  transaction. If the debit succeeds and the update fails, the charge
  stays.
- Inventory stats the category lacks are shown as `Some(0)`, not as
  absent.

The source file does not compile as written. The model takes the evident
intent at each such point:

- `level` and `hp` are declared inside the branches (lines 69, 79, 90, 100)
  but used at lines 167-168. They are read once, before the cost lookup.
  The attacker row is read twice in the source (69 and 79); one lookup
  stands for both.
- `get_inventory` has lookups with no error handling: `building_type`,
  `mine_type` and `defender_type` (lines 210-212, 235-237, 263-265). There
  is also `if let Ok(block) = ...?;` at lines 195-202. Each of these fails
  the whole request with a lookup error, as the attacker arm does with `?`.
- The category `match` at line 208 has no wildcard arm. An unknown category
  fails the request with `UnknownCategory`.
- The `Option<i32>` fields are given bare integers. They are modelled as
  `Some` of that integer.

## Model

| member | source | states |
|---|---|---|
| Upgrade.UpgradeBlock | src/api/inventory/mod.rs:60-173 | The guards run in source order: level row, then known block type, then cost row, then `artifacts >= cost`. Each failing guard gives its own error and issues no call, and the store is unchanged. A call is issued exactly when every guard passes. The first call debits the variant's own row's cost, from its type's table ("building" and "bank" use building_type). At most one update follows, and only when the debit did not fail: the attacker helper for "attacker", the generic one otherwise. A failed generic update is an error; a failed attacker update is ignored. The store is the issued calls replayed in order. On success the response is "Upgrade success". Its level and hp come from the attacker row, or from the building_type row with hp 0. `artifacts_stored` is the balance before the debit. |
| Upgrade.BuildingAndBankAgree | src/api/inventory/mod.rs:136-144 | An upgrade request for "building" and one for "bank" with the same variant produce the same calls, store and answer. |
| Upgrade.AffordabilityBoundary | src/api/inventory/mod.rs:149-154 | When the balance equals the cost, the upgrade issues a debit of exactly the whole balance. With one artifact less, the upgrade is rejected as a bad request, issues no call and leaves the store untouched. |
| Upgrade.SurplusOnlyReported | src/api/inventory/mod.rs:149-170 | Once the guards pass, a larger balance changes nothing but the reported `artifacts_stored`. The calls, the store and success or failure are the same. |
| Upgrade.AttackerUpdateFailureIgnored | src/api/inventory/mod.rs:154-161 | An admitted attacker upgrade whose debit succeeds reports success, whatever the attacker update reports. |
| Upgrade.ReplayConcat | src/api/inventory/mod.rs:154-161 | Issuing two call sequences one after the other leaves the same store as issuing their concatenation. |
| Inventory.ProjectItem | src/api/inventory/mod.rs:206-330 | An unknown category is an error. A known category succeeds exactly when its row exists, and fails otherwise with a lookup error on that category's table. Every field is present, and each stat outside the category's populated set (`Populated`) is 0, both current and upgrade. Populated stats are: building/bank none; mine damage and radius; defender damage, radius and speed; attacker damage, hp (from `max_health`), radius and speed. Their current values come from the row, and their upgrade values from the next-level row or the all-zero row. `item_id` and `item_level` come from the row. `upgrade_cost` is the next-level cost, or 0 when there is no next level. |
| Inventory.ProjectBlock | src/api/inventory/mod.rs:195-336 | A missing block_type row is a lookup error on block_type. Otherwise the entry succeeds exactly when its item does. The entry carries the block_type's category name and exactly that one item. |
| Inventory.OwnedBy | src/api/inventory/mod.rs:183-185 | The owned blocks are exactly the user's available_blocks rows, each with its multiplicity, and no other rows. |
| Inventory.OwnedByConcat | src/api/inventory/mod.rs:183-185 | The filter keeps the order in which the query returns rows: the user's rows in a concatenation are the rows of each part, one part after the other. |
| Inventory.GetInventory | src/api/inventory/mod.rs:178-347 | The inventory succeeds exactly when every owned block's entry can be built. On success there is one entry per owned block, in owned-block order. Entry `i` is exactly block `i`'s entry: its block_type's category and its one projected item, with every field as `ProjectItem` states. On failure, the error is the error of the first owned block whose entry cannot be built. |
| Inventory.EmptyInventory | src/api/inventory/mod.rs:192-343 | A user who owns no block gets an empty list, not an error. |
| Inventory.ProjectConcat | src/api/inventory/mod.rs:194-338 | Entries are never merged: the entries for a concatenation of blocks are the entries of each part, in order. |
| Inventory.NoNextLevelShowsZero | src/api/inventory/mod.rs:213-326 | With no next-level row, the upgrade cost and every upgrade stat are 0. |
| Wrappers.Collect | src/api/inventory/mod.rs:194-338 | The loop with `?` succeeds exactly when every element succeeds. Its values are the elements' values, one per element and in order. Otherwise it fails with the error of the first failing element. |
| Wrappers.CollectConcat | src/api/inventory/mod.rs:194-338 | Running the loop over a concatenation gives the error of the first part, if it has one; otherwise the error of the second part, if it has one; otherwise both parts' values concatenated. |

## Left out

- Actix routing, the HTTP status codes and JSON serialization (lines 10-13, 172, 343). Only the response records are modelled.
- Connection-pool acquisition (lines 64, 179) and the wrapping of database errors (`DieselError`). Every lookup failure is one `LookupFailed(table)` error.
- Failure to load available_blocks (lines 183-190) and the "Blocks not found" branch (lines 344-346). This is I/O; the model reads the rows from the store.
- `AuthUser` resolution. The user id and the artifact balance read at authentication are inputs (`Upgrade.User`).
- The internals of `deduct_user_artifacts`, `update_available_blocks` and `update_available_blocks_attacker`. Their code is not part of this model. They are one arbitrary `Backend`. The model states only which calls are issued, with which arguments and in which order, and that the store changes only through them.
- The internals of `get_next_level` and `get_next_level_attacker`. Their code is not part of this model. They are maps from block_type id to an optional next-level row. Each handler call site reads the same map, so the repeated calls in one arm all see the same row.
- Atomicity and concurrency: the source issues the debit and the update as separate calls with no transaction.
- Integer width: the source's `i32` values are modelled as `int`. The handlers do no arithmetic on them, only comparisons and copies, so wrap-around cannot arise here.
