# rts-m2-rust game engine, modelled in Dafny

This project models the engine of a small real-time strategy game and its
front end's login reducer:

- **Players and wallets**: a player has a fixed name and a signed 32-bit
  balance. `update_money` is a checked addition. It returns the new balance,
  or refuses and leaves the balance alone when the sum leaves the `i32` range.
- **Units and skills**: a unit has an identifier, four (current, max) stat
  pairs and a list of skills. A stat update is a checked 16-bit addition,
  capped at the max and with no floor. A skill has fixed costs plus a mutable
  cooldown and level.
- **Economy**: the bank pays a fixed batch of 100 coins. The barrack debits
  a unit's cost (20 for a Classic unit), then has the factory build the unit
  at its base stats (20/10/5/15).
- **Playground**: an append-only list of cells. Each cell holds a unit and a
  coordinate. A cell's coordinate is updated by unit identifier: the first
  matching cell is changed, or the call fails when no cell matches.
- **Units holder**: a map from player name to a list of (grid coordinate,
  unit) pairs. `store` replaces a player's list with one pair.
- **Game**: a fixed list of players and a log of moves that only grows.
  `play_with` checks the player index, runs the action and appends exactly
  one log entry when the action succeeds. `execute_recurring_actions` pays a
  batch to each player in turn and stops at the first failure. `start`
  plays such rounds until the log holds `EndGame`.
- **Login reducer**: the new login state depends only on the action. The
  reducer never produces `Checking`, which is only the start-up state.

Files follow the source layout: `primitives.dfy` (integer widths,
identifiers, coordinates, decimal rendering), `wrappers.dfy` (`Option`,
`Result`), `exceptions.dfy`, `unit.dfy`, `skill.dfy`, `player.dfy`,
`unit_factory.dfy`, `game_actions.dfy`, `building.dfy`, `play_ground.dfy`,
`units_holder.dfy`, `game.dfy` and `contexts.dfy`.

Objects whose fields the source updates in place (`Player`, `Unit`,
`Skill`, `UnitHolder`, `PlayGround`, `UnitsHolder`, `Game`) are classes. Their
methods have `modifies` clauses and state what becomes of every field they
may change. The pure
parts (`get_cost`, `update_attribut_under_max`, `get_name`, `find_cell_by`,
`reduce`) are functions with lemmas about them. Integer widths are written
out explicitly: `Int8`, `Int16`, `Int32`, and `Identifier` for `i128`. Every
checked addition of the source is modelled as a range test. Error results
carry the exact message text the source formats. A number is rendered by
`DecimalText`, whose round trip is proved so that messages keep the number
recoverable.

Unit identifiers and the `f32` coordinates are parameters. The source has no
identifier counter, so `BuildUnit`, `Buildings.BuyUnit` and `Game.PlayWith`
take the identifier the new unit gets. A coordinate is a pair of 32-bit
patterns that is only stored and compared; `(0.0, 0.0)` is the all-zero
pattern.

Where the source files disagree, the model unifies them:

- There is one error type holding every variant the files use.
- `Player` is not generic.
- `build_unit` passes an identifier.
- `Game::execute_action` has no arm for `MoveUnit`. Here a `MoveUnit` action
  is refused with an `ExecuteActionException`, with the wording of
  `play_with`'s third branch (rts-core/src/components/game.rs:71-75). That
  branch formats the index, but `execute_action` only sees the player, so the
  message names the player's name instead. Nothing is logged.

Two behaviours of the code are worth noting; the model follows the code:

- A purchase is refused only when the debit would leave the `i32` range. A
  balance below the cost is accepted and goes negative.
- A failing payment in a round stops the round (`?` in the loop). The players
  after it are not paid in that round, and the error leaves `start`.

## Model

| member | source | states |
|---|---|---|
| Primitives.DecimalText | rts-core/src/components/game.rs:59-63 | the text of an index is non-empty, made of decimal digits, and starts with `0` only for 0 itself (no leading zero) |
| Primitives.IntText | rts-core/src/entity/game_actions.rs:22 | the text of an identifier starts with `-` exactly when it is negative |
| Primitives.DecimalTextRoundTrip | rts-core/src/components/game.rs:59-63 | reading back the decimal text of a number gives the number |
| Primitives.DecimalTextInjective | rts-core/src/components/game.rs:59-63 | different numbers have different decimal texts |
| Primitives.IntTextInjective | rts-core/src/entity/game_actions.rs:22 | different identifiers have different texts |
| Players.Player.constructor | rts-core/src/entity/player.rs:12-24 | a new player keeps the given name and has balance 0 |
| Players.Player.UpdateMoney | rts-core/src/entity/player.rs:34-41 | when `money + amount` fits in `i32` the balance becomes exactly that sum and `Some` of it is returned; otherwise `None` is returned and the wallet is unchanged; the name never changes |
| Players.ShouldEarnMoney | rts-core/src/entity/player.rs:61-66 | +10 on a new player gives 10 |
| Players.ShouldLooseMoney | rts-core/src/entity/player.rs:68-74 | +10 then -8 leaves 2 |
| Players.BalanceMayGoNegative | rts-core/src/entity/player.rs:34-38 | a debit past zero is accepted: the balance becomes -8 |
| Players.OverflowIsRefused | rts-core/src/entity/player.rs:35-41 | adding 1 to `i32::MAX` returns `None` and keeps the balance |
| UnitTypes.GetCost | rts-core/src/entity/unit.rs:39-44 | every cost is positive and a Classic unit costs `CLASSIC_UNIT_COST` |
| UnitTypes.ClassicCostsTwenty | rts-core/src/entity/unit.rs:6-44 | `get_cost(Classic)` is 20 |
| Units.UpdateUnderMax | rts-core/src/entity/unit.rs:128-143 | the result is `Some` exactly when `attribute + delta` fits in `i16`, and then it is `min(attribute + delta, max)`, never above the max |
| Units.UpdateNeverExceedsMax | rts-core/src/entity/unit.rs:134-139 | a successful update never leaves a stat above its max |
| Units.UpdateHasNoFloor | rts-core/src/entity/unit.rs:133-139 | damage is not floored: 0 - 5 gives -5, and a stat can reach `i16::MIN` |
| Units.UpdateRefusesOverflow | rts-core/src/entity/unit.rs:133-142 | for example, `i16::MAX + 1` and `i16::MIN - 1` both give `None` (the general statement is `UpdateUnderMax`'s) |
| Units.Unit.From | rts-core/src/entity/unit.rs:59-79 | every current stat equals its max; identifier, maxima and skills are the given ones |
| Units.Unit.UpdateHealth | rts-core/src/entity/unit.rs:81-91 | on success health becomes `UpdateUnderMax(health, max, delta)`; on overflow the result is `GeneralException("Failed to update health")` and health is unchanged; no other stat changes |
| Units.Unit.UpdateMana | rts-core/src/entity/unit.rs:93-102 | as for health, with mana and "Failed to update mana" |
| Units.Unit.UpdateArmor | rts-core/src/entity/unit.rs:104-113 | as for health, with armor and "Failed to update armor" |
| Units.Unit.UpdateRange | rts-core/src/entity/unit.rs:115-124 | as for health, with range and "Failed to update range" |
| Units.ShouldLostHealth | rts-core/src/entity/unit.rs:176-185 | max health 10 and delta -2 give 8 |
| Units.ShouldHeal | rts-core/src/entity/unit.rs:221-231 | -3 then +2 from 10 gives 9 |
| Units.ShouldRestoreMana | rts-core/src/entity/unit.rs:233-243 | -3 then +2 from mana 10 gives 9 |
| Skills.Skill.From | rts-core/src/entity/skill.rs:13-21 | mana cost, damage and cooldown are stored; the actual cooldown starts at the cooldown and the level at 0 |
| Skills.Skill.UpdateLevel | rts-core/src/entity/skill.rs:23-25 | the level goes up by exactly 1 and the cooldown is unchanged |
| Skills.Skill.UpdateActualCooldown | rts-core/src/entity/skill.rs:27-29 | the actual cooldown becomes the given value and the level is unchanged |
| Skills.SkillKeepsItsConstants | rts-core/src/entity/skill.rs:31-45 | after two level-ups and a cooldown change the getters still return the construction values |
| UnitFactory.BuildUnit | rts-core/src/components/unit_factory.rs:15-19 | the unit is new, has the given identifier, maxima and current stats equal to the base stats, and no skill |
| UnitFactory.ClassicStartsAtBaseStats | rts-core/src/components/unit_factory.rs:15-19 | a freshly built Classic unit has health 20, mana 10, armor 5 and range 15, and each max equals the current value |
| GameActions.Action.Name | rts-core/src/entity/game_actions.rs:17-24 | the name is never empty; the three literal names are stated by `ActionNames`, the leading letters of each kind by `NamePrefix`, and injectivity (up to the coordinates of a move) by `NamesTellActionsApart` |
| GameActions.ActionNames | rts-core/src/entity/game_actions.rs:17-21 | the names of EndGame, GiveMoneyBatch and BuyUnit(Classic) are "Game is over !", "Give new money batch to" and "Buy new unit Classic" |
| GameActions.NamePrefix | rts-core/src/entity/game_actions.rs:17-23 | each kind of action has a name starting with its own two letters |
| GameActions.NamesTellActionsApart | rts-core/src/entity/game_actions.rs:17-23 | two actions with the same name are equal, or are moves of the same unit |
| GameActions.EndGameEqualsOnlyItself | rts-core/src/entity/game_actions.rs:27-33 | a log entry equals `MoveState::EndGame` exactly when it is the `EndGame` variant |
| Buildings.NotEnoughMoneyNamesPlayer | rts-core/src/components/building.rs:52-55 | the refusal message names the player: equal messages mean equal names |
| Buildings.GiveMoney | rts-core/src/components/building.rs:21-34 | when the balance plus 100 fits in `i32` it is added and Ok is returned; otherwise `UpdatePlayerException("Give new money batch")` is returned and the wallet is unchanged |
| Buildings.RetrieveMoney | rts-core/src/components/building.rs:59-65 | succeeds exactly when `balance - cost` fits in `i32`, and then debits exactly the cost; otherwise the wallet is unchanged |
| Buildings.BuyUnit | rts-core/src/components/building.rs:44-57 | when the debit fits in `i32` the balance drops by the cost and the result is a new base unit of that type; otherwise `BuyUnitException(type, "Player <name> does not have enough money !")` and the wallet is unchanged |
| Buildings.ShouldBuyUnit | rts-core/src/components/building.rs:76-87 | 100 coins buy a Classic unit with health 20 and leave 80 |
| Buildings.BuyingOnCredit | rts-core/src/components/building.rs:59-65 | an empty wallet still buys a unit, going to -20 |
| Buildings.BuyingRefusedOnUnderflow | rts-core/src/components/building.rs:49-55 | near `i32::MIN` the purchase is refused with the message naming Emma, and the balance is unchanged |
| Buildings.TwoBatches | rts-core/src/components/building.rs:21-29 | two batches pay 200 into an empty wallet |
| PlayGrounds.UnitHolder.constructor | rts-core/src/components/play_ground.rs:79-84 | the holder holds the given unit at the given coordinate |
| PlayGrounds.UnitHolder.Update | rts-core/src/components/play_ground.rs:99-101 | the coordinate becomes the given one |
| PlayGrounds.HolderMatchesItsUnit | rts-core/src/components/play_ground.rs:86-92 | a holder matches `id` exactly when it holds a unit with that identifier |
| PlayGrounds.EmptyHolderMatchesNothing | rts-core/src/components/play_ground.rs:86-92 | an empty holder matches no identifier; the branch cannot be reached, because the only constructor stores a unit |
| PlayGrounds.FindCellBy | rts-core/src/components/play_ground.rs:131-137 | the result is the index of the first cell matching `id`, and `None` exactly when no cell matches |
| PlayGrounds.FindCellByStableUnderAppend | rts-core/src/components/play_ground.rs:122-137 | appending a cell does not change which cell an existing match finds |
| PlayGrounds.PlayGround.constructor | rts-core/src/components/play_ground.rs:118-120 | a new playground has no cells |
| PlayGrounds.PlayGround.AddUnit | rts-core/src/components/play_ground.rs:122-125 | exactly one new cell is appended, holding the unit at (0,0); earlier cells and their coordinates are unchanged |
| PlayGrounds.PlayGround.Update | rts-core/src/components/play_ground.rs:50-53 | the observer update appends a cell exactly as `AddUnit` does |
| PlayGrounds.PlayGround.UpdateCell | rts-core/src/components/play_ground.rs:55-72 | with no matching cell, `UpdatePlayGroundException("Failed to find cell with identifier <id>")` and nothing changes; otherwise the first matching cell gets the coordinate and every other cell keeps its own; the list of cells never changes |
| PlayGrounds.MoveUnitScenario | rts-core/src/components/play_ground.rs:55-72 | moving the one stored unit to (3.0, 4.0) returns Ok and moves it there; moving a missing identifier fails with the not-found message; the cell count stays 1 |
| UnitsHolders.UnitsHolder.constructor | rts-core/src/components/units_holder.rs:24-28 | a new holder has no entry for any player |
| UnitsHolders.UnitsHolder.Store | rts-core/src/components/units_holder.rs:30-58 | always Ok; afterwards the player's list is exactly `[(coordinate, unit)]`; the player is added to the keys and every other player's entry is unchanged |
| UnitsHolders.ShouldStoreAndThenGet | rts-core/src/components/units_holder.rs:72-96 | after a store the player has one pair, at (0, 0), whose unit has health 20 |
| UnitsHolders.StoredListGuardAsWritten | rts-core/src/components/units_holder.rs:85-88 | after a store, the test's guard `units.len() != 0` holds, so the test as written fails |
| UnitsHolders.SecondStoreReplaces | rts-core/src/components/units_holder.rs:38-46 | a second store for the same player replaces the first pair |
| Games.FirstUnfundable | rts-core/src/components/game.rs:91-97 | the number of leading balances that can take a batch: all before it can, the one at it cannot |
| Games.BatchesKeepEndGame | rts-core/src/components/game.rs:79-97 | appending money-batch entries does not change whether the log holds `EndGame` |
| Games.PlayerNotFoundNamesIndex | rts-core/src/components/game.rs:58-63 | the out-of-range message names the index: equal messages for one action mean equal indices |
| Games.Game.constructor | rts-core/src/components/game.rs:25-35 | the game holds the given players and an empty log |
| Games.Game.CheckMovesState | rts-core/src/components/game.rs:79-83 | true exactly when some log entry is `EndGame` |
| Games.Game.UpdateMovesState | rts-core/src/components/game.rs:85-89 | the log gets exactly the given entry appended |
| Games.Game.GiveMoney | rts-core/src/components/game.rs:111-117 | a payment that fits gives `GiveMoneyBatch` and adds 100; otherwise the bank's error and an unchanged wallet |
| Games.Game.BuyUnit | rts-core/src/components/game.rs:119-127 | a debit that fits gives `BuyUnit` holding the new base unit and lowers the balance by the cost; otherwise the barrack's error and an unchanged wallet |
| Games.Game.ExecuteAction | rts-core/src/components/game.rs:99-109 | EndGame gives `EndGame` and changes no wallet; GiveMoneyBatch and BuyUnit behave as the bank and the barrack; MoveUnit is refused |
| Games.Game.PlayWith | rts-core/src/components/game.rs:57-77 | an index out of range gives `ExecuteActionException("Failed to find player <i> when executing action <name>")` and an unchanged log; otherwise the action runs for that player and exactly one entry is appended only when it succeeds; no other player's wallet changes |
| Games.Game.ExecuteRecurringActions | rts-core/src/components/game.rs:91-97 | with `k` the number of leading players that can be paid, exactly those `k` players get 100 each, `k` batch entries are logged, and the result is Ok exactly when `k` is the number of players, else the bank's error |
| Games.Game.PlayRound | rts-core/src/components/game.rs:42-43 | one pass of the loop: the leading payable players get one batch each and that many batches are logged; Ok exactly when all were paid, which completes one more full round; on an error the player at the stopping index cannot take a batch |
| Games.Game.Start | rts-core/src/components/game.rs:41-50 | for a `start` that no other task interrupts: the log only grows by batch entries; the result is Ok exactly when the log held `EndGame` before and the whole first round could be paid, and then each player got exactly one batch; on an error (always the bank's) there are a number `rounds` of full rounds and a stopping index `unpaid` such that the player at `unpaid` cannot take a batch, players before it got `rounds + 1` batches and the others `rounds`, and `rounds * players + unpaid` batches were logged |
| Games.ShouldPlayWithAi | rts-core/src/components/game.rs:138-150 | Tigran with 100 coins buys a Classic unit: Ok, balance 80, one log entry |
| Games.ShouldNotFindUser | rts-core/src/components/game.rs:152-159 | index 1 in a one-player game is refused with the not-found message and nothing is logged |
| Games.EmptyWalletStillBuys | rts-core/src/components/game.rs:119-127 | Emma with no coins still buys; her balance goes to -20 |
| Games.EndedGame | rts-core/src/components/game.rs:64-69 | playing `EndGame` logs exactly one `EndGame` entry and leaves the wallet at 100 |
| Games.StartAfterEndGame | rts-core/src/components/game.rs:41-50 | starting an ended game pays one round and stops: Ok, balance 200, two log entries |
| Contexts.Reduce | rts-front/src/contexts.rs:24-29 | `Login` gives `LoggedIn` with the same name and id, `Logout` gives `LoggedOut`; the result is never `Checking` |
| Contexts.ReduceIgnoresState | rts-front/src/contexts.rs:24-29 | the result does not depend on the previous state |
| Contexts.DispatchIsLastAction | rts-front/src/contexts.rs:24-29 | after one or more actions, the state is what the last action alone gives |
| Contexts.CheckingOnlyInitially | rts-front/src/main.rs:65 | from the start-up state `Checking`, the state is `Checking` exactly while no action has been dispatched |
| Contexts.LoginLogoutLogin | rts-front/src/contexts.rs:26-27 | login as Tigran, logout, login as Emma ends logged in as Emma |

## Left out

- Console output (`println!`, `dbg!`) and every `Display` impl other than the unit type's name: they only print.
- The ten-second `tokio::time::sleep` in `start`, the `async` wrappers, and `Rc`/`RefCell`/`Arc`/`Mutex`: the model has one owner and no interleaving.
- `Games.Game.Start`: moves that other tasks play while `start` sleeps between rounds are not modelled. Through them a running game can receive `EndGame`, through the shared player and log handles and `play_with_async`. The Ok clause therefore describes a `start` that nobody interrupts: for a game not already ended, it ends only with an error.
- `Games.Game.Start`: requires at least one player or an `EndGame` already logged. With no players and no `EndGame` the source loops forever, which a terminating model cannot express.
- `GameActions.Action.Name`: for `MoveUnit` the name stops at "Move unit <id> to ". The `f32` coordinates are opaque bit patterns and their decimal rendering is not modelled.
- `Skills.Skill.UpdateLevel`: requires the level to be below 127. At 127 the source's `i8` increment panics in a debug build and wraps to -128 in a release build; neither is modelled.
- Identifier uniqueness: the source has no identifier counter, so the caller supplies identifiers and nothing proves them unique.
- `play_with`'s third branch (game.rs:71-75) cannot be reached after the index check. It is not modelled as a separate path; its wording is reused for `MoveUnit`.
- The `StoreUnitCoordinatesException` branch of `store` cannot be reached, because the key is removed just before it is re-inserted. The model's `Store` keeps the check and proves it is never taken.
- `UnitHolder` is specialised to `Unit`; the source is generic over anything with an identifier.
- `find_cell_by` returns a reference to the cell; `FindCellBy` returns its index.
- `get_players`, `get_cells`, `get_coordinates`, `is`, the unit type's display name, the base-stats table and the simple getters return fields or table entries and carry no contract of their own. What they return is stated by the members that use them: `Store`, `HolderMatchesItsUnit`, `ActionNames` and `ClassicStartsAtBaseStats`.
- Turn strategies, hooks, the displayer, the stale `playground.rs`, the server and the rest of the front end are not part of this model.

## Findings

| source | as written | input that shows it | evidently intended | confidence | as-written member | corrected member |
|---|---|---|---|---|---|---|
| rts-core/src/components/units_holder.rs:86-88 | the test fails when the stored list is not empty | storing one Classic unit for "tigran" at (0, 0) | fail when the list is empty (it holds one pair) | high, not executed | UnitsHolders.StoredListGuardAsWritten | UnitsHolders.ShouldStoreAndThenGet |
