# Loot Survivor client core in Dafny

This project models two parts of the Loot Survivor 2 game client.

**The combat and levelling arithmetic** (`client/src/utils/game.ts`, module `Game` in
`game.dfy`):

- levels from experience;
- the equipment diff that drives implicit equips;
- elemental matchups;
- critical hits and weapon-special bonuses;
- the damage an adventurer deals to a beast, and the damage a beast deals back;
- the two ability checks.

**The game director** (`client/src/contexts/GameDirector.tsx`, module `GameDirector` in
`game_director.dfy`):

- the event apply step (`processEvent`), whose pacing delay is returned rather than waited;
- the single-flight FIFO event queue with live appends;
- the action compiler (`executeGameAction`), which turns one player action into an ordered
  batch of transactions;
- the startup decision between starting, reconnecting, spectating and exiting.

The entities are in `game_types.dfy`, and the `Option`/`Result` wrappers are in `wrappers.dfy`.

Conventions:

- **Equipment slots** are `Option<Item>`. `None` is a key that is absent. `Some(Item(0, _))` is the
  empty-item sentinel, which JavaScript treats as a truthy object.
- **TypeError.** Where the JavaScript would read a property of an absent object, the model returns
  `TypeError` instead of demanding a precondition. This happens for an absent ring when the beast
  has a special name, an absent neck when the armour's id is non-zero, and an absent new
  equipment, prior equipment or prior slot in the diff.
- **Arithmetic.** Divisions that JavaScript leaves fractional are exact `real`s with `.Floor`.
  Lemmas restate them in integers. Dafny's `/` with a positive divisor is the floor, as
  `Math.floor(x / n)` is.
- **Catalog.** The lookups the code imports from the item and beast catalogs are the fields of a
  `Catalog` value passed as a parameter: item tier, type, name and specials, and beast armour and
  attack type.
- **Event lists.** The event type lists `ExplorerLogEvents` and `BattleEvents` form an
  `EventLists` value.

Points where the code behaves differently from what a reader might expect:

- The code comments at `game.ts:45` and `game.ts:71` speak of a "Titanium Ring" and a
  "Platinum Ring", but the comparisons at `game.ts:46` and `game.ts:72` match the names
  `"TitaniumRing"` and `"PlatinumRing"`, with no space. The model matches those names.
- An `equip` action requests randomness only when `beast_health > 0` (`GameDirector.tsx:178`).
  With a beast health of 0 the batch is just the equip transaction (`GameDirector.EquipCarriesDiff`).
- Armour presence on a beast hit is decided by the slot's object, not its id. A sentinel armour
  with id 0 still takes the armoured path (`Game.BeastDamage`).
- The beast's critical hit does not test entropy for zero. An entropy of 0 therefore always
  crits there (`Game.BeastCritsOnZeroEntropy`), while the adventurer's attack never crits at
  entropy 0.

## Model

| member | source | states |
|---|---|---|
| Game.Isqrt | client/src/utils/game.ts:7 | the result is the integer square root: r² ≤ n < (r+1)² |
| Game.CalculateLevel | client/src/utils/game.ts:5-8 | level ≥ 1; level 1 at 0 xp and below 4 xp; otherwise level² ≤ xp < (level+1)² |
| Game.CalculateNextLevelXp | client/src/utils/game.ts:10-12 | at most 400; equals (level+1)² while that is ≤ 400; equals 400 exactly from level 19 on |
| Game.NextLevelXpAboveXp | client/src/utils/game.ts:5-12 | the next-level threshold lies above the current xp exactly while the level is below 20 |
| Game.GetNewItemsEquipped | client/src/utils/game.ts:21-35 | the slot loop computes the diff `NewItems`, including its throw on absent prior slots or equipment |
| Game.TypeErrorPersists | client/src/utils/game.ts:25-32 | once a slot throws, no later slot recovers: the whole loop throws |
| Game.NewItemsOfSame | client/src/utils/game.ts:21-35 | comparing an equipment with itself finds no new item |
| Game.UpToInSlotOrder | client/src/utils/game.ts:25-32 | iterations that do not throw push exactly the changed items, in slot order |
| Game.NewItemsCharacterised | client/src/utils/game.ts:21-35 | the diff throws iff the new equipment is absent or some slot meets an absent prior; otherwise it holds at most 8 items, exactly the non-sentinel items whose id differs from the prior slot's, in slot order |
| Game.ElementalAdjustedDamage | client/src/utils/game.ts:174-194 | +⌊base/2⌋ for the strong matchups (Magic/Metal, Blade/Cloth, Bludgeon/Hide), −⌊base/2⌋ for the weak ones, unchanged otherwise; bounded for a non-negative base |
| Game.StrengthDamage | client/src/utils/game.ts:196-199 | the bonus is damage × strength / 10, unrounded; 0 without strength; non-negative for non-negative damage |
| Game.CriticalHitBonus | client/src/utils/game.ts:38-53 | 0 when entropy × 100 > luck × 255; otherwise the base damage, plus ⌊3% × ring level⌋ of it with a Titanium Ring on a positive base; never strictly between 0 and the base |
| Game.WeaponSpecialBonus | client/src/utils/game.ts:56-78 | 0 when the beast has no special names; throws iff it has one and the ring is absent; a matching prefix adds 8× the base and a matching suffix 2×; a Platinum Ring adds ⌊3% × ring level⌋ of a positive sum; so without that ring the bonus is 0, 2×, 8× or 10× the base |
| Game.FloorWithStrength | client/src/utils/game.ts:107-109 | ⌊total + strength_dmg(total) − armour⌋ equals total − armour + ⌊total × strength / 10⌋ |
| Game.FinalDamage | client/src/utils/game.ts:107-111 | the damage is max(4, total − armour + ⌊total × strength / 10⌋) |
| Game.AttackDamage | client/src/utils/game.ts:80-112 | at least 4; exactly 4 without a weapon; throws iff there is a weapon, no ring and a special-named beast; otherwise max(4, c − beast armour + ⌊c × strength / 10⌋), where c is the elemental damage plus the special bonus, plus the critical-hit bonus when entropy is non-zero |
| Game.CritNeverLowersAttack | client/src/utils/game.ts:104-111 | for a non-negative damage before the crit step, the attack with any entropy deals at least as much as without a crit |
| Game.PercentFloor | client/src/utils/game.ts:120 | ⌊(stat / level) × 100⌋ equals the integer quotient stat × 100 / level, below 100 |
| Game.AbilityBasedPercentage | client/src/utils/game.ts:114-122 | 100 iff the stat reaches the level; otherwise ⌊stat × 100 / level⌋; always within 0..100 |
| Game.AbilityBasedAvoidThreat | client/src/utils/game.ts:124-131 | avoided iff the stat reaches the level or stat × 255 > level × rnd |
| Game.EquipmentAt | client/src/utils/game.ts:135 | a location that lower-cases to a slot name yields that slot's content, and any other location yields nothing |
| Game.NeckReduction | client/src/utils/game.ts:164-172 | false when either id is 0; throws iff the armour id is non-zero and the neck is absent; true iff the armour material pairs with the neck's name (Cloth/Amulet, Hide/Pendant, Metal/Necklace) |
| Game.ArmoredHit | client/src/utils/game.ts:139-150 | the armour-reduced hit (at least 2) is adjusted elementally, then doubled exactly when entropy × 100 ≤ 3 × level × 255 |
| Game.BeastDamage | client/src/utils/game.ts:133-161 | at least 2; max(2, the beast's base attack) with no item at the location; throws iff real armour is hit and the neck is absent; with armour, max(2, the armoured hit minus ⌊armour value × neck level × 3 / 100⌋ when the neck pairs with the armour) |
| Game.NeckNeverRaisesDamage | client/src/utils/game.ts:152-157 | for armour of tier at most 6, the neck reduction never raises the damage above the armoured hit |
| Game.BeastCritsOnZeroEntropy | client/src/utils/game.ts:148-150 | with entropy 0 the beast's armoured hit is always critical and doubles the elementally adjusted damage |
| GameDirector.GameEvents | client/src/contexts/GameDirector.tsx:87 | keeps exactly the entities carrying a GameEvent, no more of them than given |
| GameDirector.GameEventsAppend | client/src/contexts/GameDirector.tsx:87 | filtering keeps delivery order: the events of a concatenation are those of its parts in turn |
| GameDirector.GameEventsSingle | client/src/contexts/GameDirector.tsx:87 | a GameEvent entity yields its event, any other entity nothing |
| GameDirector.KeptBagItemsAppend | client/src/contexts/GameDirector.tsx:138 | the bag filter keeps the entries' order |
| GameDirector.KeptBagItems | client/src/contexts/GameDirector.tsx:138 | the bag keeps exactly the item objects with a non-zero id |
| GameDirector.Pause | client/src/contexts/GameDirector.tsx:164-166 | no delay when reconnecting; live, the delayTimes entry of the event type; only 0, 1000 or 2000 ms, and non-zero only for the six paced types |
| GameDirector.ActionTxs | client/src/contexts/GameDirector.tsx:187-201 | exactly one transaction per recognised action and none otherwise; equip carries the recomputed diff ids; never a randomness request |
| GameDirector.Processed | client/src/contexts/GameDirector.tsx:130-167 | every store field after one event: adventurer, beast, bag and market change only for their own event (the bag filtered, the market flagged new); the explore log takes every explorer-list event; the battle event takes live battle-list events only; loot accrues only live and only for Loot discoveries; adventurerState never changes |
| GameDirector.OwnFieldOnly | client/src/contexts/GameDirector.tsx:133-143 | an adventurer, beast or bag event in neither event list overwrites only its own store field |
| GameDirector.ReplaySuppressesSideEffects | client/src/contexts/GameDirector.tsx:122-128 | replaying any number of events with the reconnecting flag sets no battle event and adds no new inventory items |
| GameDirector.LiveLootAccrues | client/src/contexts/GameDirector.tsx:150-155 | when discovery is an explorer-log event, live, the new inventory items grow by the Loot discovery amounts, in event order |
| GameDirector.ReplayKeepsLastAdventurer | client/src/contexts/GameDirector.tsx:122-135 | events are applied in order: the store ends with the last adventurer update's adventurer |
| GameDirector.BatchRandomness | client/src/contexts/GameDirector.tsx:174-180 | a batch has exactly one randomness request for explore, attack and flee and for an equip while the beast is alive, none otherwise, never two, and any request is first |
| GameDirector.ImplicitEquipBeforeAction | client/src/contexts/GameDirector.tsx:182-201 | with a non-empty diff, a recognised non-equip action's batch is any randomness request (only for explore, attack and flee), then the equip of the changed ids, then the action's own transaction |
| GameDirector.EquipCarriesDiff | client/src/contexts/GameDirector.tsx:178-198 | an equip batch ignores the items the action names: optional randomness, then one equip of the diff ids, with no implicit equip |
| GameDirector.AttackAfterWeaponSwap | client/src/contexts/GameDirector.tsx:169-204 | attack(untilDeath) after weapon 1 became weapon 2 compiles to randomness, equip([2]), attack(true) |
| GameDirector.StartupMode | client/src/contexts/GameDirector.tsx:93-120 | each startup mode, stated as an if-and-only-if over the spectating flag, whether entities exist, and the fetched adventurer and its health |
| GameDirector.Director.constructor | client/src/contexts/GameDirector.tsx:49-54 | the initial director: not spectating, no subscription, nothing queued or in flight |
| GameDirector.Director.SetSpectating | client/src/contexts/GameDirector.tsx:49 | the spectating flag takes the given value |
| GameDirector.Director.ProcessEvent | client/src/contexts/GameDirector.tsx:130-167 | the setters leave the store as `Processed` of the old store; the returned delay is `Pause` |
| GameDirector.Director.Deliver | client/src/contexts/GameDirector.tsx:85-89 | the delivered GameEvents are appended in order at the queue's tail, also while an event is in flight; the FIFO invariant is kept |
| GameDirector.Director.BeginDrain | client/src/contexts/GameDirector.tsx:65-69 | fires iff the queue is non-empty and nothing is in flight; then the head is applied live and marked drained; the FIFO invariant is kept |
| GameDirector.Director.FinishDrain | client/src/contexts/GameDirector.tsx:70-71 | removes exactly the applied head and clears the in-flight flag; the FIFO invariant is kept |
| GameDirector.Director.SetEventQueue | client/src/contexts/GameDirector.tsx:54 | the queue becomes the given events; the FIFO invariant is re-based on them |
| GameDirector.Director.ReconnectGameEvents | client/src/contexts/GameDirector.tsx:122-128 | the store ends as the in-order replay of the GameEvent entities with the reconnecting flag |
| GameDirector.Director.HandleSpectating | client/src/contexts/GameDirector.tsx:104-120 | exits without entities or fetched adventurer; replays for a live adventurer; holds the entities for replay otherwise |
| GameDirector.Director.SubscribeEvents | client/src/contexts/GameDirector.tsx:78-102 | cancels the previous subscription, takes the path `StartupMode` names, with its replay, exit or hold, and keeps the new subscription |
| GameDirector.Director.ExecuteGameAction | client/src/contexts/GameDirector.tsx:169-204 | nothing while spectating; otherwise throws exactly when the equipment diff throws, and submits exactly the batch `Batch` specifies |

## Left out

- `calculateProgress` (`game.ts:14-19`) is not modelled. It is a floating-point display ratio, and at the 400 cap it divides by zero.
- IEEE-754 rounding: the model's arithmetic is exact. JavaScript can differ near integers. For example, `(29 / 100) * 100` is 28.999… in doubles, so `ability_based_percentage` gives 28 where the model gives 29.
- The 53-bit integer range of JavaScript numbers: integers are unbounded here.
- The catalog tables (`ItemUtils`, `getArmorType`, `getAttackType`) are not modelled. They are a `Catalog` parameter with no content assumed.
- `formatGameEvent` and `getEntityModel` (in `utils/events` and `types/game`) are not part of this model. An entity is either a GameEvent already formatted or not one.
- `ExplorerLogEvents` and `BattleEvents` (in `utils/events`) are not part of this model. They are the `EventLists` parameter.
- React state and effects, the SDK subscription, `fetchAdventurer`, `fetchMetadata`, the timers behind `delay`, and the transaction submission are not modelled. They are I/O.
  - The pacing delay is returned rather than awaited.
  - `startGame` is the `StartFresh` mode.
  - `executeAction(txs, …)` is the `Submitted` batch.
  - The fetched adventurer is a parameter of the spectator path.
- The interleaving of the asynchronous drain is not modelled beyond its two halves. `BeginDrain` and `FinishDrain` are separate calls, and live deliveries may come between them.
- The await of `fetchAdventurer` in `handleSpectating` (`GameDirector.tsx:110`) is not modelled as a window. The live callback is registered before it (`GameDirector.tsx:83`), so live events delivered during that await could be drained and applied before `reconnectGameEvents` replays the older initial entities. `SubscribeEvents` and `HandleSpectating` treat this path as atomic.
- GameDirector.Director.SetEventQueue: requires that no event is in flight. The source exposes the setter to callers at any time, and replacing the queue mid-drain would make its `slice(1)` drop an event that was never applied.
- The stale-closure reads of `newInventoryItems` and `spectating` inside React callbacks are not modelled. The model always reads the current store.
- Bag entries that are `null` are not modelled. Only objects and non-objects are distinguished, and `typeof null === 'object'` would make the source throw on such an entry.
- Equipment slots holding `null` are not modelled, and neither are keys beyond the eight slots. The slots are visited in the order weapon, chest, head, waist, foot, hand, neck, ring.
- Prototype keys (`"constructor"` and the like) in `delayTimes[...]` and in the equipment lookup are not modelled.
- Case folding is ASCII-only in `toLowerCase`.
- Events of the types "adventurer", "bag", "beast", "market_items" and "discovery" are taken to always carry their payload. `formatGameEvent` is not part of this model, and the catch-all `Tagged` variant excludes those five type names.
- An absent `initialData` in `subscribeEvents` (which would throw in the reconnect branch) is not modelled. Neither is a null `gameId`.
- `actionFailed`, the failure counter fed by the transaction layer, and the context provider are not modelled.
