/** The game director of the client (client/src/contexts/GameDirector.tsx),
    without its UI framework: it applies game events to the game store, drains
    the live event queue one event at a time, compiles player actions into
    ordered transaction batches, and decides how a session starts (fresh game,
    reconnect, spectate, exit, or hold events for replay). */
module GameDirector {
  import opened Wrappers
  import opened GameTypes
  import Game

  // ---------------------------------------------------------------------------
  // Events

  /** An entry of a bag update: an item object, or anything that is not an object. */
  datatype BagEntry = BagItem(item: Item) | NotAnObject

  /** What an exploration discovery found, and how much. */
  datatype Discovery = Discovery(kind: string, amount: int)

  /** The type name of an event whose payload the director does not read: any
      name but those of the variants with their own constructor. */
  type OtherTag = t: string | t != "adventurer" && t != "bag" && t != "beast" && t != "market_items" && t != "discovery"
    witness "obstacle"

  /** A formatted game event. The variants whose payload the director reads have
      their own constructor; every other event type is `Tagged` with its type
      name (for example "obstacle", "attack", "beast_attack", "flee", "level_up"). */
  datatype GameEvent =
    | AdventurerUpdate(adventurer: Adventurer)
    | BagUpdate(bag: seq<BagEntry>)
    | BeastUpdate(beast: Beast)
    | MarketItems(items: seq<nat>)
    | DiscoveryEvent(discovery: Discovery)
    | Tagged(tag: OtherTag)

  /** The `type` field of a formatted event. */
  function TypeOf(e: GameEvent): string
  {
    match e
    case AdventurerUpdate(_) => "adventurer"
    case BagUpdate(_) => "bag"
    case BeastUpdate(_) => "beast"
    case MarketItems(_) => "market_items"
    case DiscoveryEvent(_) => "discovery"
    case Tagged(tag) => tag
  }

  /** A raw entity from the event subscription: one that carries a GameEvent
      model (given here by the event it formats to), or any other entity. */
  datatype Entity = GameEventEntity(event: GameEvent) | OtherEntity

  /** The entities that carry a GameEvent model, in their order, formatted. */
  function GameEvents(entities: seq<Entity>): (events: seq<GameEvent>)
    ensures |events| <= |entities|
    ensures forall e :: e in events <==> GameEventEntity(e) in entities
  {
    if entities == [] then []
    else
      var rest := GameEvents(entities[1..]);
      assert entities == [entities[0]] + entities[1..];
      match entities[0]
      case GameEventEntity(e) => [e] + rest
      case OtherEntity => rest
  }

  /** Filtering keeps delivery order: the events of a concatenation are the
      events of its parts, one after the other. */
  lemma {:induction false} GameEventsAppend(a: seq<Entity>, b: seq<Entity>)
    ensures GameEvents(a + b) == GameEvents(a) + GameEvents(b)
  {
    if a == [] {
      assert a + b == b;
    } else {
      assert (a + b)[1..] == a[1..] + b;
      GameEventsAppend(a[1..], b);
    }
  }

  /** A single GameEvent entity yields its event; any other entity yields none. */
  lemma GameEventsSingle(e: GameEvent)
    ensures GameEvents([GameEventEntity(e)]) == [e]
    ensures GameEvents([OtherEntity]) == []
  {
    assert [GameEventEntity(e)][1..] == [];
    assert [OtherEntity][1..] == [];
  }

  /** The event type lists ExplorerLogEvents and BattleEvents. */
  datatype EventLists = EventLists(explorerLog: seq<string>, battle: seq<string>)

  /** The fields of the game store that the director writes or reads. Each
      holds the value last passed to its setter. */
  datatype Store = Store(
    adventurer: Option<Adventurer>,
    adventurerState: Option<Adventurer>,
    bag: seq<Item>,
    beast: Option<Beast>,
    marketItemIds: seq<nat>,
    newMarket: bool,
    exploreLog: Option<GameEvent>,
    battleEvent: Option<GameEvent>,
    newInventoryItems: seq<int>)

  /** The bag entries that are item objects with a non-zero id, in order. */
  function KeptBagItems(bag: seq<BagEntry>): (items: seq<Item>)
    ensures |items| <= |bag|
    ensures forall it :: it in items <==> BagItem(it) in bag && it.id != 0
  {
    if bag == [] then []
    else
      var rest := KeptBagItems(bag[1..]);
      assert bag == [bag[0]] + bag[1..];
      match bag[0]
      case BagItem(it) => if it.id != 0 then [it] + rest else rest
      case NotAnObject => rest
  }

  /** The bag filter keeps the entries' order. */
  lemma {:induction false} KeptBagItemsAppend(a: seq<BagEntry>, b: seq<BagEntry>)
    ensures KeptBagItems(a + b) == KeptBagItems(a) + KeptBagItems(b)
  {
    if a == [] {
      assert a + b == b;
    } else {
      assert (a + b)[1..] == a[1..] + b;
      KeptBagItemsAppend(a[1..], b);
    }
  }

  /** delayTimes: the pacing delay in milliseconds of each event type, 0 when none. */
  function DelayTime(eventType: string): nat
  {
    if eventType == "level_up" then 1000
    else if eventType == "discovery" then 1000
    else if eventType == "obstacle" then 1000
    else if eventType == "attack" then 2000
    else if eventType == "beast_attack" then 2000
    else if eventType == "flee" then 1000
    else 0
  }

  /** The delay processEvent waits after applying an event: none while reconnecting. */
  function Pause(e: GameEvent, reconnecting: bool): (ms: nat)
    ensures reconnecting ==> ms == 0
    ensures !reconnecting ==> ms == DelayTime(TypeOf(e))
    ensures ms in {0, 1000, 2000}
    ensures ms > 0 ==> TypeOf(e) in ["level_up", "discovery", "obstacle", "attack", "beast_attack", "flee"]
  {
    if reconnecting then 0 else DelayTime(TypeOf(e))
  }

  /** A Loot discovery handed to the explore log while not reconnecting. */
  predicate AccruesLoot(e: GameEvent, reconnecting: bool, lists: EventLists)
  {
    !reconnecting && "discovery" in lists.explorerLog && e.DiscoveryEvent? && e.discovery.kind == "Loot"
  }

  /** The store after processEvent(e, reconnecting), field by field. */
  function Processed(s: Store, e: GameEvent, reconnecting: bool, lists: EventLists): (r: Store)
    ensures r.adventurerState == s.adventurerState
    ensures r.adventurer == if e.AdventurerUpdate? then Some(e.adventurer) else s.adventurer
    ensures r.beast == if e.BeastUpdate? then Some(e.beast) else s.beast
    ensures e.BagUpdate? ==> r.bag == KeptBagItems(e.bag)
    ensures e.BagUpdate? ==> forall it :: it in r.bag <==> BagItem(it) in e.bag && it.id != 0
    ensures !e.BagUpdate? ==> r.bag == s.bag
    ensures e.MarketItems? ==> r.newMarket && r.marketItemIds == e.items
    ensures !e.MarketItems? ==> r.newMarket == s.newMarket && r.marketItemIds == s.marketItemIds
    ensures r.exploreLog == if TypeOf(e) in lists.explorerLog then Some(e) else s.exploreLog
    ensures r.battleEvent == if !reconnecting && TypeOf(e) in lists.battle then Some(e) else s.battleEvent
    ensures reconnecting ==> r.battleEvent == s.battleEvent && r.newInventoryItems == s.newInventoryItems
    ensures r.newInventoryItems == if AccruesLoot(e, reconnecting, lists) then s.newInventoryItems + [e.discovery.amount] else s.newInventoryItems
  {
    var logged := TypeOf(e) in lists.explorerLog;
    Store(
      adventurer := if e.AdventurerUpdate? then Some(e.adventurer) else s.adventurer,
      adventurerState := s.adventurerState,
      bag := if e.BagUpdate? then KeptBagItems(e.bag) else s.bag,
      beast := if e.BeastUpdate? then Some(e.beast) else s.beast,
      marketItemIds := if e.MarketItems? then e.items else s.marketItemIds,
      newMarket := if e.MarketItems? then true else s.newMarket,
      exploreLog := if logged then Some(e) else s.exploreLog,
      battleEvent := if !reconnecting && TypeOf(e) in lists.battle then Some(e) else s.battleEvent,
      newInventoryItems :=
        if logged && !reconnecting && e.DiscoveryEvent? && e.discovery.kind == "Loot"
        then s.newInventoryItems + [e.discovery.amount]
        else s.newInventoryItems)
  }

  /** An adventurer, beast or bag event whose type is in neither event list
      overwrites only its own field of the store. */
  lemma OwnFieldOnly(s: Store, e: GameEvent, reconnecting: bool, lists: EventLists)
    requires TypeOf(e) !in lists.explorerLog && TypeOf(e) !in lists.battle
    ensures e.AdventurerUpdate? ==> Processed(s, e, reconnecting, lists) == s.(adventurer := Some(e.adventurer))
    ensures e.BeastUpdate? ==> Processed(s, e, reconnecting, lists) == s.(beast := Some(e.beast))
    ensures e.BagUpdate? ==> Processed(s, e, reconnecting, lists) == s.(bag := KeptBagItems(e.bag))
  {
  }

  /** The store after processing the events one after another, in order. */
  function Replayed(s: Store, events: seq<GameEvent>, reconnecting: bool, lists: EventLists): Store
    decreases |events|
  {
    if events == [] then s
    else Processed(Replayed(s, events[..|events| - 1], reconnecting, lists), events[|events| - 1], reconnecting, lists)
  }

  /** The amounts of the Loot discoveries among the events, in order. */
  function LootAmounts(events: seq<GameEvent>): seq<int>
    decreases |events|
  {
    if events == [] then []
    else
      var last := events[|events| - 1];
      LootAmounts(events[..|events| - 1]) +
        (if last.DiscoveryEvent? && last.discovery.kind == "Loot" then [last.discovery.amount] else [])
  }

  /** Replaying with the reconnecting flag never sets a battle event and never
      adds new inventory items, however many events are replayed. */
  lemma {:induction false} ReplaySuppressesSideEffects(s: Store, events: seq<GameEvent>, lists: EventLists)
    ensures Replayed(s, events, true, lists).battleEvent == s.battleEvent
    ensures Replayed(s, events, true, lists).newInventoryItems == s.newInventoryItems
    ensures Replayed(s, events, true, lists).adventurerState == s.adventurerState
    decreases |events|
  {
    if events != [] {
      ReplaySuppressesSideEffects(s, events[..|events| - 1], lists);
    }
  }

  /** Processing live, every Loot discovery adds its amount, in event order. */
  lemma {:induction false} LiveLootAccrues(s: Store, events: seq<GameEvent>, lists: EventLists)
    requires "discovery" in lists.explorerLog
    ensures Replayed(s, events, false, lists).newInventoryItems == s.newInventoryItems + LootAmounts(events)
    decreases |events|
  {
    if events != [] {
      LiveLootAccrues(s, events[..|events| - 1], lists);
    }
  }

  /** The last adventurer update among the events, or `initial` when there is none. */
  function LastAdventurer(events: seq<GameEvent>, initial: Option<Adventurer>): Option<Adventurer>
    decreases |events|
  {
    if events == [] then initial
    else if events[|events| - 1].AdventurerUpdate? then Some(events[|events| - 1].adventurer)
    else LastAdventurer(events[..|events| - 1], initial)
  }

  /** Events are applied in order: after a run the store holds the adventurer
      of the last adventurer update. */
  lemma {:induction false} ReplayKeepsLastAdventurer(s: Store, events: seq<GameEvent>, reconnecting: bool, lists: EventLists)
    ensures Replayed(s, events, reconnecting, lists).adventurer == LastAdventurer(events, s.adventurer)
    decreases |events|
  {
    if events != [] {
      ReplayKeepsLastAdventurer(s, events[..|events| - 1], reconnecting, lists);
    }
  }

  // ---------------------------------------------------------------------------
  // Actions and transactions

  datatype Purchase = Purchase(itemId: nat, equip: bool)

  /** A player action. `Equip` carries the items the UI passed, which the
      compiled transaction does not use. */
  datatype Action =
    | Explore(untilBeast: bool)
    | Attack(untilDeath: bool)
    | Flee(untilDeath: bool)
    | BuyItems(potions: nat, itemPurchases: seq<Purchase>)
    | SelectStatUpgrades(statUpgrades: Stats)
    | Equip(items: seq<nat>)
    | Drop(items: seq<nat>)
    | Unrecognised(kind: string)

  /** A transaction descriptor built by the system calls. */
  datatype Tx =
    | RequestRandom
    | ExploreTx(gameId: nat, untilBeast: bool)
    | AttackTx(gameId: nat, untilDeath: bool)
    | FleeTx(gameId: nat, untilDeath: bool)
    | BuyItemsTx(gameId: nat, potions: nat, itemPurchases: seq<Purchase>)
    | SelectStatUpgradesTx(gameId: nat, statUpgrades: Stats)
    | EquipTx(gameId: nat, items: seq<nat>)
    | DropTx(gameId: nat, items: seq<nat>)

  /** VRF_ENABLED: actions that need randomness first request it. */
  const VrfEnabled: bool := true

  /** The action types that always request randomness. */
  predicate AlwaysRandom(action: Action)
  {
    action.Explore? || action.Attack? || action.Flee?
  }

  /** An equip while the current beast is alive; an absent adventurer has none. */
  predicate EquipInBattle(action: Action, adventurer: Option<Adventurer>)
  {
    action.Equip? && adventurer.Some? && adventurer.value.beastHealth > 0
  }

  /** The randomness requests pushed first. */
  function RandomnessTxs(action: Action, adventurer: Option<Adventurer>): seq<Tx>
  {
    (if VrfEnabled && AlwaysRandom(action) then [RequestRandom] else []) +
    (if VrfEnabled && EquipInBattle(action, adventurer) then [RequestRandom] else [])
  }

  /** The ids of items, in order. */
  function Ids(items: seq<Item>): (ids: seq<nat>)
    ensures |ids| == |items|
    ensures forall i :: 0 <= i < |items| ==> ids[i] == items[i].id
  {
    seq(|items|, i requires 0 <= i < |items| => items[i].id)
  }

  /** The implicit equip of changed items before any action other than equip. */
  function ImplicitEquipTxs(gameId: nat, action: Action, newItems: seq<Item>): seq<Tx>
  {
    if !action.Equip? && |newItems| > 0 then [EquipTx(gameId, Ids(newItems))] else []
  }

  /** The action's own transaction: one for each recognised action, none otherwise. */
  function ActionTxs(gameId: nat, action: Action, newItemIds: seq<nat>): (txs: seq<Tx>)
    ensures |txs| == if action.Unrecognised? then 0 else 1
    ensures action.Equip? ==> txs == [EquipTx(gameId, newItemIds)]
    ensures RequestRandom !in txs
  {
    match action
    case Explore(untilBeast) => [ExploreTx(gameId, untilBeast)]
    case Attack(untilDeath) => [AttackTx(gameId, untilDeath)]
    case Flee(untilDeath) => [FleeTx(gameId, untilDeath)]
    case BuyItems(potions, itemPurchases) => [BuyItemsTx(gameId, potions, itemPurchases)]
    case SelectStatUpgrades(statUpgrades) => [SelectStatUpgradesTx(gameId, statUpgrades)]
    case Equip(_) => [EquipTx(gameId, newItemIds)]
    case Drop(items) => [DropTx(gameId, items)]
    case Unrecognised(_) => []
  }

  function EquipmentOf(adventurer: Option<Adventurer>): Option<Equipment>
  {
    if adventurer.Some? then Some(adventurer.value.equipment) else None
  }

  /** The equipment diff executeGameAction computes. */
  function Diff(adventurer: Option<Adventurer>, adventurerState: Option<Adventurer>): Result<seq<Item>>
  {
    Game.NewItems(EquipmentOf(adventurer), EquipmentOf(adventurerState))
  }

  /** The batch executeGameAction compiles: randomness, then the implicit equip,
      then the action; TypeError when the equipment diff throws. */
  function Batch(gameId: nat, action: Action, adventurer: Option<Adventurer>, adventurerState: Option<Adventurer>): Result<seq<Tx>>
  {
    match Diff(adventurer, adventurerState)
    case TypeError => TypeError
    case Ok(newItems) =>
      Ok(RandomnessTxs(action, adventurer) + ImplicitEquipTxs(gameId, action, newItems) + ActionTxs(gameId, action, Ids(newItems)))
  }

  /** What executeGameAction does: nothing while spectating, throw, or submit a batch. */
  datatype Dispatch = Ignored | Threw | Submitted(txs: seq<Tx>)

  function Dispatched(spectating: bool, gameId: nat, action: Action,
                      adventurer: Option<Adventurer>, adventurerState: Option<Adventurer>): Dispatch
  {
    if spectating then Ignored
    else match Batch(gameId, action, adventurer, adventurerState)
      case TypeError => Threw
      case Ok(txs) => Submitted(txs)
  }

  /** The number of randomness requests in a batch. */
  function CountRandom(txs: seq<Tx>): nat
  {
    if txs == [] then 0 else (if txs[0] == RequestRandom then 1 else 0) + CountRandom(txs[1..])
  }

  lemma {:induction false} CountRandomAppend(a: seq<Tx>, b: seq<Tx>)
    ensures CountRandom(a + b) == CountRandom(a) + CountRandom(b)
  {
    if a == [] {
      assert a + b == b;
    } else {
      assert (a + b)[1..] == a[1..] + b;
      CountRandomAppend(a[1..], b);
    }
  }

  lemma {:induction false} CountRandomNone(txs: seq<Tx>)
    requires RequestRandom !in txs
    ensures CountRandom(txs) == 0
  {
    if txs != [] {
      CountRandomNone(txs[1..]);
    }
  }

  /** Explore, attack and flee batches start with exactly one randomness
      request, an equip batch starts with one exactly when the beast is alive,
      other batches have none, and no batch has two. */
  lemma BatchRandomness(gameId: nat, action: Action, adventurer: Option<Adventurer>, adventurerState: Option<Adventurer>)
    requires Batch(gameId, action, adventurer, adventurerState).Ok?
    ensures var txs := Batch(gameId, action, adventurer, adventurerState).value;
      CountRandom(txs) == (if AlwaysRandom(action) || EquipInBattle(action, adventurer) then 1 else 0)
    ensures var txs := Batch(gameId, action, adventurer, adventurerState).value;
      CountRandom(txs) <= 1 && (CountRandom(txs) == 1 ==> txs[0] == RequestRandom)
  {
    var newItems := Diff(adventurer, adventurerState).value;
    var r := RandomnessTxs(action, adventurer);
    var eq := ImplicitEquipTxs(gameId, action, newItems);
    var act := ActionTxs(gameId, action, Ids(newItems));
    CountRandomAppend(r + eq, act);
    CountRandomAppend(r, eq);
    CountRandomNone(eq);
    CountRandomNone(act);
    assert !(AlwaysRandom(action) && EquipInBattle(action, adventurer));
    assert CountRandom(r) == |r|;
  }

  /** For a recognised action other than equip with a non-empty diff, the
      implicit equip of the changed ids sits right after the randomness
      request and right before the action's own transaction. */
  lemma ImplicitEquipBeforeAction(gameId: nat, action: Action, adventurer: Option<Adventurer>, adventurerState: Option<Adventurer>)
    requires !action.Equip? && !action.Unrecognised?
    requires Diff(adventurer, adventurerState).Ok? && |Diff(adventurer, adventurerState).value| > 0
    ensures var txs := Batch(gameId, action, adventurer, adventurerState).value;
      var k := |RandomnessTxs(action, adventurer)|;
      |txs| == k + 2 &&
      txs[k] == EquipTx(gameId, Ids(Diff(adventurer, adventurerState).value)) &&
      txs[k + 1] == ActionTxs(gameId, action, [])[0] &&
      (k == 1 <==> AlwaysRandom(action))
  {
  }

  /** The equip action's transaction carries the recomputed diff ids, whatever
      items the action names, and no implicit equip precedes it. */
  lemma EquipCarriesDiff(gameId: nat, items: seq<nat>, adventurer: Option<Adventurer>, adventurerState: Option<Adventurer>)
    requires Diff(adventurer, adventurerState).Ok?
    ensures Batch(gameId, Equip(items), adventurer, adventurerState) ==
      Ok((if EquipInBattle(Equip(items), adventurer) then [RequestRandom] else []) +
         [EquipTx(gameId, Ids(Diff(adventurer, adventurerState).value))])
  {
    var newItems := Diff(adventurer, adventurerState).value;
    assert !AlwaysRandom(Equip(items));
    assert ImplicitEquipTxs(gameId, Equip(items), newItems) == [];
    var r := RandomnessTxs(Equip(items), adventurer);
    assert r == if EquipInBattle(Equip(items), adventurer) then [RequestRandom] else [];
    assert r + [] == r;
  }

  function Wearing(weapon: nat): Adventurer
  {
    var empty := Some(Item(0, 0));
    Adventurer(100, 0, Stats(0, 0, 0, 0, 0, 0, 0),
               Equipment(Some(Item(weapon, 0)), empty, empty, empty, empty, empty, empty, empty), 0, 0)
  }

  /** Attacking until death after swapping weapon 1 for weapon 2 compiles to
      a randomness request, the equip of item 2, and the attack. */
  lemma AttackAfterWeaponSwap(gameId: nat)
    ensures Batch(gameId, Attack(true), Some(Wearing(2)), Some(Wearing(1))) ==
      Ok([RequestRandom, EquipTx(gameId, [2]), AttackTx(gameId, true)])
  {
    var empty := Some(Item(0, 0));
    var cur := Slots(Wearing(2).equipment);
    var prior := Game.PriorSlots(Some(Wearing(1).equipment));
    assert cur == [Some(Item(2, 0)), empty, empty, empty, empty, empty, empty, empty];
    assert prior == [Some(Item(1, 0)), empty, empty, empty, empty, empty, empty, empty];
    var swapped: seq<Item> := [Item(2, 0)];
    assert Game.SlotChange(cur[0], true, prior[0]) == Ok(swapped);
    assert forall k :: 1 <= k < 8 ==> Game.SlotChange(cur[k], true, prior[k]) == Ok([]);
    assert [] + swapped == swapped && swapped + [] == swapped;
    assert Game.NewItemsUpTo(cur, true, prior, 1) == Ok(swapped);
    assert Game.NewItemsUpTo(cur, true, prior, 2) == Ok(swapped);
    assert Game.NewItemsUpTo(cur, true, prior, 3) == Ok(swapped);
    assert Game.NewItemsUpTo(cur, true, prior, 4) == Ok(swapped);
    assert Game.NewItemsUpTo(cur, true, prior, 5) == Ok(swapped);
    assert Game.NewItemsUpTo(cur, true, prior, 6) == Ok(swapped);
    assert Game.NewItemsUpTo(cur, true, prior, 7) == Ok(swapped);
    assert Game.NewItemsUpTo(cur, true, prior, 8) == Ok(swapped);
    assert Diff(Some(Wearing(2)), Some(Wearing(1))) == Ok(swapped);
    assert Ids(swapped) == [2];
    assert RandomnessTxs(Attack(true), Some(Wearing(2))) == [RequestRandom];
    assert ImplicitEquipTxs(gameId, Attack(true), swapped) == [EquipTx(gameId, [2])];
    assert ActionTxs(gameId, Attack(true), Ids(swapped)) == [AttackTx(gameId, true)];
    assert Batch(gameId, Attack(true), Some(Wearing(2)), Some(Wearing(1))) ==
      Ok([RequestRandom] + [EquipTx(gameId, [2])] + [AttackTx(gameId, true)]);
    assert [RequestRandom] + [EquipTx(gameId, [2])] + [AttackTx(gameId, true)] ==
      [RequestRandom, EquipTx(gameId, [2]), AttackTx(gameId, true)];
  }

  // ---------------------------------------------------------------------------
  // Startup

  /** How a subscription starts: a fresh game, a reconnect replay, a live
      spectate replay, leaving the game, or holding the events for replay. */
  datatype Mode = StartFresh | Reconnect | SpectateLive | SpectateExit | HoldForReplay

  /** The startup decision of subscribeEvents and handleSpectating, from the
      spectating flag, the initial entities, and the adventurer the spectator
      fetch returns (consulted only when there are entities). */
  function StartupMode(spectating: bool, entities: seq<Entity>, fetched: Option<Adventurer>): (mode: Mode)
    ensures mode.SpectateLive? || mode.SpectateExit? || mode.HoldForReplay? <==> spectating
    ensures mode == StartFresh <==> !spectating && |entities| == 0
    ensures mode == Reconnect <==> !spectating && |entities| > 0
    ensures mode == SpectateExit <==> spectating && (|entities| == 0 || fetched.None?)
    ensures mode == SpectateLive <==> spectating && |entities| > 0 && fetched.Some? && fetched.value.health > 0
    ensures mode == HoldForReplay <==> spectating && |entities| > 0 && fetched.Some? && fetched.value.health <= 0
  {
    if spectating then
      if |entities| == 0 then SpectateExit
      else if fetched.None? then SpectateExit
      else if fetched.value.health > 0 then SpectateLive
      else HoldForReplay
    else if |entities| == 0 then StartFresh
    else Reconnect
  }

  /** The modes that replay the initial events with the reconnecting flag. */
  predicate ReplaysNow(mode: Mode)
  {
    mode.Reconnect? || mode.SpectateLive?
  }

  // ---------------------------------------------------------------------------
  // The director

  class Director {
    const gameId: nat
    const lists: EventLists
    var spectating: bool
    var replayEvents: seq<Entity>
    var subscription: Option<nat>
    var cancelled: seq<nat>
    var isProcessing: bool
    var eventQueue: seq<GameEvent>
    var store: Store
    var exited: bool
    /** Every event ever put in the queue, in queue order. */
    ghost var queued: seq<GameEvent>
    /** The events the drain has applied, in the order it applied them. */
    ghost var drained: seq<GameEvent>

    /** The drain applies the queue strictly in order: what it has applied
        followed by what is still waiting (less the head while it is in
        flight) is exactly what was queued. */
    ghost predicate Valid()
      reads this
    {
      if isProcessing then |eventQueue| > 0 && drained + eventQueue[1..] == queued
      else drained + eventQueue == queued
    }

    constructor (gameId: nat, lists: EventLists, store: Store)
      ensures Valid()
      ensures this.gameId == gameId && this.lists == lists && this.store == store
      ensures !spectating && replayEvents == [] && subscription == None && cancelled == []
      ensures !isProcessing && eventQueue == [] && !exited && queued == [] && drained == []
    {
      this.gameId := gameId;
      this.lists := lists;
      this.store := store;
      spectating := false;
      replayEvents := [];
      subscription := None;
      cancelled := [];
      isProcessing := false;
      eventQueue := [];
      exited := false;
      queued := [];
      drained := [];
    }

    method SetSpectating(value: bool)
      modifies this`spectating
      ensures spectating == value
    {
      spectating := value;
    }

    /** processEvent: applies one event to the store through its setters and
        returns the pacing delay instead of waiting it. */
    method ProcessEvent(event: GameEvent, reconnecting: bool) returns (pause: nat)
      modifies this`store
      ensures store == Processed(old(store), event, reconnecting, lists)
      ensures pause == Pause(event, reconnecting)
    {
      if event.AdventurerUpdate? {
        store := store.(adventurer := Some(event.adventurer));
      }
      if event.BagUpdate? {
        store := store.(bag := KeptBagItems(event.bag));
      }
      if event.BeastUpdate? {
        store := store.(beast := Some(event.beast));
      }
      if event.MarketItems? {
        store := store.(marketItemIds := event.items);
        store := store.(newMarket := true);
      }
      if TypeOf(event) in lists.explorerLog {
        if !reconnecting && TypeOf(event) == "discovery" {
          if event.DiscoveryEvent? && event.discovery.kind == "Loot" {
            store := store.(newInventoryItems := store.newInventoryItems + [event.discovery.amount]);
          }
        }
        store := store.(exploreLog := Some(event));
      }
      if !reconnecting && TypeOf(event) in lists.battle {
        store := store.(battleEvent := Some(event));
      }
      pause := 0;
      if !reconnecting && DelayTime(TypeOf(event)) > 0 {
        pause := DelayTime(TypeOf(event));
      }
    }

    /** The live subscription callback: appends the delivered GameEvent
        entities, in order, at the tail of the queue. */
    method Deliver(data: seq<Entity>)
      requires Valid()
      modifies this`eventQueue, this`queued
      ensures Valid()
      ensures eventQueue == old(eventQueue) + GameEvents(data)
      ensures queued == old(queued) + GameEvents(data)
    {
      if |data| > 0 {
        var events := GameEvents(data);
        if isProcessing {
          assert (eventQueue + events)[1..] == eventQueue[1..] + events;
        }
        eventQueue := eventQueue + events;
        queued := queued + events;
      }
    }

    /** The queue effect, up to its await: when the queue is non-empty and no
        event is in flight, marks processing and applies the head, live. */
    method BeginDrain() returns (fired: bool, pause: nat)
      requires Valid()
      modifies this`isProcessing, this`store, this`drained
      ensures Valid()
      ensures fired == (|old(eventQueue)| > 0 && !old(isProcessing))
      ensures fired ==>
        isProcessing && drained == old(drained) + [eventQueue[0]] &&
        store == Processed(old(store), eventQueue[0], false, lists) &&
        pause == Pause(eventQueue[0], false)
      ensures !fired ==>
        isProcessing == old(isProcessing) && store == old(store) && drained == old(drained) && pause == 0
    {
      fired, pause := false, 0;
      if |eventQueue| > 0 && !isProcessing {
        isProcessing := true;
        var event := eventQueue[0];
        drained := drained + [event];
        assert drained + eventQueue[1..] == old(drained) + eventQueue;
        pause := ProcessEvent(event, false);
        fired := true;
      }
    }

    /** The queue effect after its await: removes the head, the event just
        applied, and clears the processing flag. */
    method FinishDrain()
      requires Valid() && isProcessing
      modifies this`eventQueue, this`isProcessing
      ensures Valid() && !isProcessing
      ensures eventQueue == old(eventQueue)[1..]
    {
      eventQueue := eventQueue[1..];
      isProcessing := false;
    }

    /** setEventQueue, as the host calls it between drains. */
    method SetEventQueue(events: seq<GameEvent>)
      requires Valid() && !isProcessing
      modifies this`eventQueue, this`queued
      ensures Valid()
      ensures eventQueue == events && queued == drained + events
    {
      eventQueue := events;
      queued := drained + events;
    }

    /** reconnectGameEvents: processes every GameEvent entity in order with the
        reconnecting flag; nothing awaits, so each completes before the next. */
    method ReconnectGameEvents(entities: seq<Entity>)
      modifies this`store
      ensures store == Replayed(old(store), GameEvents(entities), true, lists)
    {
      var events := GameEvents(entities);
      var i := 0;
      while i < |events|
        invariant 0 <= i <= |events|
        invariant store == Replayed(old(store), events[..i], true, lists)
      {
        var ignored := ProcessEvent(events[i], true);
        assert events[..i + 1][..i] == events[..i];
        i := i + 1;
      }
      assert events[..|events|] == events;
    }

    /** handleSpectating: leaves the game without entities or without a fetched
        adventurer, replays when it is alive, and otherwise holds the entities. */
    method HandleSpectating(entities: seq<Entity>, fetched: Option<Adventurer>)
      modifies this`store, this`exited, this`replayEvents
      ensures var mode := StartupMode(true, entities, fetched);
        (store == if ReplaysNow(mode) then Replayed(old(store), GameEvents(entities), true, lists) else old(store)) &&
        exited == (old(exited) || mode == SpectateExit) &&
        replayEvents == (if mode == HoldForReplay then entities else old(replayEvents))
    {
      if |entities| == 0 {
        exited := true;
        return;
      }
      if fetched.None? {
        exited := true;
        return;
      }
      if fetched.value.health > 0 {
        ReconnectGameEvents(entities);
      } else {
        replayEvents := entities;
      }
    }

    /** subscribeEvents, given the new subscription, its initial entities and
        the adventurer a spectator fetch would return: cancels the previous
        subscription, takes the startup path, and keeps the new subscription.
        In mode StartFresh the game is started with startGame(gameId). */
    method SubscribeEvents(sub: nat, initial: seq<Entity>, fetched: Option<Adventurer>) returns (mode: Mode)
      modifies this`subscription, this`cancelled, this`store, this`exited, this`replayEvents
      ensures mode == StartupMode(spectating, initial, fetched)
      ensures cancelled == old(cancelled) + (if old(subscription).Some? then [old(subscription).value] else [])
      ensures subscription == Some(sub)
      ensures store == if ReplaysNow(mode) then Replayed(old(store), GameEvents(initial), true, lists) else old(store)
      ensures exited == (old(exited) || mode == SpectateExit)
      ensures replayEvents == if mode == HoldForReplay then initial else old(replayEvents)
    {
      if subscription.Some? {
        cancelled := cancelled + [subscription.value];
      }
      mode := StartupMode(spectating, initial, fetched);
      if spectating {
        HandleSpectating(initial, fetched);
      } else if |initial| == 0 {
        // startGame(gameId)
      } else {
        ReconnectGameEvents(initial);
      }
      subscription := Some(sub);
    }

    /** executeGameAction: nothing while spectating; otherwise the randomness
        requests, the equipment diff, the implicit equip, and the action's own
        transaction, pushed in that order. */
    method ExecuteGameAction(action: Action) returns (d: Dispatch)
      ensures d == Dispatched(spectating, gameId, action, store.adventurer, store.adventurerState)
      ensures spectating ==> d == Ignored
    {
      if spectating {
        return Ignored;
      }
      var txs: seq<Tx> := [];
      if VrfEnabled && (action.Explore? || action.Attack? || action.Flee?) {
        txs := txs + [RequestRandom];
      }
      if VrfEnabled && action.Equip? && store.adventurer.Some? && store.adventurer.value.beastHealth > 0 {
        txs := txs + [RequestRandom];
      }
      assert txs == RandomnessTxs(action, store.adventurer);
      var newItemsEquipped := Game.GetNewItemsEquipped(EquipmentOf(store.adventurer), EquipmentOf(store.adventurerState));
      if newItemsEquipped.TypeError? {
        return Threw;
      }
      var ids := Ids(newItemsEquipped.value);
      if !action.Equip? && |newItemsEquipped.value| > 0 {
        txs := txs + [EquipTx(gameId, ids)];
      }
      assert txs == RandomnessTxs(action, store.adventurer) + ImplicitEquipTxs(gameId, action, newItemsEquipped.value);
      match action {
        case Explore(untilBeast) => txs := txs + [ExploreTx(gameId, untilBeast)];
        case Attack(untilDeath) => txs := txs + [AttackTx(gameId, untilDeath)];
        case Flee(untilDeath) => txs := txs + [FleeTx(gameId, untilDeath)];
        case BuyItems(potions, itemPurchases) => txs := txs + [BuyItemsTx(gameId, potions, itemPurchases)];
        case SelectStatUpgrades(statUpgrades) => txs := txs + [SelectStatUpgradesTx(gameId, statUpgrades)];
        case Equip(_) => txs := txs + [EquipTx(gameId, ids)];
        case Drop(items) => txs := txs + [DropTx(gameId, items)];
        case Unrecognised(_) =>
      }
      return Submitted(txs);
    }
  }
}
