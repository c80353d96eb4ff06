/** The entities the game client works on: items, equipment, adventurers,
    beasts, and the static item/beast catalog, whose lookups are abstract. */
module GameTypes {
  import opened Wrappers

  /** An item as stored on an adventurer or in the bag: id 0 is the empty sentinel. */
  datatype Item = Item(id: nat, xp: nat)

  /** The keys of an equipment object. */
  datatype Slot = Weapon | Chest | Head | Waist | Foot | Hand | Neck | Ring

  /** An equipment object. Each key may be absent (None); a present key holds an
      item, possibly the empty sentinel with id 0. */
  datatype Equipment = Equipment(
    weapon: Option<Item>,
    chest: Option<Item>,
    head: Option<Item>,
    waist: Option<Item>,
    foot: Option<Item>,
    hand: Option<Item>,
    neck: Option<Item>,
    ring: Option<Item>)

  /** Number of equipment slots. */
  const SlotCount: nat := 8

  /** The slots of an equipment object in the order its entries are enumerated. */
  function Slots(e: Equipment): (s: seq<Option<Item>>)
    ensures |s| == SlotCount
    ensures s[0] == e.weapon && s[6] == e.neck && s[7] == e.ring
  {
    [e.weapon, e.chest, e.head, e.waist, e.foot, e.hand, e.neck, e.ring]
  }

  /** The item under one key of an equipment object. */
  function At(e: Equipment, slot: Slot): Option<Item>
  {
    match slot
    case Weapon => e.weapon
    case Chest => e.chest
    case Head => e.head
    case Waist => e.waist
    case Foot => e.foot
    case Hand => e.hand
    case Neck => e.neck
    case Ring => e.ring
  }

  /** The lower-case key name of a slot. */
  function SlotName(slot: Slot): string
  {
    match slot
    case Weapon => "weapon"
    case Chest => "chest"
    case Head => "head"
    case Waist => "waist"
    case Foot => "foot"
    case Hand => "hand"
    case Neck => "neck"
    case Ring => "ring"
  }

  datatype Stats = Stats(
    strength: nat,
    dexterity: nat,
    vitality: nat,
    intelligence: nat,
    wisdom: nat,
    charisma: nat,
    luck: nat)

  datatype Adventurer = Adventurer(
    health: int,
    xp: nat,
    stats: Stats,
    equipment: Equipment,
    itemSpecialsSeed: nat,
    beastHealth: int)

  /** A beast; a missing special name is None (JavaScript null). */
  datatype Beast = Beast(
    id: nat,
    level: nat,
    tier: int,
    specialPrefix: Option<string>,
    specialSuffix: Option<string>)

  /** Item and beast types: the three attack classes, the three armour
      materials, and every other type (jewellery, no type). */
  datatype ItemType = Magic | Blade | Bludgeon | Cloth | Hide | Metal | OtherType

  /** The special names an item has at a level for a seed; None when absent. */
  datatype Specials = Specials(prefix: Option<string>, suffix: Option<string>)

  /** The static catalog: item tier, type and name by item id, the specials of
      an item, and the armour material and attack class of a beast by beast id.
      The lookup tables themselves are not part of this model, so every
      property proved here holds for every catalog. */
  datatype Catalog = Catalog(
    itemTier: nat -> int,
    itemType: nat -> ItemType,
    itemName: nat -> string,
    specials: (nat, nat, nat) -> Specials,
    armorType: nat -> ItemType,
    attackType: nat -> ItemType)

  /** JavaScript truthiness of a string that may be null: non-null and non-empty. */
  predicate Truthy(s: Option<string>)
  {
    s.Some? && s.value != ""
  }
}
