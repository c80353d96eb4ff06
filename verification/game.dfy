/** Levelling and combat arithmetic of the game client (client/src/utils/game.ts):
    levels from experience, the equipment diff, elemental matchups, critical
    hits, weapon specials, the damage an adventurer deals to a beast and the
    damage a beast deals to an adventurer, and the ability checks. */
module Game {
  import opened Wrappers
  import opened GameTypes

  function Max(a: int, b: int): (m: int)
    ensures m >= a && m >= b && (m == a || m == b)
  {
    if a >= b then a else b
  }

  // ---------------------------------------------------------------------------
  // Levels

  /** The integer square root of n: Math.floor(Math.sqrt(n)) computed exactly. */
  function Isqrt(n: nat): (r: nat)
    ensures r * r <= n < (r + 1) * (r + 1)
  {
    if n == 0 then 0
    else
      var k := Isqrt(n - 1);
      if (k + 1) * (k + 1) <= n then
        assert n == (k + 1) * (k + 1);
        assert (k + 2) * (k + 2) == (k + 1) * (k + 1) + 2 * k + 3;
        k + 1
      else
        k
  }

  /** No integer square root below 2 has a square of 4 or more. */
  lemma SquareAtLeastFour(l: nat)
    requires l >= 2
    ensures l * l >= 4
  {
    assert l * l >= 2 * l;
  }

  /** calculateLevel: level 1 for no experience, otherwise the integer square root. */
  function CalculateLevel(xp: nat): (level: nat)
    ensures level >= 1
    ensures xp == 0 ==> level == 1
    ensures xp > 0 ==> level * level <= xp < (level + 1) * (level + 1)
    ensures xp < 4 ==> level == 1
  {
    if xp == 0 then 1
    else
      var l := Isqrt(xp);
      if l >= 2 then SquareAtLeastFour(l); l else l
  }

  /** calculateNextLevelXP: the square of the next level, capped at 400. */
  function CalculateNextLevelXp(currentLevel: nat): (xp: nat)
    ensures xp <= 400
    ensures (currentLevel + 1) * (currentLevel + 1) <= 400 ==> xp == (currentLevel + 1) * (currentLevel + 1)
    ensures xp == 400 <==> currentLevel >= 19
  {
    NextSquareBounds(currentLevel);
    var square := (currentLevel + 1) * (currentLevel + 1);
    if square < 400 then square else 400
  }

  /** (level + 1)² reaches 400 exactly from level 19 on. */
  lemma NextSquareBounds(currentLevel: nat)
    ensures currentLevel >= 19 ==> (currentLevel + 1) * (currentLevel + 1) >= 400
    ensures currentLevel < 19 ==> (currentLevel + 1) * (currentLevel + 1) <= 361
  {
    if currentLevel >= 19 {
      SquareMonotone(20, currentLevel + 1);
    } else {
      SquareMonotone(currentLevel + 1, 19);
    }
  }

  /** The experience still needed to level up is positive exactly while the
      level is below 20; from level 20 on the 400 cap is already reached. */
  lemma NextLevelXpAboveXp(xp: nat)
    ensures CalculateLevel(xp) < 20 <==> xp < CalculateNextLevelXp(CalculateLevel(xp))
  {
    var l := CalculateLevel(xp);
    var next := CalculateNextLevelXp(l);
    if l >= 20 {
      SquareMonotone(20, l);
      assert xp >= l * l >= 400 == next;
    } else {
      SquareMonotone(l + 1, 20);
      assert next == (l + 1) * (l + 1);
    }
  }

  lemma SquareMonotone(a: nat, b: nat)
    requires a <= b
    ensures a * a <= b * b
  {
    assert a * a <= a * b;
    assert a * b <= b * b;
  }

  // ---------------------------------------------------------------------------
  // Equipment diff

  /** One iteration of the getNewItemsEquipped loop for one slot: the items
      pushed, or TypeError where the loop reads a property of an absent object
      (the prior equipment itself, or the item in the prior slot). */
  function SlotChange(current: Option<Item>, hasPrior: bool, initial: Option<Item>): Result<seq<Item>>
  {
    match current
    case None => Ok([])
    case Some(c) =>
      if !hasPrior then TypeError
      else if c.id == 0 then Ok([])
      else if initial.None? then TypeError
      else if c.id != initial.value.id then Ok([c])
      else Ok([])
  }

  /** The slots of the prior equipment, all absent when there is none. */
  function PriorSlots(prior: Option<Equipment>): (s: seq<Option<Item>>)
    ensures |s| == SlotCount
  {
    if prior.Some? then Slots(prior.value) else [None, None, None, None, None, None, None, None]
  }

  /** The items pushed by the first n iterations of the loop. */
  function NewItemsUpTo(cur: seq<Option<Item>>, hasPrior: bool, prior: seq<Option<Item>>, n: nat): Result<seq<Item>>
    requires n <= |cur| == |prior|
  {
    if n == 0 then Ok([])
    else
      match NewItemsUpTo(cur, hasPrior, prior, n - 1)
      case TypeError => TypeError
      case Ok(acc) =>
        match SlotChange(cur[n - 1], hasPrior, prior[n - 1])
        case TypeError => TypeError
        case Ok(more) => Ok(acc + more)
  }

  /** The result of getNewItemsEquipped(newEquipment, oldEquipment). */
  function NewItems(newEquipment: Option<Equipment>, oldEquipment: Option<Equipment>): Result<seq<Item>>
  {
    if newEquipment.None? then TypeError
    else NewItemsUpTo(Slots(newEquipment.value), oldEquipment.Some?, PriorSlots(oldEquipment), SlotCount)
  }

  /** Slot k holds a real item whose id differs from the prior slot's. */
  predicate ChangedAt(cur: seq<Option<Item>>, prior: seq<Option<Item>>, k: nat)
    requires k < |cur| == |prior|
  {
    cur[k].Some? && cur[k].value.id != 0 && prior[k].Some? && cur[k].value.id != prior[k].value.id
  }

  /** Slot k makes the loop throw. */
  predicate ThrowsAt(cur: seq<Option<Item>>, hasPrior: bool, prior: seq<Option<Item>>, k: nat)
    requires k < |cur| == |prior|
  {
    cur[k].Some? && (!hasPrior || (cur[k].value.id != 0 && prior[k].None?))
  }

  lemma {:induction false} TypeErrorPersists(cur: seq<Option<Item>>, hasPrior: bool, prior: seq<Option<Item>>, m: nat, n: nat)
    requires m <= n <= |cur| == |prior|
    requires NewItemsUpTo(cur, hasPrior, prior, m) == TypeError
    ensures NewItemsUpTo(cur, hasPrior, prior, n) == TypeError
  {
    if m < n {
      TypeErrorPersists(cur, hasPrior, prior, m, n - 1);
    }
  }

  /** getNewItemsEquipped: visits the slots in order and pushes each item that
      is not the empty sentinel and differs from the item previously in that slot. */
  method GetNewItemsEquipped(newEquipment: Option<Equipment>, oldEquipment: Option<Equipment>) returns (r: Result<seq<Item>>)
    ensures r == NewItems(newEquipment, oldEquipment)
  {
    if newEquipment.None? {
      return TypeError;
    }
    var cur := Slots(newEquipment.value);
    ghost var prior := PriorSlots(oldEquipment);
    var newItems: seq<Item> := [];
    var i := 0;
    while i < |cur|
      invariant 0 <= i <= |cur|
      invariant NewItemsUpTo(cur, oldEquipment.Some?, prior, i) == Ok(newItems)
    {
      match cur[i] {
        case None =>
          assert newItems + [] == newItems;
        case Some(currentItem) =>
          if oldEquipment.None? {
            TypeErrorPersists(cur, false, prior, i + 1, |cur|);
            return TypeError;
          }
          var initialItem := Slots(oldEquipment.value)[i];
          assert initialItem == prior[i];
          if currentItem.id != 0 {
            if initialItem.None? {
              TypeErrorPersists(cur, true, prior, i + 1, |cur|);
              return TypeError;
            }
            if currentItem.id != initialItem.value.id {
              newItems := newItems + [currentItem];
            } else {
              assert newItems + [] == newItems;
            }
          } else {
            assert newItems + [] == newItems;
          }
      }
      i := i + 1;
    }
    return Ok(newItems);
  }

  lemma {:induction false} UpToOfSame(cur: seq<Option<Item>>, n: nat)
    requires n <= |cur|
    ensures NewItemsUpTo(cur, true, cur, n) == Ok([])
  {
    if n > 0 {
      UpToOfSame(cur, n - 1);
      assert SlotChange(cur[n - 1], true, cur[n - 1]) == Ok([]);
      var empty: seq<Item> := [];
      assert empty + empty == empty;
    }
  }

  /** Comparing an equipment object with itself finds nothing new. */
  lemma NewItemsOfSame(e: Equipment)
    ensures NewItems(Some(e), Some(e)) == Ok([])
  {
    UpToOfSame(Slots(e), SlotCount);
  }

  lemma {:induction false} UpToShape(cur: seq<Option<Item>>, hasPrior: bool, prior: seq<Option<Item>>, n: nat)
    requires n <= |cur| == |prior|
    ensures NewItemsUpTo(cur, hasPrior, prior, n).TypeError? <==> exists k :: 0 <= k < n && ThrowsAt(cur, hasPrior, prior, k)
    ensures NewItemsUpTo(cur, hasPrior, prior, n).Ok? ==> |NewItemsUpTo(cur, hasPrior, prior, n).value| <= n
    ensures NewItemsUpTo(cur, hasPrior, prior, n).Ok? ==>
      forall x :: x in NewItemsUpTo(cur, hasPrior, prior, n).value <==>
        exists k :: 0 <= k < n && ChangedAt(cur, prior, k) && cur[k] == Some(x)
  {
    if n > 0 {
      UpToShape(cur, hasPrior, prior, n - 1);
      var r := NewItemsUpTo(cur, hasPrior, prior, n);
      assert SlotChange(cur[n - 1], hasPrior, prior[n - 1]).TypeError? <==> ThrowsAt(cur, hasPrior, prior, n - 1);
      if NewItemsUpTo(cur, hasPrior, prior, n - 1).TypeError? {
        var k :| 0 <= k < n - 1 && ThrowsAt(cur, hasPrior, prior, k);
        assert 0 <= k < n && ThrowsAt(cur, hasPrior, prior, k);
      }
      if NewItemsUpTo(cur, hasPrior, prior, n - 1).Ok? && r.Ok? {
        var acc := NewItemsUpTo(cur, hasPrior, prior, n - 1).value;
        forall x
          ensures x in r.value <==> exists k :: 0 <= k < n && ChangedAt(cur, prior, k) && cur[k] == Some(x)
        {
          if x in r.value && x !in acc {
            assert ChangedAt(cur, prior, n - 1) && cur[n - 1] == Some(x);
          }
        }
      }
    }
  }

  /** The changed real items among the first n slots, in slot order. */
  function ChangedItems(cur: seq<Option<Item>>, prior: seq<Option<Item>>, n: nat): seq<Item>
    requires n <= |cur| == |prior|
  {
    if n == 0 then []
    else ChangedItems(cur, prior, n - 1) + (if ChangedAt(cur, prior, n - 1) then [cur[n - 1].value] else [])
  }

  /** When the first n iterations do not throw, they have pushed exactly the
      changed items, in slot order. */
  lemma {:induction false} UpToInSlotOrder(cur: seq<Option<Item>>, hasPrior: bool, prior: seq<Option<Item>>, n: nat)
    requires n <= |cur| == |prior|
    ensures NewItemsUpTo(cur, hasPrior, prior, n).Ok? ==> NewItemsUpTo(cur, hasPrior, prior, n).value == ChangedItems(cur, prior, n)
  {
    if n > 0 && NewItemsUpTo(cur, hasPrior, prior, n).Ok? {
      UpToInSlotOrder(cur, hasPrior, prior, n - 1);
      var change := SlotChange(cur[n - 1], hasPrior, prior[n - 1]);
      assert change.Ok?;
      assert change.value == if ChangedAt(cur, prior, n - 1) then [cur[n - 1].value] else [];
    }
  }

  /** The equipment diff throws exactly when the new equipment is absent, or a
      present slot is visited with no prior equipment, or a real item is
      compared against an absent prior slot; otherwise it holds exactly the
      changed real items, at most one per slot, in slot order. */
  lemma NewItemsCharacterised(newEquipment: Option<Equipment>, oldEquipment: Option<Equipment>)
    ensures NewItems(newEquipment, oldEquipment).TypeError? <==>
      newEquipment.None? ||
      exists k :: 0 <= k < SlotCount && ThrowsAt(Slots(newEquipment.value), oldEquipment.Some?, PriorSlots(oldEquipment), k)
    ensures NewItems(newEquipment, oldEquipment).Ok? ==> |NewItems(newEquipment, oldEquipment).value| <= SlotCount
    ensures NewItems(newEquipment, oldEquipment).Ok? ==>
      forall x :: x in NewItems(newEquipment, oldEquipment).value <==>
        exists k :: 0 <= k < SlotCount && ChangedAt(Slots(newEquipment.value), PriorSlots(oldEquipment), k) &&
          Slots(newEquipment.value)[k] == Some(x)
    ensures NewItems(newEquipment, oldEquipment).Ok? ==>
      NewItems(newEquipment, oldEquipment).value == ChangedItems(Slots(newEquipment.value), PriorSlots(oldEquipment), SlotCount)
  {
    if newEquipment.Some? {
      UpToShape(Slots(newEquipment.value), oldEquipment.Some?, PriorSlots(oldEquipment), SlotCount);
      UpToInSlotOrder(Slots(newEquipment.value), oldEquipment.Some?, PriorSlots(oldEquipment), SlotCount);
    }
  }

  // ---------------------------------------------------------------------------
  // Elemental matchup

  /** The armour material each attack class is strong against. */
  function StrongAgainst(attack: ItemType): Option<ItemType>
  {
    match attack
    case Magic => Some(Metal)
    case Blade => Some(Cloth)
    case Bludgeon => Some(Hide)
    case _ => None
  }

  /** The armour material each attack class is weak against. */
  function WeakAgainst(attack: ItemType): Option<ItemType>
  {
    match attack
    case Magic => Some(Hide)
    case Blade => Some(Metal)
    case Bludgeon => Some(Cloth)
    case _ => None
  }

  /** elementalAdjustedDamage: half the base again for a strong matchup, half
      less for a weak one, the base otherwise. */
  function ElementalAdjustedDamage(baseAttack: int, weaponType: ItemType, armorType: ItemType): (damage: int)
    ensures StrongAgainst(weaponType) == Some(armorType) ==> damage == baseAttack + baseAttack / 2
    ensures WeakAgainst(weaponType) == Some(armorType) ==> damage == baseAttack - baseAttack / 2
    ensures StrongAgainst(weaponType) != Some(armorType) && WeakAgainst(weaponType) != Some(armorType) ==> damage == baseAttack
    ensures baseAttack >= 0 ==> 0 <= baseAttack - baseAttack / 2 <= damage <= baseAttack + baseAttack / 2
  {
    var elementalEffect := baseAttack / 2;
    if (weaponType == Magic && armorType == Metal) ||
       (weaponType == Blade && armorType == Cloth) ||
       (weaponType == Bludgeon && armorType == Hide)
    then baseAttack + elementalEffect
    else if (weaponType == Magic && armorType == Hide) ||
            (weaponType == Blade && armorType == Metal) ||
            (weaponType == Bludgeon && armorType == Cloth)
    then baseAttack - elementalEffect
    else baseAttack
  }

  // ---------------------------------------------------------------------------
  // Strength, critical hits, weapon specials

  /** strength_dmg: a tenth of damage times strength, not rounded; 0 without strength. */
  function StrengthDamage(damage: int, strength: nat): (bonus: real)
    ensures strength == 0 ==> bonus == 0.0
    ensures bonus == (damage * strength) as real / 10.0
    ensures damage >= 0 ==> bonus >= 0.0
  {
    if strength == 0 then 0.0 else (damage * strength * 10) as real / 100.0
  }

  /** The ring amplification: 3% of an amount per ring level, rounded down. */
  function RingBonus(amount: int, ring: Item): int
  {
    (amount * 3 * CalculateLevel(ring.xp)) / 100
  }

  /** The ring is present and the catalog names it `name`. */
  predicate RingNamed(cat: Catalog, ring: Option<Item>, name: string)
  {
    ring.Some? && cat.itemName(ring.value.id) == name
  }

  /** critical_hit_bonus: the hit lands when entropy <= luck*255/100; then the
      bonus is the base damage, amplified by a Titanium Ring when positive. */
  function CriticalHitBonus(cat: Catalog, baseDamage: int, luck: nat, ring: Option<Item>, entropy: nat): (total: int)
    ensures entropy * 100 > luck * 255 ==> total == 0
    ensures entropy * 100 <= luck * 255 && !(RingNamed(cat, ring, "TitaniumRing") && baseDamage > 0) ==> total == baseDamage
    ensures entropy * 100 <= luck * 255 && RingNamed(cat, ring, "TitaniumRing") && baseDamage > 0 ==>
      total == baseDamage + (baseDamage * 3 * CalculateLevel(ring.value.xp)) / 100
    ensures baseDamage >= 0 ==> total == 0 || total >= baseDamage
  {
    var scaledChance := (luck * 255) as real / 100.0;
    if entropy as real <= scaledChance then
      if ring.Some? && cat.itemName(ring.value.id) == "TitaniumRing" && baseDamage > 0 then
        baseDamage + RingBonus(baseDamage, ring.value)
      else
        baseDamage
    else
      0
  }

  /** The weapon's special matches the beast's: the weapon's is truthy and equal. */
  predicate SpecialMatches(weaponSpecial: Option<string>, beastSpecial: Option<string>)
  {
    Truthy(weaponSpecial) && weaponSpecial == beastSpecial
  }

  /** calculateWeaponSpecialBonus: nothing when the beast has no special names;
      otherwise 8x the damage for a matching prefix plus 2x for a matching
      suffix, amplified by a Platinum Ring when positive. The ring's name is
      looked up whenever the beast has a special name, so an absent ring throws. */
  function WeaponSpecialBonus(cat: Catalog, weaponId: nat, weaponLevel: nat, itemSpecialsSeed: nat,
                              beastPrefix: Option<string>, beastSuffix: Option<string>,
                              baseDamage: int, ring: Option<Item>): (r: Result<int>)
    ensures !Truthy(beastPrefix) && !Truthy(beastSuffix) ==> r == Ok(0)
    ensures r.TypeError? <==> (Truthy(beastPrefix) || Truthy(beastSuffix)) && ring.None?
    ensures r.Ok? && baseDamage >= 0 ==> r.value >= 0
    ensures r.Ok? && !RingNamed(cat, ring, "PlatinumRing") ==> r.value in {0, 2 * baseDamage, 8 * baseDamage, 10 * baseDamage}
    ensures r.Ok? && baseDamage > 0 && RingNamed(cat, ring, "PlatinumRing") ==>
      r.value == 0 || r.value >= 2 * baseDamage
    ensures (Truthy(beastPrefix) || Truthy(beastSuffix)) && r.Ok? ==>
      var weaponSpecials := cat.specials(weaponId, weaponLevel, itemSpecialsSeed);
      var matched := (if SpecialMatches(weaponSpecials.prefix, beastPrefix) then 8 * baseDamage else 0)
                   + (if SpecialMatches(weaponSpecials.suffix, beastSuffix) then 2 * baseDamage else 0);
      r.value == if RingNamed(cat, ring, "PlatinumRing") && matched > 0
                 then matched + (matched * 3 * CalculateLevel(ring.value.xp)) / 100
                 else matched
  {
    if !Truthy(beastPrefix) && !Truthy(beastSuffix) then Ok(0)
    else
      var weaponSpecials := cat.specials(weaponId, weaponLevel, itemSpecialsSeed);
      var bonus := (if SpecialMatches(weaponSpecials.prefix, beastPrefix) then baseDamage * 8 else 0)
                 + (if SpecialMatches(weaponSpecials.suffix, beastSuffix) then baseDamage * 2 else 0);
      match ring
      case None => TypeError
      case Some(rg) =>
        if cat.itemName(rg.id) == "PlatinumRing" && bonus > 0 then Ok(bonus + RingBonus(bonus, rg))
        else Ok(bonus)
  }

  // ---------------------------------------------------------------------------
  // Adventurer attacks beast

  /** Level times (6 - tier): the attack of a weapon, the armour value of an item. */
  function ItemPower(cat: Catalog, item: Item): int
  {
    CalculateLevel(item.xp) * (6 - cat.itemTier(item.id))
  }

  /** Level times (6 - tier) of a beast: its armour and its base attack. */
  function BeastPower(beast: Beast): int
  {
    beast.level * (6 - beast.tier)
  }

  /** The weapon's elemental damage against the beast's armour. */
  function WeaponElemental(cat: Catalog, weapon: Item, beast: Beast): int
  {
    ElementalAdjustedDamage(ItemPower(cat, weapon), cat.itemType(weapon.id), cat.armorType(beast.id))
  }

  /** The weapon-special bonus of an adventurer's weapon against a beast. */
  function SpecialBonusOf(cat: Catalog, adventurer: Adventurer, weapon: Item, beast: Beast): Result<int>
  {
    WeaponSpecialBonus(cat, weapon.id, CalculateLevel(weapon.xp), adventurer.itemSpecialsSeed,
                       beast.specialPrefix, beast.specialSuffix, WeaponElemental(cat, weapon, beast),
                       adventurer.equipment.ring)
  }

  /** Math.floor(total + strength_dmg(total, strength) - armour) in integers. */
  lemma FloorWithStrength(total: int, strength: nat, armor: int)
    ensures (total as real + StrengthDamage(total, strength) - armor as real).Floor == total - armor + (total * strength) / 10
  {
    var p := total * strength;
    var q, m := p / 10, p % 10;
    assert p == 10 * q + m && 0 <= m < 10;
    assert StrengthDamage(total, strength) == q as real + m as real / 10.0;
    var x := total as real + StrengthDamage(total, strength) - armor as real;
    assert x == (total - armor + q) as real + m as real / 10.0;
  }

  /** The final step: strength bonus, minus the beast's armour, at least 4. */
  function FinalDamage(total: int, strength: nat, baseArmor: int): (damage: int)
    ensures damage >= 4
    ensures damage == Max(4, total - baseArmor + (total * strength) / 10)
  {
    var strengthBonus := StrengthDamage(total, strength);
    var totalAttack := total as real + strengthBonus;
    FloorWithStrength(total, strength, baseArmor);
    Max(4, (totalAttack - baseArmor as real).Floor)
  }

  /** calculateAttackDamage: 4 without a weapon; otherwise elemental damage
      plus the special bonus, plus a critical hit when entropy is non-zero,
      plus the strength bonus, minus the beast's armour, and at least 4. */
  function AttackDamage(cat: Catalog, adventurer: Adventurer, beast: Beast, criticalHitEntropy: nat): (r: Result<int>)
    ensures r.Ok? ==> r.value >= 4
    ensures adventurer.equipment.weapon.None? ==> r == Ok(4)
    ensures r.TypeError? <==>
      adventurer.equipment.weapon.Some? && adventurer.equipment.ring.None? &&
      (Truthy(beast.specialPrefix) || Truthy(beast.specialSuffix))
    ensures adventurer.equipment.weapon.Some? && criticalHitEntropy == 0 && r.Ok? ==>
      var weapon := adventurer.equipment.weapon.value;
      var total := WeaponElemental(cat, weapon, beast) + SpecialBonusOf(cat, adventurer, weapon, beast).value;
      r.value == Max(4, total - BeastPower(beast) + (total * adventurer.stats.strength) / 10)
    ensures adventurer.equipment.weapon.Some? && r.Ok? ==>
      var weapon := adventurer.equipment.weapon.value;
      var total := WeaponElemental(cat, weapon, beast) + SpecialBonusOf(cat, adventurer, weapon, beast).value;
      var withCrit := total + (if criticalHitEntropy != 0
                               then CriticalHitBonus(cat, total, adventurer.stats.luck, adventurer.equipment.ring, criticalHitEntropy)
                               else 0);
      r.value == Max(4, withCrit - BeastPower(beast) + (withCrit * adventurer.stats.strength) / 10)
    ensures adventurer.equipment.weapon.Some? && !Truthy(beast.specialPrefix) && !Truthy(beast.specialSuffix) ==>
      var total := WeaponElemental(cat, adventurer.equipment.weapon.value, beast);
      var withCrit := total + (if criticalHitEntropy != 0
                               then CriticalHitBonus(cat, total, adventurer.stats.luck, adventurer.equipment.ring, criticalHitEntropy)
                               else 0);
      r == Ok(Max(4, withCrit - BeastPower(beast) + (withCrit * adventurer.stats.strength) / 10))
    ensures adventurer.equipment.weapon.Some? && !Truthy(beast.specialPrefix) && !Truthy(beast.specialSuffix) && criticalHitEntropy == 0 ==>
      var total := WeaponElemental(cat, adventurer.equipment.weapon.value, beast);
      r == Ok(Max(4, total - BeastPower(beast) + (total * adventurer.stats.strength) / 10))
  {
    match adventurer.equipment.weapon
    case None => Ok(4)
    case Some(weapon) =>
      var elementalDamage := WeaponElemental(cat, weapon, beast);
      var ring := adventurer.equipment.ring;
      match SpecialBonusOf(cat, adventurer, weapon, beast)
      case TypeError => TypeError
      case Ok(specialBonus) =>
        var withSpecial := elementalDamage + specialBonus;
        var critBonus := if criticalHitEntropy != 0 then CriticalHitBonus(cat, withSpecial, adventurer.stats.luck, ring, criticalHitEntropy) else 0;
        Ok(FinalDamage(withSpecial + critBonus, adventurer.stats.strength, BeastPower(beast)))
  }

  /** For a non-negative damage before the crit step, a critical hit never
      lowers the attack damage below the damage without one. */
  lemma CritNeverLowersAttack(cat: Catalog, adventurer: Adventurer, beast: Beast, criticalHitEntropy: nat)
    requires adventurer.equipment.weapon.Some?
    requires AttackDamage(cat, adventurer, beast, criticalHitEntropy).Ok?
    requires var weapon := adventurer.equipment.weapon.value;
      WeaponElemental(cat, weapon, beast) + SpecialBonusOf(cat, adventurer, weapon, beast).value >= 0
    ensures AttackDamage(cat, adventurer, beast, 0).Ok?
    ensures AttackDamage(cat, adventurer, beast, criticalHitEntropy).value >= AttackDamage(cat, adventurer, beast, 0).value
  {
    var weapon := adventurer.equipment.weapon.value;
    var total := WeaponElemental(cat, weapon, beast) + SpecialBonusOf(cat, adventurer, weapon, beast).value;
    var crit := if criticalHitEntropy != 0
                then CriticalHitBonus(cat, total, adventurer.stats.luck, adventurer.equipment.ring, criticalHitEntropy)
                else 0;
    var strength := adventurer.stats.strength;
    var armor := BeastPower(beast);
    assert AttackDamage(cat, adventurer, beast, criticalHitEntropy).value ==
      Max(4, (total + crit) - armor + ((total + crit) * strength) / 10);
    assert AttackDamage(cat, adventurer, beast, 0).value == Max(4, total - armor + (total * strength) / 10);
    assert crit >= 0;
    ScaledTenthMonotone(total, total + crit, strength);
  }

  /** x*s/10, rounded down, grows with x for a non-negative s. */
  lemma ScaledTenthMonotone(x: int, y: int, s: nat)
    requires x <= y
    ensures (x * s) / 10 <= (y * s) / 10
  {
    assert x * s <= y * s by {
      assert (y - x) * s >= 0;
    }
  }

  // ---------------------------------------------------------------------------
  // Ability checks

  /** Math.floor(a / b) for a non-negative numerator and positive denominator. */
  lemma FloorOfQuotient(a: nat, b: nat)
    requires b > 0
    ensures (a as real / b as real).Floor == a / b
  {
    var q, m := a / b, a % b;
    assert a == b * q + m && 0 <= m < b;
    var br := b as real;
    var frac := m as real / br;
    assert frac * br == m as real;
    assert (1.0 - frac) * br == br - m as real > 0.0;
    assert 0.0 <= frac < 1.0;
    var x := a as real / br;
    assert x * br == a as real;
    assert (q as real + frac) * br == a as real;
    assert x == q as real + frac;
  }

  /** Math.floor((stat / level) * 100) for a stat below the level. */
  lemma PercentFloor(stat: nat, level: nat)
    requires stat < level
    ensures ((stat as real / level as real) * 100.0).Floor == stat * 100 / level
    ensures 0 <= stat * 100 / level < 100
  {
    assert (stat as real / level as real) * 100.0 == (stat * 100) as real / level as real;
    FloorOfQuotient(stat * 100, level);
    var q := stat * 100 / level;
    assert level * q <= stat * 100 < level * 100;
  }

  /** ability_based_percentage: 100 once the stat reaches the level, otherwise
      the stat as a percentage of the level, rounded down. */
  function AbilityBasedPercentage(adventurerXp: nat, relevantStat: nat): (pct: int)
    ensures relevantStat >= CalculateLevel(adventurerXp) <==> pct == 100
    ensures relevantStat < CalculateLevel(adventurerXp) ==> pct == relevantStat * 100 / CalculateLevel(adventurerXp)
    ensures 0 <= pct <= 100
  {
    var adventurerLevel := CalculateLevel(adventurerXp);
    if relevantStat >= adventurerLevel then 100
    else
      PercentFloor(relevantStat, adventurerLevel);
      ((relevantStat as real / adventurerLevel as real) * 100.0).Floor
  }

  /** ability_based_avoid_threat: avoided when the stat reaches the level, or
      exceeds level*rnd/255, stated here in integers. */
  function AbilityBasedAvoidThreat(adventurerLevel: nat, relevantStat: nat, rnd: nat): (avoided: bool)
    ensures avoided <==> relevantStat >= adventurerLevel || relevantStat * 255 > adventurerLevel * rnd
  {
    if relevantStat >= adventurerLevel then true
    else
      var scaledChance := (adventurerLevel * rnd) as real / 255.0;
      relevantStat as real > scaledChance
  }

  // ---------------------------------------------------------------------------
  // Beast attacks adventurer

  /** ASCII lower-casing, as toLowerCase does on key names. */
  function ToLower(s: string): (r: string)
    ensures |r| == |s|
  {
    if s == [] then []
    else [if 'A' <= s[0] <= 'Z' then (s[0] as int + 32) as char else s[0]] + ToLower(s[1..])
  }

  /** adventurer.equipment[location.toLowerCase()]: None unless the lower-cased
      location names a present key. */
  function EquipmentAt(e: Equipment, location: string): (item: Option<Item>)
    ensures item.Some? ==> exists slot: Slot :: At(e, slot) == item && SlotName(slot) == ToLower(location)
    ensures forall slot: Slot :: SlotName(slot) == ToLower(location) ==> item == At(e, slot)
    ensures (forall slot: Slot :: SlotName(slot) != ToLower(location)) ==> item == None
  {
    var key := ToLower(location);
    if key == "weapon" then At(e, Weapon)
    else if key == "chest" then At(e, Chest)
    else if key == "head" then At(e, Head)
    else if key == "waist" then At(e, Waist)
    else if key == "foot" then At(e, Foot)
    else if key == "hand" then At(e, Hand)
    else if key == "neck" then At(e, Neck)
    else if key == "ring" then At(e, Ring)
    else None
  }

  /** The neck item that pairs with each armour material. */
  function NeckFor(armorType: ItemType): Option<string>
  {
    match armorType
    case Cloth => Some("Amulet")
    case Hide => Some("Pendant")
    case Metal => Some("Necklace")
    case _ => None
  }

  /** neck_reduction: false when either id is 0; true when the armour's material
      pairs with the neck item's name. The neck's id is read whenever the
      armour's id is non-zero, so an absent neck throws. */
  function NeckReduction(cat: Catalog, armor: Item, neck: Option<Item>): (r: Result<bool>)
    ensures armor.id == 0 ==> r == Ok(false)
    ensures neck.Some? && neck.value.id == 0 ==> r == Ok(false)
    ensures r.TypeError? <==> armor.id != 0 && neck.None?
    ensures r == Ok(true) <==>
      armor.id != 0 && neck.Some? && neck.value.id != 0 && NeckFor(cat.itemType(armor.id)) == Some(cat.itemName(neck.value.id))
  {
    if armor.id == 0 then Ok(false)
    else match neck
      case None => TypeError
      case Some(n) =>
        if n.id == 0 then Ok(false)
        else if cat.itemType(armor.id) == Cloth && cat.itemName(n.id) == "Amulet" then Ok(true)
        else if cat.itemType(armor.id) == Hide && cat.itemName(n.id) == "Pendant" then Ok(true)
        else if cat.itemType(armor.id) == Metal && cat.itemName(n.id) == "Necklace" then Ok(true)
        else Ok(false)
  }

  /** The damage of a beast's hit on present armour before the neck reduction:
      armour subtracted (at least 2), the elemental matchup, and a critical
      hit with three times the adventurer's level as luck and no ring. */
  function ArmoredHit(cat: Catalog, beast: Beast, adventurer: Adventurer, armor: Item, entropy: nat): (hit: int)
    ensures var adjusted := ElementalAdjustedDamage(Max(2, BeastPower(beast) - ItemPower(cat, armor)), cat.attackType(beast.id), cat.itemType(armor.id));
      hit == if entropy * 100 <= CalculateLevel(adventurer.xp) * 3 * 255 then 2 * adjusted else adjusted
    ensures hit >= 1
  {
    var damage := Max(2, BeastPower(beast) - ItemPower(cat, armor));
    var adjusted := ElementalAdjustedDamage(damage, cat.attackType(beast.id), cat.itemType(armor.id));
    adjusted + CriticalHitBonus(cat, adjusted, CalculateLevel(adventurer.xp) * 3, None, entropy)
  }

  /** calculateBeastDamage: the beast's base attack, reduced by the armour at the
      hit location when a (possibly empty) item is there, and at least 2. */
  function BeastDamage(cat: Catalog, beast: Beast, adventurer: Adventurer, attackLocation: string, entropy: nat): (r: Result<int>)
    ensures r.Ok? ==> r.value >= 2
    ensures EquipmentAt(adventurer.equipment, attackLocation).None? ==> r == Ok(Max(2, beast.level * (6 - beast.tier)))
    ensures r.TypeError? <==>
      EquipmentAt(adventurer.equipment, attackLocation).Some? &&
      EquipmentAt(adventurer.equipment, attackLocation).value.id != 0 &&
      adventurer.equipment.neck.None?
    ensures EquipmentAt(adventurer.equipment, attackLocation).Some? &&
            EquipmentAt(adventurer.equipment, attackLocation).value.id == 0 ==>
      r == Ok(Max(2, ArmoredHit(cat, beast, adventurer, EquipmentAt(adventurer.equipment, attackLocation).value, entropy)))
    ensures EquipmentAt(adventurer.equipment, attackLocation).Some? && r.Ok? ==>
      var armor := EquipmentAt(adventurer.equipment, attackLocation).value;
      var neck := adventurer.equipment.neck;
      r.value == Max(2, ArmoredHit(cat, beast, adventurer, armor, entropy) -
                        (if NeckReduction(cat, armor, neck) == Ok(true)
                         then (ItemPower(cat, armor) * CalculateLevel(neck.value.xp) * 3) / 100
                         else 0))
  {
    var baseAttack := BeastPower(beast);
    match EquipmentAt(adventurer.equipment, attackLocation)
    case None => Ok(Max(2, baseAttack))
    case Some(armor) =>
      var withCrit := ArmoredHit(cat, beast, adventurer, armor, entropy);
      match NeckReduction(cat, armor, adventurer.equipment.neck)
      case TypeError => TypeError
      case Ok(reduces) =>
        if reduces then
          var neckLevel := CalculateLevel(adventurer.equipment.neck.value.xp);
          Ok(Max(2, withCrit - (ItemPower(cat, armor) * neckLevel * 3) / 100))
        else
          Ok(Max(2, withCrit))
  }

  /** With an armour tier of at most 6, the neck reduction never raises the
      damage of a beast's hit above the hit without it. */
  lemma NeckNeverRaisesDamage(cat: Catalog, beast: Beast, adventurer: Adventurer, attackLocation: string, entropy: nat)
    requires EquipmentAt(adventurer.equipment, attackLocation).Some?
    requires cat.itemTier(EquipmentAt(adventurer.equipment, attackLocation).value.id) <= 6
    requires BeastDamage(cat, beast, adventurer, attackLocation, entropy).Ok?
    ensures BeastDamage(cat, beast, adventurer, attackLocation, entropy).value <=
      Max(2, ArmoredHit(cat, beast, adventurer, EquipmentAt(adventurer.equipment, attackLocation).value, entropy))
  {
    var armor := EquipmentAt(adventurer.equipment, attackLocation).value;
    var neck := adventurer.equipment.neck;
    var power := ItemPower(cat, armor);
    assert power >= 0 by {
      assert CalculateLevel(armor.xp) * (6 - cat.itemTier(armor.id)) >= 0;
    }
    if NeckReduction(cat, armor, neck) == Ok(true) {
      ReductionNonNegative(power, CalculateLevel(neck.value.xp));
    }
  }

  lemma ReductionNonNegative(power: int, neckLevel: nat)
    requires power >= 0
    ensures (power * neckLevel * 3) / 100 >= 0
  {
    assert power * neckLevel >= 0;
  }

  /** Unlike the adventurer's attack, the beast's hit does not test entropy for
      zero: with entropy 0 every hit on armour is critical and doubles. */
  lemma BeastCritsOnZeroEntropy(cat: Catalog, beast: Beast, adventurer: Adventurer, armor: Item)
    ensures ArmoredHit(cat, beast, adventurer, armor, 0) ==
      2 * ElementalAdjustedDamage(Max(2, BeastPower(beast) - ItemPower(cat, armor)), cat.attackType(beast.id), cat.itemType(armor.id))
    ensures ArmoredHit(cat, beast, adventurer, armor, 0) >= 2
  {
  }
}
