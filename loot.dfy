/**
 * The loot resolver of the capture-the-flag script: one reward tier is rolled
 * per match (`NewMatch`), previewed to the players, and turned into one item
 * per winning player (`GiveLoot`), after which no tier is pending.
 *
 * `random.randint(a, b)` is an explicit draw `d` with `a <= d <= b`.
 */
module Loot {
  import opened Host

  // Reward tiers.
  const LOOT_COMMON := 0
  const LOOT_UNCOMMON := 1
  const LOOT_RARE := 2
  const LOOT_EPIC := 3
  const LOOT_LEGENDARY := 4
  const LOOT_SPIRIT_FIRE := 5
  const LOOT_SPIRIT_UNHOLY := 6
  const LOOT_SPIRIT_ICE := 7
  const LOOT_SPIRIT_WIND := 8
  const LOOT_MANA_CUBE := 9

  // Player classes.
  const CLASS_WARRIOR := 1
  const CLASS_RANGER := 2
  const CLASS_MAGE := 3
  const CLASS_ROGUE := 4

  // Item types.
  const ITEM_TYPE_WEAPON := 3
  const ITEM_TYPE_ARMOR := 4
  const ITEM_TYPE_GLOVES := 5
  const ITEM_TYPE_BOOTS := 6
  const ITEM_TYPE_SHOULDER_ARMOR := 7
  const ITEM_TYPE_AMULET := 8
  const ITEM_TYPE_RING := 9
  const ITEM_TYPE_SPIRIT := 11
  const ITEM_TYPE_MANA_CUBE := 25

  // Weapon sub-types.
  const WEAPON_SWORD := 0
  const WEAPON_AXE := 1
  const WEAPON_MACE := 2
  const WEAPON_DAGGER := 3
  const WEAPON_FIST := 4
  const WEAPON_LONGSWORD := 5
  const WEAPON_BOW := 6
  const WEAPON_CROSSBOW := 7
  const WEAPON_BOOMERANG := 8
  const WEAPON_STAFF := 10
  const WEAPON_WAND := 11
  const WEAPON_BRACELET := 12
  const WEAPON_SHIELD := 13
  const WEAPON_GREATSWORD := 15
  const WEAPON_GREATAXE := 16
  const WEAPON_GREATMACE := 17

  // Sub-types of the other equipment types.
  const SUB_TYPE_ARMOR := 0
  const SUB_TYPE_GLOVES := 0
  const SUB_TYPE_BOOTS := 0
  const SUB_TYPE_SHOULDER_ARMOR := 0
  const SUB_TYPE_AMULET := 0
  const SUB_TYPE_RING := 0
  const SUB_TYPE_SPIRIT := 14

  // Materials.
  const MATERIAL_NONE := 0
  const MATERIAL_IRON := 1
  const MATERIAL_WOOD := 2
  const MATERIAL_GOLD := 11
  const MATERIAL_SILVER := 12
  const MATERIAL_SILK := 25
  const MATERIAL_LINEN := 26
  const MATERIAL_COTTON := 27

  const ITEM_RARITY_RARE := 2

  /** The number of upgrade slots every generated item carries. */
  const UPGRADE_SLOTS := 32

  predicate ValidClass(classType: int) { CLASS_WARRIOR <= classType <= CLASS_ROGUE }

  predicate EquipmentType(itemType: int) { ITEM_TYPE_WEAPON <= itemType <= ITEM_TYPE_RING }

  /** The preview text of each tier (`__loots`). */
  function LootNames(): map<int, string> {
    map[
      LOOT_COMMON := "an common item",
      LOOT_UNCOMMON := "an uncommon item",
      LOOT_RARE := "an rare item",
      LOOT_SPIRIT_FIRE := "a fire spirit",
      LOOT_SPIRIT_WIND := "a wind spirit",
      LOOT_SPIRIT_ICE := "a ice spirit",
      LOOT_SPIRIT_UNHOLY := "a unholy spirit",
      LOOT_EPIC := "an epic item",
      LOOT_LEGENDARY := "an legendary item",
      LOOT_MANA_CUBE := "a mana cube"
    ]
  }

  /** Item type, then class, to the sub-types it may draw (`__item_types`). */
  function ItemTypes(): map<int, map<int, seq<int>>> {
    var warriorWeapons := [WEAPON_SWORD, WEAPON_AXE, WEAPON_MACE, WEAPON_SHIELD,
                           WEAPON_GREATSWORD, WEAPON_GREATAXE, WEAPON_GREATMACE];
    var rangerWeapons := [WEAPON_BOW, WEAPON_CROSSBOW, WEAPON_BOOMERANG];
    var mageWeapons := [WEAPON_STAFF, WEAPON_WAND, WEAPON_BRACELET];
    var rogueWeapons := [WEAPON_DAGGER, WEAPON_FIST, WEAPON_LONGSWORD];
    var weapons := map[CLASS_WARRIOR := warriorWeapons, CLASS_RANGER := rangerWeapons,
                       CLASS_MAGE := mageWeapons, CLASS_ROGUE := rogueWeapons];
    var armors := map[CLASS_WARRIOR := [SUB_TYPE_ARMOR], CLASS_RANGER := [SUB_TYPE_ARMOR],
                      CLASS_MAGE := [SUB_TYPE_ARMOR], CLASS_ROGUE := [SUB_TYPE_ARMOR]];
    var gloves := map[CLASS_WARRIOR := [SUB_TYPE_GLOVES], CLASS_RANGER := [SUB_TYPE_GLOVES],
                      CLASS_MAGE := [SUB_TYPE_GLOVES], CLASS_ROGUE := [SUB_TYPE_GLOVES]];
    var boots := map[CLASS_WARRIOR := [SUB_TYPE_BOOTS], CLASS_RANGER := [SUB_TYPE_BOOTS],
                     CLASS_MAGE := [SUB_TYPE_BOOTS], CLASS_ROGUE := [SUB_TYPE_BOOTS]];
    var shoulderArmors := map[CLASS_WARRIOR := [SUB_TYPE_SHOULDER_ARMOR], CLASS_RANGER := [SUB_TYPE_SHOULDER_ARMOR],
                              CLASS_MAGE := [SUB_TYPE_SHOULDER_ARMOR], CLASS_ROGUE := [SUB_TYPE_SHOULDER_ARMOR]];
    var amulets := map[CLASS_WARRIOR := [SUB_TYPE_AMULET], CLASS_RANGER := [SUB_TYPE_AMULET],
                       CLASS_MAGE := [SUB_TYPE_AMULET], CLASS_ROGUE := [SUB_TYPE_AMULET]];
    var rings := map[CLASS_WARRIOR := [SUB_TYPE_RING], CLASS_RANGER := [SUB_TYPE_RING],
                     CLASS_MAGE := [SUB_TYPE_RING], CLASS_ROGUE := [SUB_TYPE_RING]];
    map[ITEM_TYPE_WEAPON := weapons, ITEM_TYPE_ARMOR := armors, ITEM_TYPE_GLOVES := gloves,
        ITEM_TYPE_BOOTS := boots, ITEM_TYPE_SHOULDER_ARMOR := shoulderArmors,
        ITEM_TYPE_AMULET := amulets, ITEM_TYPE_RING := rings]
  }

  /**
   * Item type, then class, then sub-type, to the materials it may draw
   * (`__item_materials`). As in the source, rogue armor is given the mage
   * armor list (silk) and the cotton list built for it is unused, and the
   * rogue ring list is keyed by the amulet sub-type, which equals the ring's.
   */
  function ItemMaterials(): map<int, map<int, map<int, seq<int>>>> {
    var warriorWeapons := map[WEAPON_SWORD := [MATERIAL_IRON], WEAPON_AXE := [MATERIAL_IRON],
                              WEAPON_MACE := [MATERIAL_IRON], WEAPON_SHIELD := [MATERIAL_IRON],
                              WEAPON_GREATSWORD := [MATERIAL_IRON], WEAPON_GREATAXE := [MATERIAL_IRON],
                              WEAPON_GREATMACE := [MATERIAL_IRON]];
    var rangerWeapons := map[WEAPON_BOW := [MATERIAL_WOOD], WEAPON_CROSSBOW := [MATERIAL_WOOD],
                             WEAPON_BOOMERANG := [MATERIAL_WOOD]];
    var mageWeapons := map[WEAPON_STAFF := [MATERIAL_WOOD], WEAPON_WAND := [MATERIAL_WOOD],
                           WEAPON_BRACELET := [MATERIAL_SILVER, MATERIAL_GOLD]];
    var rogueWeapons := map[WEAPON_DAGGER := [MATERIAL_IRON], WEAPON_FIST := [MATERIAL_IRON],
                            WEAPON_LONGSWORD := [MATERIAL_IRON]];
    var weapons := map[CLASS_WARRIOR := warriorWeapons, CLASS_RANGER := rangerWeapons,
                       CLASS_MAGE := mageWeapons, CLASS_ROGUE := rogueWeapons];
    var materialsMageArmor := [MATERIAL_SILK];
    var armors := map[CLASS_WARRIOR := map[SUB_TYPE_ARMOR := [MATERIAL_IRON]],
                      CLASS_RANGER := map[SUB_TYPE_ARMOR := [MATERIAL_LINEN]],
                      CLASS_MAGE := map[SUB_TYPE_ARMOR := materialsMageArmor],
                      CLASS_ROGUE := map[SUB_TYPE_ARMOR := materialsMageArmor]];
    var gloves := map[CLASS_WARRIOR := map[SUB_TYPE_GLOVES := [MATERIAL_IRON]],
                      CLASS_RANGER := map[SUB_TYPE_GLOVES := [MATERIAL_LINEN]],
                      CLASS_MAGE := map[SUB_TYPE_GLOVES := [MATERIAL_SILK]],
                      CLASS_ROGUE := map[SUB_TYPE_GLOVES := [MATERIAL_COTTON]]];
    var boots := map[CLASS_WARRIOR := map[SUB_TYPE_BOOTS := [MATERIAL_IRON]],
                     CLASS_RANGER := map[SUB_TYPE_BOOTS := [MATERIAL_LINEN]],
                     CLASS_MAGE := map[SUB_TYPE_BOOTS := [MATERIAL_SILK]],
                     CLASS_ROGUE := map[SUB_TYPE_BOOTS := [MATERIAL_COTTON]]];
    var shoulderArmors := map[CLASS_WARRIOR := map[SUB_TYPE_SHOULDER_ARMOR := [MATERIAL_IRON]],
                              CLASS_RANGER := map[SUB_TYPE_SHOULDER_ARMOR := [MATERIAL_LINEN]],
                              CLASS_MAGE := map[SUB_TYPE_SHOULDER_ARMOR := [MATERIAL_SILK]],
                              CLASS_ROGUE := map[SUB_TYPE_SHOULDER_ARMOR := [MATERIAL_COTTON]]];
    var precious := [MATERIAL_GOLD, MATERIAL_SILVER];
    var amulets := map[CLASS_WARRIOR := map[SUB_TYPE_AMULET := precious],
                       CLASS_RANGER := map[SUB_TYPE_AMULET := precious],
                       CLASS_MAGE := map[SUB_TYPE_AMULET := precious],
                       CLASS_ROGUE := map[SUB_TYPE_AMULET := precious]];
    var rings := map[CLASS_WARRIOR := map[SUB_TYPE_RING := precious],
                     CLASS_RANGER := map[SUB_TYPE_RING := precious],
                     CLASS_MAGE := map[SUB_TYPE_RING := precious],
                     CLASS_ROGUE := map[SUB_TYPE_AMULET := precious]];
    map[ITEM_TYPE_WEAPON := weapons, ITEM_TYPE_ARMOR := armors, ITEM_TYPE_GLOVES := gloves,
        ITEM_TYPE_BOOTS := boots, ITEM_TYPE_SHOULDER_ARMOR := shoulderArmors,
        ITEM_TYPE_AMULET := amulets, ITEM_TYPE_RING := rings]
  }

  /** The sub-types a player of `classType` may draw for `itemType`. */
  function SubTypePool(itemType: int, classType: int): seq<int>
    requires EquipmentType(itemType) && ValidClass(classType)
  {
    TablesTotal(itemType, classType);
    ItemTypes()[itemType][classType]
  }

  /** The materials a player of `classType` may draw for `itemType` and `subType`. */
  function MaterialPool(itemType: int, classType: int, subType: int): seq<int>
    requires EquipmentType(itemType) && ValidClass(classType)
    requires subType in SubTypePool(itemType, classType)
  {
    TablesTotal(itemType, classType);
    ItemMaterials()[itemType][classType][subType]
  }

  /**
   * The tables are total on what the resolver can ask of them: for every
   * equipment type and class the sub-type pool is non-empty, and every
   * sub-type in it has a non-empty material list, so neither draw in
   * `__get_sub_type` nor in `__get_material` is ever `randint(0, -1)` and no
   * lookup raises `KeyError`.
   */
  lemma TablesTotal(itemType: int, classType: int)
    requires EquipmentType(itemType) && ValidClass(classType)
    ensures itemType in ItemTypes() && classType in ItemTypes()[itemType]
    ensures |ItemTypes()[itemType][classType]| > 0
    ensures itemType in ItemMaterials() && classType in ItemMaterials()[itemType]
    ensures forall st :: st in ItemTypes()[itemType][classType] ==>
      st in ItemMaterials()[itemType][classType] && |ItemMaterials()[itemType][classType][st]| > 0
  {
    var types, materials := ItemTypes(), ItemMaterials();
    if itemType == ITEM_TYPE_WEAPON {
      if classType == CLASS_WARRIOR {
        assert types[itemType][classType] == [0, 1, 2, 13, 15, 16, 17];
      } else if classType == CLASS_RANGER {
        assert types[itemType][classType] == [6, 7, 8];
      } else if classType == CLASS_MAGE {
        assert types[itemType][classType] == [10, 11, 12];
      } else {
        assert types[itemType][classType] == [3, 4, 5];
      }
    } else {
      assert types[itemType][classType] == [0];
      assert 0 in materials[itemType][classType];
    }
  }

  /** Rogue armor draws from the mage list: silk only, never cotton. */
  lemma RogueArmorIsSilk()
    ensures SubTypePool(ITEM_TYPE_ARMOR, CLASS_ROGUE) == [SUB_TYPE_ARMOR]
    ensures MaterialPool(ITEM_TYPE_ARMOR, CLASS_ROGUE, SUB_TYPE_ARMOR) == [MATERIAL_SILK]
    ensures MaterialPool(ITEM_TYPE_ARMOR, CLASS_ROGUE, SUB_TYPE_ARMOR) == MaterialPool(ITEM_TYPE_ARMOR, CLASS_MAGE, SUB_TYPE_ARMOR)
    ensures MaterialPool(ITEM_TYPE_GLOVES, CLASS_ROGUE, SUB_TYPE_GLOVES) == [MATERIAL_COTTON]
  {
  }

  /**
   * The rogue ring list is keyed by the amulet sub-type; since that is 0, the
   * ring sub-type, a rogue ring still finds its gold/silver list.
   */
  lemma RogueRingKeyedByAmulet()
    ensures SUB_TYPE_AMULET == SUB_TYPE_RING
    ensures ItemMaterials()[ITEM_TYPE_RING][CLASS_ROGUE].Keys == {SUB_TYPE_AMULET}
    ensures MaterialPool(ITEM_TYPE_RING, CLASS_ROGUE, SUB_TYPE_RING) == [MATERIAL_GOLD, MATERIAL_SILVER]
  {
  }

  /** `__get_sub_type`: the `draw`-th entry of the (type, class) pool. */
  function GetSubType(itemType: int, classType: int, draw: int): (subType: int)
    requires EquipmentType(itemType) && ValidClass(classType)
    requires 0 <= draw <= |SubTypePool(itemType, classType)| - 1
    ensures subType in SubTypePool(itemType, classType)
  {
    SubTypePool(itemType, classType)[draw]
  }

  /** `__get_material`: the `draw`-th entry of the (type, class, sub-type) list. */
  function GetMaterial(itemType: int, subType: int, classType: int, draw: int): (material: int)
    requires EquipmentType(itemType) && ValidClass(classType)
    requires subType in SubTypePool(itemType, classType)
    requires 0 <= draw <= |MaterialPool(itemType, classType, subType)| - 1
    ensures material in MaterialPool(itemType, classType, subType)
  {
    MaterialPool(itemType, classType, subType)[draw]
  }

  /**
   * `__calc_loot`: the tier for a first draw `roll` in [0, 200] and, when
   * `roll >= 180`, a second draw `spiritRoll` in [0, 3]. The second draw's
   * chain tests `== 0` three times, so only fire (0) and unholy (1..3) come
   * out of it: the wind and ice spirits can never be rolled.
   */
  function CalcLoot(roll: int, spiritRoll: int): (tier: int)
    requires 0 <= roll <= 200
    requires roll >= 180 ==> 0 <= spiritRoll <= 3
    ensures tier in LootNames()
    ensures tier != LOOT_SPIRIT_WIND && tier != LOOT_SPIRIT_ICE
  {
    if roll < 100 then LOOT_COMMON
    else if roll < 150 then LOOT_UNCOMMON
    else if roll < 165 then LOOT_RARE
    else if roll < 170 then LOOT_EPIC
    else if roll < 176 then LOOT_LEGENDARY
    else if roll < 180 then LOOT_MANA_CUBE
    else if spiritRoll == 0 then LOOT_SPIRIT_FIRE
    else if spiritRoll == 0 then LOOT_SPIRIT_WIND
    else if spiritRoll == 0 then LOOT_SPIRIT_ICE
    else LOOT_SPIRIT_UNHOLY
  }

  /**
   * The tier bands as a table of (exclusive upper bound, tier) pairs, in
   * increasing order; a draw at or above the last bound goes to the spirits.
   */
  const TIER_BANDS: seq<(int, int)> :=
    [(100, LOOT_COMMON), (150, LOOT_UNCOMMON), (165, LOOT_RARE), (170, LOOT_EPIC),
     (176, LOOT_LEGENDARY), (180, LOOT_MANA_CUBE)]

  /** The tier of the first band whose bound lies above `roll`. */
  function BandTier(bands: seq<(int, int)>, roll: int): Option<int>
  {
    if bands == [] then None
    else if roll < bands[0].0 then Some(bands[0].1)
    else BandTier(bands[1..], roll)
  }

  /**
   * `CalcLoot` agrees with the band table: below 180 the tier is that of the
   * draw's band, and from 180 on it is fire exactly for a second draw of 0.
   */
  lemma CalcLootMatchesBands(roll: int, spiritRoll: int)
    requires 0 <= roll <= 200
    requires roll >= 180 ==> 0 <= spiritRoll <= 3
    ensures roll < 180 ==> BandTier(TIER_BANDS, roll) == Some(CalcLoot(roll, spiritRoll))
    ensures roll >= 180 ==> BandTier(TIER_BANDS, roll) == None
    ensures roll >= 180 ==> CalcLoot(roll, spiritRoll) == if spiritRoll == 0 then LOOT_SPIRIT_FIRE else LOOT_SPIRIT_UNHOLY
  {
    var b0 := TIER_BANDS;
    var b1 := b0[1..];
    var b2 := b1[1..];
    var b3 := b2[1..];
    var b4 := b3[1..];
    var b5 := b4[1..];
    assert b0[0] == (100, LOOT_COMMON) && b1[0] == (150, LOOT_UNCOMMON) && b2[0] == (165, LOOT_RARE);
    assert b3[0] == (170, LOOT_EPIC) && b4[0] == (176, LOOT_LEGENDARY) && b5 == [(180, LOOT_MANA_CUBE)];
    assert BandTier(b0, roll) == if roll < 100 then Some(LOOT_COMMON) else BandTier(b1, roll);
    assert BandTier(b1, roll) == if roll < 150 then Some(LOOT_UNCOMMON) else BandTier(b2, roll);
    assert BandTier(b2, roll) == if roll < 165 then Some(LOOT_RARE) else BandTier(b3, roll);
    assert BandTier(b3, roll) == if roll < 170 then Some(LOOT_EPIC) else BandTier(b4, roll);
    assert BandTier(b4, roll) == if roll < 176 then Some(LOOT_LEGENDARY) else BandTier(b5, roll);
    assert BandTier(b5, roll) == if roll < 180 then Some(LOOT_MANA_CUBE) else BandTier(b5[1..], roll);
    assert BandTier(b5[1..], roll) == None;
  }

  /** Every tier other than wind and ice is reached by some pair of draws. */
  lemma CalcLootReaches(tier: int)
    requires tier in LootNames() && tier != LOOT_SPIRIT_WIND && tier != LOOT_SPIRIT_ICE
    ensures exists roll, spiritRoll :: 0 <= roll <= 200 && 0 <= spiritRoll <= 3 && CalcLoot(roll, spiritRoll) == tier
  {
    var draws :=
      if tier == LOOT_COMMON then (0, 0)
      else if tier == LOOT_UNCOMMON then (100, 0)
      else if tier == LOOT_RARE then (150, 0)
      else if tier == LOOT_EPIC then (165, 0)
      else if tier == LOOT_LEGENDARY then (170, 0)
      else if tier == LOOT_MANA_CUBE then (176, 0)
      else if tier == LOOT_SPIRIT_FIRE then (180, 0)
      else (180, 1);
    assert CalcLoot(draws.0, draws.1) == tier;
  }

  /** The preview texts tell the tiers apart. */
  lemma LootNamesDistinct(t1: int, t2: int)
    requires t1 in LootNames() && t2 in LootNames() && t1 != t2
    ensures LootNames()[t1] != LootNames()[t2]
  {
  }

  /** The text of `pre_game_message` for a reward name. */
  function Preview(name: string): string {
    "The winners will receive " + name + " each!"
  }

  /** Different tiers have different previews. */
  lemma PreviewsDistinct()
    ensures forall t1, t2 :: t1 in LootNames() && t2 in LootNames() && Preview(LootNames()[t1]) == Preview(LootNames()[t2]) ==> t1 == t2
  {
    forall t1, t2 | t1 in LootNames() && t2 in LootNames() && Preview(LootNames()[t1]) == Preview(LootNames()[t2])
      ensures t1 == t2
    {
      var n1, n2 := LootNames()[t1], LootNames()[t2];
      var p1, p2 := Preview(n1), Preview(n2);
      assert |n1| == |n2|;
      assert n1 == p1[25..25 + |n1|] && n2 == p2[25..25 + |n2|];
      if t1 != t2 {
        LootNamesDistinct(t1, t2);
      }
    }
  }

  /** One upgrade slot as `ItemUpgrade()` creates it. */
  datatype ItemUpgrade = ItemUpgrade(x: int, y: int, z: int, material: int, level: int)

  const BLANK_UPGRADE := ItemUpgrade(0, 0, 0, 0, 0)

  /** The fields of `ItemData` the resolver sets. */
  datatype Item = Item(
    itemType: int, subType: int, modifier: int, minusModifier: int, rarity: int,
    material: int, flags: int, level: int, upgrades: seq<ItemUpgrade>, upgradeCount: int)

  /** A fresh `ItemData()` before the resolver sets its fields. */
  const BLANK_ITEM := Item(0, 0, 0, 0, 0, 0, 0, 0, [], 0)

  /** The four draws item construction makes for a tier 0..4 item. */
  datatype ItemDraws = ItemDraws(itemType: int, subType: int, modifier: int, material: int)

  /** Each draw lies in the range `randint` is asked for. */
  predicate DrawsFit(d: ItemDraws, classType: int) {
    && EquipmentType(d.itemType)
    && ValidClass(classType)
    && 0 <= d.subType <= |SubTypePool(d.itemType, classType)| - 1
    && 1 <= d.modifier <= 10
    && 0 <= d.material <= |MaterialPool(d.itemType, classType, SubTypePool(d.itemType, classType)[d.subType])| - 1
  }

  /** The draws a player's reward needs: only tier 0..4 items draw anything. */
  predicate DrawsFor(tier: int, player: Player, d: ItemDraws) {
    LOOT_COMMON <= tier <= LOOT_LEGENDARY ==> DrawsFit(d, player.classType)
  }

  /** The reward item `__get_loot_item` builds for `player` when `tier` is pending. */
  function LootItem(tier: int, player: Player, d: ItemDraws): (item: Item)
    requires tier in LootNames() && DrawsFor(tier, player, d)
    ensures |item.upgrades| == UPGRADE_SLOTS && forall u :: u in item.upgrades ==> u == BLANK_UPGRADE
    ensures item.upgradeCount == 0 && item.flags == 0 && item.minusModifier == 0
    ensures tier <= LOOT_LEGENDARY ==>
      && EquipmentType(item.itemType)
      && 1 <= item.modifier <= 10
      && item.rarity == tier
      && item.level == player.level
      && item.subType in SubTypePool(item.itemType, player.classType)
      && item.material in MaterialPool(item.itemType, player.classType, item.subType)
    ensures LOOT_SPIRIT_FIRE <= tier <= LOOT_SPIRIT_WIND ==>
      && item.itemType == ITEM_TYPE_SPIRIT && item.subType == SUB_TYPE_SPIRIT
      && item.modifier == 0 && item.rarity == ITEM_RARITY_RARE
      && 128 <= item.material <= 131 && item.material == 123 + tier
      && item.level == player.level
    ensures tier == LOOT_MANA_CUBE ==>
      item == BLANK_ITEM.(itemType := ITEM_TYPE_MANA_CUBE, upgrades := item.upgrades)
  {
    var upgrades := seq(UPGRADE_SLOTS, _ => BLANK_UPGRADE);
    if tier <= LOOT_LEGENDARY then
      var subType := GetSubType(d.itemType, player.classType, d.subType);
      Item(d.itemType, subType, d.modifier, 0, tier,
           GetMaterial(d.itemType, subType, player.classType, d.material), 0, player.level, upgrades, 0)
    else if tier <= LOOT_SPIRIT_WIND then
      Item(ITEM_TYPE_SPIRIT, SUB_TYPE_SPIRIT, 0, 0, ITEM_RARITY_RARE, 123 + tier, 0, player.level, upgrades, 0)
    else
      Item(ITEM_TYPE_MANA_CUBE, 0, 0, 0, 0, 0, 0, 0, upgrades, 0)
  }

  /** One `player.give_item(item)` call. */
  datatype Gift = Gift(player: Player, item: Item)

  /** The loot manager: whether loot is given, and the tier pending for the match. */
  class LootManager {
    var pending: Option<int>
    var lootEnabled: bool

    /** A pending tier is always one of the ten tiers. */
    ghost predicate Valid()
      reads this
    {
      pending.Some? ==> pending.value in LootNames()
    }

    constructor ()
      ensures Valid() && pending == None && lootEnabled
    {
      pending := None;
      lootEnabled := true;
    }

    /**
     * `new_match`: rolls a tier only when none is pending, so calling it again
     * before `GiveLoot` keeps the tier; afterwards a tier is always pending.
     */
    method NewMatch(roll: int, spiritRoll: int)
      requires Valid()
      requires 0 <= roll <= 200 && (roll >= 180 ==> 0 <= spiritRoll <= 3)
      modifies this
      ensures Valid() && pending.Some?
      ensures pending == if old(pending).Some? then old(pending) else Some(CalcLoot(roll, spiritRoll))
      ensures lootEnabled == old(lootEnabled)
    {
      if pending == None {
        pending := Some(CalcLoot(roll, spiritRoll));
      }
    }

    /**
     * `pre_game_message`: the preview of the pending tier's reward. It is
     * defined whenever `NewMatch` has run, and it names the pending tier and
     * no other.
     */
    function PreGameMessage(): (msg: string)
      reads this
      requires Valid() && pending.Some?
      ensures forall t :: t in LootNames() ==> (msg == Preview(LootNames()[t]) <==> t == pending.value)
    {
      PreviewsDistinct();
      Preview(LootNames()[pending.value])
    }

    /** `__get_loot_item`: builds the slots one by one, then the tier's fields. */
    method GetLootItem(player: Player, d: ItemDraws) returns (item: Item)
      requires Valid() && pending.Some? && DrawsFor(pending.value, player, d)
      ensures item == LootItem(pending.value, player, d)
    {
      var l := pending.value;
      item := BLANK_ITEM.(minusModifier := 0, flags := 0, upgrades := []);
      var i := 0;
      while i < UPGRADE_SLOTS
        invariant 0 <= i <= UPGRADE_SLOTS
        invariant item == BLANK_ITEM.(upgrades := item.upgrades)
        invariant item.upgrades == seq(i, _ => BLANK_UPGRADE)
      {
        item := item.(upgrades := item.upgrades + [BLANK_UPGRADE]);
        i := i + 1;
      }
      item := item.(upgradeCount := 0);
      if LOOT_COMMON <= l <= LOOT_LEGENDARY {
        item := item.(itemType := d.itemType);
        item := item.(subType := GetSubType(item.itemType, player.classType, d.subType));
        item := item.(modifier := d.modifier);
        item := item.(rarity := l);
        item := item.(material := GetMaterial(item.itemType, item.subType, player.classType, d.material));
        item := item.(level := player.level);
      } else if LOOT_SPIRIT_FIRE <= l <= LOOT_SPIRIT_WIND {
        item := item.(itemType := ITEM_TYPE_SPIRIT, subType := SUB_TYPE_SPIRIT, modifier := 0);
        item := item.(rarity := ITEM_RARITY_RARE, material := 123 + l, level := player.level);
      } else {
        item := item.(itemType := ITEM_TYPE_MANA_CUBE, subType := 0, modifier := 0);
        item := item.(rarity := 0, material := 0, level := 0);
      }
    }

    /**
     * `give_loot`: when loot is enabled, one item per team member, in team
     * order; none when it is disabled. Either way no tier is pending
     * afterwards, so the next `NewMatch` rolls afresh.
     *
     * With loot enabled and a non-empty team the source compares the pending
     * tier with integers, which raises `TypeError` when none is pending; the
     * caller must have run `NewMatch` first.
     */
    method GiveLoot(team: seq<Player>, draws: seq<ItemDraws>) returns (gifts: seq<Gift>)
      requires Valid()
      requires lootEnabled && |team| > 0 ==> pending.Some?
      requires lootEnabled && |team| > 0 ==>
        |draws| == |team| && forall i :: 0 <= i < |team| ==> DrawsFor(pending.value, team[i], draws[i])
      modifies this
      ensures Valid() && pending == None && lootEnabled == old(lootEnabled)
      ensures !lootEnabled ==> gifts == []
      ensures lootEnabled ==> |gifts| == |team|
      ensures lootEnabled ==> forall i :: 0 <= i < |team| ==>
        gifts[i] == Gift(team[i], LootItem(old(pending).value, team[i], draws[i]))
    {
      gifts := [];
      if lootEnabled {
        var i := 0;
        while i < |team|
          invariant 0 <= i <= |team| && |gifts| == i
          invariant pending == old(pending) && lootEnabled == old(lootEnabled)
          invariant forall j :: 0 <= j < i ==> gifts[j] == Gift(team[j], LootItem(pending.value, team[j], draws[j]))
        {
          var item := GetLootItem(team[i], draws[i]);
          gifts := gifts + [Gift(team[i], item)];
          i := i + 1;
        }
      }
      pending := None;
    }
  }
}
