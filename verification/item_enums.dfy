/** Item identifiers and the range arithmetic built on them: item categories,
    random-treasure placeholders, spellbook blocks per school and mastery,
    enchanting potions, item types and paperdoll ring slots. Only range
    boundaries are modelled; the individual catalogue entries are opaque. */
module ItemEnums {
  import opened Common
  import SpellEnums

  /** `ItemId` is stored in an `int32_t`. */
  type ItemId = x: int | -0x8000_0000 <= x < 0x8000_0000

  const ITEM_NULL: ItemId := 0

  const ITEM_RANDOM_LEVEL_1: ItemId := -1
  const ITEM_RANDOM_LEVEL_7: ItemId := -7
  const ITEM_FIRST_RANDOM: ItemId := ITEM_RANDOM_LEVEL_7
  const ITEM_LAST_RANDOM: ItemId := ITEM_RANDOM_LEVEL_1

  const ITEM_FIRST_VALID: ItemId := 1
  const ITEM_LAST_VALID: ItemId := 799
  const ITEM_FIRST_REGULAR: ItemId := 1
  const ITEM_LAST_REGULAR: ItemId := 134
  const ITEM_FIRST_WAND: ItemId := 135
  const ITEM_LAST_WAND: ItemId := 159
  const ITEM_GEM_BLUE_QUARTZ: ItemId := 186
  const ITEM_GEM_RUBY: ItemId := 196
  const ITEM_FIRST_GOLD: ItemId := 197
  const ITEM_LAST_GOLD: ItemId := 199
  const ITEM_FIRST_REAGENT: ItemId := 200
  const ITEM_LAST_REAGENT: ItemId := 219
  const ITEM_REAGENT_WIDOWSWEEP_BERRIES: ItemId := 200
  const ITEM_REAGENT_PHIRNA_ROOT: ItemId := 205
  const ITEM_REAGENT_POPPYSNAPS: ItemId := 210
  const ITEM_POTION_BOTTLE: ItemId := 220
  const ITEM_FIRST_POTION: ItemId := 221
  const ITEM_LAST_POTION: ItemId := 271
  const ITEM_POTION_FLAMING: ItemId := 246
  const ITEM_POTION_FREEZING: ItemId := 247
  const ITEM_POTION_NOXIOUS: ItemId := 248
  const ITEM_POTION_SHOCKING: ItemId := 249
  const ITEM_POTION_SWIFT: ItemId := 250
  const ITEM_POTION_SLAYING: ItemId := 263
  const ITEM_FIRST_SPELL_SCROLL: ItemId := 300
  const ITEM_LAST_SPELL_SCROLL: ItemId := 398
  const ITEM_FIRST_SPELLBOOK: ItemId := 400
  const ITEM_LAST_SPELLBOOK: ItemId := 498
  const ITEM_FIRST_SPAWNABLE: ItemId := 1
  const ITEM_LAST_SPAWNABLE: ItemId := 499
  const ITEM_FIRST_ARTIFACT: ItemId := 500
  const ITEM_LAST_ARTIFACT: ItemId := 552
  const ITEM_FIRST_SPAWNABLE_ARTIFACT: ItemId := 500
  const ITEM_LAST_SPAWNABLE_ARTIFACT: ItemId := 528
  const ITEM_FIRST_QUEST: ItemId := 600
  const ITEM_LAST_QUEST: ItemId := 699
  const ITEM_FIRST_MESSAGE_SCROLL: ItemId := 700
  const ITEM_LAST_MESSAGE_SCROLL: ItemId := 781
  const ITEM_FIRST_RECIPE: ItemId := 740
  const ITEM_LAST_RECIPE: ItemId := 771

  // ---------------------------------------------------------------------
  // Treasure levels

  /** `ItemTreasureLevel` is stored in an `int8_t`; 0 is the invalid level,
      1..6 are random levels and 7 is the guaranteed artifact. */
  type TreasureLevel = x: int | -0x80 <= x < 0x80

  const ITEM_TREASURE_LEVEL_INVALID: TreasureLevel := 0
  const ITEM_TREASURE_LEVEL_FIRST_RANDOM: TreasureLevel := 1
  const ITEM_TREASURE_LEVEL_LAST_RANDOM: TreasureLevel := 6
  const ITEM_TREASURE_LEVEL_7: TreasureLevel := 7

  predicate IsRandomTreasureLevel(level: TreasureLevel) {
    ITEM_TREASURE_LEVEL_FIRST_RANDOM <= level <= ITEM_TREASURE_LEVEL_LAST_RANDOM
  }

  /** Six random levels; neither the invalid level nor the guaranteed
      artifact level is random. */
  lemma RandomTreasureLevels()
    ensures (set l: int | -0x80 <= l < 0x80 && IsRandomTreasureLevel(l)) == {1, 2, 3, 4, 5, 6}
    ensures !IsRandomTreasureLevel(ITEM_TREASURE_LEVEL_INVALID)
    ensures !IsRandomTreasureLevel(ITEM_TREASURE_LEVEL_7)
  {
  }

  // ---------------------------------------------------------------------
  // Item id categories

  predicate IsRegular(t: ItemId) { ITEM_FIRST_REGULAR <= t <= ITEM_LAST_REGULAR }
  predicate IsRecipe(t: ItemId) { ITEM_FIRST_RECIPE <= t <= ITEM_LAST_RECIPE }
  predicate IsWand(t: ItemId) { ITEM_FIRST_WAND <= t <= ITEM_LAST_WAND }
  predicate IsPotion(t: ItemId) { ITEM_FIRST_POTION <= t <= ITEM_LAST_POTION }
  predicate IsReagent(t: ItemId) { ITEM_FIRST_REAGENT <= t <= ITEM_LAST_REAGENT }
  predicate IsMessageScroll(t: ItemId) { ITEM_FIRST_MESSAGE_SCROLL <= t <= ITEM_LAST_MESSAGE_SCROLL }
  predicate IsArtifact(t: ItemId) { ITEM_FIRST_ARTIFACT <= t <= ITEM_LAST_ARTIFACT }
  predicate IsSpawnableArtifact(t: ItemId) { ITEM_FIRST_SPAWNABLE_ARTIFACT <= t <= ITEM_LAST_SPAWNABLE_ARTIFACT }
  predicate IsGold(t: ItemId) { ITEM_FIRST_GOLD <= t <= ITEM_LAST_GOLD }
  predicate IsRandomItem(t: ItemId) { ITEM_FIRST_RANDOM <= t <= ITEM_LAST_RANDOM }
  predicate IsSpellbook(t: ItemId) { ITEM_FIRST_SPELLBOOK <= t <= ITEM_LAST_SPELLBOOK }
  predicate IsQuestItem(t: ItemId) { ITEM_FIRST_QUEST <= t <= ITEM_LAST_QUEST }

  /** The five elemental/swift potions and the slaying potion. */
  predicate IsEnchantingPotion(t: ItemId) {
    (ITEM_POTION_FLAMING <= t <= ITEM_POTION_SWIFT) || t == ITEM_POTION_SLAYING
  }

  /** Name of the one category predicate that holds, used to state that
      the top-level categories never overlap. */
  datatype Category = Regular | Wand | Gold | Reagent | Potion | Spellbook
                    | Artifact | Quest | MessageScroll | RandomItem

  predicate InCategory(c: Category, t: ItemId) {
    match c
    case Regular => IsRegular(t)
    case Wand => IsWand(t)
    case Gold => IsGold(t)
    case Reagent => IsReagent(t)
    case Potion => IsPotion(t)
    case Spellbook => IsSpellbook(t)
    case Artifact => IsArtifact(t)
    case Quest => IsQuestItem(t)
    case MessageScroll => IsMessageScroll(t)
    case RandomItem => IsRandomItem(t)
  }

  /** No item id lies in two of the top-level categories. */
  lemma CategoriesDisjoint(c1: Category, c2: Category, t: ItemId)
    requires InCategory(c1, t) && InCategory(c2, t)
    ensures c1 == c2
  {
  }

  /** The narrower ranges nest inside the wider ones. */
  lemma CategoryNesting(t: ItemId)
    ensures IsSpawnableArtifact(t) ==> IsArtifact(t)
    ensures IsRecipe(t) ==> IsMessageScroll(t)
    ensures IsEnchantingPotion(t) ==> IsPotion(t)
    ensures IsRegular(t) ==> !IsWand(t)
    ensures IsRandomItem(t) ==> t < ITEM_FIRST_VALID
  {
  }

  /** Everything in the random-loot range is a regular item, a wand, gold,
      a reagent, a potion, a spell scroll, a spellbook, a gem, the empty
      bottle, or one of the unused ids `ITEM_160`..`ITEM_185`,
      `ITEM_272`..`ITEM_299`, `ITEM_399` and `ITEM_499`; artifacts, quest
      items and message scrolls never are. */
  lemma SpawnableRange(t: ItemId)
    ensures AllSpawnableItems().Contains(t) && !IsRegular(t) && !IsWand(t) && !IsGold(t)
              && !IsReagent(t) && !IsPotion(t) && !IsSpellbook(t)
              && !(ITEM_FIRST_SPELL_SCROLL <= t <= ITEM_LAST_SPELL_SCROLL)
            ==> (ITEM_GEM_BLUE_QUARTZ <= t <= ITEM_GEM_RUBY) || t == ITEM_POTION_BOTTLE
                || (160 <= t <= 185) || (272 <= t <= 299) || t == 399 || t == 499
    ensures IsArtifact(t) || IsQuestItem(t) || IsMessageScroll(t) ==> !AllSpawnableItems().Contains(t)
  {
  }

  // ---------------------------------------------------------------------
  // Segments

  function AllRecipeScrolls(): (r: Segment)
    ensures forall t: ItemId :: r.Contains(t) <==> IsRecipe(t)
    ensures r.Within(Segment(ITEM_FIRST_MESSAGE_SCROLL, ITEM_LAST_MESSAGE_SCROLL))
  {
    Segment(ITEM_FIRST_RECIPE, ITEM_LAST_RECIPE)
  }

  function AllSpawnableItems(): (r: Segment)
    ensures forall t: ItemId ::
              (IsRegular(t) || IsWand(t) || IsGold(t) || IsReagent(t) || IsPotion(t) || IsSpellbook(t))
              ==> r.Contains(t)
    ensures forall t: ItemId :: r.Contains(t) ==> !IsArtifact(t) && !IsRandomItem(t) && t != ITEM_NULL
  {
    Segment(ITEM_FIRST_SPAWNABLE, ITEM_LAST_SPAWNABLE)
  }

  function AllSpawnableArtifacts(): (r: Segment)
    ensures forall t: ItemId :: r.Contains(t) <==> IsSpawnableArtifact(t)
    ensures r.Within(Segment(ITEM_FIRST_ARTIFACT, ITEM_LAST_ARTIFACT))
  {
    Segment(ITEM_FIRST_SPAWNABLE_ARTIFACT, ITEM_LAST_SPAWNABLE_ARTIFACT)
  }

  function AllLevel1Reagents(): (r: seq<ItemId>)
    ensures |r| == 3
    ensures forall i :: 0 <= i < |r| ==> IsReagent(r[i])
    ensures forall i, j :: 0 <= i < j < |r| ==> r[i] < r[j]
  {
    [ITEM_REAGENT_WIDOWSWEEP_BERRIES, ITEM_REAGENT_PHIRNA_ROOT, ITEM_REAGENT_POPPYSNAPS]
  }

  // ---------------------------------------------------------------------
  // Random items

  /** A random-item placeholder `ITEM_RANDOM_LEVEL_n` (stored as `-n`) stands
      for treasure level `n`. */
  function RandomItemTreasureLevel(t: ItemId): (r: TreasureLevel)
    requires IsRandomItem(t)
    ensures ITEM_TREASURE_LEVEL_FIRST_RANDOM <= r <= ITEM_TREASURE_LEVEL_7
    ensures IsRandomTreasureLevel(r) <==> t != ITEM_RANDOM_LEVEL_7
    ensures t == ITEM_RANDOM_LEVEL_1 ==> r == ITEM_TREASURE_LEVEL_FIRST_RANDOM
  {
    -t
  }

  /** Different placeholders stand for different levels. */
  lemma RandomItemTreasureLevelInjective(t1: ItemId, t2: ItemId)
    requires IsRandomItem(t1) && IsRandomItem(t2)
    requires RandomItemTreasureLevel(t1) == RandomItemTreasureLevel(t2)
    ensures t1 == t2
  {
  }

  /** Every level from 1 to 7 has its placeholder. */
  lemma RandomItemTreasureLevelOnto(level: TreasureLevel)
    requires ITEM_TREASURE_LEVEL_FIRST_RANDOM <= level <= ITEM_TREASURE_LEVEL_7
    ensures IsRandomItem(-level) && RandomItemTreasureLevel(-level) == level
  {
  }

  // ---------------------------------------------------------------------
  // Spellbooks

  /** `CharacterSkillMastery`; `MasteryNone` stands for every enumerator
      other than the four ranks. */
  datatype Mastery = MasteryNone | Novice | Expert | Master | Grandmaster {
    function Rank(): (r: nat)
      ensures r == 0 <==> MasteryNone?
    {
      match this
      case MasteryNone => 0
      case Novice => 1
      case Expert => 2
      case Master => 3
      case Grandmaster => 4
    }
  }

  /** How many spells of a school a given mastery can learn. */
  function SpellCountForMastery(m: Mastery): (r: Option<int>)
    ensures r.None? <==> m.MasteryNone?
    ensures r.Some? ==> 0 < r.value <= SpellEnums.SPELLS_PER_SCHOOL
    ensures m.Novice? ==> r == Some(4)
    ensures m.Expert? ==> r == Some(7)
    ensures m.Master? ==> r == Some(10)
    ensures m.Grandmaster? ==> r == Some(SpellEnums.SPELLS_PER_SCHOOL)
  {
    match m
    case Novice => Some(4)
    case Expert => Some(7)
    case Master => Some(10)
    case Grandmaster => Some(11)
    case MasteryNone => None
  }

  /** A higher mastery always unlocks strictly more spells. */
  lemma SpellCountMonotone(m1: Mastery, m2: Mastery)
    requires !m1.MasteryNone? && m1.Rank() < m2.Rank()
    ensures SpellCountForMastery(m1).value < SpellCountForMastery(m2).value
  {
  }

  /** The spellbooks of `school` that `m` can learn; `None` where the mastery
      lookup asserts. The school index is shared with `SpellEnums.School`;
      the mastery defaults to grandmaster, the whole school. */
  function SpellbooksForSchool(school: SpellEnums.School, m: Mastery := Grandmaster): (r: Option<Segment>)
    ensures r.None? <==> m.MasteryNone?
    ensures r.Some? ==> r.value.first == ITEM_FIRST_SPELLBOOK + SpellEnums.SPELLS_PER_SCHOOL * school
    ensures r.Some? ==> r.value.Size() == SpellCountForMastery(m).value
    ensures r.Some? ==> r.value.Within(Segment(ITEM_FIRST_SPELLBOOK, ITEM_LAST_SPELLBOOK))
  {
    match SpellCountForMastery(m)
    case None => None
    case Some(numSpells) =>
      var firstSpellInSchool := ITEM_FIRST_SPELLBOOK + SpellEnums.SPELLS_PER_SCHOOL * school;
      Some(Segment(firstSpellInSchool, firstSpellInSchool + numSpells - 1))
  }

  /** Spellbook `b` teaches spell `b - 399`: every book in the block of a
      school and mastery lines up with a regular spell of that same school
      whose index in the school is below the mastery's spell count. */
  lemma SpellbooksMatchSchoolSpells(school: SpellEnums.School, m: Mastery, b: ItemId)
    requires SpellbooksForSchool(school, m).Some?
    requires SpellbooksForSchool(school, m).value.Contains(b)
    ensures IsSpellbook(b)
    ensures SpellEnums.IsRegularSpell(b - ITEM_FIRST_SPELLBOOK + 1)
    ensures SpellEnums.SpellSchool(b - ITEM_FIRST_SPELLBOOK + 1) == school
    ensures SpellEnums.SpellIndexInSchool(b - ITEM_FIRST_SPELLBOOK + 1) < SpellCountForMastery(m).value
  {
  }

  /** With the default grandmaster mastery the block is the whole school,
      and the nine school blocks together cover every spellbook. */
  lemma GrandmasterSpellbooksCoverAll(b: ItemId)
    requires IsSpellbook(b)
    ensures var school := SpellEnums.SpellSchool(b - ITEM_FIRST_SPELLBOOK + 1);
            SpellbooksForSchool(school).value.Contains(b)
  {
  }

  // ---------------------------------------------------------------------
  // Enchanting potions

  /** `ItemEnchantment` values named by the potion table; 1..72 are valid. */
  const ITEM_ENCHANTMENT_NULL: int := 0
  const ITEM_ENCHANTMENT_OF_FROST: int := 5
  const ITEM_ENCHANTMENT_OF_SPARKS: int := 7
  const ITEM_ENCHANTMENT_OF_FLAME: int := 11
  const ITEM_ENCHANTMENT_OF_POISON: int := 13
  const ITEM_ENCHANTMENT_DRAGON_SLAYING: int := 40
  const ITEM_ENCHANTMENT_SWIFT: int := 59
  const ITEM_ENCHANTMENT_FIRST_VALID: int := 1
  const ITEM_ENCHANTMENT_LAST_VALID: int := 72

  /** The enchantment an enchanting potion applies; `None` where the engine
      asserts (any other item). */
  function PotionEnchantment(p: ItemId): (r: Option<int>)
    ensures r.Some? <==> IsEnchantingPotion(p)
    ensures r.Some? ==> ITEM_ENCHANTMENT_FIRST_VALID <= r.value <= ITEM_ENCHANTMENT_LAST_VALID
  {
    if !IsEnchantingPotion(p) then None
    else if p == ITEM_POTION_SLAYING then Some(ITEM_ENCHANTMENT_DRAGON_SLAYING)
    else if p == ITEM_POTION_FLAMING then Some(ITEM_ENCHANTMENT_OF_FLAME)
    else if p == ITEM_POTION_FREEZING then Some(ITEM_ENCHANTMENT_OF_FROST)
    else if p == ITEM_POTION_NOXIOUS then Some(ITEM_ENCHANTMENT_OF_POISON)
    else if p == ITEM_POTION_SHOCKING then Some(ITEM_ENCHANTMENT_OF_SPARKS)
    else Some(ITEM_ENCHANTMENT_SWIFT)
  }

  /** Different enchanting potions give different enchantments. */
  lemma PotionEnchantmentInjective(p1: ItemId, p2: ItemId)
    requires IsEnchantingPotion(p1) && IsEnchantingPotion(p2)
    requires PotionEnchantment(p1) == PotionEnchantment(p2)
    ensures p1 == p2
  {
  }

  /** The enchanting potions are exactly these six ids, and the table maps them. */
  lemma PotionEnchantmentTable()
    ensures (set p: int | ITEM_FIRST_POTION <= p <= ITEM_LAST_POTION && IsEnchantingPotion(p))
         == {246, 247, 248, 249, 250, 263}
    ensures PotionEnchantment(ITEM_POTION_SLAYING) == Some(ITEM_ENCHANTMENT_DRAGON_SLAYING)
    ensures PotionEnchantment(ITEM_POTION_FLAMING) == Some(ITEM_ENCHANTMENT_OF_FLAME)
    ensures PotionEnchantment(ITEM_POTION_FREEZING) == Some(ITEM_ENCHANTMENT_OF_FROST)
    ensures PotionEnchantment(ITEM_POTION_NOXIOUS) == Some(ITEM_ENCHANTMENT_OF_POISON)
    ensures PotionEnchantment(ITEM_POTION_SHOCKING) == Some(ITEM_ENCHANTMENT_OF_SPARKS)
    ensures PotionEnchantment(ITEM_POTION_SWIFT) == Some(ITEM_ENCHANTMENT_SWIFT)
  {
  }

  // ---------------------------------------------------------------------
  // Item types

  /** `ItemType` is stored in a `uint8_t`. */
  type ItemType = x: int | 0 <= x < 0x100

  const ITEM_TYPE_SINGLE_HANDED: ItemType := 0
  const ITEM_TYPE_BOW: ItemType := 2
  const ITEM_TYPE_ARMOUR: ItemType := 3
  const ITEM_TYPE_BOOTS: ItemType := 9
  const ITEM_TYPE_RING: ItemType := 10
  const ITEM_TYPE_AMULET: ItemType := 11
  const ITEM_TYPE_WAND: ItemType := 12

  /** Shields, armour, rings, amulets and the like. */
  predicate IsPassiveEquipment(t: ItemType) { ITEM_TYPE_ARMOUR <= t <= ITEM_TYPE_AMULET }
  /** Passive equipment other than rings and amulets. */
  predicate IsArmor(t: ItemType) { ITEM_TYPE_ARMOUR <= t <= ITEM_TYPE_BOOTS }
  /** Single-handed, two-handed and bows; wands are not weapons. */
  predicate IsWeapon(t: ItemType) { ITEM_TYPE_SINGLE_HANDED <= t <= ITEM_TYPE_BOW }

  lemma ItemTypeClasses(t: ItemType)
    ensures IsArmor(t) ==> IsPassiveEquipment(t)
    ensures !(IsWeapon(t) && IsPassiveEquipment(t))
    ensures IsPassiveEquipment(t) && !IsArmor(t) <==> t == ITEM_TYPE_RING || t == ITEM_TYPE_AMULET
    ensures !IsWeapon(ITEM_TYPE_WAND) && !IsPassiveEquipment(ITEM_TYPE_WAND)
  {
  }

  // ---------------------------------------------------------------------
  // Ring slots

  /** `ItemSlot` is stored in a `uint8_t`. */
  type ItemSlot = x: int | 0 <= x < 0x100

  const ITEM_SLOT_FIRST_VALID: ItemSlot := 1
  const ITEM_SLOT_RING1: ItemSlot := 11
  const ITEM_SLOT_RING6: ItemSlot := 16
  const ITEM_SLOT_LAST_VALID: ItemSlot := 16

  function AllRingSlots(): (r: Segment)
    ensures r.Size() == 6
    ensures r.Within(AllItemSlots())
  {
    Segment(ITEM_SLOT_RING1, ITEM_SLOT_RING6)
  }

  function AllItemSlots(): (r: Segment)
    ensures forall s: ItemSlot :: r.Contains(s) <==> s != 0 && s <= ITEM_SLOT_LAST_VALID
  {
    Segment(ITEM_SLOT_FIRST_VALID, ITEM_SLOT_LAST_VALID)
  }

  /** The paperdoll slot of the `index`-th ring. */
  function RingSlot(index: int): (r: ItemSlot)
    requires 0 <= index <= 5
    ensures AllRingSlots().Contains(r)
    ensures index == 0 ==> r == ITEM_SLOT_RING1
    ensures index == 5 ==> r == ITEM_SLOT_RING6
  {
    ITEM_SLOT_RING1 + index
  }

  /** `RingSlot` is a bijection from 0..5 onto the ring slots. */
  lemma RingSlotBijective()
    ensures forall i, j :: 0 <= i <= 5 && 0 <= j <= 5 && RingSlot(i) == RingSlot(j) ==> i == j
    ensures forall s: ItemSlot :: AllRingSlots().Contains(s) ==> RingSlot(s - ITEM_SLOT_RING1) == s
  {
  }
}
