/** Spell identifiers, spell schools and the skill each spell is cast with.
    A spell id is the underlying `uint8_t` of `SPELL_TYPE`; the nine schools
    each own a block of eleven consecutive regular spells, in enum order. */
module SpellEnums {
  import opened Common

  /** `SPELL_TYPE` is stored in a `uint8_t`. */
  type SpellId = x: int | 0 <= x < 0x100

  const SPELL_NONE: SpellId := 0
  const SPELL_FIRE_TORCH_LIGHT: SpellId := 1
  const SPELL_FIRE_FIRE_AURA: SpellId := 4
  const SPELL_AIR_WIZARD_EYE: SpellId := 12
  const SPELL_WATER_AWAKEN: SpellId := 23
  const SPELL_WATER_RECHARGE_ITEM: SpellId := 28
  const SPELL_WATER_ENCHANT_ITEM: SpellId := 30
  const SPELL_EARTH_STUN: SpellId := 34
  const SPELL_SPIRIT_DETECT_LIFE: SpellId := 45
  const SPELL_MIND_REMOVE_FEAR: SpellId := 56
  const SPELL_BODY_CURE_WEAKNESS: SpellId := 67
  const SPELL_LIGHT_LIGHT_BOLT: SpellId := 78
  const SPELL_DARK_REANIMATE: SpellId := 89
  const SPELL_DARK_VAMPIRIC_WEAPON: SpellId := 91
  const SPELL_DARK_SOULDRINKER: SpellId := 99
  const SPELL_BOW_ARROW: SpellId := 100
  const SPELL_101: SpellId := 101
  const SPELL_LASER_PROJECTILE: SpellId := 102

  const SPELL_FIRST_REGULAR: SpellId := SPELL_FIRE_TORCH_LIGHT
  const SPELL_LAST_REGULAR: SpellId := SPELL_DARK_SOULDRINKER

  /** Each school owns this many consecutive spell ids. */
  const SPELLS_PER_SCHOOL: int := 11

  /** `SPELL_SCHOOL_FIRE` (0) through `SPELL_SCHOOL_DARK` (8). */
  type School = s: int | 0 <= s <= 8

  const SCHOOL_FIRE: School := 0
  const SCHOOL_AIR: School := 1
  const SCHOOL_WATER: School := 2
  const SCHOOL_EARTH: School := 3
  const SCHOOL_SPIRIT: School := 4
  const SCHOOL_MIND: School := 5
  const SCHOOL_BODY: School := 6
  const SCHOOL_LIGHT: School := 7
  const SCHOOL_DARK: School := 8

  /** The character skills a spell can be cast with. */
  datatype Skill = Fire | Air | Water | Earth | Spirit | Mind | Body | Light | Dark | Bow | Blaster {
    predicate IsMagic() {
      !Bow? && !Blaster?
    }
  }

  predicate IsRegularSpell(sp: SpellId) {
    SPELL_FIRST_REGULAR <= sp <= SPELL_LAST_REGULAR
  }

  /** The four spells whose target is an inventory item. */
  predicate IsSpellTargetsItem(sp: SpellId) {
    sp == SPELL_WATER_ENCHANT_ITEM
    || sp == SPELL_FIRE_FIRE_AURA
    || sp == SPELL_DARK_VAMPIRIC_WEAPON
    || sp == SPELL_WATER_RECHARGE_ITEM
  }

  function AllRegularSpells(): (r: Segment)
    ensures forall sp: SpellId :: r.Contains(sp) <==> IsRegularSpell(sp)
    ensures r.Size() == 9 * SPELLS_PER_SCHOOL
  {
    Segment(SPELL_FIRST_REGULAR, SPELL_LAST_REGULAR)
  }

  function AllSpellSchools(): (r: Segment)
    ensures forall s: int :: r.Contains(s) <==> 0 <= s <= 8
  {
    Segment(SCHOOL_FIRE, SCHOOL_DARK)
  }

  /** The skill used to cast `sp`; `None` where the engine asserts (the
      empty spell, and every id past the laser projectile). */
  function GetSkillTypeForSpell(sp: SpellId): (r: Option<Skill>)
    ensures r.None? <==> sp == SPELL_NONE || sp > SPELL_LASER_PROJECTILE
    ensures r.Some? ==> (r.value.IsMagic() <==> IsRegularSpell(sp))
  {
    if sp == SPELL_NONE then None
    else if sp < SPELL_AIR_WIZARD_EYE then Some(Fire)
    else if sp < SPELL_WATER_AWAKEN then Some(Air)
    else if sp < SPELL_EARTH_STUN then Some(Water)
    else if sp < SPELL_SPIRIT_DETECT_LIFE then Some(Earth)
    else if sp < SPELL_MIND_REMOVE_FEAR then Some(Spirit)
    else if sp < SPELL_BODY_CURE_WEAKNESS then Some(Mind)
    else if sp < SPELL_LIGHT_LIGHT_BOLT then Some(Body)
    else if sp < SPELL_DARK_REANIMATE then Some(Light)
    else if sp < SPELL_BOW_ARROW then Some(Dark)
    else if sp == SPELL_BOW_ARROW then Some(Bow)
    else if sp == SPELL_101 || sp == SPELL_LASER_PROJECTILE then Some(Blaster)
    else None
  }

  /** The block of spells owned by a school. */
  function SchoolSpells(s: School): (r: Segment)
    ensures r.Size() == SPELLS_PER_SCHOOL
    ensures r.Within(AllRegularSpells())
    ensures s > 0 ==> r.first == SchoolSpells(s - 1).last + 1
  {
    var first := 1 + s * SPELLS_PER_SCHOOL;
    Segment(first, first + 10)
  }

  /** The school a regular spell belongs to. */
  function SpellSchool(sp: SpellId): (r: School)
    requires IsRegularSpell(sp)
    ensures SchoolSpells(r).Contains(sp)
  {
    (sp - 1) / SPELLS_PER_SCHOOL
  }

  /** Position of a spell inside its school's block. The engine computes it
      with C++'s `%`, so the empty spell gets -1. */
  function SpellIndexInSchool(sp: SpellId): (r: int)
    ensures IsRegularSpell(sp) ==> 0 <= r < SPELLS_PER_SCHOOL
    ensures IsRegularSpell(sp) ==> sp == SchoolSpells(SpellSchool(sp)).first + r
    ensures sp == SPELL_NONE ==> r == -1
  {
    CRem(sp - 1, SPELLS_PER_SCHOOL)
  }

  function SchoolSkill(s: School): (r: Skill)
    ensures r.IsMagic()
  {
    match s
    case 0 => Fire
    case 1 => Air
    case 2 => Water
    case 3 => Earth
    case 4 => Spirit
    case 5 => Mind
    case 6 => Body
    case 7 => Light
    case 8 => Dark
  }

  /** Every member of a school's block is classified back into that school. */
  lemma SchoolOfSchoolSpells(s: School, sp: SpellId)
    requires SchoolSpells(s).Contains(sp)
    ensures IsRegularSpell(sp)
    ensures SpellSchool(sp) == s
    ensures SpellIndexInSchool(sp) == sp - SchoolSpells(s).first
  {
  }

  /** Distinct schools own disjoint spell blocks. */
  lemma SchoolSpellsDisjoint(s1: School, s2: School, sp: SpellId)
    requires SchoolSpells(s1).Contains(sp) && SchoolSpells(s2).Contains(sp)
    ensures s1 == s2
  {
  }

  /** A spell is determined by its school and its index in the school. */
  lemma SpellFromSchoolAndIndex(sp1: SpellId, sp2: SpellId)
    requires IsRegularSpell(sp1) && IsRegularSpell(sp2)
    requires SpellSchool(sp1) == SpellSchool(sp2)
    requires SpellIndexInSchool(sp1) == SpellIndexInSchool(sp2)
    ensures sp1 == sp2
  {
  }

  /** The chained comparisons of `getSkillTypeForSpell` agree with the
      school arithmetic for every regular spell. */
  lemma SkillTypeMatchesSchool(sp: SpellId)
    requires IsRegularSpell(sp)
    ensures GetSkillTypeForSpell(sp) == Some(SchoolSkill(SpellSchool(sp)))
  {
    var s := SpellSchool(sp);
    assert 1 + 11 * s <= sp <= 11 + 11 * s;
    if s == 0 { assert sp < 12; }
    else if s == 1 { assert 12 <= sp < 23; }
    else if s == 2 { assert 23 <= sp < 34; }
    else if s == 3 { assert 34 <= sp < 45; }
    else if s == 4 { assert 45 <= sp < 56; }
    else if s == 5 { assert 56 <= sp < 67; }
    else if s == 6 { assert 67 <= sp < 78; }
    else if s == 7 { assert 78 <= sp < 89; }
    else { assert 89 <= sp < 100; }
  }

  /** Each school is cast with its own skill. */
  lemma SchoolSkillInjective(s1: School, s2: School)
    requires SchoolSkill(s1) == SchoolSkill(s2)
    ensures s1 == s2
  {
  }

  /** The non-school spells: the bow arrow and the two blaster projectiles. */
  lemma NonSchoolSkills()
    ensures GetSkillTypeForSpell(SPELL_BOW_ARROW) == Some(Bow)
    ensures GetSkillTypeForSpell(SPELL_101) == Some(Blaster)
    ensures GetSkillTypeForSpell(SPELL_LASER_PROJECTILE) == Some(Blaster)
    ensures forall sp: SpellId :: sp >= 150 ==> GetSkillTypeForSpell(sp).None?
  {
  }

  /** Exactly four spells target an item, all regular, in three schools. */
  lemma SpellsTargetingItems()
    ensures (set sp: int | 0 <= sp < 0x100 && IsSpellTargetsItem(sp))
         == {SPELL_FIRE_FIRE_AURA, SPELL_WATER_RECHARGE_ITEM, SPELL_WATER_ENCHANT_ITEM, SPELL_DARK_VAMPIRIC_WEAPON}
    ensures forall sp: SpellId :: IsSpellTargetsItem(sp) ==> IsRegularSpell(sp)
    ensures SpellSchool(SPELL_FIRE_FIRE_AURA) == SCHOOL_FIRE
    ensures SpellSchool(SPELL_WATER_RECHARGE_ITEM) == SCHOOL_WATER
    ensures SpellSchool(SPELL_WATER_ENCHANT_ITEM) == SCHOOL_WATER
    ensures SpellSchool(SPELL_DARK_VAMPIRIC_WEAPON) == SCHOOL_DARK
  {
  }
}
