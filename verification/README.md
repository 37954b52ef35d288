# OpenEnroth engine core: identifier arithmetic, packed ids, data-path resolution, event filters

This project models, in Dafny, the self-contained logic that sits under the
OpenEnroth engine (a reimplementation of Might and Magic VII). It covers five
components:

- **Item and spell identifiers** (`ItemEnums`, `SpellEnums`). These are the
  range predicates over item ids, such as regular items, wands, potions,
  artifacts and spellbooks. They also include the random-treasure
  placeholders, the spellbook block of each school and mastery, the
  enchanting-potion table, item-type classes and ring slots. On the spell
  side they cover the 9 schools of 11 spells each, the school of a spell,
  its index in the school, and the skill used to cast it.
- **Packed object ids** (`MM7`). `PID(type, id)` packs a 3-bit object type
  and a 13-bit index into 16 bits, and `PID_TYPE` / `PID_ID` unpack them.
  `memset32` fills a run of 32-bit words.
- **Data-path candidates** (`GamePathResolver`). This builds the ordered list
  of directories that may hold the game data. An environment-variable
  override is used alone when it is set. Otherwise the list is the current
  directory, then the non-empty registry values in key order, then Android
  external and internal storage, then the macOS home entry.
- **Data-path choice** (`GameStarter`). This picks the first candidate that
  exists and validates, or falls back to the last candidate. It then derives
  the config file path.
- **Event filters** (`FilteringEventHandler`). Each event type has a list of
  filters. Install appends a filter and remove erases every copy of it.
  Dispatch walks the list from newest to oldest and stops at the first filter
  that consumes the event. `_insideEvent` is raised during dispatch and
  lowered on exit.

Modelling choices:

- **Integer widths.** Enum widths are subset types: `uint8_t` spell ids,
  item types and slots; `int32_t` item ids; `int8_t` treasure levels.
- **Inclusive segments.** `Segment` is read as an inclusive range
  `first ..= last`. `Utility/Segment.h` is not part of this model. The
  reading follows from `allRingSlots() = {RING1, RING6}`, which must hold
  the six slots that `ringSlot(0..5)` returns.
- **Assertions.** Some functions have a single assertion at their head and
  no fallback path. There the assertion is a `requires`. This covers
  `randomItemTreasureLevel`, `spellSchool`, `ringSlot`, and the
  `_insideEvent` checks in install and remove. Other functions also assert
  on a fallback path, a `switch` default or a final `else`. There the
  result is an `Option`, and `None` marks every input on which any of the
  function's assertions fires. This covers `spellCountForMastery`,
  `spellbooksForSchool` (through it), `potionEnchantment` and
  `getSkillTypeForSpell`. The head assertions of the last two are folded
  into the same `None`.
- **Enums from other headers.** `CharacterEnums.h` is not part of this model.
  Skills are a datatype. Mastery is a datatype whose `MasteryNone` stands for
  every enumerator other than the four ranks. The school index `0..8` is
  shared by `SPELL_SCHOOL` and the `MagicSchool` parameter of
  `spellbooksForSchool`.
- **Bit operations.** `& 0xFFFF` and `& 7` on two's-complement values are
  written as Euclidean `% 0x10000` and `% 8`, which keep the same low bits.
  `8 * id | type` is written as `8 * id + type`, because the type fits in the
  three zero bits. The object type is any value `0..7`, since the
  `ObjectType` enum is not part of this model.
- **C++ remainder.** `spellIndexInSchool` uses C++'s truncating `%`, so
  `SPELL_NONE` gets `-1`.
- **The outside world.** The environment, the registry, platform directories
  and the file system (`exists`, `validateDataPath`) are abstract functions.
  The `__APPLE__` conditional is a boolean parameter. The names of the
  override environment variables are declared in a header that is not part
  of this model, so they are symbolic keys.
- **Filters.** A filter is compared by value, which stands in for pointer
  identity. What a filter does with an event is an abstract "consumes"
  function. A type with no list behaves as an empty list.
- **PID packing.** The model follows the code and keeps the 16-bit packing,
  including the silent truncation of indices of 8192 and above.
- **Registry keys.** Keys are text. The UTF-8 bytes `\xC2\xAE` in the MM6
  keys are written as the single character they encode, `®`.

## Model

| member | source | states |
|---|---|---|
| SpellEnums.IsRegularSpell | src/Engine/Spells/SpellEnums.h:158-160 | Characterised by `AllRegularSpells`: exactly the 99 ids 1..99. `SkillTypeMatchesSchool` shows that exactly these ids get a magic skill. |
| SpellEnums.IsSpellTargetsItem | src/Engine/Spells/SpellEnums.h:148-153 | Characterised by `SpellsTargetingItems`: exactly fire aura, recharge item, enchant item and vampiric weapon. |
| SpellEnums.AllRegularSpells | src/Engine/Spells/SpellEnums.h:138-143 | The regular-spell segment holds exactly the ids accepted by `isRegularSpell`, and there are 9 × 11 of them. |
| SpellEnums.AllSpellSchools | src/Engine/Spells/SpellEnums.h:201-219 | The school segment holds exactly the school indices 0..8. |
| SpellEnums.GetSkillTypeForSpell | src/Engine/Spells/SpellEnums.h:165-196 | The lookup asserts exactly for `SPELL_NONE` and for ids above the laser projectile. A spell gets a magic skill exactly when it is regular. |
| SpellEnums.SchoolSpells | src/Engine/Spells/SpellEnums.h:221-225 | A school's block holds exactly 11 spells and lies inside the regular range. It starts right after the previous school's block. |
| SpellEnums.SpellSchool | src/Engine/Spells/SpellEnums.h:227-231 | A regular spell lies in the block of the school it is assigned to. |
| SpellEnums.SpellIndexInSchool | src/Engine/Spells/SpellEnums.h:233-236 | For a regular spell the index is in 0..10, and the spell is its school's first spell plus the index. `SPELL_NONE` gets -1, from C++'s truncating remainder. |
| SpellEnums.SchoolSkill | src/Engine/Spells/SpellEnums.h:238-253 | Every school maps to a magic skill, never bow or blaster. |
| SpellEnums.SchoolOfSchoolSpells | src/Engine/Spells/SpellEnums.h:221-236 | This is the reverse round trip: every member of `schoolSpells(s)` is regular, belongs to school `s`, and has its offset in the block as its index. |
| SpellEnums.SchoolSpellsDisjoint | src/Engine/Spells/SpellEnums.h:221-225 | Blocks of different schools do not overlap. |
| SpellEnums.SpellFromSchoolAndIndex | src/Engine/Spells/SpellEnums.h:227-236 | A regular spell is determined by its school and its index in the school. |
| SpellEnums.SkillTypeMatchesSchool | src/Engine/Spells/SpellEnums.h:165-253 | For every regular spell, the chained comparisons of `getSkillTypeForSpell` agree with `schoolSkill(spellSchool(sp))`. |
| SpellEnums.SchoolSkillInjective | src/Engine/Spells/SpellEnums.h:238-253 | Different schools map to different skills. |
| SpellEnums.NonSchoolSkills | src/Engine/Spells/SpellEnums.h:186-195 | The bow arrow gives bow, and spells 101 and 102 give blaster. Every id from 150 up asserts. |
| SpellEnums.SpellsTargetingItems | src/Engine/Spells/SpellEnums.h:145-153 | Exactly four spell ids target an item: fire aura, recharge item, enchant item and vampiric weapon. All four are regular, in the fire, water, water and dark schools. |
| ItemEnums.IsRandomTreasureLevel | src/Engine/Objects/ItemEnums.h:155-157 | Characterised by `RandomTreasureLevels`: exactly levels 1..6 of the `int8_t` range. |
| ItemEnums.RandomTreasureLevels | src/Engine/Objects/ItemEnums.h:140-157 | The random treasure levels are exactly 1..6. The invalid level 0 and the guaranteed-artifact level 7 are not random. |
| ItemEnums.IsRegular | src/Engine/Objects/ItemEnums.h:1042-1044 | Holds exactly for regular items 1..134. `CategoriesDisjoint`, `CategoryNesting` and `SpawnableRange` place it among the other categories. |
| ItemEnums.IsRecipe | src/Engine/Objects/ItemEnums.h:1046-1048 | Holds exactly for recipes 740..771, inside the message scrolls. `CategoriesDisjoint`, `CategoryNesting` and `SpawnableRange` place it among the other categories. |
| ItemEnums.IsWand | src/Engine/Objects/ItemEnums.h:1050-1052 | Holds exactly for wands 135..159. `CategoriesDisjoint`, `CategoryNesting` and `SpawnableRange` place it among the other categories. |
| ItemEnums.IsPotion | src/Engine/Objects/ItemEnums.h:1054-1056 | Holds exactly for potions 221..271. `CategoriesDisjoint`, `CategoryNesting` and `SpawnableRange` place it among the other categories. |
| ItemEnums.IsReagent | src/Engine/Objects/ItemEnums.h:1058-1060 | Holds exactly for reagents 200..219. `CategoriesDisjoint`, `CategoryNesting` and `SpawnableRange` place it among the other categories. |
| ItemEnums.IsEnchantingPotion | src/Engine/Objects/ItemEnums.h:1062-1064 | Holds exactly for the six enchanting potions 246..250 and 263, all of them potions. `CategoriesDisjoint`, `CategoryNesting` and `SpawnableRange` place it among the other categories. |
| ItemEnums.IsMessageScroll | src/Engine/Objects/ItemEnums.h:1066-1068 | Holds exactly for message scrolls 700..781. `CategoriesDisjoint`, `CategoryNesting` and `SpawnableRange` place it among the other categories. |
| ItemEnums.IsArtifact | src/Engine/Objects/ItemEnums.h:1070-1072 | Holds exactly for artifacts 500..552. `CategoriesDisjoint`, `CategoryNesting` and `SpawnableRange` place it among the other categories. |
| ItemEnums.IsSpawnableArtifact | src/Engine/Objects/ItemEnums.h:1074-1076 | Holds exactly for spawnable artifacts 500..528, inside the artifacts. `CategoriesDisjoint`, `CategoryNesting` and `SpawnableRange` place it among the other categories. |
| ItemEnums.IsGold | src/Engine/Objects/ItemEnums.h:1078-1080 | Holds exactly for gold 197..199. `CategoriesDisjoint`, `CategoryNesting` and `SpawnableRange` place it among the other categories. |
| ItemEnums.IsRandomItem | src/Engine/Objects/ItemEnums.h:1082-1084 | Holds exactly for the random placeholders -7..-1, all below the first valid id. `CategoriesDisjoint`, `CategoryNesting` and `SpawnableRange` place it among the other categories. |
| ItemEnums.IsSpellbook | src/Engine/Objects/ItemEnums.h:1086-1088 | Holds exactly for spellbooks 400..498. `CategoriesDisjoint`, `CategoryNesting` and `SpawnableRange` place it among the other categories. |
| ItemEnums.IsQuestItem | src/Engine/Objects/ItemEnums.h:1090-1092 | Holds exactly for quest items 600..699. `CategoriesDisjoint`, `CategoryNesting` and `SpawnableRange` place it among the other categories. |
| ItemEnums.CategoriesDisjoint | src/Engine/Objects/ItemEnums.h:1042-1092 | No item id is in two of these categories: regular, wand, gold, reagent, potion, spellbook, artifact, quest item, message scroll, random placeholder. |
| ItemEnums.CategoryNesting | src/Engine/Objects/ItemEnums.h:1042-1092 | Spawnable artifacts are artifacts, recipes are message scrolls, and enchanting potions are potions. Regular items are not wands. Random placeholders lie below the first valid id. |
| ItemEnums.SpawnableRange | src/Engine/Objects/ItemEnums.h:1128-1134 | The loot range holds the listed categories, spell scrolls, the gems, the empty bottle and the unused ids, and nothing else. Artifacts, quest items and message scrolls are outside it. |
| ItemEnums.AllRecipeScrolls | src/Engine/Objects/ItemEnums.h:1124-1126 | The recipe segment holds exactly the ids accepted by `isRecipe`, and it lies inside the message-scroll range. |
| ItemEnums.AllSpawnableItems | src/Engine/Objects/ItemEnums.h:1128-1134 | The loot segment contains every regular item, wand, gold, reagent, potion and spellbook. It contains no artifact, random placeholder or null item. |
| ItemEnums.AllSpawnableArtifacts | src/Engine/Objects/ItemEnums.h:1136-1144 | The segment holds exactly the ids accepted by `isSpawnableArtifact`, and it lies inside the artifact range. |
| ItemEnums.AllLevel1Reagents | src/Engine/Objects/ItemEnums.h:1146-1156 | There are three level-1 reagents. All are reagents, listed in increasing id order. |
| ItemEnums.RandomItemTreasureLevel | src/Engine/Objects/ItemEnums.h:1094-1097 | A random placeholder maps to a level in 1..7. The level is random exactly when the placeholder is not `ITEM_RANDOM_LEVEL_7`. |
| ItemEnums.RandomItemTreasureLevelInjective | src/Engine/Objects/ItemEnums.h:1094-1097 | Different placeholders map to different levels. |
| ItemEnums.RandomItemTreasureLevelOnto | src/Engine/Objects/ItemEnums.h:968-978 | Each level 1..7 has a placeholder (`-level`) that maps back to it. |
| ItemEnums.SpellCountForMastery | src/Engine/Objects/ItemEnums.h:1099-1113 | Novice gives 4, expert 7, master 10 and grandmaster 11, the whole school. Any other mastery asserts. |
| ItemEnums.SpellCountMonotone | src/Engine/Objects/ItemEnums.h:1099-1113 | A higher rank gives strictly more spells. |
| ItemEnums.SpellbooksForSchool | src/Engine/Objects/ItemEnums.h:1115-1122 | The block starts at 400 + 11·school and has as many books as the mastery's spell count. The mastery defaults to grandmaster. The block lies inside the spellbook range. It asserts exactly when the mastery lookup does. |
| ItemEnums.SpellbooksMatchSchoolSpells | src/Engine/Objects/ItemEnums.h:1115-1122 | Every book `b` in a school's block lines up with spell `b - 399`. That spell is regular, belongs to the same school, and has an index below the mastery's count. |
| ItemEnums.GrandmasterSpellbooksCoverAll | src/Engine/Objects/ItemEnums.h:1115-1122 | Under the default grandmaster mastery, every spellbook id is in the block of its school. |
| ItemEnums.PotionEnchantment | src/Engine/Objects/ItemEnums.h:1158-1172 | The enchantment is defined exactly for enchanting potions and asserts otherwise. The result is always a valid enchantment, 1..72. |
| ItemEnums.PotionEnchantmentInjective | src/Engine/Objects/ItemEnums.h:1158-1172 | Different enchanting potions give different enchantments. |
| ItemEnums.PotionEnchantmentTable | src/Engine/Objects/ItemEnums.h:1062-1064 | The enchanting potions are exactly 246..250 and 263. The table maps slaying, flaming, freezing, noxious, shocking and swift to dragon slaying, flame, frost, poison, sparks and swift. |
| ItemEnums.IsPassiveEquipment | src/Engine/Objects/ItemEnums.h:1225-1227 | Holds for item types from armour to amulet. By `ItemTypeClasses` that is armor plus rings and amulets, and never a weapon or a wand. |
| ItemEnums.IsArmor | src/Engine/Objects/ItemEnums.h:1234-1236 | Holds for item types from armour to boots. By `ItemTypeClasses` these are passive equipment. |
| ItemEnums.IsWeapon | src/Engine/Objects/ItemEnums.h:1243-1245 | Holds for item types from single-handed to bow. By `ItemTypeClasses` these are never passive equipment, and a wand is not a weapon. |
| ItemEnums.ItemTypeClasses | src/Engine/Objects/ItemEnums.h:1220-1245 | Armor is passive equipment, and no weapon is passive equipment. Passive equipment that is not armor is exactly rings and amulets. Wands are neither weapons nor passive equipment. |
| ItemEnums.AllRingSlots | src/Engine/Objects/ItemEnums.h:1277-1279 | There are six ring slots, all inside the valid slot range. |
| ItemEnums.AllItemSlots | src/Engine/Objects/ItemEnums.h:1286-1288 | The valid slots are every slot except the invalid slot 0, up to ring 6. |
| ItemEnums.RingSlot | src/Engine/Objects/ItemEnums.h:1281-1284 | Ring index 0..5 maps into the ring-slot segment, with 0 to ring 1 and 5 to ring 6. |
| ItemEnums.RingSlotBijective | src/Engine/Objects/ItemEnums.h:1277-1284 | `ringSlot` is injective on 0..5 and reaches every ring slot. |
| MM7.Pid | src/Engine/MM7.h:6 | The type sits in the low three bits of the PID. For an index below 8192 the bits above them hold the index. `PidLayout` gives the general truncating form. |
| MM7.PidType | src/Engine/MM7.h:7 | The extracted type differs from the PID by a multiple of 8, so it is the PID's low three bits. |
| MM7.PidId | src/Engine/MM7.h:8 | The extracted index is always below 8192. |
| MM7.PidLayout | src/Engine/MM7.h:6 | A packed PID is 8 × (id mod 8192) + type, so it always fits in 16 bits. |
| MM7.PidRoundTrip | src/Engine/MM7.h:6-8 | Unpacking a packed PID gives back the type and the index mod 8192. The index comes back exactly when it is below 8192. |
| MM7.PidDecodeEncode | src/Engine/MM7.h:6-8 | Packing the unpacked fields of any value rebuilds its low 16 bits. |
| MM7.PidInjective | src/Engine/MM7.h:6-8 | Different (type, index) pairs with index below 8192 get different PIDs. |
| MM7.PidInvalidFields | src/Engine/MM7.h:6-9 | `PID_INVALID` is `(uint16_t)-1` = 0xFFFF. It unpacks as type 7, index 8191, and packing those fields gives it back. |
| MM7.Memset32 | src/Engine/MM7.h:13-18 | Words before `count` are set to the value and every other word is unchanged. Nothing is written when `count <= 0`. |
| GamePathResolver.RegistryPaths | src/Application/GamePathResolver.cpp:63-67 | Registry results are all non-empty and no more than the keys. Each comes from some key, and every key with a non-empty value contributes its value. |
| GamePathResolver.RegistryPathsAppend | src/Application/GamePathResolver.cpp:63-67 | Registry results keep key order: the results for `a + b` are those for `a` followed by those for `b`. |
| GamePathResolver.RegistryPathsAgree | src/Application/GamePathResolver.cpp:63-67 | The registry results depend only on the values stored at the listed keys. |
| GamePathResolver.PlatformPaths | src/Application/GamePathResolver.cpp:69-85 | Only non-empty directories are listed: one for each reported Android storage path, plus one for the home entry on Apple builds. `CandidatesOrder` gives their order. |
| GamePathResolver.Candidates | src/Application/GamePathResolver.cpp:49-88 | The reference candidate list is never empty and holds no empty string. `OverrideShortCircuits`, `CandidatesWellFormed` and `CandidatesOrder` characterise its shape. |
| GamePathResolver.ResolvePaths | src/Application/GamePathResolver.cpp:49-88 | The step-by-step construction builds exactly the candidate list `Candidates`: the override alone, or `"."`, then the registry results, then the platform directories. |
| GamePathResolver.QueryRegistryPaths | src/Application/GamePathResolver.cpp:63-67 | The registry loop keeps exactly the non-empty answers, in key order. |
| GamePathResolver.QueryPlatformPaths | src/Application/GamePathResolver.cpp:69-86 | The Android and macOS branches append exactly the reported directories, in that order. The home entry gets the application-support suffix and appears only on Apple builds. |
| GamePathResolver.ResolveMm6Paths | src/Application/GamePathResolver.cpp:91-93 | The MM6 resolver is the shared resolver applied to the MM6 configuration. |
| GamePathResolver.ResolveMm7Paths | src/Application/GamePathResolver.cpp:95-97 | The MM7 resolver is the shared resolver applied to the MM7 configuration. |
| GamePathResolver.ResolveMm8Paths | src/Application/GamePathResolver.cpp:99-101 | The MM8 resolver is the shared resolver applied to the MM8 configuration. |
| GamePathResolver.OverrideShortCircuits | src/Application/GamePathResolver.cpp:50-55 | A non-empty override is the only candidate. Environments that agree on the override give the same list, whatever their registry and platform paths hold. |
| GamePathResolver.CandidatesWellFormed | src/Application/GamePathResolver.cpp:49-88 | The list is never empty and holds no empty string. Without an override it starts with `"."`. |
| GamePathResolver.CandidatesOrder | src/Application/GamePathResolver.cpp:57-87 | Without an override, the registry results follow `"."` in key order. Android external storage comes right after them, then Android internal storage. The macOS home entry is last when present. The list length is fixed in both cases. |
| GamePathResolver.GamesDifferOnlyInConfig | src/Application/GamePathResolver.cpp:49-101 | The candidates depend only on the configuration's override value, its registry values and the platform paths. |
| GameStarter.FirstUsable | src/Application/GameStarter.cpp:52-66 | The result is the index of a candidate that exists and validates, with no such candidate before it. No result means no candidate qualifies. |
| GameStarter.ChosenPath | src/Application/GameStarter.cpp:51-71 | The selection rule always picks one of the candidates. `ChosenPathProperties` and `ChosenPathPrefersUsable` say which one. |
| GameStarter.SelectDataPath | src/Application/GameStarter.cpp:51-71 | The candidate loop with its early `break` and the fallback to `back()` computes the selection rule `ChosenPath`. |
| GameStarter.ResolveGamePath | src/Application/GameStarter.cpp:45-80 | A non-empty `dataPath` is kept; otherwise it becomes the choice among the MM7 candidates. The result is never empty. The config path becomes `dataPath + "/openenroth.ini"` exactly when `useConfig` is set and it was empty; otherwise it is unchanged. |
| GameStarter.ChosenPathProperties | src/Application/GameStarter.cpp:49-71 | Among non-empty candidates, the choice is a member of the list and non-empty. With more than one candidate it is the first usable one. With one candidate, or none usable, it is the last one. |
| GameStarter.ChosenPathPrefersUsable | src/Application/GameStarter.cpp:51-66 | With more than one candidate, if candidate `k` is usable then the choice is usable and sits at or before `k`. |
| FilteringEventHandler.Reversed | src/Platform/Filters/FilteringEventHandler.cpp:12 | The reversed walk visits position `i` of the list at step `|list| - 1 - i`. |
| FilteringEventHandler.Erase | src/Platform/Filters/FilteringEventHandler.cpp:28 | After erasing, the filter does not occur, every other filter keeps its number of occurrences, and nothing else is added. |
| FilteringEventHandler.EraseAppend | src/Platform/Filters/FilteringEventHandler.cpp:28 | Erasing from a concatenation erases from each part, so the survivors keep their relative order. |
| FilteringEventHandler.EraseAbsent | src/Platform/Filters/FilteringEventHandler.cpp:28 | Erasing a filter that is not in the list leaves the list unchanged. |
| FilteringEventHandler.AppendToLists | src/Platform/Filters/FilteringEventHandler.cpp:20-21 | Each list gains one copy of the filter at its end for every time its type appears among the filter's types. |
| FilteringEventHandler.EraseFromLists | src/Platform/Filters/FilteringEventHandler.cpp:27-28 | The list of each of the filter's types has the filter erased, and every other list is unchanged. |
| FilteringEventHandler.InstallEventFilter | src/Platform/Filters/FilteringEventHandler.cpp:17-22 | Install requires that no dispatch is running. It appends the filter to the end of each of its types' lists and leaves all other lists unchanged. |
| FilteringEventHandler.RemoveEventFilter | src/Platform/Filters/FilteringEventHandler.cpp:24-29 | Remove requires that no dispatch is running. It erases every copy of the filter from each of its types' lists and leaves all other lists unchanged. |
| FilteringEventHandler.InstallThenRemove | src/Platform/Filters/FilteringEventHandler.cpp:17-29 | Installing a filter absent from its lists and then removing it restores every list. |
| FilteringEventHandler.RemoveKeepsOrder | src/Platform/Filters/FilteringEventHandler.cpp:24-29 | For any split point in the list, removal result = erased part before the split + erased part after it, so the remaining filters keep their order. |
| FilteringEventHandler.FirstConsumer | src/Platform/Filters/FilteringEventHandler.cpp:12-14 | The result is the first position whose filter consumes the event, with none before it. -1 means no filter consumes it. |
| FilteringEventHandler.Event | src/Platform/Filters/FilteringEventHandler.cpp:8-15 | Only filters registered for the event's type are offered it, newest first, and dispatch stops right after the first consumer. `_insideEvent` is true during every filter call and false afterwards. The lists are unchanged. |
| FilteringEventHandler.DispatchStopsAtConsumer | src/Platform/Filters/FilteringEventHandler.cpp:12-14 | If the filter at position `k` consumes the event, dispatch stops at that filter or at a newer one, so no filter older than `k` is reached. |

## Left out

- The renderer interface (`Engine/Graphics/OpenGL/RenderOpenGL.h`) declares virtual methods only, with no bodies to model.
- The rest of `GameStarter.cpp` is left out: the constructor, component installation, renderer and engine initialisation, `run` and `runInstrumented`. This is start-up wiring with side effects on globals.
- `test/Testing/Engine/TestWindow.cpp` and `GameStarter.h` are left out. The first delegates to a platform window; the second holds declarations only.
- Logging is dropped everywhere. This includes the `missingFile` out-parameter of `validateDataPath`, which only feeds a log line.
- `spellForWand`, `spellForScroll` and `spellForSpellbook` index extern tables whose contents are not part of this model.
- `DamageType`, `ItemFlag`, `ItemRarity`, `RandomItemType` and `allSpawnableRandomItemTypes` are left out. They are enum catalogues with no logic on them here.
- The individual `ItemId` and spell names are left out. Only the boundaries and the members that the functions name are modelled.
- The `HEXRAYS_*`, `BYTEn` and `WORDn` macros in `MM7.h`, and its packed layout-only structs, are left out. They depend on pointer reinterpretation.
- GetSkillTypeForSpell: models the debug build, where `SPELL_NONE` and unknown ids assert. In a release build the assertion is compiled out: `SPELL_NONE` falls through to the fire skill, and unknown ids return `CHARACTER_SKILL_INVALID`.
- SpellCountForMastery: models the debug-build assertion for other masteries as `None`, not the release-build return of 0.
- PotionEnchantment: models the debug-build assertion for other items as `None`, not the release-build return of `ITEM_ENCHANTMENT_NULL`.
- InstallEventFilter: the `!_insideEvent` assertion is a precondition, so what a release build does during dispatch is not modelled.
- RemoveEventFilter: the `!_insideEvent` assertion is a precondition, so what a release build does during dispatch is not modelled.
- Event: filters are pure "consumes" functions. A filter that re-enters the handler, for example by dispatching another event from inside its callback, is not modelled.
- Pid: the object type ranges over 0..7, the only values the 3-bit field holds. Larger values would be OR-ed into the index bits; that case and 32-bit overflow of `8 * id` are not modelled, and neither changes the low 16 bits for in-range types.
- Memset32: the buffer is a sequence of words. Pointer aliasing and writes past the end of the buffer (undefined behaviour) are not modelled.
