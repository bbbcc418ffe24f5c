# Eryndor game system: a Dafny model of its rules core

The Eryndor system is a plugin for a virtual tabletop host. The host owns the
documents, the dice, the chat and the settings. The system adds the game's own
rules on top. This project models those rules and proves properties of them:

- `utils.dfy` (module `Utils`) holds the formula and string utilities:
  - ability modifier, proficiency and mastery DC;
  - the armor-class loop and the roll-formula loop;
  - `formatModifier`, `formatIdentifier` and the `isUUID` prefix test;
  - the experience curve and the `levelFromExperience` search.
- `registry.dfy` (module `Registry`) holds the registry. It is a class with
  three independent string-keyed tables (spells, items, masteries), the
  `||`-null lookups, `clear`, and the spell DC and spell circle formulas.
- `actor.dfy` (module `ActorDocument`) holds the actor document as a class:
  - derived-data preparation for characters and NPCs, with modifiers written
    in place in a loop over the abilities;
  - the `_calculateAC` loop and `rest` recovery;
  - the roll data and the guards of the two roll actions.
- `item.dfy` (module `ItemDocument`) holds the item document as a class: the
  type-driven labels, the roll guards and default formulas, `castSpell`
  against the owner's vigor, and `toggleEquipped`.
- `schema.dfy` (module `Schema`) holds the shared data:
  - the parts of `actor.system` and `item.system` that the rules touch;
  - JavaScript truthiness, which matters wherever the source writes `x || d`.

Host inputs are parameters:
- the `acAutomation`, `healthRecovery` and `vigorRecovery` settings;
- the host's `localize`;
- the label tables of `CONFIG.ERYNDOR`, the object module/helpers/config.mjs
  builds and module/eryndor.mjs:29 installs. The ability labels
  (module/helpers/config.mjs:7-14) are a map. The four item label tables
  (damage types, weapon ranges, armor types, spell schools) are each
  optional, because that file defines none of them; `ItemDocument.ShippedConfig`
  is the configuration as shipped.

A roll action is modelled as its guard plus the formula it would roll (None
where the source returns null).

Two details of the code that the model keeps as written:

- `levelFromExperience` returns the first level whose threshold
  `level*level*100` exceeds `xp`, capped at 20. So 350 xp gives level 2 and
  400 xp gives level 3. This agrees with module/utils.mjs:261-264, which
  documents `experienceForLevel(level)` as the experience a character of
  that level needs for the next level.
- The weapon damage placeholder in `item.mjs` is the three characters
  U+00E2 U+20AC U+201D. That is an em dash that was mis-encoded, and the model
  keeps it exactly (`ItemDocument.DamagePlaceholder`).

## Model

| member | source | states |
|---|---|---|
| `Utils.NatToString` | module/utils.mjs:23 | the decimal form of a number is a non-empty run of digits with no leading zero |
| `Utils.ParseNatToString` | module/utils.mjs:23 | reading the decimal form of a natural number back gives that number |
| `Utils.FormatModifier` | module/utils.mjs:20-24 | the result is a sign followed by digits; the sign is '+' exactly when the number is >= 0; NaN gives "+0" |
| `Utils.FormatModifierRoundTrip` | module/utils.mjs:20-24 | every formatted integer modifier reads back as the same integer |
| `Utils.ReplaceRuns` | module/utils.mjs:53 | after run replacement only [a-z0-9] and '-' remain, and no two dashes are adjacent |
| `Utils.DropLeadingDashes` | module/utils.mjs:54 | trimming removes only leading dashes, and the result does not start with '-' |
| `Utils.DropTrailingDashes` | module/utils.mjs:54 | trimming removes only trailing dashes, and the result does not end with '-' |
| `Utils.FormatIdentifier` | module/utils.mjs:49-55 | the output has only a-z, 0-9 and '-', never starts or ends with '-' and never has "--"; non-string input gives "" |
| `Utils.ReplaceRunsFixed` | module/utils.mjs:53 | run replacement leaves a string with no double dash over [a-z0-9-] unchanged |
| `Utils.FormatIdentifierFixedPoints` | module/utils.mjs:49-55 | a string is left unchanged exactly when it already has the identifier shape (both directions) |
| `Utils.FormatIdentifierIdempotent` | module/utils.mjs:49-55 | applying formatIdentifier to its own output returns that output |
| `Utils.AlphanumericsSnoc` | module/utils.mjs:53-54 | appending one character appends it to the letters and digits of a string only if it is one of them |
| `Utils.ReplaceRunsKeepsAlphanumerics` | module/utils.mjs:53 | run replacement keeps every letter and digit, in order |
| `Utils.DropLeadingKeepsAlphanumerics` | module/utils.mjs:54 | trimming leading dashes keeps every letter and digit |
| `Utils.DropTrailingKeepsAlphanumerics` | module/utils.mjs:54 | trimming trailing dashes keeps every letter and digit |
| `Utils.FormatIdentifierKeepsAlphanumerics` | module/utils.mjs:49-55 | the [a-z0-9] characters of the output are those of the lower-cased input, in the same order |
| `Utils.ToLowerCase` | module/utils.mjs:52 | each character is replaced by its lower-case form, and the length is kept |
| `Utils.CalculateModifier` | module/utils.mjs:62-64 | the modifier m is floor((score-10)/2): 2m <= score-10 < 2m+2 |
| `Utils.ModifierMonotone` | module/utils.mjs:62-64 | the modifier never decreases as the score grows |
| `Utils.ModifierExamples` | module/utils.mjs:62-64 | scores 10 and 11 give 0, 9 gives -1, 12 gives 1 |
| `Utils.CalculateProficiency` | module/utils.mjs:71-73 | the proficiency p is floor((level-1)/4)+2: 4(p-2) <= level-1 < 4(p-2)+4 |
| `Utils.ProficiencyAtLeastTwo` | module/utils.mjs:71-73 | every level >= 1 has proficiency >= 2 |
| `Utils.ProficiencyExamples` | module/utils.mjs:71-73 | levels 1, 4, 5, 9 and 20 give 2, 2, 3, 4 and 6 |
| `Utils.CalculateMasteryDC` | module/utils.mjs:82-84 | the DC is at least 8 + modifier + proficiency exactly when the mastery is non-negative, and equals it exactly when the mastery is 0 |
| `Utils.MasteryDCMonotone` | module/utils.mjs:82-84 | the mastery DC grows with the mastery, and is at least 8 + modifier + proficiency for a non-negative mastery |
| `Utils.CalculateArmorClass` | module/utils.mjs:91-106 | the loop returns 10 + dex modifier (0 when missing) + the bonus of every item that is armor and equipped |
| `Utils.ArmorTotalAppend` | module/utils.mjs:99-103 | the armor total of two item lists in sequence is the sum of their totals |
| `Utils.ArmorClassIgnoresNonContributing` | module/utils.mjs:99-103 | inserting an unequipped or non-armor item anywhere leaves the armor class unchanged |
| `Utils.ArmorClassAtLeastBase` | module/utils.mjs:91-106 | with non-negative armor values the class is at least 10 + dex modifier |
| `Utils.ArmorClassExample` | module/utils.mjs:91-106 | dex modifier +2, worn armor 3 and stowed armor 5 give 15 |
| `Utils.CreateRollFormula` | module/utils.mjs:114-126 | the loop returns the base followed by one piece per modifier, in order: " + n", " - abs(n)", " + s" or nothing |
| `Utils.RollFormulaAppend` | module/utils.mjs:117-123 | building from a list of modifiers in two parts equals extending the formula of the first part by the second |
| `Utils.RollFormulaExtendsBase` | module/utils.mjs:115 | the formula always starts with the base |
| `Utils.RollFormulaSkipsOtherKinds` | module/utils.mjs:117-123 | a modifier that is neither a number nor a string adds nothing, wherever it stands |
| `Utils.LetterPrefixLength` | module/utils.mjs:249 | the length of the longest prefix of ASCII letters |
| `Utils.IsUUID` | module/utils.mjs:248-250 | true exactly when the string starts with one or more letters, a dot, and a letter or digit |
| `Utils.ExperienceForLevel` | module/utils.mjs:266-269 | the threshold is never negative |
| `Utils.ExperienceIncreasing` | module/utils.mjs:266-269 | thresholds strictly increase with the level from level 1 on |
| `Utils.LevelSearch` | module/utils.mjs:278-282 | the search from a level stops within [level, 20], at a level whose threshold exceeds xp unless capped, after passing only thresholds <= xp |
| `Utils.LevelFor` | module/utils.mjs:276-283 | the level lies in [1, 20]; below 20 its threshold exceeds xp; above 1 the previous threshold is <= xp |
| `Utils.LevelFromExperience` | module/utils.mjs:276-283 | the while loop returns LevelFor(xp), with its three bounds |
| `Utils.LevelSearchMonotone` | module/utils.mjs:278-282 | the search result never decreases as xp grows |
| `Utils.LevelForMonotone` | module/utils.mjs:276-283 | the level never decreases as xp grows |
| `Utils.LevelForUnique` | module/utils.mjs:276-283 | any level meeting the three bounds is the level the search returns |
| `Utils.LevelForExamples` | module/utils.mjs:266-283 | thresholds 100 and 400 for levels 1 and 2; 0 and 99 xp give 1, 100 and 350 give 2, 400 gives 3 |
| `Registry.Lookup` | module/registry.mjs:25-27 | a lookup gives the stored value when it is truthy, and null when the id is absent or its value is falsy |
| `Registry.LookupAfterSet` | module/registry.mjs:16-27 | after storing d under id, id reads as d (or null if d is falsy) and every other id reads as before |
| `Registry.LastWriteWins` | module/registry.mjs:16-18 | storing twice under one id keeps only the later value |
| `Registry.SpellProficiency` | module/registry.mjs:76 | the proficiency used is never 0: a missing or zero proficiency counts as 2, any other value is kept |
| `Registry.SpellAbility` | module/registry.mjs:79 | the ability key is the weapon's attribute, or "int" when that is missing or empty |
| `Registry.EryndorRegistry.constructor` | module/registry.mjs:5-9 | a new registry has three empty tables |
| `Registry.EryndorRegistry.RegisterSpell` | module/registry.mjs:16-18 | the spell table gets id := data (last write wins); getSpell(id) then returns data if truthy; no other spell id and neither other table changes |
| `Registry.EryndorRegistry.GetSpell` | module/registry.mjs:25-27 | null, or the stored truthy spell; a stored truthy spell is returned |
| `Registry.EryndorRegistry.RegisterItem` | module/registry.mjs:34-36 | the item table gets id := data; getItem(id) then returns data if truthy; nothing else changes |
| `Registry.EryndorRegistry.GetItem` | module/registry.mjs:43-45 | null, or the stored truthy item; a stored truthy item is returned |
| `Registry.EryndorRegistry.RegisterMastery` | module/registry.mjs:52-54 | the mastery table gets id := data; getMastery(id) then returns data if truthy; nothing else changes |
| `Registry.EryndorRegistry.GetMastery` | module/registry.mjs:61-63 | null, or the stored truthy mastery; a stored truthy mastery is returned |
| `Registry.EryndorRegistry.Clear` | module/registry.mjs:105-109 | all three tables are empty and every getter returns null for every id |
| `Registry.EryndorRegistry.CalculateSpellDC` | module/registry.mjs:72-84 | the spell DC is the mastery DC of the higher of the two masteries (missing counts as 0), with the spell ability's modifier and the spell proficiency |
| `Registry.EryndorRegistry.GetSpellCircle` | module/registry.mjs:92-100 | the circle is in 1..5 and steps up exactly when the sum of masteries reaches 6, 10, 14 and 18 (both directions) |
| `Registry.SpellDCSymmetric` | module/registry.mjs:72-84 | swapping domain and form does not change the DC |
| `Registry.SpellDCLowerBound` | module/registry.mjs:74-83 | with non-negative masteries the DC is at least 8 + proficiency + ability modifier, and equals it when neither mastery is present |
| `Registry.SpellCircleMonotoneSymmetric` | module/registry.mjs:92-100 | the circle never falls when either mastery grows, and is symmetric in the two masteries |
| `Registry.SpellCircleExamples` | module/registry.mjs:92-100 | sums 5, 6, 9, 10, 14 and 18 give circles 1, 2, 2, 3, 4 and 5 |
| `ActorDocument.PreparationSetsModifiers` | module/documents/actor.mjs:52-56 | for characters and NPCs, preparation keeps every ability and its score and sets its mod to floor((score-10)/2) (lines 79-83 for NPCs) |
| `ActorDocument.PreparationFrame` | module/documents/actor.mjs:45-84 | preparation changes only abilities, proficiency and AC; NPCs keep proficiency and AC; other types are untouched; AC is kept without automation |
| `ActorDocument.CharacterPreparation` | module/documents/actor.mjs:59-66 | a character with a level gets proficiency floor((level-1)/4)+2; with AC automation its AC is 10 + new dex modifier + equipped armor |
| `ActorDocument.PreparedAbilitiesIdempotent` | module/documents/actor.mjs:52-56 | preparing the abilities twice gives the same abilities as once |
| `ActorDocument.PreparationIdempotent` | module/documents/actor.mjs:31-84 | preparing derived data twice gives the same system data as preparing it once |
| `ActorDocument.RecoveredValue` | module/documents/actor.mjs:232-249 | a pool gets no update exactly on a short rest with "custom"; a long rest or "full" sets it to its max; an update never exceeds the max |
| `ActorDocument.RestWithinBounds` | module/documents/actor.mjs:232-249 | for value <= max with max >= 0, a rest never lowers the pool or raises it above max; a long rest fills it |
| `ActorDocument.RestedPoolStaysFull` | module/documents/actor.mjs:232-249 | a pool filled by a long rest stays full through any further rest |
| `ActorDocument.EryndorActor.PrepareDerivedData` | module/documents/actor.mjs:31-40 | the new system data is the preparation of the old for the actor's type; type and items are unchanged |
| `ActorDocument.EryndorActor.PrepareCharacterData` | module/documents/actor.mjs:45-67 | for a character: modifiers and labels, then proficiency when a level is present, then AC when automated; otherwise nothing changes |
| `ActorDocument.EryndorActor.PrepareNpcData` | module/documents/actor.mjs:72-84 | for an NPC, modifiers and labels only; otherwise nothing changes |
| `ActorDocument.EryndorActor.PrepareAbilities` | module/documents/actor.mjs:52-56 | the loop over the abilities writes each one's prepared mod and label in place and changes nothing else |
| `ActorDocument.EryndorActor.CalculateAC` | module/documents/actor.mjs:91-106 | the loop returns the same armor class as `calculateArmorClass` in module/utils.mjs for this actor's abilities and items |
| `ActorDocument.EryndorActor.GetRollData` | module/documents/actor.mjs:111-158 | roll data copies the system; characters and NPCs get the ability shortcuts; only characters get lvl and prof |
| `ActorDocument.EryndorActor.RollAbilityCheck` | module/documents/actor.mjs:166-171 | no roll exactly for an unknown ability; otherwise the formula is "1d20 + @id.mod" |
| `ActorDocument.AbilityCheckFormulaResolves` | module/documents/actor.mjs:166-171 | for a character or NPC, the `@id.mod` the check refers to is bound in its roll data to the ability's modifier |
| `ActorDocument.EryndorActor.RollMastery` | module/documents/actor.mjs:192-203 | no roll exactly when the id is missing, empty or unknown; otherwise the formula is "1d20 + value" |
| `ActorDocument.EryndorActor.Rest` | module/documents/actor.mjs:223-263 | each pool is updated independently (full or long rest: max; half: min(value + floor(max/2), max); custom: none); the updates are returned and applied, and nothing else changes |
| `ItemDocument.ConfigLabel` | module/documents/item.mjs:28-37 | a configured, non-empty label replaces the code; a code absent from the table falls back to itself |
| `ItemDocument.TableLabel` | module/documents/item.mjs:28-37 | reading a label throws (None) exactly when the table is undefined; otherwise it is the configured label or the code |
| `ItemDocument.OrDefault` | module/documents/item.mjs:33 | `v || d` on a number: a missing or zero value gives the default |
| `ItemDocument.ItemLabels` | module/documents/item.mjs:25-44 | preparation throws (None) exactly for a weapon without the damage-type or range table, armor without the armor-type table, or a spell without the school table; otherwise exactly weapon, armor, spell and equipment get their label sets, with the defaults (placeholder damage, armor value 0, quantity 1) and the texts "Circle n", "n Vigor", "n lbs" |
| `ItemDocument.OtherTypesHaveNoLabels` | module/documents/item.mjs:25-46 | skills, talents and every other type get an empty label set, whatever the configuration |
| `ItemDocument.ShippedConfigThrows` | module/documents/item.mjs:25-46 | with the configuration as shipped, label preparation throws exactly for weapons, armor and spells |
| `ItemDocument.ShippedConfigDamageRollThrows` | module/documents/item.mjs:143-146 | with the configuration as shipped, a weapon damage roll fails reading the damage-type label, after the roll and before the message |
| `ItemDocument.LabelsWithItemTables` | module/documents/item.mjs:25-46 | with all four item label tables defined, preparation never throws, and weapons, armor and spells get their label sets |
| `ItemDocument.SpellCost` | module/documents/item.mjs:169 | the vigor cost is never 0: manaCost, or 1 when it is missing or 0 |
| `ItemDocument.ToggleFlipsAndRestores` | module/documents/item.mjs:201-206 | weapons and armor flip their flag (missing read as false); other types are unchanged; toggling twice restores the flag |
| `ItemDocument.EryndorItem.PrepareDerivedData` | module/documents/item.mjs:18-47 | succeeds exactly when the labels of the item's type can be computed, and then they become the labels; when a table read throws the old labels stay |
| `ItemDocument.EryndorItem.GetRollData` | module/documents/item.mjs:53-61 | null exactly without an owner; otherwise exactly the owner's roll data (system, shortcuts, lvl, prof) with a copy of the item's data added |
| `ItemDocument.EryndorItem.RollAttack` | module/documents/item.mjs:108-115 | no roll unless a weapon with an owner; the formula defaults to "1d20" |
| `ItemDocument.EryndorItem.RollDamage` | module/documents/item.mjs:134-155 | no roll unless a weapon with an owner; the formula is the damage, defaulting to "1d6"; the flavor's damage-type label fails exactly when the damage-type table is undefined, and is otherwise the configured label or the code |
| `ItemDocument.EryndorItem.CastSpell` | module/documents/item.mjs:162-183 | succeeds exactly for a spell with an owner whose vigor covers the cost; then vigor drops by the cost and stays >= 0, and nothing else changes; otherwise nothing changes |
| `ItemDocument.EryndorItem.ToggleEquipped` | module/documents/item.mjs:201-206 | the item's data becomes the toggled data |

## Left out

- Dice and chat are not modelled: `Roll`, `evaluate`, `toMessage`, `ChatMessage.create` and `ui.notifications`. These are host calls with random or rendering effects. Each roll action is modelled as its guard and the formula it would roll. The flavor texts are not modelled, including the mastery label capitalisation; of the `rollDamage` flavor only the damage-type lookup is modelled, because it can throw.
- `EryndorItem.roll` (module/documents/item.mjs:68-101) is not modelled. It only chooses between a chat message and a host roll.
- Host services become parameters: localization and settings storage.
- `prepareData` and `prepareBaseData` are not modelled. They only call the host.
- The wrappers over host utilities in module/utils.mjs are not modelled: `localize`, `enrichHTML`, `rollDice`, `log`, `getProperty`, `setProperty`, `deepClone`, `mergeObject` and `fromUuid`.
- `formatNumber` is not modelled, because its output depends on the locale through `toLocaleString`.
- `getCollectionOptions` is not modelled, because it sorts with the locale's `localeCompare` collation.
- Numbers are unbounded integers, not doubles. Fractions, Infinity and `Number()` coercion of strings are not modelled. `FormatModifier` takes the result of `Number(modifier)`, as an integer or NaN. Rounding above 2^53 is not modelled. Neither is the exponent form JavaScript prints for magnitudes of 1e21 and up. The source's `formatModifier(1e21)` gives "+1e+21", and `Utils.FormatModifier` gives "+" followed by 22 digits. The same holds for `Utils.FormulaTerm`, `ItemDocument.Show` and the `ActorDocument.EryndorActor.RollMastery` formula. `Utils.FormatModifierRoundTrip` is stated for unbounded integers.
- `Utils.ToLowerCase`: only ASCII letters are lowered. Non-ASCII characters whose lower-case form contains ASCII letters (U+0130, the Kelvin sign) are not modelled.
- `Utils.IsUUID` takes strings only. `RegExp.test` would first turn any other argument into a string; that step is not modelled.
- An attribute object that is present but has no value is not modelled. Level and proficiency are either absent or carry an integer. So the `?? 0` and `?? 2` fallbacks of `_getCharacterRollData` are never reached. Neither is the NaN proficiency such an object would give.
- A character with a level but no proficiency object would make the source throw. The model sets the proficiency instead.
- An actor's items are value snapshots. An owned item document and the actor's item list are not the same object in the model. So a toggle on an `EryndorItem` is not seen by its owner's armor class until the owner's list is updated.
- `ActorDocument.RestWithinBounds`: requires max >= 0. With a negative max the "half" rule can lower a pool; for example value -5 and max -3 give -7.
- Any setting other than "full", "half" and "custom" is not modelled. `Recovery` has exactly those three choices.
- The registry is modelled as a class. The module-level singleton (module/registry.mjs:112-115) is not modelled.
- module/settings.mjs, module/eryndor.mjs and module/helpers are not part of this model: they only declare settings, wire hooks and hold label tables. What the model takes from them is the absence of the four item label tables (`ItemDocument.ShippedConfig`).
- Async ordering is not modelled. Each action is a single state transition.

## Findings

| source | as written | input that shows it | evidently intended | confidence | as-written member | corrected member |
|---|---|---|---|---|---|---|
| module/documents/item.mjs:28-37 | label preparation indexes `CONFIG.ERYNDOR.damageTypes`, `weaponRanges`, `armorTypes` and `spellSchools`, none of which module/helpers/config.mjs defines | preparing any item of type "weapon", "armor" or "spell" reads a property of undefined and throws a TypeError; so does every weapon damage roll at item.mjs:146, after the dice are rolled and before the message is posted | the configuration defines the four tables, so every item gets its labels and a damage roll reaches the chat | medium, not executed | `ItemDocument.ShippedConfigThrows` | `ItemDocument.LabelsWithItemTables` |
