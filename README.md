# loldps core in Dafny

A model of the three backend modules of the loldps League of Legends build
calculator, with proofs about them:

- **StatMappingUtility** turns vendor (Riot Data Dragon) item and champion
  records into the engine's vocabulary. That means the stat-name table
  `STAT_MAPPINGS`, `convertStats` with its percent rescaling and
  `_unmapped_` keys, the `<passive>`/`<active>` tag scanner,
  `EffectNAmount` effects, champion stats, stat shards, the reverse mapping
  back to the vendor names, stat validation and default filling.
- **ChampionCalculator** (CalculationEngine.js) holds one champion's level,
  items, runes and buffs. It computes the final stat totals: base stats grown
  by level, item stats applied entry by entry, item passives, stat shards,
  Baron and dragon buffs, and the derived cooldown reduction and effective
  health. It also computes damage after armor and magic resist, auto-attack
  DPS, cooldowns and healing.
- **BuildStorage** keeps the list of saved builds, capped at fifty. It
  covers saving with a gold-efficiency score, updating, renaming, deleting,
  duplicating, importing (append or replace) and lookups by id and champion.
  Every one of them reads the builds through `getAllBuilds`, which sorts them
  newest first by `timestamp`, and the writers store that sorted list back.

The modules are:

| module | file | contents |
|---|---|---|
| `Wrappers` | wrappers.dfy | `Option` and `Result` |
| `Strings` | strings.dfy | the JavaScript string operations used (`startsWith`, `indexOf`, `includes`, `replace`, `trim`, `split(c)[0]`) |
| `Dicts` | dicts.dfy | JavaScript objects as ordered entry lists (`Get`, `Put` keep insertion order) |
| `GameData` | gamedata.dfy | champion and item records |
| `StatTable` | stattable.dfy | `STAT_MAPPINGS`, `convertStats`, `convertToRiotFormat` |
| `ItemConversion` | itemconversion.dfy | `convertItem`, `convertEffects`, `extractPassives`/`extractActives`, `convertAllItems` |
| `ChampionConversion` | championconversion.dfy | `convertChampion`, `convertChampionStats`, `convertStatShard`, `validateStats`, `fillDefaultStats` |
| `Calculator` | calculator.dfy | the stat pipeline as functions, and the `ChampionCalculator` class |
| `Storage` | storage.dfy | build records and the `BuildStorage` class |

How the JavaScript is represented:

- Numbers are `real`. `x || d` is modelled with its falsy cases: 0, the
  empty string and a missing value.
- A JavaScript object whose key order matters is a sequence of
  `(key, value)` pairs with unique keys. This covers item stats, vendor
  stats and the stored results.
- Stat totals inside the calculator are a `map<string, real>`.
- Each class keeps the fields the source mutates. Its mutating methods state
  the complete new state.
- Each computing method is specified by a function on the state. The
  properties are proved about those functions.

Some behaviour of the source is kept as written and proved about:

- A `...Percent` stat key scales the stat named by the key with its first
  `Percent` removed, and does nothing when the totals lack that stat.
  `armorPenetrationPercent` therefore never changes anything.
- Item attack speed is counted twice: once in the base attack speed and
  again as a flat item stat.
- The flex adaptive shard compares attack damage with ability power after
  the offense shard has already been applied.
- `duplicateBuild` does not enforce the fifty-build cap.

## Model

| member | source | states |
|---|---|---|
| StatTable.StatMappingsCanonical | src/backend/StatMappingUtility.js:11-91 | every engine name in the table is non-empty and does not start with `_`, so no mapped key collides with an `_unmapped_` key |
| StatTable.Converted | src/backend/StatMappingUtility.js:146-169 | the converted stats object has unique keys |
| StatTable.ConvertStats | src/backend/StatMappingUtility.js:146-169 | the loop over the vendor entries computes exactly `Converted` of the table and the input |
| StatTable.ConvertedNoZero | src/backend/StatMappingUtility.js:150 | no converted entry has the value 0 |
| StatTable.ConvertedCovers | src/backend/StatMappingUtility.js:149-165 | every nonzero vendor entry leaves an entry under its target name |
| StatTable.ConvertedProduced | src/backend/StatMappingUtility.js:149-165 | every converted entry comes from some nonzero vendor entry |
| StatTable.ConvertedValue | src/backend/StatMappingUtility.js:152-165 | the value stored under a name is the one given by the last nonzero entry that writes that name |
| StatTable.MappedKept | src/backend/StatMappingUtility.js:152-160 | a mapped key's value is stored under its engine name, multiplied by 100 if the key contains `Percent` or `Crit` and unchanged otherwise |
| StatTable.UnmappedKeptIn | src/backend/StatMappingUtility.js:161-165 | an unmapped nonzero key keeps its value under `_unmapped_` + key, for any table of plain engine names |
| StatTable.UnmappedKept | src/backend/StatMappingUtility.js:161-165 | the same, for `STAT_MAPPINGS` itself |
| StatTable.LastSourceIndex | src/backend/StatMappingUtility.js:438-441 | the last table position with a given engine name, or -1 when there is none |
| StatTable.ReverseMapping | src/backend/StatMappingUtility.js:438-441 | the reverse mapping has unique keys |
| StatTable.ReverseMappingGet | src/backend/StatMappingUtility.js:438-441 | an engine name maps back to the vendor key of its last table entry, and to nothing if the table never produces it |
| StatTable.ToRiot | src/backend/StatMappingUtility.js:434-456 | the vendor-format object has unique keys |
| StatTable.ConvertToRiotFormat | src/backend/StatMappingUtility.js:434-456 | the loop computes exactly `ToRiot` of the reverse mapping of `STAT_MAPPINGS` |
| StatTable.BuildReverseMapping | src/backend/StatMappingUtility.js:438-441 | the first loop builds exactly the reverse mapping, in which the last vendor key naming an engine stat wins |
| StatTable.ApplyReverseMapping | src/backend/StatMappingUtility.js:443-453 | the second loop keeps only engine stats that have a vendor key and stores each under that key, divided by 100 for percent and crit keys |
| StatTable.ToRiotValue | src/backend/StatMappingUtility.js:443-452 | a reverse-mapped engine entry is stored under its vendor key, divided by 100 for percent and crit keys |
| StatTable.ReverseOnlyFrom | src/backend/StatMappingUtility.js:438-441 | with unique vendor keys, a vendor key is the reverse image of its own engine name only |
| StatTable.RoundTrip | src/backend/StatMappingUtility.js:146-169 | converting a vendor entry and converting the result back returns its original value, when its key is the last table source of its engine name |
| ItemConversion.BodyRun | src/backend/StatMappingUtility.js:203 | a `<`-free prefix of the text that stops only at a `<` or at the end: what `[^<]+` can cover |
| ItemConversion.MatchAt | src/backend/StatMappingUtility.js:203 | a match of `<tag>([^<]+)</tag>` at the first character: the text starts with the open tag, the body and the close tag, and the body is non-empty and `<`-free |
| ItemConversion.TagsOf | src/backend/StatMappingUtility.js:207-210 | one tag per body, in order |
| ItemConversion.ExtractTagged | src/backend/StatMappingUtility.js:198-237 | the `exec` loop with `lastIndex` returns exactly the tags of the bodies the global scan finds, and nothing for a missing or empty description |
| ItemConversion.ExtractPassives | src/backend/StatMappingUtility.js:198-214 | the `<passive>` sections, as `ExtractTagged` |
| ItemConversion.ExtractActives | src/backend/StatMappingUtility.js:221-237 | the `<active>` sections, as `ExtractTagged` |
| ItemConversion.ScanSection | src/backend/StatMappingUtility.js:203-206 | a leading tagged section is found first, and the scan resumes right after it |
| ItemConversion.ScanWrapped | src/backend/StatMappingUtility.js:198-214 | from a description built of tagged non-empty, `<`-free bodies, the scanner recovers exactly those bodies |
| ItemConversion.ScanPlain | src/backend/StatMappingUtility.js:198-214 | text without `<` yields no section |
| ItemConversion.ScanBodies | src/backend/StatMappingUtility.js:203 | every found body is non-empty and contains no `<` |
| ItemConversion.ScanFound | src/backend/StatMappingUtility.js:203-206 | every found body occurs in the description wrapped in its tags |
| ItemConversion.MakeTagName | src/backend/StatMappingUtility.js:207-210 | a tag's name contains no `:` and does not start with white space; its description is the whole body |
| ItemConversion.ConvertEffects | src/backend/StatMappingUtility.js:176-191 | the loop over indexes 1..10 computes exactly `EffectsUpTo(effects, 10)` |
| ItemConversion.EffectsSound | src/backend/StatMappingUtility.js:180-187 | every listed effect has an index in 1..n whose key is present, and the value `parseFloat(...) \|\| 0` gives for it |
| ItemConversion.EffectsOrdered | src/backend/StatMappingUtility.js:180-187 | the effects come in strictly increasing index order |
| ItemConversion.EffectsComplete | src/backend/StatMappingUtility.js:180-187 | every present key `Effect{i}Amount` with i in 1..n is listed |
| ItemConversion.ConvertItem | src/backend/StatMappingUtility.js:102-139 | returns `ConvertedItem` of the record: `null` for a missing record, otherwise the defaulted fields, the converted stats, the effects and the tags |
| ItemConversion.ConvertedItemShape | src/backend/StatMappingUtility.js:105-136 | a converted item always has a gold object, a stats object with unique keys and no zero values, passive and active lists, and a nonzero depth; it is purchasable unless the record explicitly says it is not |
| ItemConversion.AllItems | src/backend/StatMappingUtility.js:395-407 | the filtered and converted items have unique keys |
| ItemConversion.ConvertAllItems | src/backend/StatMappingUtility.js:395-407 | the loop computes exactly `AllItems` of `STAT_MAPPINGS` and the input |
| ItemConversion.AllItemsGet | src/backend/StatMappingUtility.js:398-404 | each key maps to its converted item exactly when the item is kept (purchasable and not hidden from all), and to nothing otherwise |
| ItemConversion.AllItemsAbsent | src/backend/StatMappingUtility.js:398-404 | a key the input lacks is absent from the output |
| ItemConversion.MissingPurchasableDropped | src/backend/StatMappingUtility.js:114 | an item whose gold object lacks `purchasable` is dropped by `convertAllItems`, although `convertItem` marks it purchasable |
| ChampionConversion.ConvertChampion | src/backend/StatMappingUtility.js:248-262 | `null` exactly for a missing record; otherwise `id`, `key`, `name` and `title` are copied, `tags` is the given list or `[]`, `partype` the given non-empty value or `Mana`, and the stats are the converted champion stats (so attack speed is nonzero) |
| ChampionConversion.ChampionStatsRoundTrip | src/backend/StatMappingUtility.js:269-293 | each of the twenty fields is read from its own vendor key: converting the vendor form of any stats with nonzero attack speed returns them unchanged |
| ChampionConversion.ChampionStatsDefaults | src/backend/StatMappingUtility.js:269-293 | for any vendor record, each of the nineteen stats with default 0 is its vendor value, 0 when that is missing or 0; a missing or zero attack speed becomes 0.625, any other is kept, so attack speed is never 0 |
| ChampionConversion.UnknownShardEmpty | src/backend/StatMappingUtility.js:335-384 | an unknown shard type or choice gives no bonus |
| ChampionConversion.KnownShardValues | src/backend/StatMappingUtility.js:338-381 | every known shard choice gives its bonus; the defense health shard gives 15 health plus 140/18 per level |
| ChampionConversion.ValidateStats | src/backend/StatMappingUtility.js:467-490 | the result lists exactly the required stats that are missing (undefined or null) and those present, and is valid exactly when none is missing |
| ChampionConversion.SplitNames | src/backend/StatMappingUtility.js:473-482 | the missing and present lists split the required names with nothing lost or repeated |
| ChampionConversion.MissingEmptyIff | src/backend/StatMappingUtility.js:485 | nothing is missing exactly when every name is present |
| ChampionConversion.FillDefaultsSpec | src/backend/StatMappingUtility.js:497-532 | the filled object has every default key and every input key; input keys keep their input values and the other default keys get 0 |
| ChampionConversion.FillDefaultsIdempotent | src/backend/StatMappingUtility.js:497-532 | filling in the defaults twice gives the same result as once |
| ChampionConversion.FilledValid | src/backend/StatMappingUtility.js:467-532 | after default filling, a required stat can be missing only because of an explicit `null` |
| Calculator.BaseStatGrowth | src/backend/CalculationEngine.js:29-33 | a stat equals its base at level 1 and base plus 17 growths at level 18, and never decreases with level when growth is non-negative |
| Calculator.SumStatAppend | src/backend/CalculationEngine.js:44-46 | the item sum over two item lists concatenated is the sum of the two sums |
| Calculator.SumStatBounds | src/backend/CalculationEngine.js:396-400 | with no negative values the sum is at least every item's value, and it is 0 when no item has the stat |
| Calculator.TopStatSpec | src/backend/CalculationEngine.js:402-409 | the highest nonzero value is absent exactly when all items have 0; otherwise it is at least every item's value and equals one of them |
| Calculator.MaxStatSpec | src/backend/CalculationEngine.js:402-409 | the percentage getters give 0 when no item has a nonzero value, and otherwise the largest nonzero value, which some item has |
| Calculator.PercentPenNoStack | src/backend/CalculationEngine.js:396-409 | items that all carry the same nonzero value give that value as the maximum, but \|items\| times it as the sum: percentage penetration does not stack, lethality does |
| Calculator.AttackSpeedAtLevelOne | src/backend/CalculationEngine.js:35-50 | at level 1 the attack speed is the base times 1 plus the items' attack-speed percentages over 100 |
| Calculator.AttackSpeedDefaults | src/backend/CalculationEngine.js:35-50 | a champion without a base attack speed counts as 0.625; at level 18 the level bonus is seventeen times the per-level percentage over 100 |
| Calculator.AttackSpeedGrowth | src/backend/CalculationEngine.js:35-50 | with non-negative per-level growth, attack speed does not fall as the level rises over levels ≥ 1 |
| Calculator.AttackSpeedItemAdds | src/backend/CalculationEngine.js:43-49 | each further item adds its attack-speed percentage of the base attack speed, not of the running total |
| Calculator.FlatEntriesAdd | src/backend/CalculationEngine.js:196-202 | flat entries with unique keys add each key's value exactly once |
| Calculator.FlatItemsAdd | src/backend/CalculationEngine.js:177-214 | for items with only flat keys, every stat except crit damage ends at its start value plus the items' sum |
| Calculator.PassivesKeep | src/backend/CalculationEngine.js:216-225 | passives change only the crit damage |
| Calculator.PerfectionStacks | src/backend/CalculationEngine.js:216-225 | each `Perfection` passive adds 35 to a positive crit damage |
| Calculator.PercentEntryScales | src/backend/CalculationEngine.js:189-194 | an entry `b + "Percent"` scales stat `b` by `1 + v/100` when `b` holds no `P` |
| Calculator.EntryOrderMatters | src/backend/CalculationEngine.js:183-203 | a flat bonus listed before a percentage bonus is scaled by it; listed after, it is not |
| Calculator.PercentAfterP | src/backend/CalculationEngine.js:189-190 | a key `a + "P" + e + "Percent"`, whose only `P` before the suffix does not begin `Percent`, is a percent key whose base name is `a + "P" + e` (so `armorPenetrationPercent` names `armorPenetration`) |
| Calculator.ArmorPenPercentIgnored | src/backend/CalculationEngine.js:189-194 | when the totals have no `armorPenetration`, an item's `armorPenetrationPercent` entry changes nothing |
| Calculator.BaseStatsLackArmorPen | src/backend/CalculationEngine.js:96-155 | the base totals have `armorPenetrationPercent` but no `armorPenetration` |
| Calculator.AttackSpeedCountedTwice | src/backend/CalculationEngine.js:44-46 | for items with only flat keys, the final attack speed is the item-scaled attack speed plus the items' attack speed sum once more |
| Calculator.HealthShardRange | src/backend/CalculationEngine.js:258-264 | the health shard gives 15 at level 1 and 155 at level 18, and grows with level |
| Calculator.DoubleAdaptive | src/backend/CalculationEngine.js:235-256 | two adaptive shards go to the same stat, 10.8 attack damage or 18 ability power in total, because the flex comparison sees the offense shard |
| Calculator.UnknownShardsNoop | src/backend/CalculationEngine.js:231-270 | shard choices the engine does not know, and absent ones, change nothing |
| Calculator.DragonStacksAdd | src/backend/CalculationEngine.js:293-302 | applying a stacks and then b stacks is the same as applying a + b stacks |
| Calculator.NoBuffsNoop | src/backend/CalculationEngine.js:276-291 | without Baron and without dragon stacks the buffs change nothing; elder dragon and dragon soul never change anything |
| Calculator.CooldownReduction | src/backend/CalculationEngine.js:427-434 | non-negative ability haste gives a finite reduction in [0, 100) that grows with haste; the cooldown is the base reduced by that percentage, and 100 haste halves it |
| Calculator.EffectiveHealthScale | src/backend/CalculationEngine.js:436-441 | effective health is health times 1 plus the resistance over 100, so 100 armor doubles it |
| Calculator.EffectiveArmor | src/backend/CalculationEngine.js:343-354 | the armor left after reduction and penetration is never negative |
| Calculator.EffectiveMagicResist | src/backend/CalculationEngine.js:368-370 | the magic resist left after penetration is never negative |
| Calculator.MitigateBounds | src/backend/CalculationEngine.js:357-358 | no resistance leaves the damage unchanged, 100 halves it, and non-negative damage stays between 0 and raw, decreasing as resistance grows |
| Calculator.PhysicalDamageFacts | src/backend/CalculationEngine.js:334-359 | with no armor the damage is raw, 100 armor without penetration halves it, and non-negative raw damage stays in [0, raw] |
| Calculator.LethalityMonotone | src/backend/CalculationEngine.js:349-352 | more lethality never leaves more armor |
| Calculator.MagicDamageFacts | src/backend/CalculationEngine.js:361-375 | with no magic resist the damage is raw, 100 without penetration halves it, and non-negative raw damage stays in [0, raw] |
| Calculator.CritMultiplierEnds | src/backend/CalculationEngine.js:386 | with no crit chance the factor is 1, and with full crit chance it is the crit damage over 100 |
| Calculator.CritMultiplierBounds | src/backend/CalculationEngine.js:386 | for crit chance in [0, 100] and crit damage of at least 100, the crit factor lies between 1 and crit damage over 100 |
| Calculator.DpsBounds | src/backend/CalculationEngine.js:377-390 | for non-negative attack damage and attack speed and a crit chance in [0, 100], the DPS lies between 0 and attack damage times crit factor times attack speed; with no crit chance it is the mitigated attack damage times the attack speed |
| Calculator.DpsOneHundredAttackDamage | src/backend/CalculationEngine.js:377-390 | 100 attack damage against 50 armor, with no crit and 1.25 attacks per second, gives 250/3 DPS |
| Calculator.FreshCalculatorStats | src/backend/CalculationEngine.js:5-23 | a fresh calculator reports the champion's level-1 base totals: base health and attack damage, crit damage 175, the base attack speed, and no cooldown reduction |
| Calculator.Clamp | src/backend/CalculationEngine.js:56-58 | the level is kept in [1, 18]: unchanged inside the range, otherwise the nearer end |
| Calculator.FirstMatch | src/backend/CalculationEngine.js:75-77 | the position of the first item with the argument's id or name, or -1 when there is no such item |
| Calculator.BareIdMatchesNothing | src/backend/CalculationEngine.js:74-84 | an argument with neither `id` nor `name` matches no item that has both |
| Calculator.Take | src/backend/CalculationEngine.js:312-320 | `slice(0, n)` is the longest prefix of length at most n |
| Calculator.ChampionCalculator.constructor | src/backend/CalculationEngine.js:5-23 | level 1, no items, no runes, no buffs |
| Calculator.ChampionCalculator.SetLevel | src/backend/CalculationEngine.js:56-58 | the level becomes the clamped argument and nothing else changes |
| Calculator.ChampionCalculator.AddItem | src/backend/CalculationEngine.js:64-72 | the item is appended exactly when fewer than six are held, the result says whether it was, and nothing else changes |
| Calculator.ChampionCalculator.RemoveItem | src/backend/CalculationEngine.js:74-84 | the first matching item is removed and the rest keep their order; without a match nothing changes; the result says which case happened |
| Calculator.ChampionCalculator.ClearItems | src/backend/CalculationEngine.js:86-88 | no items remain and nothing else changes |
| Calculator.ChampionCalculator.SetKeystone | src/backend/CalculationEngine.js:308-310 | only the keystone changes |
| Calculator.ChampionCalculator.SetPrimaryRunes | src/backend/CalculationEngine.js:312-315 | the primary tree becomes the first three runes, and nothing else changes |
| Calculator.ChampionCalculator.SetSecondaryRunes | src/backend/CalculationEngine.js:317-320 | the secondary tree becomes the first two runes, and nothing else changes |
| Calculator.ChampionCalculator.SetStatShards | src/backend/CalculationEngine.js:322-328 | only the three stat shards change |
| Calculator.ApplyStatEntry | src/backend/CalculationEngine.js:184-202 | one item entry: unmapped keys change nothing, a percent key multiplies its base stat only when the totals have it, any other key is added to (starting from 0 when absent) |
| Calculator.ChampionCalculator.ApplyItemStats | src/backend/CalculationEngine.js:177-214 | the nested loops over items and their entries compute `ApplyItems`: unmapped keys skipped, percent keys scaling their base stat, flat keys added, passives applied |
| Calculator.ChampionCalculator.ApplyItemPassives | src/backend/CalculationEngine.js:216-225 | the loop computes `ApplyPassives` |
| Calculator.ChampionCalculator.ApplyRuneStats | src/backend/CalculationEngine.js:231-270 | the offense, flex and defense shards in that order, which is `ApplyShards` at the current level |
| Calculator.ChampionCalculator.CalculateFinalStats | src/backend/CalculationEngine.js:94-171 | the final totals are `FinalStatsOf` the current state (base stats, items, runes, buffs, then cooldown reduction and effective health) |
| Calculator.ChampionCalculator.GetLethality | src/backend/CalculationEngine.js:396-400 | the items' lethality added up: at least each item's when none is negative, 0 when no item has any |
| Calculator.ChampionCalculator.GetArmorPenPercent | src/backend/CalculationEngine.js:402-409 | 0 when no item has a nonzero armor penetration percentage; otherwise the largest one, which some item has (not a sum) |
| Calculator.ChampionCalculator.GetMagicPenFlat | src/backend/CalculationEngine.js:411-415 | the items' flat magic penetration added up: at least each item's when none is negative, 0 when no item has any |
| Calculator.ChampionCalculator.GetMagicPenPercent | src/backend/CalculationEngine.js:417-421 | 0 when no item has a nonzero magic penetration percentage; otherwise the largest one, which some item has |
| Calculator.ChampionCalculator.CalculatePhysicalDamage | src/backend/CalculationEngine.js:334-359 | using the items' lethality and highest armor penetration, non-negative raw damage stays in [0, raw] |
| Calculator.ChampionCalculator.CalculateMagicDamage | src/backend/CalculationEngine.js:361-375 | using the items' flat and highest percentage magic penetration, non-negative raw damage stays in [0, raw] |
| Calculator.ChampionCalculator.CalculateAutoAttackDPS | src/backend/CalculationEngine.js:377-390 | the DPS of the current final totals against the target's armor and level |
| Calculator.ChampionCalculator.CalculateCooldown | src/backend/CalculationEngine.js:431-434 | the cooldown scaled by the given haste; an absent or zero argument falls back to the final totals' ability haste |
| Calculator.ChampionCalculator.CalculateHealingPower | src/backend/CalculationEngine.js:443-447 | the heal scaled by 1 plus the final heal and shield power over 100 |
| Storage.SimplifyItems | src/backend/BuildStorage.js:226-233 | one stored item per item, in order, each with its id, name, cost and stats |
| Storage.TotalCostAppend | src/backend/BuildStorage.js:236-240 | the cost of two item lists concatenated is the sum of their costs |
| Storage.TotalCostOfStored | src/backend/BuildStorage.js:47-48 | the saved total cost equals the sum of the stored items' costs |
| Storage.Round | src/backend/BuildStorage.js:288 | `Math.round`: the integer r with r ≤ x + 0.5 < r + 1 |
| Storage.GoldEfficiencyCases | src/backend/BuildStorage.js:243-289 | 0 without items or with zero cost; an error exactly when items cost something but there are no stats; otherwise never negative |
| Storage.StatsGoldNonNegative | src/backend/BuildStorage.js:273-282 | only positive values of priced stats add gold, so the stats' gold value is never negative |
| Storage.GoldEfficiencyExample | src/backend/BuildStorage.js:255-288 | a 3000-gold item with 60 attack damage (35 gold each) scores 70 |
| Storage.NewBuildDefaults | src/backend/BuildStorage.js:36-74 | an unnamed build is named `Build <n+1>`; the level defaults to 1; the items are simplified and their cost totalled; the id and timestamp are the given ones |
| Storage.MergeFacts | src/backend/BuildStorage.js:100-104 | an empty update changes nothing, and a rename changes only the name |
| Storage.FindBuild | src/backend/BuildStorage.js:93 | the position of the first build with the id, or -1 |
| Storage.WithoutIdSpec | src/backend/BuildStorage.js:119 | the filter keeps exactly the builds without the id; its length drops by their count; it changes nothing when no build has the id |
| Storage.WithoutIdAppend | src/backend/BuildStorage.js:119 | filtering a concatenation filters each part |
| Storage.ByChampionSpec | src/backend/BuildStorage.js:330-333 | the champion's builds are exactly the stored builds with its key |
| Storage.ImportedAll | src/backend/BuildStorage.js:187-194 | one imported build per source build |
| Storage.ImportedAllAt | src/backend/BuildStorage.js:187-194 | each imported build keeps its content, gets its fresh id and its own clock reading, and is marked imported |
| Storage.Capped | src/backend/BuildStorage.js:197-199 | at most fifty builds, a prefix of the list, unchanged when already within the cap |
| Storage.ImportOrder | src/backend/BuildStorage.js:184-199 | when not replacing, the existing builds come first, followed by the imported ones, then the list is cut to fifty; when replacing, only the imported ones are kept |
| Storage.SortSpec | src/backend/BuildStorage.js:16-17 | the sorted builds are newest first and a permutation of the stored ones |
| Storage.SortStable | src/backend/BuildStorage.js:16-17 | the sort is stable: the builds sharing any one timestamp keep their stored order |
| Storage.SortedUnchanged | src/backend/BuildStorage.js:16-17 | a store that is already newest first is read back as it is |
| Storage.ByChampionSorted | src/backend/BuildStorage.js:330-333 | a champion's builds taken from a newest-first list are newest first |
| Storage.ByChampionAppend | src/backend/BuildStorage.js:330-333 | the filter distributes over concatenation, so a champion's builds come out in list order |
| Storage.BuildStorage.constructor | src/backend/BuildStorage.js:3-13 | a browser with nothing stored under the key, so every read gives the empty list |
| Storage.BuildStorage.GetAllBuilds | src/backend/BuildStorage.js:9-22 | the stored builds newest first by `timestamp`, a permutation of them in which equal timestamps keep their stored order; a newest-first store reads back unchanged |
| Storage.BuildStorage.SaveBuild | src/backend/BuildStorage.js:25-87 | refused at fifty builds; fails with the efficiency error; in both cases nothing is written; otherwise the new build is put in front of the sorted builds, that list is stored and the build returned |
| Storage.BuildStorage.CalculateGoldEfficiency | src/backend/BuildStorage.js:243-289 | the loop computes exactly `GoldEfficiency` |
| Storage.BuildStorage.UpdateBuild | src/backend/BuildStorage.js:90-112 | the first build with the id in the sorted builds is merged with the update and given `lastModified`; the sorted list with that one change is stored; an unknown id fails and writes nothing |
| Storage.BuildStorage.RenameBuild | src/backend/BuildStorage.js:139-141 | the first build with the id in the sorted builds gets only the new name and `lastModified`; an unknown id fails and writes nothing |
| Storage.BuildStorage.DeleteBuild | src/backend/BuildStorage.js:115-130 | every build with the id is removed from the sorted builds and the rest stored; an unknown id fails and writes nothing; the store never grows, so the cap keeps holding |
| Storage.BuildStorage.GetBuildById | src/backend/BuildStorage.js:133-136 | the first build with the id in the sorted builds; absent exactly when no stored build has the id |
| Storage.BuildStorage.DuplicateBuild | src/backend/BuildStorage.js:144-167 | a copy of the build `getBuildById` finds, named `<name> (Copy)` with a fresh id and `timestamp` (every other field, `lastModified` included, copied), is put in front of the sorted builds, whatever their number; an unknown id fails and writes nothing |
| Storage.PushImported | src/backend/BuildStorage.js:187-194 | the `forEach` loop appends exactly `ImportedAll` of the imported builds after the builds already there |
| Storage.BuildStorage.ImportBuilds | src/backend/BuildStorage.js:176-207 | a parse error or a non-array fails and writes nothing; otherwise the store becomes `AfterImport` of the sorted builds (none when replacing), each imported build with its own id and clock reading, and the count of imported builds is returned |
| Storage.BuildStorage.ClearAllBuilds | src/backend/BuildStorage.js:210-218 | the store becomes empty |
| Storage.BuildStorage.GetBuildsByChampion | src/backend/BuildStorage.js:330-333 | exactly the stored builds of that champion, each of them, newest first, in the order of the sorted builds |

## Left out

- getDebugInfo (src/backend/CalculationEngine.js:453-467) returns a debug snapshot only, so it is not modelled.
- Browser `localStorage`, `JSON.stringify`/`JSON.parse` and the `try`/`catch` around them are not modelled. The store is a field; import input arrives already classified as a parse error, a non-array or an array of builds.
- `Date.now()` and `generateId` (src/backend/BuildStorage.js:221-223) are parameters, because clocks and randomness are outside the model. A single-build operation takes one reading (`now`, `newId`). Storage.BuildStorage.ImportBuilds takes one id and one clock reading per imported build (`idFor(k)`, `dateFor(k)`), since the source calls both once per build.
- Calculator.ChampionCalculator.CalculatePhysicalDamage, CalculateMagicDamage and CalculateAutoAttackDPS: the source's default arguments (`targetArmor = 0`, `targetMR = 0`, `targetLevel = this.level`) are not modelled; the caller passes those values explicitly. `calculateMagicDamage`'s `targetLevel` argument is unused in the source and is dropped.
- exportBuilds, getStorageInfo, formatBytes, searchBuilds and sortBuilds (src/backend/BuildStorage.js:170-173, 292-327, 336-366) are not modelled. They only read, format or sort for display, write nothing, and depend on JSON text, blob sizes, lower-casing and locale comparison.
- Storage.SortNewest: builds are taken to carry a numeric `timestamp`. An imported build without one makes the comparator return `NaN`, and the order JavaScript then gives is implementation-defined.
- convertRune and convertAllChampions (src/backend/StatMappingUtility.js:304-323, 414-422) are not modelled: they copy records field by field and loop over `convertChampion`, which is modelled.
- `console.warn` output is not modelled.
- Calculator.StatOf: a stat key missing from the totals reads as 0, whereas JavaScript would produce `NaN`. The base totals define every key the calculator reads, so this only affects keys an item adds.
- Item stat keys that collide with `Object.prototype` members (such as `constructor`) are not modelled.
- Storage.Merge: update properties other than the build's own fields are dropped rather than copied onto the build.
- ChampionConversion.ConvertChampion: the `info` and `image` fields are not modelled. A record without `stats`, where the source throws, cannot be expressed: the model's record always has a stats object.
- ChampionConversion.FillDefaults: fills and reads by key but does not model the key order of the spread object.
- StatTable.RoundTrip: holds only for a vendor key that is the last table entry producing its engine name. It assumes the table's vendor keys are unique, which every JavaScript object literal guarantees, but the lemma takes this as a premise rather than proving it for `STAT_MAPPINGS`.
- removeItem's callers in src/components/DamageCalculator.js:75 and src/backend/ChampionBuilder.js:67 pass a bare id string. Calculator.BareIdMatchesNothing shows that such a call removes nothing; the callers themselves are not modelled.
- The source has no setter for `buffs`; callers assign the public field. The model keeps it as a field and has no method for it.
- Elder dragon and dragon soul have no stat effect in the source, and none in the model.
- Numbers are exact reals: floating-point rounding is not modelled, and neither is division by zero outside `abilityHasteToCDR` and `calculateCooldown`, where it is explicit.
