# G-I_buildcard in Dafny

A model of the build-card generator for Genshin Impact characters
(KouSug/G-I_buildcard), with proofs about it. The generator has five parts:

- **Input form** (`src/components/InputForm.tsx`). It turns an Enka.Network
  character snapshot into a build record: character, weapon, stats and the
  five artifact pieces. It also handles the form's edits to that record.
- **Artifact scoring** (`src/utils/score.ts`). A piece's crit-value score is
  crit rate × 2, plus crit damage, plus the one percent stat the chosen
  score base counts. Grades are B, A, S and SS, taken from a per-piece
  table and a total table.
- **Stat-code translator** (`src/utils/mappings.ts`). It maps `FIGHT_PROP_*`
  codes to their Japanese labels and formats values as the card shows them.
- **The card** (`src/components/BuildCard.tsx`). It counts set pieces,
  lists active set bonuses, sums the total score, and picks highlights,
  rarity colours and labels. The **page** (`src/app/page.tsx`) holds the
  default build, and the form updates that build.
- **Two offline scripts**:
  - `scripts/update-game-data.js` builds the game database the form reads,
    from the game's configuration tables and text map.
  - `scripts/convert-artifact-stats.js` turns the main-stat CSV tables into
    one JSON dictionary.

How the model is organised:

- **Plain data.** The build record and snapshot are datatypes (`types.dfy`).
  Each operation is a function over them. Every loop in the source that
  fills a result step by step is also a method with loop invariants, proved
  equal to that function. These loops are the score loop, the set count,
  the artifact merge, the generator's dictionary loops and the CSV parser.
- **Numbers.** They are exact reals. The JavaScript operations the code
  relies on are written out in `JsNumber`: `Math.round`, `toFixed(1)`,
  `parseFloat` and `parseInt`.
- **Strings.** The string operations (`trim`, `replace`, `startsWith`,
  digit rendering) are written out in `JsString`.

The card grades each piece by the slot's English name (`flower`, `plume`,
…). The per-piece table only switches to its stricter bounds for the
Japanese names `生の花` and `死の羽`, so the card always uses the standard
table. The model keeps this behaviour as written
(`BuildCard.PieceGradeStandardTable`, `BuildCard.FlowerAtFortyFive`).

Two behaviours a reader might not expect, which the model keeps as written:

- **Scores can be negative.** Nothing clamps a score at 0. A crit-rate
  substat of `-5` scores −10 (`Score.NegativeSubstatGivesNegativeScore`),
  and non-negativity holds only when no substat is negative.
- **Percent values are not scaled.** `formatStatValue` does not multiply a
  percent stat by 100, so a raw ratio of 0.331 prints as `0.3%`
  (`Mappings.RatioIsNotScaled`).

## Model

| member | source | states |
|---|---|---|
| Types.SlotNameInjective | src/types/index.ts:33 | Two slots with the same name are the same slot. |
| JsNumber.MathRound | src/utils/mappings.ts:43 | `Math.round` gives the integer within half of x, rounding halves up. |
| JsNumber.Tenths | src/utils/score.ts:37 | `toFixed(1)` keeps the tenths of \|x\| rounded half away from zero, with x's sign. |
| JsNumber.ToFixed1 | src/utils/score.ts:37 | Rounding to one decimal moves a value by at most 0.05. |
| JsNumber.ToFixed1Monotone | src/utils/score.ts:37 | Rounding to one decimal never reverses the order of two values. |
| JsNumber.ToFixed1OfTenths | src/utils/score.ts:37 | A value that already has one decimal is unchanged by rounding. |
| JsNumber.ToFixed1String | src/utils/mappings.ts:41 | `toFixed(1)` text: a `-` exactly for negative values, and one digit after the point. |
| JsNumber.ParseFloatToFixed1 | src/utils/mappings.ts:41 | `parseFloat` reads back exactly the rounded value that `toFixed(1)` printed. |
| JsNumber.ParseFloatIntToString | src/utils/mappings.ts:43 | `parseFloat` reads back exactly the integer `String(i)` printed, negatives included. |
| JsNumber.ParseIntNatToString | src/components/InputForm.tsx:101 | `parseInt` reads back exactly the natural number its text spells. |
| JsString.TrimEmptyIffBlank | src/components/InputForm.tsx:43-44 | `trim()` gives the empty string exactly when every character is white space. |
| JsString.TrimStart | src/components/InputForm.tsx:43 | The result is a suffix; it starts with a non-space; every dropped character is white space. |
| JsString.TrimEnd | src/components/InputForm.tsx:43 | The result is a prefix; it ends with a non-space; every dropped character is white space. |
| JsString.RemoveAll | scripts/convert-artifact-stats.js:79 | `replace(/"/g, '')` leaves no quote and never lengthens the text. |
| JsString.NatToStringRoundTrip | scripts/convert-artifact-stats.js:75 | Reading back the decimal text of n gives n. |
| JsString.LeadingDigits | scripts/convert-artifact-stats.js:72 | `\d+` takes the longest digit prefix, stopping at the first non-digit. |
| Mappings.StatMapShape | src/utils/mappings.ts:1-22 | The table has twenty codes and no two codes share a label. |
| Mappings.StatEntries0 | src/utils/mappings.ts:2-6 | The labels of HP, HP%, ATK, base ATK and ATK%. |
| Mappings.StatEntries1 | src/utils/mappings.ts:7-11 | The labels of DEF, DEF%, crit rate, crit damage and energy recharge. |
| Mappings.StatEntries2 | src/utils/mappings.ts:12-16 | The labels of elemental mastery and of the physical, pyro, electro and hydro bonuses. |
| Mappings.StatEntries3 | src/utils/mappings.ts:17-21 | The labels of the dendro, anemo, geo and cryo bonuses and of the healing bonus. |
| Mappings.StatMapValues | src/utils/mappings.ts:1-22 | The labels the table uses are exactly the twenty display labels. |
| Mappings.LabelOf | src/components/InputForm.tsx:137 | `statMap[code] \|\| code`: the label of a known code, the raw code otherwise. |
| Mappings.PercentCodes | src/utils/mappings.ts:24-31 | Each of the six tests (`_PERCENT` suffix, `_ADD_HURT`, the four named codes) makes a code a percent stat. |
| Mappings.FlatCode | src/utils/mappings.ts:24-31 | Conversely, a code passing none of the tests is not a percent stat. |
| Mappings.FlatCodesAreNotPercent | src/utils/mappings.ts:24-31 | The five flat stats of the table (HP, ATK, base ATK, DEF, EM) are not percent stats. |
| Mappings.DamageBonusCodesArePercent | src/utils/mappings.ts:24-31 | Every damage-bonus code of the table is a percent stat. |
| Mappings.FormatEndsWithPercent | src/utils/mappings.ts:33-44 | The formatted text ends in `%` exactly for percent stats. |
| Mappings.FormatReadBack | src/utils/mappings.ts:33-44 | Stripping `%` and parsing the formatted text gives the value to one decimal for a percent stat, and the nearest integer otherwise. |
| Mappings.RatioIsNotScaled | src/utils/mappings.ts:41 | A percent value is not multiplied by 100: the ratio 0.331 prints as `0.3%`. |
| Score.ResolveBase | src/utils/score.ts:3 | An absent score base counts as `atk`; a given one is kept. |
| Score.BaseLabel | src/utils/score.ts:19-33 | The base's label is neither crit label, so no substat is counted twice over. |
| Score.ScoringLabels | src/utils/score.ts:11-33 | Crit rate, crit damage and the base's label all count towards the score. |
| Score.InScoringLabels | src/utils/score.ts:11-33 | A label counts exactly when it is crit rate, crit damage or the base's label. |
| Score.ThreeScoringLabels | src/utils/score.ts:11-33 | Under every base, exactly three distinct labels count. |
| Score.CritLabelsAreTableLabels | src/utils/score.ts:11-17 | The two crit labels the score compares against are the translator's labels of the crit-rate and crit-damage codes. |
| Score.BaseLabelIsTableLabel | src/utils/score.ts:20-33 | Each base's label is the translator's label of that base's stat code. |
| Score.BaseCodeIsPercent | src/utils/score.ts:20-33 | Each base's stat code is a percent stat, so its substats are printed with `%`. |
| Score.Contribution | src/utils/score.ts:7-34 | An unparsable substat or an uncounted label adds 0; a non-negative counted value adds a non-negative amount. |
| Score.CritRateCountsTwice | src/utils/score.ts:11-13 | Crit rate adds twice its value under every base. |
| Score.CritDamageCountsOnce | src/utils/score.ts:15-17 | Crit damage adds its value once under every base. |
| Score.BaseLabelCountsOnce | src/utils/score.ts:19-33 | The base's own percent label adds its value once. |
| Score.ContributionOf | src/utils/score.ts:18-33 | A label other than the crit labels adds its value when it is the base's label, and nothing otherwise. |
| Score.ContributionOfParsed | src/utils/score.ts:6-35 | A parsed substat's weight is 2 for crit rate, 1 for crit damage or the base label, and 0 otherwise. |
| Score.FormattedSubstatValue | src/utils/score.ts:7 | A percent substat printed by the translator reads back as its value rounded to one decimal. |
| Score.SubstatGain | src/utils/score.ts:7-34 | The callback body adds exactly the substat's contribution. |
| Score.CalculateArtifactScore | src/utils/score.ts:3-38 | The loop's result is the substat sum rounded to one decimal. |
| Score.ArtifactScore | src/utils/score.ts:3-38 | The score is within 0.05 of the exact weighted sum of the substats. |
| Score.IgnoredSubstat | src/utils/score.ts:7-8 | Adding an unparsable substat or an uncounted label anywhere leaves the score unchanged. |
| Score.ScoreMonotone | src/utils/score.ts:6-37 | Adding a substat with a non-negative value never lowers the score. |
| Score.ScoreNonNegative | src/utils/score.ts:3-38 | With no negative substat value, the score is not negative. |
| Score.NegativeSubstatGivesNegativeScore | src/utils/score.ts:3-38 | Nothing clamps the score: a crit-rate substat of `-5` scores −10. |
| Score.ScoreReadsOnlySubStats | src/utils/score.ts:3-38 | Pieces with the same substats score alike; no base scores as `atk`. |
| Score.ParsedIntText | src/utils/score.ts:7 | A substat whose text is an integer reads as that integer. |
| Score.ParsedPercentText | src/utils/score.ts:7 | A substat printed as tenths followed by `%` reads as that number of tenths. |
| Score.GradeOf | src/utils/score.ts:43-52 | With ordered bounds, the grade is SS, S, A or B exactly when the score reaches the respective bound. |
| Score.ArtifactRank | src/utils/score.ts:40-54 | Flower and plume names use bounds 50/45/40; every other slot name uses 45/40/30. |
| Score.TotalRank | src/utils/score.ts:56-61 | A total reaches SS, S or A exactly when it is at least 220, 200 or 180. |
| Score.ArtifactRankMonotone | src/utils/score.ts:40-54 | A higher score never gets a lower piece grade. |
| Score.TotalRankMonotone | src/utils/score.ts:56-61 | A higher total never gets a lower total grade. |
| Score.StrictTableIsStricter | src/utils/score.ts:41-52 | The flower and plume table never grades better than the standard one. |
| Score.EnglishSlotNamesUseStandardTable | src/utils/score.ts:41 | None of the five slot names of the build record selects the strict table. |
| Score.RankBoundaries | src/utils/score.ts:44-59 | The bounds are inclusive: 30 is A and 29.9 is B; 40 is A on the strict table; 180 and 220 are reached at equality. |
| Score.GobletScore | src/utils/score.ts:3-38 | Crit rate `10.5%` and crit damage `15.0%` score 36.0 under any base. |
| Score.GobletScenario | src/utils/score.ts:49-51 | The card grades that piece A in any slot. |
| Dict.CollectLoop | scripts/update-game-data.js:63-66 | The forEach-assign loop builds the dictionary where later rows overwrite earlier ones. |
| Dict.Get | src/components/InputForm.tsx:97 | A lookup finds a value exactly when the key is present. |
| Dict.CollectDomain | scripts/update-game-data.js:68-71 | A key is present exactly when some row writes it. |
| Dict.CollectLast | scripts/update-game-data.js:68-71 | A key holds the value of the last row that writes it. |
| Dict.CollectValues | scripts/update-game-data.js:68-71 | A property of every written value holds of every stored value. |
| UpdateGameData.TextOf | scripts/update-game-data.js:76-81 | A name is found only as a non-empty text. |
| UpdateGameData.SkillMaps | scripts/update-game-data.js:56-61 | One loop fills the icon map and the proud-skill map, each by skill id. |
| UpdateGameData.SkillRecordOf | scripts/update-game-data.js:88-92 | A skill record carries the skill id it was built for. |
| UpdateGameData.SkillRecordFromRow | scripts/update-game-data.js:56-61 | A skill's icon and proud-skill group are those of the last skill-table row with its id. |
| UpdateGameData.SkillRecordWithoutRow | scripts/update-game-data.js:88-92 | A skill id with no skill-table row gets neither icon nor group. |
| UpdateGameData.ConstellationList | scripts/update-game-data.js:108-114 | The push loop gives the icons of the positive talent ids in depot order. |
| UpdateGameData.ConstellationsCount | scripts/update-game-data.js:108-114 | There is one icon per positive talent id; a depot without positive ids has none. |
| UpdateGameData.ConstellationsAppend | scripts/update-game-data.js:108-114 | The list for consecutive runs of talent ids is the concatenation of their lists, so depot order is kept. |
| UpdateGameData.ConstellationsOfOne | scripts/update-game-data.js:109-112 | A positive id contributes its talent icon (null when the talent table lacks it); any other id contributes nothing. |
| UpdateGameData.ConstellationsOfPositive | scripts/update-game-data.js:108-114 | With all ids positive, the i-th entry is the icon of the i-th id. |
| UpdateGameData.CharacterEntry | scripts/update-game-data.js:73-139 | An avatar row is written exactly when its name resolves and its id starts with `1000` or `1100`, under its own id. |
| UpdateGameData.BuildGameData | scripts/update-game-data.js:56-202 | The script's loops, in order, build the four dictionaries of the game database. |
| UpdateGameData.CharacterIncluded | scripts/update-game-data.js:73-81 | A character id is present exactly when it is playable and some row with that id has a name. |
| UpdateGameData.CharacterRecordFromRow | scripts/update-game-data.js:73-138 | The last row with an id sets that character's name, icons and element, the skill set of its depot, and the constellation icons of the depot's talents (empty without a depot). |
| UpdateGameData.GeneratedNamesNonEmpty | scripts/update-game-data.js:81-198 | Every generated character, weapon, piece and set name is non-empty. |
| UpdateGameData.SetEntry | scripts/update-game-data.js:188-202 | A set row writes exactly when its set id and affix id are truthy and its affix's truthy name hash resolves; it writes that text under the set id. |
| UpdateGameData.SetNameIncluded | scripts/update-game-data.js:188-202 | A set id is present exactly when some row with that id has a resolvable affix name. |
| UpdateGameData.SetNameOfLastRow | scripts/update-game-data.js:188-202 | The stored set name is the affix text of the last row with that set id. |
| UpdateGameData.SetIdsAreTruthy | scripts/update-game-data.js:189-190 | No set is stored under id 0. |
| UpdateGameData.WeaponIncluded | scripts/update-game-data.js:144-156 | A weapon id is present exactly when some row with that id has a name. |
| UpdateGameData.WeaponRecordOfLastRow | scripts/update-game-data.js:145-155 | The last row with an id gives that weapon its name and icon. |
| UpdateGameData.PieceIncluded | scripts/update-game-data.js:162-176 | A piece id is present exactly when some row with that id has a name. |
| UpdateGameData.PieceRecord | scripts/update-game-data.js:169-174 | The last row with an id gives that piece its name, icon and set id. |
| UpdateGameData.NoDepot | scripts/update-game-data.js:82-115 | Without a depot, a character has no skills and no constellations. |
| UpdateGameData.SkillSlots | scripts/update-game-data.js:86-107 | Normal attack is the depot's first skill and the skill its second; a burst exists exactly when `energySkill` is truthy. |
| UpdateGameData.SkillsOfShortList | scripts/update-game-data.js:85-107 | No depot gives no skills; a missing or empty skill list gives neither normal nor skill; one skill gives normal only. |
| UpdateGameData.ElementNames | scripts/update-game-data.js:117-129 | The seven store spellings give the seven elements; any other spelling gives anemo. |
| UpdateGameData.NegativeIdsExcluded | scripts/update-game-data.js:81 | A negative id is never playable. |
| ConvertArtifactStats.SplitCsvLine | scripts/convert-artifact-stats.js:25-44 | Splitting always gives at least one field. |
| ConvertArtifactStats.ParseCsvLine | scripts/convert-artifact-stats.js:25-44 | The character loop computes the line's field split. |
| ConvertArtifactStats.ScanInvariant | scripts/convert-artifact-stats.js:31-41 | After any prefix: the fields joined by commas are the prefix without quotes; the state is inside quotes exactly after an odd number of quotes; there is one field per unquoted comma; no field holds a quote. |
| ConvertArtifactStats.SplitJoin | scripts/convert-artifact-stats.js:25-44 | Joining the fields with commas gives the line with its quotes removed. |
| ConvertArtifactStats.SplitCount | scripts/convert-artifact-stats.js:25-44 | There is one field more than there are unquoted commas, and no field holds a quote. |
| ConvertArtifactStats.SplitOnJoin | scripts/convert-artifact-stats.js:59 | Splitting on a separator and joining back gives the text; no piece holds the separator. |
| ConvertArtifactStats.Lines | scripts/convert-artifact-stats.js:59 | `\r?\n` gives one line per `\n`-separated piece. |
| ConvertArtifactStats.NonBlank | scripts/convert-artifact-stats.js:59 | Only lines that are not blank remain. |
| ConvertArtifactStats.NonBlankMembers | scripts/convert-artifact-stats.js:59 | Every kept line comes from the input, and no non-blank line is dropped. |
| ConvertArtifactStats.NonBlankAppend | scripts/convert-artifact-stats.js:59 | The filter distributes over concatenation, so kept lines stay in their order. |
| ConvertArtifactStats.Rows | scripts/convert-artifact-stats.js:59-62 | The first non-blank line (the header) is dropped and the rows are the remaining non-blank lines, in order; no lines give no rows. |
| ConvertArtifactStats.RarityOf | scripts/convert-artifact-stats.js:72-75 | `★` followed by the digits of n, then a non-digit, gives rarity n. |
| ConvertArtifactStats.NoStarNoRarity | scripts/convert-artifact-stats.js:72-74 | A first column without `★` gives no rarity, so the row is skipped. |
| ConvertArtifactStats.CleanCell | scripts/convert-artifact-stats.js:78-82 | A cell is null exactly when, unquoted and trimmed, it is `--` or empty; otherwise it is that unquoted trimmed text, which is non-empty, not `--` and quote-free. |
| ConvertArtifactStats.CellValues | scripts/convert-artifact-stats.js:78-82 | One value per column, in order, each the cleaned cell of its column. |
| ConvertArtifactStats.FileKeyFallback | scripts/convert-artifact-stats.js:64 | An unmapped file is keyed by its name without `.csv`. |
| ConvertArtifactStats.CopyTo | scripts/convert-artifact-stats.js:102-104 | Every alias label gets the table; every other key is unchanged. |
| ConvertArtifactStats.ReadTable | scripts/convert-artifact-stats.js:66-86 | The row loop stores each starred row's cleaned cells under its rarity; a later row with the same rarity replaces an earlier one. |
| ConvertArtifactStats.CopyLoop | scripts/convert-artifact-stats.js:102-104 | The alias loop performs that copy. |
| ConvertArtifactStats.ReadFiles | scripts/convert-artifact-stats.js:56-87 | The file loop leaves each `.csv` file's table under its key, later files winning. |
| ConvertArtifactStats.AddAliases | scripts/convert-artifact-stats.js:89-105 | The two alias steps, healing first, give the aliased dictionary. |
| ConvertArtifactStats.ConvertAll | scripts/convert-artifact-stats.js:53-105 | The file loop and then the two alias steps build the output dictionary. |
| ConvertArtifactStats.ElementalAliasesShareTable | scripts/convert-artifact-stats.js:89-105 | Whenever the elemental table exists, each of the seven elemental labels is present and shares it. |
| ConvertArtifactStats.HealingAliasSharesTable | scripts/convert-artifact-stats.js:89-105 | Whenever the healing table exists, the app's healing label is present and shares it; the elemental copy does not overwrite it. |
| ConvertArtifactStats.RowStored | scripts/convert-artifact-stats.js:68-86 | A row not followed by another row of its rarity is stored under that rarity, one value per column after the first. |
| InputForm.UnknownName | src/components/InputForm.tsx:100 | The fallback name is never empty. |
| InputForm.TalentOf | src/components/InputForm.tsx:105-124 | A talent is boosted exactly when its shown level exceeds its base level; an unknown skill gives level 0, not boosted. |
| InputForm.ConstellationIcons | src/components/InputForm.tsx:125 | Icons exist exactly when the database lists constellations, one per entry. |
| InputForm.NewCharacter | src/components/InputForm.tsx:97-126 | The new character always has a name, and its constellation count is not negative. |
| InputForm.NewCharacterFields | src/components/InputForm.tsx:99-103 | The constellation count is the unlocked-talent count (0 without a list); a known record gives the name (placeholder if empty), the element (anemo if absent), the splash art, the constellation icons and the talents. |
| InputForm.FirstWeaponIndex | src/components/InputForm.tsx:93 | `find` returns the first weapon in the equip list, or nothing when there is none. |
| InputForm.Refinement | src/components/InputForm.tsx:134 | The refinement is never 0. |
| InputForm.NewWeapon | src/components/InputForm.tsx:129-145 | The new weapon always has a name, a non-zero refinement and a non-zero rarity. |
| InputForm.NewWeaponFields | src/components/InputForm.tsx:129-145 | The first weapon gives the known name and icon, the level (0 without info), the affix refinement, the first two stats and the rarity (1 if absent). |
| InputForm.ElementalBonus | src/components/InputForm.tsx:148-151 | The maximum over properties 40 to 46 is one of them and bounds them all. |
| InputForm.FindSlot | src/components/InputForm.tsx:179 | `findIndex` returns the first index with the slot, or nothing when no entry has it. |
| InputForm.PieceSetName | src/components/InputForm.tsx:187 | The set's non-empty name under a truthy set id; else the piece's non-empty name; else `Unknown`. |
| InputForm.SubEntries | src/components/InputForm.tsx:194-197 | One display entry per snapshot substat, in order. |
| InputForm.LastFor | src/components/InputForm.tsx:173-202 | The chosen item is in the equip list and targets the slot; there is none exactly when no item targets the slot. |
| InputForm.LastForIsLast | src/components/InputForm.tsx:173-202 | The chosen item sits at a position after which no item targets the slot. |
| InputForm.MergeArtifacts | src/components/InputForm.tsx:173-202 | The forEach loop over a copy computes the merge. |
| InputForm.RefreshedAbsorbs | src/components/InputForm.tsx:185-198 | A second refresh overrides the first; slot and rarity survive a refresh. |
| InputForm.MergeKeepsSlots | src/components/InputForm.tsx:173-202 | The merge keeps the length of the list and the slot and rarity of every entry. |
| InputForm.MergeEntry | src/components/InputForm.tsx:173-202 | An entry that is its slot's first occurrence is refreshed by that slot's last reliquary, if any; every other entry is unchanged. |
| InputForm.MergeIdempotent | src/components/InputForm.tsx:173-202 | Merging the same equip list twice equals merging it once. |
| InputForm.NoReliquaryNoChange | src/components/InputForm.tsx:175 | An equip list without reliquaries leaves the artifacts as they were. |
| InputForm.RefreshedContents | src/components/InputForm.tsx:185-198 | The refreshed set label is the set name, else the piece name, else `Unknown`; the level is one less than the snapshot's, or 0 without one; a missing main stat gives `Main`/`0`; substats are translated one for one. |
| InputForm.SelectedBuild | src/components/InputForm.tsx:204-210 | Selecting a character keeps the score base. |
| InputForm.SelectCharacter | src/components/InputForm.tsx:84-211 | The handler computes the selected build. |
| InputForm.SelectIdempotent | src/components/InputForm.tsx:84-211 | Selecting the same character twice equals selecting it once. |
| InputForm.UnknownAvatar | src/components/InputForm.tsx:97-126 | An avatar missing from the database gets its placeholder name, anemo, no image, no constellation icons and level-0 talents. |
| InputForm.CharacterLevelRead | src/components/InputForm.tsx:101 | The level is the number in property 4001, or 0 without it. |
| InputForm.TalentLevels | src/components/InputForm.tsx:107-109 | A known talent's level is its own level plus the extra under a truthy group id, a missing map or key counting 0; it is boosted exactly when the extra is positive. |
| InputForm.RefinementFromAffix | src/components/InputForm.tsx:134 | The refinement is the first affix value plus one, or 1 without affixes. |
| InputForm.NoWeapon | src/components/InputForm.tsx:132-144 | With no weapon equipped: `Unknown`, level 0, refinement 1, rarity 1, no stats. |
| InputForm.UnknownWeapon | src/components/InputForm.tsx:132 | A weapon missing from the database is named after its item id. |
| InputForm.StatsFromFightProps | src/components/InputForm.tsx:148-162 | HP, ATK, DEF and EM are within 0.5 of their properties (2000, 2001, 2002, 28); crit rate, crit damage and energy recharge are within 0.05 of 100 × properties 20, 22 and 23; the damage bonus is within 0.05 of 100 × the largest of properties 40–46, and so at least each of them rounded. |
| InputForm.NoFightProps | src/components/InputForm.tsx:153-162 | Missing fight properties give all-zero stats. |
| InputForm.UpdateCharacter | src/components/InputForm.tsx:213-215 | The edited character field takes the new value; nothing else changes. |
| InputForm.UpdateWeapon | src/components/InputForm.tsx:217-219 | The edited weapon field takes the new value; nothing else changes. |
| InputForm.UpdateStats | src/components/InputForm.tsx:221-223 | The edited stat takes the new value; nothing else changes. |
| InputForm.ChooseScoreBase | src/components/InputForm.tsx:379 | The radio button changes only the score base, and the build then scores on the chosen base. |
| InputForm.CharacterEditsOfOneField | src/components/InputForm.tsx:213-215 | Of two edits to one field, the later wins; edits to different fields commute. |
| InputForm.WeaponEditsOfOneField | src/components/InputForm.tsx:217-219 | Of two edits to one field, the later wins; edits to different fields commute. |
| InputForm.StatsEditsOfOneField | src/components/InputForm.tsx:221-223 | Of two edits to one field, the later wins; edits to different fields commute. |
| InputForm.ApplyToArtifact | src/components/InputForm.tsx:397-440 | The edited field (set, level, main label or value, or one substat's label or value) takes the text; every other field and substat is kept. |
| InputForm.EditArtifact | src/components/InputForm.tsx:397-440 | The entry at the index becomes the edited piece; every other entry and the rest of the build are unchanged. |
| InputForm.EditKeepsScore | src/components/InputForm.tsx:397-416 | Editing a set, level or main stat leaves every piece's score unchanged. |
| InputForm.Narrow | src/components/InputForm.tsx:245 | A full-width letter or digit becomes an ASCII one; any other character is unchanged. |
| InputForm.CleanUid | src/components/InputForm.tsx:244-246 | The cleaned UID is no longer than the input and holds only ASCII letters and digits. |
| InputForm.CleanUidAppend | src/components/InputForm.tsx:244-246 | Cleaning works character by character. |
| InputForm.CleanUidChar | src/components/InputForm.tsx:253-255 | ASCII alphanumerics stay, full-width ones move down 0xFEE0, and everything else is dropped. |
| InputForm.CleanUidFixed | src/components/InputForm.tsx:244-246 | A UID that is already clean is unchanged. |
| InputForm.CleanUidIdempotent | src/components/InputForm.tsx:244-246 | Cleaning twice equals cleaning once. |
| InputForm.FetchUid | src/components/InputForm.tsx:42-44 | No fetch happens exactly when the UID is blank. |
| InputForm.FetchCleanUid | src/components/InputForm.tsx:42-52 | A cleaned UID is fetched exactly when it is non-empty, and sent unchanged. |
| BuildCard.SetEntries | src/components/BuildCard.tsx:17-25 | There is one entry per distinct set, in first-seen order. |
| BuildCard.SetCounts | src/components/BuildCard.tsx:16-22 | The counting loop gives each set's entry. |
| BuildCard.SetOrderKeys | src/components/BuildCard.tsx:17-22 | A set appears exactly when its name is non-empty and some piece has it; no set appears twice. |
| BuildCard.SetEntriesCount | src/components/BuildCard.tsx:17-25 | An entry (name, c) exists exactly when the name is non-empty and c is its positive piece count. |
| BuildCard.AtLeastTwo | src/components/BuildCard.tsx:26 | The filter keeps exactly the entries with a count of at least 2. |
| BuildCard.InsertByCountPermutes | src/components/BuildCard.tsx:27 | Insertion adds exactly the one entry. |
| BuildCard.InsertByCountOrdered | src/components/BuildCard.tsx:27 | Insertion keeps the list sorted by descending count. |
| BuildCard.SortByCount | src/components/BuildCard.tsx:27 | The sort gives a descending-count permutation of its input. |
| BuildCard.ActiveSetsAre | src/components/BuildCard.tsx:24-27 | (name, c) is active exactly when the name is non-empty and has c ≥ 2 pieces; the list is sorted by count. |
| BuildCard.ActiveSetsOfFive | src/components/BuildCard.tsx:24-27 | Five pieces show at most two set bonuses. |
| BuildCard.ScoreSumBounds | src/components/BuildCard.tsx:214 | A sum of non-negative piece scores is non-negative and at least each piece's score. |
| BuildCard.TotalScoreReadsOnlySubStats | src/components/BuildCard.tsx:214 | Builds whose pieces have the same substats have the same total. |
| BuildCard.FiveSSPiecesMakeSSTotal | src/components/BuildCard.tsx:214-243 | Five pieces graded SS give an SS total. |
| BuildCard.TotalScoreBounds | src/components/BuildCard.tsx:214 | With no negative substat, the total is non-negative and at least every piece's score. |
| BuildCard.PieceGradeStandardTable | src/components/BuildCard.tsx:242-243 | The card grades every piece on the standard table, because the record's slot names are English. |
| BuildCard.FlowerAtFortyFive | src/components/BuildCard.tsx:243 | A flower scoring 45 shows SS, though `生の花` at 45 would be S. |
| BuildCard.IsHighlighted | src/components/BuildCard.tsx:285-305 | A substat is highlighted exactly when its label counts under the current base. |
| BuildCard.HighlightMatchesScoring | src/components/BuildCard.tsx:285-305 | For a parsed, non-zero substat, highlighting agrees with adding to the score. |
| BuildCard.RarityColor | src/components/BuildCard.tsx:52-61 | Rarities 1 to 5 get their own colour; anything else, or none, gets the default. |
| BuildCard.RarityColorsDistinct | src/components/BuildCard.tsx:52-61 | Different rarities get different colours. |
| BuildCard.ScoreBaseLabel | src/components/BuildCard.tsx:63-70 | The attack label appears exactly when the resolved base is `atk`. |
| BuildCard.ScoreBaseLabelNamesBase | src/components/BuildCard.tsx:63-70 | Two builds share a label exactly when their bases resolve to the same base. |
| BuildCard.ActiveIcons | src/components/BuildCard.tsx:121-125 | At most all the icons are lit. |
| BuildCard.ActiveIconsCount | src/components/BuildCard.tsx:121-125 | The lit icons number the constellation count, capped between 0 and the number of icons. |
| Page.SlotIndex | src/app/page.tsx:29-35 | Each slot has its position in the card's order. |
| Page.FiveSlotsFind | src/app/page.tsx:29-35 | In a five-slot list, `findIndex` finds every slot at its own position. |
| Page.InitialDataShape | src/app/page.tsx:10-46 | The default build has the five slots in order, empty level-0 pieces, constellation 0, level-1 talents, a level-1 refinement-1 weapon, zero stats and no score base. |
| Page.NoSetNoBonus | src/components/BuildCard.tsx:18-27 | Pieces without a set show no set bonus. |
| Page.InitialNoActiveSets | src/app/page.tsx:29-35 | The default build shows no set bonus. |
| Page.EmptyPieceScore | src/utils/score.ts:3-38 | A piece without substats scores 0. |
| Page.InitialTotal | src/app/page.tsx:10-46 | The default build totals 0, graded B, and is labelled as scored on attack. |
| Page.ApplyKeepsFiveSlots | src/app/page.tsx:111 | Every update the form sends keeps the five slots in order. |
| Page.RunKeepsFiveSlots | src/app/page.tsx:111 | Any run of updates keeps the five slots in order. |
| Page.ReachableFiveSlots | src/app/page.tsx:49 | Every build reachable from the default has the five slots in order. |
| Page.MergeFillsOwnSlot | src/components/InputForm.tsx:173-202 | On a five-slot build, each slot ends up holding its last reliquary, or stays as it was. |

## Left out

- NaN and Infinity: `parseFloat` and `parseInt` return `None` where JavaScript returns `NaN`, and `Infinity` text is treated as unparsable.
- Typed numbers in the form: the edit handlers' `parseInt`/`parseFloat` of the typed text (src/components/InputForm.tsx:305-306, 332-333, 342-349, 404: level, constellation, refinement, stats, artifact level) are not modelled. An edit carries the already-parsed number, so a blank or non-numeric entry, which JavaScript would store as `NaN`, cannot be represented.
- Floating point: values are exact reals. IEEE-754 rounding of `toFixed`, of `value * 2` and of the running sums is not modelled.
- Fetching: the call to the UID endpoint and the API route that forwards it are outside the model. Only the guard before the call is modelled (`InputForm.FetchUid`).
- Loading and error state, and the automatic choice of the first character: these are I/O state, not modelled.
- The generator's downloads (`fetchJson`) and file writes: not modelled. The fetched tables are the inputs of `UpdateGameData.BuildGameData`.
- The converter's directory read, file reads and output write: not modelled. The directory listing is a sequence of (name, content) pairs, in the order `readdirSync` gives.
- Substat edits and aliasing: the two substat handlers assign into objects that the previous state still shares. The model edits a copy, so the aliasing, and the previous state seeing the change, is not captured.
- IME composition: while composing, the raw text is stored, and the clean-up runs when composition ends. Only the clean-up is modelled.
- Rendering: the JSX layout is not modelled. This covers element gradients and backgrounds, stars, the shortened `元チャ効率` label in the stat rows, the stat-row texts and image fallbacks. Image URLs are built but carry no property.
- Set-count order: JavaScript lists integer-like keys of `setCounts` first, in numeric order. The model uses first-insertion order for every key; set names are never integer-like in practice.
- Sort ties: the stable sort keeps equal counts in first-seen order. This is in the definition of `BuildCard.InsertByCount`, but no lemma states it.
- Other form edits: `updateCharacter`, `updateWeapon` and `updateStats` accept any `keyof` field. Only the fields the form's inputs edit are modelled.
- Equip types: an equip type outside the five reliquary types is not representable, so the model cannot express one being skipped.
- Image download (`handleDownload`): a DOM capture, not modelled.
- `generate_rarity.js`, `scripts/debug-skill-data.js`, `src/app/layout.tsx` and the API route are not part of this model.
- Score.Contribution: states only that uncounted substats add 0 and non-negative ones add a non-negative amount. The exact weights are in `Score.ContributionOfParsed`.
- InputForm.SelectedBuild: its own contract states only that the score base is kept. What becomes of the artifacts, character, weapon and stats is in `InputForm.MergeEntry`, `InputForm.UnknownAvatar`, `InputForm.NoWeapon` and `InputForm.StatsFromFightProps`.
- InputForm.NewCharacter and InputForm.NewWeapon: their own contracts state bounds only. The fields are stated by `InputForm.NewCharacterFields`, `InputForm.UnknownAvatar`, `InputForm.CharacterLevelRead`, `InputForm.TalentLevels`, `InputForm.NewWeaponFields`, `InputForm.RefinementFromAffix`, `InputForm.NoWeapon` and `InputForm.UnknownWeapon`.
- InputForm.CharacterLevel: a level text that is not a number gives level 0, where JavaScript would store `NaN`. A `0x` prefix is read as decimal (so `0x1A` gives 0), where `parseInt` without a radix reads hexadecimal (26).
