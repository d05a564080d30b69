# Fourhills in Dafny

Fourhills is a command-line companion for a tabletop role-playing game
master. A campaign *setting* is a directory tree of YAML files:

- monster stat blocks;
- non-player characters (NPCs);
- cheatsheets;
- per-location scene files that list the monsters and NPCs present at that place.

The `battle`, `npcs` and `scene` commands render these objects as fixed-width
text panes. The `cheatsheet` command does the same for a cheatsheet's
sections. A pane layout engine then lays the panes out in columns.

This project models the text layout and formatting layer of Fourhills, and the
parsing and lookup rules around it. It proves what the code promises:

- where every pane line lands on the screen;
- how titles, lists and paragraphs are composed from the line wrapper;
- the order and conditions of every section of a stat block;
- how NPCs, scenes and cheatsheets are built from a parsed file, and which
  error each bad file gives;
- the two prefix rules, for directory lookups and for command names;
- the XP totals of a scene.

Modules, one per source file (the older top-level files have their own):

| module | file | what it holds |
|---|---|---|
| `Outcomes` | outcomes.dfy | `Option`, `Result`, the `Error` kinds, and `MapAll` (a list comprehension that stops at the first exception) |
| `Strings` | strings.dfy | repetition, joining, prefixes, ASCII case mapping, decimal numerals, code-point order and `sorted`, line splitting |
| `TextUtils` | text_utils.dfy | `centre_pad`, `title`, `format_indented_paragraph`, `format_list`, `wrap_lines_paragraph` (both copies of text_utils.py) |
| `PaneLayout` | panes.dfy | `display_panes`: a specification function `Screen`, and a method with one cursor per column standing in for the generators |
| `Stats` | stats.dfy | the XP table, the ability modifier, `summary_info`, `battle_info` |
| `Records` | records.dfy | parsed YAML values and typed field access |
| `Directories` | directories.dfy | `DirectoryDict` over a key table and an item factory |
| `Npcs` | npcs.dfy | `Npc`: summary, battle info, character info, construction from a parsed file |
| `Cheatsheets` | cheatsheets.dfy | `Cheatsheet`, `Section.lines`, construction from a parsed file |
| `Settings` | settings.dfy | `Setting`: its defaults, its three directories and the layout every view uses |
| `MonsterEntries` | monster_entries.dfy | a hand-written matcher for the entry expression `^(\w*)(?: ?x?(\d+))?$` |
| `Scenes` | scenes.dfy | `Scene.from_file` after parsing, and the battle, NPC and scene views |
| `Commands` | commands.dfy | `AliasedGroup.get_command`, and the panes of the `cheatsheet` command |
| `LegacyStats` | legacy_stats.dfy | the older top-level stats.py `formatted_string` |
| `LegacyBattle` | legacy_battle.dfy | the older top-level fourhills.py `load_battle_info` |

Modelling choices:

- **Wrapping.** `textwrap.wrap` is a library call. It is a parameter
  `wrap: (string, int) -> seq<string>`. The docstrings promise a width bound,
  and the predicate `TextUtils.WrapBounded` states it: every wrapped line is at
  most `w` wide whenever `w` exceeds the four-space indent. Every width lemma
  assumes that bound through its `requires`.
- **Exceptions** become `Err` values of `Outcomes.Error`. Every raising path
  returns one. Click's `ctx.fail` is `UsageError` with the message.
- **Challenge ratings** are exact `real`s. Every valid rating (0, 1/8, 1/4, 1/2,
  1 … 30) is exact as a Python float, so no rounding is lost. A stat block also
  records whether the file wrote the rating as a YAML float (`2.0`) or an
  integer (`2`), because the challenge line prints it as written.
- **Python dictionaries** that the code iterates become sequences of pairs, in
  insertion order. Python truthiness ("not None and not empty") is the
  predicate `Outcomes.Present` (`PresentText` for strings).
- **Parsed YAML** is `Records.Record`, a map from keys to `Records.Value`.
  Reading files is replaced by functions from stems to parsed records.
- **Prefix rules.** `DirectoryDict`'s key table is a sequence of distinct stems.
  The command group's command names are a sequence of distinct names.
- **Views and the screen.** `display_panes` is modelled twice: by the function
  `PaneLayout.Screen`, and by the method `PaneLayout.DisplayPanes`, which is
  proved equal to it. Each view method (`Scenes.DisplayBattle`,
  `Scenes.DisplayNpcs`, `Scenes.DisplayScene`) builds its panes as the source
  does and returns the screen `display_panes` would print.

Two layout settings are fixed by every caller of `display_panes`:

- `pane_gap=True`: each pane in a column is followed by one line of
  `column_width` spaces.
- `column_gap=True`: the cells of a row are joined by one space.

## Model

| member | source | states |
|---|---|---|
| `TextUtils.CentrePad` | fourhills/text_utils.py:73-75 | the padded string is `max(|s|, w)` long |
| `TextUtils.CentrePadLayout` | text_utils.py:72-74 | `s` sits unchanged after half the slack (rounded down), with only spaces on either side |
| `TextUtils.CentrePadOddSpaceRight` | fourhills/text_utils.py:73-75 | the right pad equals the left pad, or exceeds it by one exactly when the slack is odd |
| `TextUtils.Title` | fourhills/text_utils.py:78-80 | exactly two lines: the centred text, then `=` repeated `W` times |
| `TextUtils.FormatListText` | fourhills/text_utils.py:48-70 | `format_list` wraps exactly `title + ": " + ", ".join(items)`, whose length is the title's, 2, the items' and 2 per comma, for any number of items including none |
| `TextUtils.FormatListEmpty` | text_utils.py:64-69 | an empty list wraps exactly `"title: "`, with no special case |
| `TextUtils.WrappedLinesAppend` | fourhills/text_utils.py:24-45 | wrapping `a + b` line by line is wrapping `a`, then `b`: the output is the in-order concatenation of per-line wraps |
| `TextUtils.WrappedLinesSingle` | text_utils.py:38-44 | one input line wraps to exactly what the wrapper gives for it |
| `TextUtils.WrappedLinesWithin` | text_utils.py:12-20 | under the wrapper's width bound, every output line is at most `line_width` |
| `TextUtils.FormatListWithin` | fourhills/text_utils.py:6-21 | under the width bound, every line of a formatted list is at most `line_width` |
| `TextUtils.WrapLinesParagraph` | fourhills/text_utils.py:39-45 | the extend loop returns the per-line wraps concatenated in order |
| `PaneLayout.PaneColumn` | fourhills/text_utils.py:111 | pane `i` goes in column `c` exactly when `i mod columns == c` |
| `PaneLayout.PaneIndicesAscending` | fourhills/text_utils.py:111 | within a column the panes appear in ascending index order |
| `PaneLayout.StreamFromUnfold` | fourhills/text_utils.py:110-117 | a column's stream from pane `k` is pane `k`'s lines, one gap line, then the stream from pane `k + columns` |
| `PaneLayout.Gap` | fourhills/text_utils.py:114-115 | with `pane_gap` the gap is exactly one line of `column_width` spaces, and without it there is none |
| `PaneLayout.BlocksLength` | fourhills/text_utils.py:110-115 | a column has as many lines as its panes plus one gap line per pane |
| `PaneLayout.ScreenRows` | fourhills/text_utils.py:143-150 | the rows number the longest column's lines, gaps included; no column is longer; zero columns give no rows; no row has every column exhausted |
| `PaneLayout.ScreenCell` | fourhills/text_utils.py:123-135 | when lines fit, every row is `columns*W` wide plus one space between neighbouring columns when `column_gap` holds; cell `c` of row `r` is column `c`'s line left-justified to `W`, or `W` spaces once the column is exhausted |
| `PaneLayout.LJust` | fourhills/text_utils.py:132 | a left-justified cell keeps the text unchanged (no truncation), padded with spaces to `W` |
| `PaneLayout.NextCorrect` | fourhills/text_utils.py:110-117 | one `next` on a column's cursor yields the column's next line and advances exactly past it, and gives nothing forever once the column is used up |
| `PaneLayout.ScreenComplete` | fourhills/text_utils.py:147-148 | once every column is exhausted at row `k`, the first `k` rows are the whole screen |
| `PaneLayout.ThreePanesExample` | fourhills/text_utils.py:110-117 | three panes in two columns: column 0 holds panes 0 and 2, column 1 pane 1; the pane gap adds one blank line after each pane (5 rows without it, 7 with it) |
| `PaneLayout.UnevenPanesExample` | fourhills/text_utils.py:116-117 | an exhausted column shows `W` spaces on every later row |
| `PaneLayout.DisplayPanes` | fourhills/text_utils.py:137-150 | the generator loop produces exactly `Screen(panes, layout)` |
| `Stats.XpTableAdjacent` | fourhills/stats.py:67-102 | the table has 34 keys, and both keys and XP strictly increase |
| `Stats.XpTableKeys` | fourhills/stats.py:67-104 | a rating is a key exactly when it is 0.125, 0.25, 0.5 or a whole number from 0 to 30 |
| `Stats.ChallengeXpIncreasing` | fourhills/stats.py:67-104 | a higher valid rating is worth strictly more XP |
| `Stats.ChallengeXpLowExamples` | fourhills/stats.py:68-69 | rating 0 is 0 XP and 1/8 is 25 XP |
| `Stats.ChallengeXpHighExamples` | fourhills/stats.py:71-101 | rating 1/2 is 100 XP and 30 is 155000 XP |
| `Stats.Xp` | fourhills/stats.py:103-110 | XP is defined exactly on valid ratings; otherwise the error names the stat block and the rating |
| `Stats.ChallengeTextWhole` | fourhills/stats.py:257 | a whole rating prints as digits that read back as the rating, followed by `.0` exactly when the file wrote a float |
| `Stats.ChallengeTextExamples` | fourhills/stats.py:257 | `2` prints as "2", `2.0` as "2.0", `0.5` as "0.5" |
| `Stats.AbilityModifier` | fourhills/stats.py:126 | the modifier is `floor((s-10)/2)`: `2m <= s-10 < 2m+2` |
| `Stats.AbilityModifierExamples` | stats.py:57 | 10→0, 11→0, 9→-1, 8→-1, 1→-5, 20→5 |
| `Stats.AbilityModifierSteps` | fourhills/stats.py:126 | the modifier never falls as the score rises, and two points add exactly one |
| `Stats.ScoreTextShort` | fourhills/stats.py:172-178 | a score of 0-99 prints as `score(±mod)` in at most 7 characters, and the 56-column minimum gives each of six cells 9 |
| `Stats.AbilityWidthBounds` | fourhills/stats.py:192 | the `n` columns of `floor(W/n)` fill `W` but for less than `n` |
| `Stats.AbilityCellAt` | fourhills/stats.py:197-205 | cell `i` is ability `i`'s name, and `"{score}({modifier:+d})"`, each centred in `floor(W/n)` |
| `Stats.RowOfCells` | fourhills/stats.py:208-209 | equal-width cells sit side by side, cell `i` at `i*floor(W/n)`, and the row re-centred to `W` is `W` wide |
| `Stats.AbilityRowsExact` | fourhills/stats.py:192-209 | when every cell fits its column, both ability rows are exactly `W` wide |
| `Stats.SummaryInfo` | fourhills/stats.py:146-153 | three lines: the title of the name (or `name xN`), its rule, then `"Size type, alignment"` |
| `Stats.SummaryTitleQuantity` | fourhills/stats.py:147 | the quantity shows exactly when it is truthy; None and 0 give the bare name |
| `Stats.PairTexts` | fourhills/stats.py:216-220 | a dictionary section becomes `"key value"` texts in order, and is present exactly when the dictionary is |
| `Stats.LanguagesOrNone` | fourhills/stats.py:254 | the languages, or `["none"]` when absent or empty |
| `Stats.BattleInfoOutcome` | fourhills/stats.py:172-178 | `battle_info` succeeds exactly with width at least 56, some abilities and a valid rating; a width under 56 fails first, then missing abilities, then the rating's error |
| `Stats.StatLinesSections` | fourhills/stats.py:183-257 | the statistics are exactly, one after another: the seven lines AC, HP, Speed, rule, name row, score row, rule; the saving throws, skills, damage vulnerabilities, resistances and immunities and condition immunities lists, in that order; the passive perception line; the senses; the languages (with `none` substituted); the challenge line |
| `Stats.StatLayout` | fourhills/stats.py:183-257 | for any blocks, the chain of statistics blocks places each block at the running sum of the lengths before it, with nothing else in between |
| `Stats.StatListsPresence` | fourhills/stats.py:213-249 | each optional list and the senses are empty when their field is absent or empty, and are otherwise that field formatted under its title |
| `Stats.BattleInfoParts` | fourhills/stats.py:155-321 | the battle info is the statistics part followed by the traits and actions part |
| `Stats.TailHeaders` | fourhills/stats.py:259-275 | the "Special traits" and "Actions" headers (blank line, centred label, rule) are always present |
| `Stats.NoTraitLines` | fourhills/stats.py:264-270 | with no traits, only the header remains |
| `Stats.TailEnding` | fourhills/stats.py:316-319 | a blank line always follows the actions, and the description comes last |
| `Stats.MeleeTextShape` | fourhills/stats.py:280-288 | a melee attack opens `"Name: melee weapon attack, "` and ends with `"Hit damage: D."` plus `" info."` when there is info |
| `Stats.RangedTextShape` | fourhills/stats.py:293-301 | a ranged attack opens `"Name: ranged weapon attack, "` and ends the same way |
| `Stats.AttackTextsSameLength` | fourhills/stats.py:280-301 | a ranged text is exactly as long as the melee text ("ranged"/"range" against "melee"/"reach, "): it has no space after the range's comma |
| `Stats.BattleInfoWithin` | fourhills/stats.py:155-321 | under the width bound, and with the fixed lines and ability cells fitting, every line is at most `W` wide |
| `Stats.AbilityStrings` | fourhills/stats.py:194-205 | the ability loop builds exactly the two rows of centred cells |
| `Stats.RenderBattleInfo` | fourhills/stats.py:174-321 | building the lines section by section gives exactly `BattleInfo` |
| `Records.TextItemsOfTextList` | fourhills/npc.py:90-94 | a list of strings read back from a YAML list is the list |
| `Records.OptionalText` | fourhills/npc.py:13-19 | an optional string field is absent exactly when missing or null, and present exactly when a string |
| `Directories.GetItem` | fourhills/setting.py:36-37 | a lookup succeeds exactly for a key of the table; any other key is a `KeyError` |
| `Directories.GetItemCallsFactory` | fourhills/setting.py:36-37 | every lookup calls the factory afresh, with nothing cached |
| `Directories.Iter` | fourhills/setting.py:39-40 | iteration yields exactly the stems, in table order |
| `Directories.IterKeys` | fourhills/setting.py:29-43 | the iterated stems are exactly the keys that can be looked up, and the length counts them |
| `Directories.FromPrefixNoMatch` | fourhills/setting.py:60-63 | no key starts with the prefix exactly when the result is `ValueError(prefix)` |
| `Directories.FromPrefixUnique` | fourhills/setting.py:64-66 | with exactly one key matching, the result is that key's item |
| `Directories.FromPrefixAmbiguous` | fourhills/setting.py:67-71 | two matching keys make the prefix ambiguous, and the error lists every match in table order |
| `Directories.FromPrefixFound` | fourhills/setting.py:60-66 | a success found the only key starting with the prefix |
| `Directories.NoExactPriorityExample` | fourhills/setting.py:60 | a full key that starts another key is ambiguous: there is no exact-match priority |
| `Npcs.SummaryTitleDeceased` | fourhills/npc.py:38-40 | the title is `"name (deceased)"` exactly when the NPC is deceased, and the name otherwise |
| `Npcs.SummaryInfoParts` | fourhills/npc.py:38-49 | the summary is the wrapped title, the wrapped rule and, exactly when stats exist, the wrapped `"Alignment Name (Size type)"` line |
| `Npcs.BattleInfo` | fourhills/npc.py:64-67 | the stats' battle info when there are stats, else exactly `["This NPC has no stats defined"]` |
| `Npcs.CharacterLinesShape` | fourhills/npc.py:82-94 | appearance first; the accent line exactly when there is an accent; the temperament/background line exactly when either is set; when there are phrases, `""`, `"Phrases:"` and `"- p"` per phrase, in order |
| `Npcs.TemperamentLineText` | fourhills/npc.py:87-88 | a missing half leaves its empty string beside the one space |
| `Npcs.BuildCharacterInfo` | fourhills/npc.py:82-96 | the appending code gives exactly the wrapped character lines |
| `Npcs.StatsBase` | fourhills/npc.py:123-126 | no `stats_base` gives no stats; otherwise the stats are the monster directory's item for that stem |
| `Npcs.NpcFromRecordErrors` | fourhills/npc.py:123-129 | a failed stats lookup is reported first, then `stats` as `NotImplementedError`; an unknown stem is a `KeyError` |
| `Npcs.NpcFromRecordFields` | fourhills/npc.py:123-140 | a loaded NPC had no `stats` key and only constructor keys besides `stats_base`; it carries the file's name and appearance; it has stats exactly when `stats_base` was given |
| `Npcs.StatsBaseOnlyAttaches` | fourhills/npc.py:131-138 | `stats_base` never reaches the constructor: the NPC is the one built without it, with the stats attached |
| `Cheatsheets.SectionLinesParts` | fourhills/cheatsheet.py:34-36 | a section's lines are the wrapped title, the wrapped rule, then each content line wrapped, in order |
| `Cheatsheets.SectionLinesWithin` | fourhills/cheatsheet.py:20-36 | under the width bound, every line of a section fits the width |
| `Cheatsheets.ToStringDescription` | fourhills/cheatsheet.py:41-42 | the string is `Cheatsheet: "` then the description then `"`, so the description can be read back |
| `Cheatsheets.SectionFromValue` | fourhills/cheatsheet.py:79-81 | a section is built only from a mapping with exactly the two keys, and holds their values |
| `Cheatsheets.CheatsheetMissingKeys` | fourhills/cheatsheet.py:66-77 | a missing description is reported first, even when sections are missing too; then a missing sections key |
| `Cheatsheets.CheatsheetSectionErrors` | fourhills/cheatsheet.py:79-81 | loading succeeds exactly when every item is a section, and otherwise fails with the first bad item's error |
| `Cheatsheets.CheatsheetFromRecordSections` | fourhills/cheatsheet.py:79-83 | a loaded cheatsheet has the file's description and one section per item, in order |
| `Settings.NewSetting` | fourhills/setting.py:85-99 | a new setting has `pane_width` 56 and `panes` 2, and one directory per kind with the given stems |
| `Settings.ViewLayout` | fourhills/scene.py:106 | every view uses `setting.panes` columns of `setting.pane_width`, with both gaps |
| `Settings.NewSettingNpcLookup` | fourhills/setting.py:94-96 | an NPC is read afresh on each lookup, with its stats taken from the same setting's monsters |
| `Settings.NewSettingCheatsheetLookup` | fourhills/setting.py:97-99 | a cheatsheet lookup is the file parsed and checked, or the parse error |
| `MonsterEntries.WordEnd` | fourhills/scene.py:62 | the greedy `\w*` run ends after word characters only, at the end of the entry or at a non-word character |
| `MonsterEntries.DigitEnd` | fourhills/scene.py:62 | the greedy `\d+` run ends after digits only, at the end of the entry or at a non-digit |
| `MonsterEntries.WordEndExact` | fourhills/scene.py:62 | word characters up to a non-word character (or the end) are the whole run: no other end is possible |
| `MonsterEntries.MatchEntrySound` | fourhills/scene.py:62 | whatever the matcher accepts is in the expression's language, with the longest word run as the name |
| `MonsterEntries.MatchEntryComplete` | fourhills/scene.py:62 | every string in the language is accepted, and the split with the longest name gives the result |
| `MonsterEntries.MatchEntryAccepts` | fourhills/scene.py:62-67 | the matcher accepts exactly the strings of the expression's language |
| `MonsterEntries.MatchEntryDefaultQuantity` | fourhills/scene.py:70-71 | an entry made only of word characters is taken whole as the name, with quantity 1 |
| `MonsterEntries.SpacedXQuantityExample` | fourhills/scene.py:62-81 | `"lion x3"` gives `("lion", 3)` |
| `MonsterEntries.SpacedQuantityExample` | fourhills/scene.py:62-81 | `"lion 3"` gives `("lion", 3)` |
| `MonsterEntries.TrailingNewlineExample` | fourhills/scene.py:62 | `$` also accepts a final newline: `"lion x3\n"` gives `("lion", 3)` |
| `MonsterEntries.GreedyNameExamples` | fourhills/scene.py:62-71 | greedy `\w*` takes `"lionx3"` and `"lion3"` whole, with quantity 1, though `"lion3"` also splits as lion and 3 |
| `MonsterEntries.SpacedNameRejected` | fourhills/scene.py:62-67 | `"giant rat"` does not match |
| `MonsterEntries.MissingNumberRejected` | fourhills/scene.py:62-67 | `"lion x"` does not match |
| `MonsterEntries.EmptyEntryExample` | fourhills/scene.py:62-71 | the empty entry matches, as an empty name with quantity 1 |
| `Scenes.ParseEntry` | fourhills/scene.py:62-81 | an entry parses exactly when it is a string the matcher accepts, and its mismatch names the entry |
| `Scenes.ParseMonsterEntries` | fourhills/scene.py:59-81 | the entry loop gives exactly the entries parsed in order, stopping at the first bad one |
| `Scenes.NpcNamesOf` | fourhills/scene.py:84 | no `npcs` key gives no NPCs; otherwise the names are the file's list |
| `Scenes.LoadScene` | fourhills/scene.py:56-86 | the loading code gives exactly the scene of the parsed file |
| `Scenes.SceneOfEntries` | fourhills/scene.py:56-86 | entries keep file order, entry `i` being the matcher's split; a missing `monsters` or `npcs` key gives `[]` |
| `Scenes.SceneOfBadEntry` | fourhills/scene.py:62-67 | the first unmatched entry makes the load fail, naming it |
| `Scenes.BattlePanesOrder` | fourhills/scene.py:90-104 | one pane per monster in order, then one per NPC in order |
| `Scenes.MonsterBattlePaneShape` | fourhills/scene.py:93-97 | a monster's pane is its three summary lines with the quantity, then its battle info |
| `Scenes.DisplayBattle` | fourhills/scene.py:88-106 | the battle view's loops give exactly the battle screen |
| `Scenes.NpcScreenPanes` | fourhills/scene.py:108-119 | the NPC view fails exactly when some NPC cannot be loaded; otherwise it shows one summary-plus-character pane per NPC, in order |
| `Scenes.DisplayNpcs` | fourhills/scene.py:108-119 | the NPC view's loop gives exactly the NPC screen |
| `Scenes.MonsterLineQuantity` | fourhills/scene.py:146-148 | a monster line is the bare name exactly when the quantity is 1; otherwise `"name x"` then a numeral that reads back as the quantity |
| `Scenes.MonstersPane` | fourhills/scene.py:143-149 | the monsters pane is the "Monsters" title, then one line per monster in order |
| `Scenes.NpcsPane` | fourhills/scene.py:152-156 | the NPCs pane is the "NPCs" title, then one name per NPC in order |
| `Scenes.MonsterXpAppend` | fourhills/scene.py:159-161 | monster XP adds up over concatenation, and is defined when both parts are |
| `Scenes.MonsterXpSingle` | fourhills/scene.py:159-161 | one monster contributes quantity × its XP, or the rating error |
| `Scenes.NpcXpAppend` | fourhills/scene.py:162 | NPC XP adds up over concatenation |
| `Scenes.NpcXpSingle` | fourhills/scene.py:162 | an NPC contributes its stats' XP, or 0 without stats |
| `Scenes.XpLinesTotals` | fourhills/scene.py:164-167 | the XP pane is the title and three totals, each a numeral that reads back; the last is the sum of the other two |
| `Scenes.ScenePanesShape` | fourhills/scene.py:143-168 | a monsters pane exactly when there are monsters, an NPCs pane exactly when there are NPCs, and the XP pane always last |
| `Scenes.ScenePanesFail` | fourhills/scene.py:159-162 | the overview fails exactly when a monster's or an NPC's rating is invalid |
| `Scenes.BuildMonstersPane` | fourhills/scene.py:144-149 | the monsters loop builds exactly the monsters pane |
| `Scenes.BuildNpcsPane` | fourhills/scene.py:153-156 | the NPCs loop builds exactly the NPCs pane |
| `Scenes.DisplayScene` | fourhills/scene.py:121-170 | the overview code gives exactly the scene screen |
| `Commands.ListCommands` | fourhills/fourhills.py:24 | the listed commands are the group's commands, sorted |
| `Commands.GetCommand` | fourhills/fourhills.py:21-23 | an exact name resolves to itself even when it starts other names; any command found starts with the name |
| `Commands.GetCommandNone` | fourhills/fourhills.py:24-26 | nothing is found exactly when no command's name starts with the name |
| `Commands.GetCommandUnique` | fourhills/fourhills.py:27-28 | with exactly one command starting with the name, that command is found |
| `Commands.GetCommandAmbiguous` | fourhills/fourhills.py:29 | two or more matches fail with `"Ambiguous command. Too many matches: "` and the matches sorted and joined by `", "` |
| `Commands.PermutationDistinct` | fourhills/fourhills.py:24 | sorting distinct command names keeps them distinct |
| `Commands.PrefixRulesDiffer` | fourhills/fourhills.py:21-29 | `goblin` beside `goblin_boss` is found as a command but is ambiguous in a directory |
| `Commands.SceneCommandExample` | fourhills/fourhills.py:27-28 | among the four commands, `s` finds `scene` |
| `Commands.NoCommandExample` | fourhills/fourhills.py:24-26 | among the four commands, `x` finds nothing |
| `Commands.CheatsheetUnknown` | fourhills/fourhills.py:103-106 | a name no stem starts with fails with `Unknown cheatsheet "name"` |
| `Commands.CheatsheetAmbiguous` | fourhills/fourhills.py:107-108 | a name two stems start with fails with the directory's ambiguity message |
| `Commands.CheatsheetPanesSections` | fourhills/fourhills.py:101-112 | the panes come from the one cheatsheet found: one pane per section, in order, laid out with the setting's layout |
| `Commands.CheatsheetPanesWithin` | fourhills/fourhills.py:110 | under the width bound, every pane line fits the pane width |
| `LegacyStats.FormattedWidthCheck` | stats.py:77-80 | a width under 56 is refused before anything else; the rendering succeeds exactly at 56 or more with abilities |
| `LegacyStats.FormattedLinesOrder` | stats.py:89-126 | eleven lines: the title of the capitalised name, then the five statistics lines, then the ability table |
| `LegacyStats.StatisticsLinesLabels` | stats.py:93-100 | the statistics lines are the description, then the AC, HP, Speed and Challenge lines, each with its value after its label |
| `LegacyStats.FormattedLinesRules` | stats.py:102-126 | the two ability rows sit between two `-` rules as wide as the output |
| `LegacyStats.FormattedLinesExactWidth` | stats.py:106-123 | with the name and every ability cell fitting, the header, both rules and both ability rows are exactly `W` wide |
| `LegacyStats.FormattedStringLines` | stats.py:128 | the string is the lines joined by newlines: its length is theirs plus 10, and splitting it at newlines gives them back when no line holds one |
| `LegacyStats.RenderFormattedString` | stats.py:77-128 | the appending code, with its ability loop, gives exactly the formatted string |
| `LegacyBattle.BattleEntry` | fourhills.py:94-111 | an entry is accepted exactly when the matcher accepts it; a mismatch is a file load error |
| `LegacyBattle.LoadBattleInfo` | fourhills.py:89-116 | the loading loop gives exactly the battle info of the parsed file |
| `LegacyBattle.BattleInfoKeys` | fourhills.py:90-116 | without `monsters` the list is empty; `characters` is refused even after every entry parsed |
| `LegacyBattle.BattleInfoEntries` | fourhills.py:94-111 | entries keep file order, entry `i` being the matcher's split |
| `LegacyBattle.BattleInfoBadEntry` | fourhills.py:96-98 | the first unmatched entry stops the load with a file load error |
| `Strings.SortCorrect` | fourhills/fourhills.py:29 | `sorted` gives an ordered permutation of its argument |
| `Strings.SplitJoinLines` | stats.py:128 | splitting at newlines undoes joining with newlines when no part holds one |
| `Strings.DigitsValueOfNatToString` | fourhills/scene.py:165-167 | a printed number reads back as itself |
| `Outcomes.MapAllOk` | fourhills/scene.py:126-140 | a comprehension succeeds exactly when every item does |
| `Outcomes.MapAllFirstError` | fourhills/cheatsheet.py:79-81 | a comprehension fails with the first failing item's error |

## Left out

- Reading files and parsing YAML (`open`, `yaml.safe_load`) in every `from_file`, and the YAML error branches. The model starts from the parsed map.
- A YAML value of the wrong type: it is the model's own `WrongShape` error. The source would go on with the value, for example iterating a string character by character, or would fail later. The same applies to a file whose top level is not a mapping.
- `Setting.find_root`, directory globbing and the `FhSettingStructureError` from a missing directory: `DirectoryDict` works over a given key table.
- Loading a monster file (`StatBlock.from_file`): the setting's monster factory is a parameter.
- `click.echo_via_pager` and the `"\n"` join before it. A view's result is its list of screen rows.
- The `cheatsheet --list` option, `get_setting`, `get_scene` and the rest of click's wiring.
- `textwrap.wrap`'s own behaviour: dropping whitespace, breaking long words, and returning `[]` for an empty string. The last one silently removes the blank line before "Phrases:". The wrapper is a parameter bounded only by its width promise.
- `\w`, `\d` and `str.capitalize` are ASCII approximations. Python's versions also cover Unicode letters and digits.
- `int(number)` failing after the match: it cannot fail on the digits the expression accepts, so that branch is never taken.
- Attack detail dictionaries with a missing key (a `KeyError` in the source): an attack is a record with every field present.
- The old top-level npc.py, the `Setting` class of the old top-level fourhills.py, its `battle()` command (it calls `formatted_string` with an argument the old stat block does not take) and its module-level call of `StatBlock.from_file`.
- All of fourhills/gui: Qt widgets, timers, dialogs and focus handling.
- `Stats.Xp`: Python's float, an `int`, and a `bool` would all look a rating up alike; the model takes the rating as an exact number.
- `Stats.ChallengeText`: a rating the file writes as a YAML boolean (`true` looks up as 1) would print as "True"; the model prints the integer or float forms only.
