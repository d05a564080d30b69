/** `Setting` of fourhills/setting.py: the campaign tree's layout defaults and
    its three directory dictionaries.

    Finding the setting's root and listing its directories are not part of
    this model: each directory is given by its table of stems, and reading
    one file by a function from stem to the parsed YAML (or the parse error).
    The monster files are read into stat blocks by `loadMonster`, since
    `StatBlock.from_file` is not part of this model. */
module Settings {
  import opened Outcomes
  import opened Stats
  import opened Records
  import opened Directories
  import opened Npcs
  import opened Cheatsheets
  import opened PaneLayout

  datatype Setting = Setting(
    paneWidth: int,
    panes: int,
    monsters: DirectoryDict<Result<StatBlock>>,
    npcs: DirectoryDict<Result<Npc>>,
    cheatsheets: DirectoryDict<Result<Cheatsheet>>)

  const DefaultPaneWidth := 56
  const DefaultPanes := 2

  /** How every view of the setting is laid out: the setting's number of
      columns, each the setting's pane width wide, one space apart, with a
      blank line after each pane. */
  function ViewLayout(setting: Setting): (lay: Layout)
    ensures lay.columns == setting.panes && lay.width == setting.paneWidth
    ensures lay.paneGap && lay.columnGap
  {
    DefaultLayout(setting.panes, setting.paneWidth)
  }

  /** The NPC factory: parse the file, then build the NPC, looking its stats
      up in the setting's monsters. */
  function LoadNpc(readNpc: string -> Result<Record>, monsters: DirectoryDict<Result<StatBlock>>, stem: string): Result<Npc> {
    var d :- readNpc(stem);
    NpcFromRecord(d, monsters)
  }

  /** The cheatsheet factory: parse the file, then build the cheatsheet. */
  function LoadCheatsheet(readCheatsheet: string -> Result<Record>, stem: string): Result<Cheatsheet> {
    var d :- readCheatsheet(stem);
    CheatsheetFromRecord(stem, d)
  }

  /** `Setting()`: 56-character panes in two columns, and one directory
      dictionary per kind of file. */
  function NewSetting(
    monsterStems: seq<string>, loadMonster: string -> Result<StatBlock>,
    npcStems: seq<string>, readNpc: string -> Result<Record>,
    cheatsheetStems: seq<string>, readCheatsheet: string -> Result<Record>): (s: Setting)
    ensures s.paneWidth == 56 && s.panes == 2
    ensures s.monsters.keys == monsterStems && s.npcs.keys == npcStems && s.cheatsheets.keys == cheatsheetStems
  {
    var monsters := DirectoryDict(monsterStems, loadMonster);
    Setting(
      DefaultPaneWidth, DefaultPanes, monsters,
      DirectoryDict(npcStems, stem => LoadNpc(readNpc, monsters, stem)),
      DirectoryDict(cheatsheetStems, stem => LoadCheatsheet(readCheatsheet, stem)))
  }

  /** An NPC of the setting is looked up afresh on every access, its stats
      coming from the same setting's monsters. */
  lemma NewSettingNpcLookup(
    monsterStems: seq<string>, loadMonster: string -> Result<StatBlock>,
    npcStems: seq<string>, readNpc: string -> Result<Record>,
    cheatsheetStems: seq<string>, readCheatsheet: string -> Result<Record>, stem: string)
    requires stem in npcStems
    ensures var s := NewSetting(monsterStems, loadMonster, npcStems, readNpc, cheatsheetStems, readCheatsheet);
            && GetItem(s.npcs, stem).Ok?
            && GetItem(s.npcs, stem).value == LoadNpc(readNpc, s.monsters, stem)
            && (readNpc(stem).Ok? ==> GetItem(s.npcs, stem).value == NpcFromRecord(readNpc(stem).value, s.monsters))
  {
  }

  /** A cheatsheet of the setting is its file parsed and checked, the file's
      stem naming it in the errors. */
  lemma NewSettingCheatsheetLookup(
    monsterStems: seq<string>, loadMonster: string -> Result<StatBlock>,
    npcStems: seq<string>, readNpc: string -> Result<Record>,
    cheatsheetStems: seq<string>, readCheatsheet: string -> Result<Record>, stem: string)
    requires stem in cheatsheetStems
    ensures var s := NewSetting(monsterStems, loadMonster, npcStems, readNpc, cheatsheetStems, readCheatsheet);
            && GetItem(s.cheatsheets, stem).Ok?
            && (readCheatsheet(stem).Err? ==> GetItem(s.cheatsheets, stem).value == Err(readCheatsheet(stem).error))
            && (readCheatsheet(stem).Ok? ==>
                  GetItem(s.cheatsheets, stem).value == CheatsheetFromRecord(stem, readCheatsheet(stem).value))
  {
  }
}
