/** `Scene` of fourhills/scene.py: the monsters and NPCs present at one place
    of the world, read from the place's scene file, and the three views of
    them the command line shows (the battle view, the NPC view and the scene
    overview with its XP totals). Each view is a list of panes laid out by
    `display_panes` with the setting's column count and pane width. */
module Scenes {
  import opened Strings
  import opened Outcomes
  import opened TextUtils
  import opened PaneLayout
  import Stats
  import Npcs
  import opened Records
  import opened Directories
  import opened Settings
  import opened MonsterEntries

  /** The monsters as (name, quantity) pairs, the NPCs by name, and the setting. */
  datatype Scene = Scene(monsters: seq<(string, nat)>, npcNames: seq<string>, setting: Setting)

  // ----- Reading the scene file -----

  /** One entry of the `monsters` list, through the entry expression. */
  function ParseEntry(v: Value): (r: Result<(string, nat)>)
    ensures r.Ok? <==> v.Text? && MatchEntry(v.text).Some?
    ensures r.Ok? ==> r.value == MatchEntry(v.text).value
    ensures v.Text? && MatchEntry(v.text).None? ==> r == Err(InvalidEntry(v.text))
  {
    if !v.Text? then Err(WrongShape("monsters"))
    else if MatchEntry(v.text).None? then Err(InvalidEntry(v.text))
    else Ok(MatchEntry(v.text).value)
  }

  /** The loop of `Scene.from_file` over the `monsters` list: each entry
      matched and appended in turn, the first bad entry raising. */
  method ParseMonsterEntries(entries: seq<Value>) returns (r: Result<seq<(string, nat)>>)
    ensures r == MapAll(entries, ParseEntry)
  {
    var monsterInfo: seq<(string, nat)> := [];
    for i := 0 to |entries|
      invariant MapAll(entries[..i], ParseEntry) == Ok(monsterInfo)
    {
      var entry := entries[i];
      MapAllStep(entries, ParseEntry, i);
      if !entry.Text? {
        MapAllErrPrefix(entries, ParseEntry, i + 1);
        return Err(WrongShape("monsters"));
      }
      var matched := MatchEntry(entry.text);
      if matched.None? {
        MapAllErrPrefix(entries, ParseEntry, i + 1);
        return Err(InvalidEntry(entry.text));
      }
      monsterInfo := monsterInfo + [matched.value];
    }
    assert entries[..|entries|] == entries;
    return Ok(monsterInfo);
  }

  /** The `monsters` entries of the file: none without the key. */
  function MonsterEntriesOf(d: Record): Result<seq<(string, nat)>> {
    if "monsters" !in d then Ok([])
    else if !d["monsters"].List? then Err(WrongShape("monsters"))
    else MapAll(d["monsters"].items, ParseEntry)
  }

  /** `scene_info["npcs"] if "npcs" in scene_info else []`. */
  function NpcNamesOf(d: Record): (r: Result<seq<string>>)
    ensures "npcs" !in d ==> r == Ok([])
    ensures "npcs" in d && r.Ok? ==> d["npcs"] == TextList(r.value)
  {
    if "npcs" !in d then Ok([])
    else if d["npcs"].List? && TextItems(d["npcs"].items).Some? then
      TextItemsOfList(d["npcs"].items);
      Ok(TextItems(d["npcs"].items).value)
    else Err(WrongShape("npcs"))
  }

  /** Reading a list of strings and writing it back gives the list. */
  lemma TextItemsOfList(items: seq<Value>)
    requires TextItems(items).Some?
    ensures TextList(TextItems(items).value) == List(items)
  {
    var strings := TextItems(items).value;
    forall i | 0 <= i < |items| ensures TextList(strings).items[i] == items[i] {
      TextItemsAt(items, i);
    }
  }

  /** What `Scene.from_file` builds from the parsed file. */
  function SceneOf(d: Record, setting: Setting): Result<Scene> {
    var monsters :- MonsterEntriesOf(d);
    var npcNames :- NpcNamesOf(d);
    Ok(Scene(monsters, npcNames, setting))
  }

  /** `Scene.from_file` after the YAML is loaded. */
  method LoadScene(d: Record, setting: Setting) returns (r: Result<Scene>)
    ensures r == SceneOf(d, setting)
  {
    var monsters: seq<(string, nat)> := [];
    if "monsters" in d {
      if !d["monsters"].List? {
        return Err(WrongShape("monsters"));
      }
      var parsed := ParseMonsterEntries(d["monsters"].items);
      if parsed.Err? {
        return Err(parsed.error);
      }
      monsters := parsed.value;
    }
    var npcNames := NpcNamesOf(d);
    if npcNames.Err? {
      return Err(npcNames.error);
    }
    return Ok(Scene(monsters, npcNames.value, setting));
  }

  /** A loaded scene keeps the file's entries in order, entry `i` giving the
      name and quantity the expression splits it into; a missing key gives
      no monsters, or no NPCs. */
  lemma SceneOfEntries(d: Record, setting: Setting)
    requires SceneOf(d, setting).Ok?
    ensures var scene := SceneOf(d, setting).value;
            && ("monsters" !in d ==> scene.monsters == [])
            && ("npcs" !in d ==> scene.npcNames == [])
            && ("monsters" in d ==>
                  && d["monsters"].List?
                  && |scene.monsters| == |d["monsters"].items|
                  && forall i :: 0 <= i < |scene.monsters| ==>
                       d["monsters"].items[i].Text?
                       && MatchEntry(d["monsters"].items[i].text) == Some(scene.monsters[i]))
  {
    var scene := SceneOf(d, setting).value;
    if "monsters" in d {
      forall i | 0 <= i < |scene.monsters|
        ensures d["monsters"].items[i].Text? && MatchEntry(d["monsters"].items[i].text) == Some(scene.monsters[i])
      {
        MapAllAt(d["monsters"].items, ParseEntry, i);
      }
    }
  }

  /** The first entry that does not match makes the whole file fail, naming that entry. */
  lemma SceneOfBadEntry(d: Record, setting: Setting, i: nat)
    requires "monsters" in d && d["monsters"].List?
    requires var items := d["monsters"].items;
             && i < |items| && items[i].Text? && MatchEntry(items[i].text).None?
             && forall k :: 0 <= k < i ==> ParseEntry(items[k]).Ok?
    ensures SceneOf(d, setting) == Err(InvalidEntry(d["monsters"].items[i].text))
  {
    MapAllFirstError(d["monsters"].items, ParseEntry, i);
  }

  // ----- The battle view -----


  /** A monster's battle pane: its summary with the quantity, then its battle information. */
  function MonsterBattlePane(wrap: Wrapper, setting: Setting, entry: (string, nat)): Result<Pane> {
    var sb :- Load(setting.monsters, entry.0);
    var battle :- Stats.BattleInfo(wrap, sb, setting.paneWidth);
    Ok(Stats.SummaryInfo(sb, setting.paneWidth, Some(entry.1)) + battle)
  }

  function MonsterBattlePaneOf(wrap: Wrapper, setting: Setting): ((string, nat)) -> Result<Pane> {
    entry => MonsterBattlePane(wrap, setting, entry)
  }

  /** An NPC's battle pane: its summary, then its battle information. */
  function NpcBattlePane(wrap: Wrapper, setting: Setting, name: string): Result<Pane> {
    var npc :- Load(setting.npcs, name);
    var battle :- Npcs.BattleInfo(wrap, npc, setting.paneWidth);
    Ok(Npcs.SummaryInfo(wrap, npc, setting.paneWidth) + battle)
  }

  function NpcBattlePaneOf(wrap: Wrapper, setting: Setting): string -> Result<Pane> {
    name => NpcBattlePane(wrap, setting, name)
  }

  /** The panes of `display_battle`. */
  function BattlePanes(wrap: Wrapper, scene: Scene): Result<seq<Pane>> {
    var monsterPanes :- MapAll(scene.monsters, MonsterBattlePaneOf(wrap, scene.setting));
    var npcPanes :- MapAll(scene.npcNames, NpcBattlePaneOf(wrap, scene.setting));
    Ok(monsterPanes + npcPanes)
  }

  /** The screen `display_battle` shows. */
  function BattleScreen(wrap: Wrapper, scene: Scene): Result<seq<string>> {
    var panes :- BattlePanes(wrap, scene);
    Ok(Screen(panes, ViewLayout(scene.setting)))
  }

  /** One pane per monster, in order, then one per NPC, in order. */
  lemma BattlePanesOrder(wrap: Wrapper, scene: Scene)
    requires BattlePanes(wrap, scene).Ok?
    ensures var panes := BattlePanes(wrap, scene).value;
            var m := |scene.monsters|;
            && |panes| == m + |scene.npcNames|
            && (forall i :: 0 <= i < m ==> MonsterBattlePane(wrap, scene.setting, scene.monsters[i]) == Ok(panes[i]))
            && (forall j :: 0 <= j < |scene.npcNames| ==>
                  NpcBattlePane(wrap, scene.setting, scene.npcNames[j]) == Ok(panes[m + j]))
  {
    var f := MonsterBattlePaneOf(wrap, scene.setting);
    var g := NpcBattlePaneOf(wrap, scene.setting);
    var mp := MapAll(scene.monsters, f).value;
    var np := MapAll(scene.npcNames, g).value;
    forall i | 0 <= i < |scene.monsters|
      ensures MonsterBattlePane(wrap, scene.setting, scene.monsters[i]) == Ok((mp + np)[i])
    {
      MapAllAt(scene.monsters, f, i);
    }
    forall j | 0 <= j < |scene.npcNames|
      ensures NpcBattlePane(wrap, scene.setting, scene.npcNames[j]) == Ok((mp + np)[|mp| + j])
    {
      MapAllAt(scene.npcNames, g, j);
    }
  }

  /** A monster's pane opens with its three summary lines, the quantity in
      the title, and goes on with its battle information. */
  lemma MonsterBattlePaneShape(wrap: Wrapper, setting: Setting, entry: (string, nat))
    requires MonsterBattlePane(wrap, setting, entry).Ok?
    ensures var pane := MonsterBattlePane(wrap, setting, entry).value;
            var sb := Load(setting.monsters, entry.0).value;
            && Load(setting.monsters, entry.0).Ok?
            && Stats.BattleInfo(wrap, sb, setting.paneWidth).Ok?
            && pane[..3] == Stats.SummaryInfo(sb, setting.paneWidth, Some(entry.1))
            && pane[3..] == Stats.BattleInfo(wrap, sb, setting.paneWidth).value
  {
  }

  /** `display_battle`: appends the monsters' panes, then the NPCs' panes, then lays them out. */
  method DisplayBattle(wrap: Wrapper, scene: Scene) returns (r: Result<seq<string>>)
    ensures r == BattleScreen(wrap, scene)
  {
    var f := MonsterBattlePaneOf(wrap, scene.setting);
    var g := NpcBattlePaneOf(wrap, scene.setting);
    var panes: seq<Pane> := [];
    for i := 0 to |scene.monsters|
      invariant MapAll(scene.monsters[..i], f) == Ok(panes)
    {
      var pane := MonsterBattlePane(wrap, scene.setting, scene.monsters[i]);
      MapAllStep(scene.monsters, f, i);
      if pane.Err? {
        MapAllErrPrefix(scene.monsters, f, i + 1);
        return Err(pane.error);
      }
      panes := panes + [pane.value];
    }
    assert scene.monsters[..|scene.monsters|] == scene.monsters;
    ghost var monsterPanes := panes;
    for i := 0 to |scene.npcNames|
      invariant MapAll(scene.npcNames[..i], g).Ok?
      invariant panes == monsterPanes + MapAll(scene.npcNames[..i], g).value
    {
      var pane := NpcBattlePane(wrap, scene.setting, scene.npcNames[i]);
      MapAllStep(scene.npcNames, g, i);
      if pane.Err? {
        MapAllErrPrefix(scene.npcNames, g, i + 1);
        return Err(pane.error);
      }
      panes := panes + [pane.value];
    }
    assert scene.npcNames[..|scene.npcNames|] == scene.npcNames;
    var screen := DisplayPanes(panes, ViewLayout(scene.setting));
    return Ok(screen);
  }

  // ----- The NPC view -----

  /** An NPC's pane in the NPC view: its summary, then its character information. */
  function NpcCharacterPane(wrap: Wrapper, setting: Setting, name: string): Result<Pane> {
    var npc :- Load(setting.npcs, name);
    Ok(Npcs.SummaryInfo(wrap, npc, setting.paneWidth) + Npcs.CharacterInfo(wrap, npc, setting.paneWidth))
  }

  function NpcCharacterPaneOf(wrap: Wrapper, setting: Setting): string -> Result<Pane> {
    name => NpcCharacterPane(wrap, setting, name)
  }

  /** The screen `display_npcs` shows. */
  function NpcScreen(wrap: Wrapper, scene: Scene): Result<seq<string>> {
    var panes :- MapAll(scene.npcNames, NpcCharacterPaneOf(wrap, scene.setting));
    Ok(Screen(panes, ViewLayout(scene.setting)))
  }

  /** The NPC view fails exactly when some NPC cannot be loaded, and otherwise
      lays out one pane per NPC, in order, with the setting's layout. */
  lemma NpcScreenPanes(wrap: Wrapper, scene: Scene)
    ensures NpcScreen(wrap, scene).Ok? <==>
      forall j :: 0 <= j < |scene.npcNames| ==> Load(scene.setting.npcs, scene.npcNames[j]).Ok?
    ensures NpcScreen(wrap, scene).Ok? ==>
      var panes := MapAll(scene.npcNames, NpcCharacterPaneOf(wrap, scene.setting)).value;
      && NpcScreen(wrap, scene).value == Screen(panes, ViewLayout(scene.setting))
      && |panes| == |scene.npcNames|
      && forall j :: 0 <= j < |panes| ==> NpcCharacterPane(wrap, scene.setting, scene.npcNames[j]) == Ok(panes[j])
  {
    var g := NpcCharacterPaneOf(wrap, scene.setting);
    MapAllOk(scene.npcNames, g);
    if NpcScreen(wrap, scene).Ok? {
      forall j | 0 <= j < |scene.npcNames| ensures NpcCharacterPane(wrap, scene.setting, scene.npcNames[j]) == Ok(MapAll(scene.npcNames, g).value[j]) {
        MapAllAt(scene.npcNames, g, j);
      }
    }
  }

  /** `display_npcs`: appends one pane per NPC, then lays them out. */
  method DisplayNpcs(wrap: Wrapper, scene: Scene) returns (r: Result<seq<string>>)
    ensures r == NpcScreen(wrap, scene)
  {
    var g := NpcCharacterPaneOf(wrap, scene.setting);
    var panes: seq<Pane> := [];
    for i := 0 to |scene.npcNames|
      invariant MapAll(scene.npcNames[..i], g) == Ok(panes)
    {
      var pane := NpcCharacterPane(wrap, scene.setting, scene.npcNames[i]);
      MapAllStep(scene.npcNames, g, i);
      if pane.Err? {
        MapAllErrPrefix(scene.npcNames, g, i + 1);
        return Err(pane.error);
      }
      panes := panes + [pane.value];
    }
    assert scene.npcNames[..|scene.npcNames|] == scene.npcNames;
    var screen := DisplayPanes(panes, ViewLayout(scene.setting));
    return Ok(screen);
  }

  // ----- The scene overview -----

  /** A monster entry with its stat block loaded. */
  function ResolveMonster(setting: Setting, entry: (string, nat)): Result<(Stats.StatBlock, nat)> {
    var sb :- Load(setting.monsters, entry.0);
    Ok((sb, entry.1))
  }

  function ResolveMonsterOf(setting: Setting): ((string, nat)) -> Result<(Stats.StatBlock, nat)> {
    entry => ResolveMonster(setting, entry)
  }

  function ResolveNpcOf(setting: Setting): string -> Result<Npcs.Npc> {
    name => Load(setting.npcs, name)
  }

  /** `f"{monster.name} x{quantity}" if quantity != 1 else monster.name`. */
  function MonsterLine(sb: Stats.StatBlock, quantity: nat): string {
    if quantity != 1 then sb.name + " x" + NatToString(quantity) else sb.name
  }

  /** The line names the stat block and, unless there is exactly one, gives
      the quantity so that it can be read back. */
  lemma MonsterLineQuantity(sb: Stats.StatBlock, quantity: nat)
    ensures quantity == 1 <==> MonsterLine(sb, quantity) == sb.name
    ensures quantity != 1 ==>
      var line := MonsterLine(sb, quantity);
      && StartsWith(line, sb.name + " x")
      && AllDigits(line[|sb.name| + 2..])
      && DigitsValue(line[|sb.name| + 2..]) == quantity
  {
    var line := MonsterLine(sb, quantity);
    if quantity != 1 {
      assert line == (sb.name + " x") + NatToString(quantity);
      assert line[..|sb.name| + 2] == sb.name + " x";
      assert line[|sb.name| + 2..] == NatToString(quantity);
      DigitsValueOfNatToString(quantity);
    }
  }

  /** The body lines of the monsters pane, one per monster. */
  function MonsterLines(ms: seq<(Stats.StatBlock, nat)>): (r: seq<string>)
    ensures |r| == |ms| && forall i :: 0 <= i < |ms| ==> r[i] == MonsterLine(ms[i].0, ms[i].1)
  {
    seq(|ms|, i requires 0 <= i < |ms| => MonsterLine(ms[i].0, ms[i].1))
  }

  lemma MonsterLinesStep(ms: seq<(Stats.StatBlock, nat)>, i: nat)
    requires i < |ms|
    ensures MonsterLines(ms[..i + 1]) == MonsterLines(ms[..i]) + [MonsterLine(ms[i].0, ms[i].1)]
  {
    assert ms[..i + 1][i] == ms[i];
  }

  /** The body lines of the NPCs pane, one name per NPC. */
  function NpcLines(ns: seq<Npcs.Npc>): (r: seq<string>)
    ensures |r| == |ns| && forall i :: 0 <= i < |ns| ==> r[i] == ns[i].name
  {
    seq(|ns|, i requires 0 <= i < |ns| => ns[i].name)
  }

  lemma NpcLinesStep(ns: seq<Npcs.Npc>, i: nat)
    requires i < |ns|
    ensures NpcLines(ns[..i + 1]) == NpcLines(ns[..i]) + [ns[i].name]
  {
    assert ns[..i + 1][i] == ns[i];
  }

  /** `sum(quantity * monster.xp for monster, quantity in monsters_quantities)`. */
  function MonsterXp(ms: seq<(Stats.StatBlock, nat)>): Result<nat>
    decreases |ms|
  {
    if |ms| == 0 then Ok(0)
    else
      var init :- MonsterXp(ms[..|ms| - 1]);
      var xp :- Stats.Xp(ms[|ms| - 1].0);
      Ok(init + Times(ms[|ms| - 1].1, xp))
  }

  /** `quantity * monster.xp`. */
  function Times(quantity: nat, xp: nat): (r: nat)
    ensures quantity == 1 ==> r == xp
  {
    quantity * xp
  }

  /** `npc.stats.xp if npc.stats else 0`. */
  function NpcXpOf(npc: Npcs.Npc): Result<nat> {
    if npc.stats.Some? then Stats.Xp(npc.stats.value) else Ok(0)
  }

  /** `sum(npc.stats.xp if npc.stats else 0 for npc in npcs)`. */
  function NpcXp(ns: seq<Npcs.Npc>): Result<nat>
    decreases |ns|
  {
    if |ns| == 0 then Ok(0)
    else
      var init :- NpcXp(ns[..|ns| - 1]);
      var xp :- NpcXpOf(ns[|ns| - 1]);
      Ok(init + xp)
  }

  /** The monster XP of two groups together is the sum of their XP. */
  lemma {:induction false} MonsterXpAppend(a: seq<(Stats.StatBlock, nat)>, b: seq<(Stats.StatBlock, nat)>)
    ensures MonsterXp(a).Ok? && MonsterXp(b).Ok? <==> MonsterXp(a + b).Ok?
    ensures MonsterXp(a + b).Ok? ==> MonsterXp(a + b).value == MonsterXp(a).value + MonsterXp(b).value
    decreases |b|
  {
    if |b| == 0 {
      assert a + b == a;
    } else {
      var b' := b[..|b| - 1];
      assert (a + b)[..|a + b| - 1] == a + b';
      assert (a + b)[|a + b| - 1] == b[|b| - 1];
      MonsterXpAppend(a, b');
    }
  }

  /** One group of monsters is worth its quantity times one monster's XP, and
      fails exactly when the challenge rating is not in the table. */
  lemma MonsterXpSingle(sb: Stats.StatBlock, quantity: nat)
    ensures MonsterXp([(sb, quantity)]).Ok? <==> Stats.ValidChallenge(sb.challenge)
    ensures MonsterXp([(sb, quantity)]).Ok? ==>
      MonsterXp([(sb, quantity)]).value == Times(quantity, Stats.Xp(sb).value)
    ensures MonsterXp([(sb, quantity)]).Err? ==>
      MonsterXp([(sb, quantity)]) == Err(InvalidChallenge(sb.name, sb.challenge))
  {
    assert [(sb, quantity)][..0] == [];
  }

  /** The NPC XP of two groups together is the sum of their XP. */
  lemma {:induction false} NpcXpAppend(a: seq<Npcs.Npc>, b: seq<Npcs.Npc>)
    ensures NpcXp(a).Ok? && NpcXp(b).Ok? <==> NpcXp(a + b).Ok?
    ensures NpcXp(a + b).Ok? ==> NpcXp(a + b).value == NpcXp(a).value + NpcXp(b).value
    decreases |b|
  {
    if |b| == 0 {
      assert a + b == a;
    } else {
      var b' := b[..|b| - 1];
      assert (a + b)[..|a + b| - 1] == a + b';
      assert (a + b)[|a + b| - 1] == b[|b| - 1];
      NpcXpAppend(a, b');
    }
  }

  /** An NPC without stats adds nothing to the XP; one with stats adds its stat block's XP. */
  lemma NpcXpSingle(npc: Npcs.Npc)
    ensures npc.stats.None? ==> NpcXp([npc]) == Ok(0)
    ensures npc.stats.Some? ==> NpcXp([npc]) == Stats.Xp(npc.stats.value)
  {
    assert [npc][..0] == [];
  }

  /** The XP pane: its title and the three totals. */
  function XpLines(monsterXp: nat, npcXp: nat, w: int): seq<string> {
    Title("XP", w) + [
      "Total monster XP = " + NatToString(monsterXp),
      "Total NPC XP = " + NatToString(npcXp),
      "Total XP = " + NatToString(monsterXp + npcXp)]
  }

  /** The monsters pane: its title, then one line per monster. */
  function MonstersPane(ms: seq<(Stats.StatBlock, nat)>, w: int): (p: Pane)
    ensures |p| == 2 + |ms| && p[..2] == Title("Monsters", w)
    ensures forall i :: 0 <= i < |ms| ==> p[2 + i] == MonsterLine(ms[i].0, ms[i].1)
  {
    Title("Monsters", w) + MonsterLines(ms)
  }

  /** The NPCs pane: its title, then one name per NPC. */
  function NpcsPane(ns: seq<Npcs.Npc>, w: int): (p: Pane)
    ensures |p| == 2 + |ns| && p[..2] == Title("NPCs", w)
    ensures forall i :: 0 <= i < |ns| ==> p[2 + i] == ns[i].name
  {
    Title("NPCs", w) + NpcLines(ns)
  }

  /** The panes of `display_scene` for the loaded monsters and NPCs. */
  function ScenePanes(ms: seq<(Stats.StatBlock, nat)>, ns: seq<Npcs.Npc>, w: int): Result<seq<Pane>> {
    var monsterXp :- MonsterXp(ms);
    var npcXp :- NpcXp(ns);
    Ok((if |ms| > 0 then [MonstersPane(ms, w)] else [])
       + (if |ns| > 0 then [NpcsPane(ns, w)] else [])
       + [XpLines(monsterXp, npcXp, w)])
  }

  /** The overview has a monsters pane exactly when there are monsters, an
      NPCs pane exactly when there are NPCs, in that order, and always ends
      with the XP pane, whose total is the sum of the other two totals. */
  lemma ScenePanesShape(ms: seq<(Stats.StatBlock, nat)>, ns: seq<Npcs.Npc>, w: int)
    requires ScenePanes(ms, ns, w).Ok?
    ensures var panes := ScenePanes(ms, ns, w).value;
            var a := if |ms| > 0 then 1 else 0;
            var b := if |ns| > 0 then 1 else 0;
            && |panes| == a + b + 1
            && (|ms| > 0 ==> panes[0] == MonstersPane(ms, w))
            && (|ns| > 0 ==> panes[a] == NpcsPane(ns, w))
            && MonsterXp(ms).Ok? && NpcXp(ns).Ok?
            && panes[a + b] == XpLines(MonsterXp(ms).value, NpcXp(ns).value, w)
  {
    OptionalPanes(|ms| > 0, MonstersPane(ms, w), |ns| > 0, NpcsPane(ns, w),
      XpLines(MonsterXp(ms).value, NpcXp(ns).value, w));
  }

  /** Where two optional panes and a final one sit, for any panes. */
  lemma OptionalPanes(p: bool, x: Pane, q: bool, y: Pane, z: Pane)
    ensures var panes := (if p then [x] else []) + (if q then [y] else []) + [z];
            var a := if p then 1 else 0;
            var b := if q then 1 else 0;
            && |panes| == a + b + 1
            && (p ==> panes[0] == x) && (q ==> panes[a] == y) && panes[a + b] == z
  {
  }

  /** The XP pane's totals, each readable back from its line; the last is the
      sum of the other two. */
  lemma XpLinesTotals(monsterXp: nat, npcXp: nat, w: int)
    ensures var lines := XpLines(monsterXp, npcXp, w);
            && |lines| == 5 && lines[..2] == Title("XP", w)
            && lines[2] == "Total monster XP = " + NatToString(monsterXp)
            && lines[3] == "Total NPC XP = " + NatToString(npcXp)
            && lines[4] == "Total XP = " + NatToString(monsterXp + npcXp)
            && AllDigits(NatToString(monsterXp)) && DigitsValue(NatToString(monsterXp)) == monsterXp
            && AllDigits(NatToString(npcXp)) && DigitsValue(NatToString(npcXp)) == npcXp
            && AllDigits(NatToString(monsterXp + npcXp)) && DigitsValue(NatToString(monsterXp + npcXp)) == monsterXp + npcXp
  {
    DigitsValueOfNatToString(monsterXp);
    DigitsValueOfNatToString(npcXp);
    DigitsValueOfNatToString(monsterXp + npcXp);
  }

  /** The overview fails exactly when some XP cannot be worked out: a monster
      or an NPC's stat block with a challenge rating not in the table. */
  lemma ScenePanesFail(ms: seq<(Stats.StatBlock, nat)>, ns: seq<Npcs.Npc>, w: int)
    ensures ScenePanes(ms, ns, w).Err? <==> MonsterXp(ms).Err? || NpcXp(ns).Err?
  {
  }

  /** The screen `display_scene` shows. */
  function SceneScreen(scene: Scene): Result<seq<string>> {
    var ms :- MapAll(scene.monsters, ResolveMonsterOf(scene.setting));
    var ns :- MapAll(scene.npcNames, ResolveNpcOf(scene.setting));
    var panes :- ScenePanes(ms, ns, scene.setting.paneWidth);
    Ok(Screen(panes, ViewLayout(scene.setting)))
  }

  /** The loop of `display_scene` that lists the monsters under their title. */
  method BuildMonstersPane(monsters: seq<(Stats.StatBlock, nat)>, w: int) returns (monsterLines: Pane)
    ensures monsterLines == MonstersPane(monsters, w)
  {
    monsterLines := Title("Monsters", w);
    for i := 0 to |monsters|
      invariant monsterLines == Title("Monsters", w) + MonsterLines(monsters[..i])
    {
      MonsterLinesStep(monsters, i);
      monsterLines := monsterLines + [MonsterLine(monsters[i].0, monsters[i].1)];
    }
    assert monsters[..|monsters|] == monsters;
  }

  /** The loop of `display_scene` that lists the NPCs under their title. */
  method BuildNpcsPane(npcs: seq<Npcs.Npc>, w: int) returns (npcLines: Pane)
    ensures npcLines == NpcsPane(npcs, w)
  {
    npcLines := Title("NPCs", w);
    for i := 0 to |npcs|
      invariant npcLines == Title("NPCs", w) + NpcLines(npcs[..i])
    {
      NpcLinesStep(npcs, i);
      npcLines := npcLines + [npcs[i].name];
    }
    assert npcs[..|npcs|] == npcs;
  }

  /** `display_scene`: loads the monsters and NPCs, builds the monster and
      NPC lists line by line, adds the XP totals and lays the panes out. */
  method DisplayScene(scene: Scene) returns (r: Result<seq<string>>)
    ensures r == SceneScreen(scene)
  {
    var w := scene.setting.paneWidth;
    var ms := MapAll(scene.monsters, ResolveMonsterOf(scene.setting));
    if ms.Err? {
      return Err(ms.error);
    }
    var ns := MapAll(scene.npcNames, ResolveNpcOf(scene.setting));
    if ns.Err? {
      return Err(ns.error);
    }
    var monsters, npcs := ms.value, ns.value;
    var panes: seq<Pane> := [];
    if |monsters| > 0 {
      var monsterLines := BuildMonstersPane(monsters, w);
      panes := panes + [monsterLines];
    }
    assert panes == if |monsters| > 0 then [MonstersPane(monsters, w)] else [];
    if |npcs| > 0 {
      var npcLines := BuildNpcsPane(npcs, w);
      panes := panes + [npcLines];
    }
    assert panes == (if |monsters| > 0 then [MonstersPane(monsters, w)] else [])
                    + (if |npcs| > 0 then [NpcsPane(npcs, w)] else []);
    var monsterXp := MonsterXp(monsters);
    if monsterXp.Err? {
      return Err(monsterXp.error);
    }
    var npcXp := NpcXp(npcs);
    if npcXp.Err? {
      return Err(npcXp.error);
    }
    panes := panes + [XpLines(monsterXp.value, npcXp.value, w)];
    assert ScenePanes(monsters, npcs, w) == Ok(panes);
    var screen := DisplayPanes(panes, ViewLayout(scene.setting));
    return Ok(screen);
  }
}
