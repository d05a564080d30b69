/** Non-player characters of fourhills/npc.py: the summary, the battle
    information and the character information, and the construction of an
    NPC from its parsed YAML file. */
module Npcs {
  import opened Strings
  import opened Outcomes
  import opened TextUtils
  import opened Stats
  import opened Records
  import opened Directories

  /** The `Npc` dataclass; `stats` is the stat block its `stats_base` names. */
  datatype Npc = Npc(
    name: string,
    appearance: string,
    temperament: Option<string>,
    accent: Option<string>,
    phrases: Option<seq<string>>,
    background: Option<string>,
    deceased: Option<bool>,
    stats: Option<StatBlock>)

  /** `if self.deceased`: only `True` is truthy. */
  predicate Deceased(npc: Npc) {
    npc.deceased == Some(true)
  }

  // ----- Summary -----

  function SummaryTitle(npc: Npc): string {
    if Deceased(npc) then npc.name + " (deceased)" else npc.name
  }

  /** The title reads "name (deceased)" exactly when the NPC is deceased. */
  lemma SummaryTitleDeceased(npc: Npc)
    ensures SummaryTitle(npc) == npc.name + " (deceased)" <==> Deceased(npc)
    ensures !Deceased(npc) ==> SummaryTitle(npc) == npc.name
  {
    if !Deceased(npc) {
      assert |SummaryTitle(npc)| != |npc.name + " (deceased)"|;
    }
  }

  /** `f"{alignment.capitalize()} {name} ({size.capitalize()} {creature_type})"`. */
  function StatsLine(sb: StatBlock): string {
    Capitalize(sb.alignment) + " " + sb.name + " (" + Capitalize(sb.size) + " " + sb.creatureType + ")"
  }

  /** The lines `summary_info` wraps: the title, then the stats line when there are stats. */
  function SummaryLines(npc: Npc, w: int): seq<string> {
    Title(SummaryTitle(npc), w) + (if npc.stats.Some? then [StatsLine(npc.stats.value)] else [])
  }

  /** `summary_info(line_width)`. */
  function SummaryInfo(wrap: Wrapper, npc: Npc, w: int): seq<string> {
    WrappedLines(wrap, SummaryLines(npc, w), w)
  }

  /** The summary is the wrapped centred title, the wrapped rule and, exactly
      when there are stats, the wrapped stats line. */
  lemma SummaryInfoParts(wrap: Wrapper, npc: Npc, w: int)
    ensures var t := Title(SummaryTitle(npc), w);
            SummaryInfo(wrap, npc, w) ==
              wrap(t[0], w) + wrap(t[1], w)
              + (if npc.stats.Some? then wrap(StatsLine(npc.stats.value), w) else [])
  {
    var t := Title(SummaryTitle(npc), w);
    var extra := if npc.stats.Some? then [StatsLine(npc.stats.value)] else [];
    WrappedLinesAppend(wrap, t, extra, w);
    assert t == [t[0]] + [t[1]];
    WrappedLinesAppend(wrap, [t[0]], [t[1]], w);
    WrappedLinesSingle(wrap, t[0], w);
    WrappedLinesSingle(wrap, t[1], w);
    if npc.stats.Some? {
      WrappedLinesSingle(wrap, StatsLine(npc.stats.value), w);
    }
  }

  // ----- Battle information -----

  const NoStatsLine := "This NPC has no stats defined"

  /** `battle_info(line_width)`: the stat block's battle information, or the
      one placeholder line. */
  function BattleInfo(wrap: Wrapper, npc: Npc, w: int): (r: Result<seq<string>>)
    ensures npc.stats.Some? ==> r == Stats.BattleInfo(wrap, npc.stats.value, w)
    ensures npc.stats.None? ==> r == Ok([NoStatsLine])
  {
    if npc.stats.Some? then Stats.BattleInfo(wrap, npc.stats.value, w) else Ok([NoStatsLine])
  }

  // ----- Character information -----

  /** `"- " + phrase`, for every phrase in order. */
  function PhraseLines(phrases: seq<string>): (r: seq<string>)
    ensures |r| == |phrases| && forall i :: 0 <= i < |phrases| ==> r[i] == "- " + phrases[i]
  {
    seq(|phrases|, i requires 0 <= i < |phrases| => "- " + phrases[i])
  }

  predicate HasTemperamentLine(npc: Npc) {
    PresentText(npc.temperament) || PresentText(npc.background)
  }

  /** `" ".join([temperament or "", background or ""])`. */
  function TemperamentLine(npc: Npc): string {
    TextOr(npc.temperament) + " " + TextOr(npc.background)
  }

  /** The lines `character_info` wraps. */
  function CharacterLines(npc: Npc): seq<string> {
    ["Appearance: " + npc.appearance]
    + (if PresentText(npc.accent) then ["Accent: " + npc.accent.value] else [])
    + (if HasTemperamentLine(npc) then [TemperamentLine(npc)] else [])
    + (if Present(npc.phrases) then ["", "Phrases:"] + PhraseLines(npc.phrases.value) else [])
  }

  /** `character_info(line_width)`. */
  function CharacterInfo(wrap: Wrapper, npc: Npc, w: int): seq<string> {
    WrappedLines(wrap, CharacterLines(npc), w)
  }

  /** The character lines in order: the appearance; the accent line exactly
      when there is an accent; the temperament/background line exactly when
      either is set; and, exactly when there are phrases, a blank line,
      "Phrases:" and one "- phrase" line per phrase. */
  lemma CharacterLinesShape(npc: Npc)
    ensures var lines := CharacterLines(npc);
            var a := if PresentText(npc.accent) then 1 else 0;
            var t := if HasTemperamentLine(npc) then 1 else 0;
            var p := if Present(npc.phrases) then 2 + |npc.phrases.value| else 0;
            && |lines| == 1 + a + t + p
            && lines[0] == "Appearance: " + npc.appearance
            && (PresentText(npc.accent) ==> lines[1] == "Accent: " + npc.accent.value)
            && (HasTemperamentLine(npc) ==> lines[1 + a] == TemperamentLine(npc))
            && (Present(npc.phrases) ==>
                  && lines[1 + a + t] == "" && lines[2 + a + t] == "Phrases:"
                  && forall i :: 0 <= i < |npc.phrases.value| ==>
                       lines[3 + a + t + i] == "- " + npc.phrases.value[i])
  {
    var a := if PresentText(npc.accent) then 1 else 0;
    var t := if HasTemperamentLine(npc) then 1 else 0;
    var head := ["Appearance: " + npc.appearance]
      + (if PresentText(npc.accent) then ["Accent: " + npc.accent.value] else [])
      + (if HasTemperamentLine(npc) then [TemperamentLine(npc)] else []);
    assert |head| == 1 + a + t;
    if Present(npc.phrases) {
      var ps := npc.phrases.value;
      var lines := head + (["", "Phrases:"] + PhraseLines(ps));
      assert lines == CharacterLines(npc);
      forall i | 0 <= i < |ps| ensures lines[3 + a + t + i] == "- " + ps[i] {
        assert lines[3 + a + t + i] == PhraseLines(ps)[i];
      }
    }
  }

  /** The temperament line joins the two texts with one space, an absent one
      counting as empty. */
  lemma TemperamentLineText(npc: Npc)
    ensures PresentText(npc.temperament) && !PresentText(npc.background) ==>
      TemperamentLine(npc) == npc.temperament.value + " "
    ensures !PresentText(npc.temperament) && PresentText(npc.background) ==>
      TemperamentLine(npc) == " " + npc.background.value
  {
  }

  /** `character_info`: appends the lines one by one, the phrases in a loop,
      then wraps them. */
  method BuildCharacterInfo(wrap: Wrapper, npc: Npc, w: int) returns (output: seq<string>)
    ensures output == CharacterInfo(wrap, npc, w)
  {
    var lines := ["Appearance: " + npc.appearance];
    if npc.accent.Some? && npc.accent.value != "" {
      lines := lines + ["Accent: " + npc.accent.value];
    }
    if PresentText(npc.temperament) || PresentText(npc.background) {
      lines := lines + [TextOr(npc.temperament) + " " + TextOr(npc.background)];
    }
    ghost var head := lines;
    assert head == ["Appearance: " + npc.appearance]
      + (if PresentText(npc.accent) then ["Accent: " + npc.accent.value] else [])
      + (if HasTemperamentLine(npc) then [TemperamentLine(npc)] else []);
    if npc.phrases.Some? && |npc.phrases.value| > 0 {
      var phrases := npc.phrases.value;
      lines := lines + ["", "Phrases:"];
      for i := 0 to |phrases|
        invariant lines == head + ["", "Phrases:"] + PhraseLines(phrases[..i])
      {
        assert PhraseLines(phrases[..i + 1]) == PhraseLines(phrases[..i]) + ["- " + phrases[i]];
        lines := lines + ["- " + phrases[i]];
      }
      assert phrases[..|phrases|] == phrases;
      assert lines == head + (["", "Phrases:"] + PhraseLines(phrases));
    } else {
      assert lines == head + [];
    }
    output := WrapLinesParagraph(wrap, lines, w);
  }

  // ----- Construction from the parsed file -----

  /** The keyword arguments the `Npc` dataclass accepts from the file. */
  const NpcFields: set<string> :=
    {"name", "appearance", "temperament", "accent", "phrases", "background", "deceased"}

  /** `setting.monsters[npc_dict["stats_base"]]` when the key is there, else None. */
  function StatsBase(d: Record, monsters: DirectoryDict<Result<StatBlock>>): (r: Result<Option<StatBlock>>)
    ensures "stats_base" !in d ==> r == Ok(None)
    ensures r.Ok? && r.value.Some? ==>
      "stats_base" in d && d["stats_base"].Text? && d["stats_base"].text in monsters.keys
      && monsters.factory(d["stats_base"].text) == Ok(r.value.value)
  {
    if "stats_base" !in d then Ok(None)
    else if !d["stats_base"].Text? then Err(WrongShape("stats_base"))
    else
      var loaded :- GetItem(monsters, d["stats_base"].text);
      var sb :- loaded;
      Ok(Some(sb))
  }

  /** `cls(**fields)`: a required string field. */
  function RequiredText(fields: Record, key: string): (r: Result<string>)
    ensures r.Ok? <==> key in fields && fields[key].Text?
    ensures r.Ok? ==> r.value == fields[key].text
  {
    if key !in fields then Err(BadArguments("Npc"))
    else if fields[key].Text? then Ok(fields[key].text)
    else Err(WrongShape(key))
  }

  /** `Npc(**{key: value for key, value in npc_dict.items() if key not in ["stats_base", "stats"]})`. */
  function Construct(fields: Record): Result<Npc> {
    if !(fields.Keys <= NpcFields) then Err(BadArguments("Npc"))
    else
      var name :- RequiredText(fields, "name");
      var appearance :- RequiredText(fields, "appearance");
      var temperament :- OptionalText(fields, "temperament");
      var accent :- OptionalText(fields, "accent");
      var phrases :- OptionalTextList(fields, "phrases");
      var background :- OptionalText(fields, "background");
      var deceased :- OptionalFlag(fields, "deceased");
      Ok(Npc(name, appearance, temperament, accent, phrases, background, deceased, None))
  }

  /** `Npc.from_file` after the YAML is loaded: the stats lookup, the refusal
      of inline stats, the construction from the other keys, then the stats
      attached. */
  function NpcFromRecord(d: Record, monsters: DirectoryDict<Result<StatBlock>>): Result<Npc> {
    var stats :- StatsBase(d, monsters);
    if "stats" in d then Err(NotImplemented)
    else
      var npc :- Construct(d - {"stats_base", "stats"});
      Ok(npc.(stats := stats))
  }

  /** The errors come in the source's order: a failed stats lookup first,
      then inline stats, then the constructor's. */
  lemma NpcFromRecordErrors(d: Record, monsters: DirectoryDict<Result<StatBlock>>)
    ensures StatsBase(d, monsters).Err? ==> NpcFromRecord(d, monsters) == Err(StatsBase(d, monsters).error)
    ensures StatsBase(d, monsters).Ok? && "stats" in d ==> NpcFromRecord(d, monsters) == Err(NotImplemented)
    ensures "stats_base" in d && d["stats_base"].Text? && d["stats_base"].text !in monsters.keys ==>
      NpcFromRecord(d, monsters) == Err(KeyNotFound(d["stats_base"].text))
  {
  }

  /** A loaded NPC carries the stat block its `stats_base` names, or none
      without that key; every other field comes from the file's keys, so
      `stats_base` and `stats` are never passed to the constructor. */
  lemma NpcFromRecordFields(d: Record, monsters: DirectoryDict<Result<StatBlock>>)
    requires NpcFromRecord(d, monsters).Ok?
    ensures var npc := NpcFromRecord(d, monsters).value;
            && "stats" !in d
            && (d.Keys - {"stats_base"}) <= NpcFields
            && npc.name == d["name"].text && npc.appearance == d["appearance"].text
            && npc.stats == StatsBase(d, monsters).value
            && ("stats_base" !in d <==> npc.stats.None?)
  {
    var fields := d - {"stats_base", "stats"};
    assert fields.Keys == d.Keys - {"stats_base", "stats"};
    var npc :| Construct(fields) == Ok(npc);
    assert "name" in fields && "appearance" in fields;
  }

  /** Removing `stats_base` from the file changes only the attached stats. */
  lemma StatsBaseOnlyAttaches(d: Record, monsters: DirectoryDict<Result<StatBlock>>)
    requires NpcFromRecord(d, monsters).Ok?
    ensures NpcFromRecord(d - {"stats_base"}, monsters).Ok?
    ensures NpcFromRecord(d, monsters).value ==
      NpcFromRecord(d - {"stats_base"}, monsters).value.(stats := StatsBase(d, monsters).value)
  {
    var d' := d - {"stats_base"};
    assert d' - {"stats_base", "stats"} == d - {"stats_base", "stats"};
  }
}
