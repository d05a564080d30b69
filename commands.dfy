/** The command line of fourhills/fourhills.py: the command group that
    accepts a unique prefix of a command's name, and the `cheatsheet`
    command, which shows one pane per section of a cheatsheet found by a
    prefix of its name.

    The group's commands are given by their names (the keys of click's
    command dictionary, which are distinct); `list_commands` lists them
    sorted. Reporting a usage error is click's `ctx.fail`, which stops the
    command; here it is the error `UsageError` carrying the message. */
module Commands {
  import opened Strings
  import opened Outcomes
  import opened TextUtils
  import opened PaneLayout
  import opened Directories
  import opened Cheatsheets
  import opened Settings

  /** The commands the group defines. */
  const CliCommands := ["battle", "npcs", "scene", "cheatsheet"]

  /** `list_commands`: the names in sorted order. */
  function ListCommands(commands: seq<string>): (r: seq<string>)
    ensures forall x :: x in r <==> x in commands
    ensures Sorted(r)
  {
    SortCorrect(commands);
    assert forall x :: (x in Sort(commands) <==> x in multiset(Sort(commands)))
                       && (x in commands <==> x in multiset(commands));
    Sort(commands)
  }

  /** The usage error for a name that starts several commands' names. */
  function AmbiguousCommandMessage(matches: seq<string>): string {
    "Ambiguous command. Too many matches: " + Join(", ", Sort(matches))
  }

  /** `AliasedGroup.get_command`: the command of exactly this name if there is
      one; otherwise the only command whose name starts with it; `None` if
      there is no such command, and a usage error if there are several. */
  function GetCommand(commands: seq<string>, name: string): (r: Result<Option<string>>)
    ensures name in commands ==> r == Ok(Some(name))
    ensures r.Ok? && r.value.Some? ==> r.value.value in commands && StartsWith(r.value.value, name)
  {
    if name in commands then Ok(Some(name))
    else
      var matches := PrefixMatches(ListCommands(commands), name);
      if |matches| == 0 then Ok(None)
      else if |matches| == 1 then (PrefixMatchesAt(ListCommands(commands), name, 0); Ok(Some(matches[0])))
      else Err(UsageError(AmbiguousCommandMessage(matches)))
  }

  /** A distinct sequence holds each value at most once. */
  lemma {:induction false} DistinctMultiplicity(a: seq<string>, x: string)
    requires Distinct(a)
    ensures multiset(a)[x] <= 1
    decreases |a|
  {
    if a != [] {
      assert a == [a[0]] + a[1..];
      assert a[0] !in a[1..];
      assert Distinct(a[1..]) by {
        forall i, j | 0 <= i < j < |a[1..]| ensures a[1..][i] != a[1..][j] {
          assert a[1..][i] == a[i + 1] && a[1..][j] == a[j + 1];
        }
      }
      DistinctMultiplicity(a[1..], x);
    }
  }

  /** A rearrangement of a distinct sequence is distinct. */
  lemma PermutationDistinct(a: seq<string>, b: seq<string>)
    requires Distinct(a) && multiset(a) == multiset(b)
    ensures Distinct(b)
  {
    forall i, j | 0 <= i < j < |b| ensures b[i] != b[j] {
      assert b == b[..j] + b[j..];
      assert b[..j][i] == b[i];
      assert b[j..][0] == b[j];
      assert multiset(b)[b[j]] == multiset(b[..j])[b[j]] + multiset(b[j..])[b[j]];
      assert multiset(b[..j])[b[i]] >= 1;
      assert multiset(b[j..])[b[j]] >= 1;
      DistinctMultiplicity(a, b[j]);
    }
  }

  /** No command is found exactly when no command's name starts with the
      given name (an exact name starts itself). */
  lemma GetCommandNone(commands: seq<string>, name: string)
    ensures GetCommand(commands, name) == Ok(None) <==>
      forall c :: c in commands ==> !StartsWith(c, name)
  {
    var matches := PrefixMatches(ListCommands(commands), name);
    if name in commands {
      assert StartsWith(name, name);
    } else if |matches| > 0 {
      assert matches[0] in matches;
    }
  }

  /** A name that starts exactly one command's name, and is no command's
      whole name, gives that command. */
  lemma GetCommandUnique(commands: seq<string>, name: string, c: string)
    requires Distinct(commands) && name !in commands
    requires c in commands && StartsWith(c, name)
    requires forall k :: k in commands && StartsWith(k, name) ==> k == c
    ensures GetCommand(commands, name) == Ok(Some(c))
  {
    var listed := ListCommands(commands);
    SortCorrect(commands);
    PermutationDistinct(commands, listed);
    var matches := PrefixMatches(listed, name);
    PrefixMatchesDistinct(listed, name);
    assert c in matches;
    if |matches| >= 2 {
      PrefixMatchesAt(listed, name, 0);
      PrefixMatchesAt(listed, name, 1);
      assert false;
    }
  }

  /** A name that starts two commands' names, and is no command's whole name,
      is a usage error listing every such command in sorted order. */
  lemma GetCommandAmbiguous(commands: seq<string>, name: string, c1: string, c2: string)
    requires name !in commands
    requires c1 in commands && c2 in commands && c1 != c2
    requires StartsWith(c1, name) && StartsWith(c2, name)
    ensures var listed := Sort(PrefixMatches(ListCommands(commands), name));
            && GetCommand(commands, name) ==
                 Err(UsageError("Ambiguous command. Too many matches: " + Join(", ", listed)))
            && Sorted(listed)
            && forall x :: x in listed <==> x in commands && StartsWith(x, name)
  {
    var matches := PrefixMatches(ListCommands(commands), name);
    TwoMembers(matches, c1, c2);
    SortCorrect(matches);
    assert forall x :: x in Sort(matches) <==> x in multiset(Sort(matches));
  }

  /** The two prefix rules differ on a whole name that starts another name:
      `goblin` is the command `goblin` beside `goblin_boss`, but the same two
      names in a directory make the prefix `goblin` ambiguous. */
  lemma PrefixRulesDiffer<T>(factory: string -> T)
    ensures GetCommand(["goblin", "goblin_boss"], "goblin") == Ok(Some("goblin"))
    ensures FromPrefix(DirectoryDict(["goblin", "goblin_boss"], factory), "goblin").Err?
  {
    NoExactPriorityExample(factory);
  }

  /** Among the four commands, `s` names the `scene` command. */
  lemma SceneCommandExample()
    ensures GetCommand(CliCommands, "s") == Ok(Some("scene"))
  {
    assert "scene"[..1] == "s";
    assert "battle"[..1][0] == 'b' && "npcs"[..1][0] == 'n' && "cheatsheet"[..1][0] == 'c';
    assert "s" !in CliCommands;
    assert Distinct(CliCommands);
    GetCommandUnique(CliCommands, "s", "scene");
  }

  /** No command starts with `x`, so `x` finds nothing. */
  lemma NoCommandExample()
    ensures GetCommand(CliCommands, "x") == Ok(None)
  {
    assert "scene"[..1][0] == 's' && "battle"[..1][0] == 'b' && "npcs"[..1][0] == 'n' && "cheatsheet"[..1][0] == 'c';
    GetCommandNone(CliCommands, "x");
  }

  // ----- The cheatsheet command -----

  /** `[section.lines(width) for section in cheatsheet.sections]`. */
  function SectionPanes(wrap: Wrapper, sheet: Cheatsheet, w: int): (panes: seq<Pane>)
    ensures |panes| == |sheet.sections|
  {
    seq(|sheet.sections|, i requires 0 <= i < |sheet.sections| => SectionLines(wrap, sheet.sections[i], w))
  }

  /** The panes of `cheatsheet <name>`: the cheatsheet whose stem `name` is a
      unique prefix of, one pane per section. No such stem is the usage error
      `Unknown cheatsheet "name"`, several are the usage error carrying the
      directory's ambiguity message, and an error reading the file is
      passed on. */
  function CheatsheetPanes(wrap: Wrapper, setting: Setting, name: string): Result<seq<Pane>> {
    var found := FromPrefix(setting.cheatsheets, name);
    if found.Err? then
      match found.error
      case NoMatch(_) => Err(UsageError("Unknown cheatsheet \"" + name + "\""))
      case AmbiguousReference(p, ms) => Err(UsageError(AmbiguityMessage(p, ms)))
      case _ => Err(found.error)
    else
      var sheet :- found.value;
      Ok(SectionPanes(wrap, sheet, setting.paneWidth))
  }

  /** The screen the `cheatsheet` command shows. */
  function CheatsheetScreen(wrap: Wrapper, setting: Setting, name: string): Result<seq<string>> {
    var panes :- CheatsheetPanes(wrap, setting, name);
    Ok(Screen(panes, ViewLayout(setting)))
  }

  /** A name no cheatsheet's stem starts with is reported as unknown. */
  lemma CheatsheetUnknown(wrap: Wrapper, setting: Setting, name: string)
    requires forall k :: k in setting.cheatsheets.keys ==> !StartsWith(k, name)
    ensures CheatsheetScreen(wrap, setting, name) == Err(UsageError("Unknown cheatsheet \"" + name + "\""))
  {
    FromPrefixNoMatch(setting.cheatsheets, name);
  }

  /** A name two stems start with is reported with every matching stem. */
  lemma CheatsheetAmbiguous(wrap: Wrapper, setting: Setting, name: string, k1: string, k2: string)
    requires k1 in setting.cheatsheets.keys && k2 in setting.cheatsheets.keys && k1 != k2
    requires StartsWith(k1, name) && StartsWith(k2, name)
    ensures CheatsheetScreen(wrap, setting, name) ==
      Err(UsageError(AmbiguityMessage(name, PrefixMatches(setting.cheatsheets.keys, name))))
  {
    FromPrefixAmbiguous(setting.cheatsheets, name, k1, k2);
  }

  /** The panes shown are those of the one cheatsheet the name is a prefix of:
      one per section, in section order, each the section's lines at the
      setting's pane width; the screen is these panes in the setting's layout. */
  lemma CheatsheetPanesSections(wrap: Wrapper, setting: Setting, name: string)
    requires setting.cheatsheets.Valid() && CheatsheetPanes(wrap, setting, name).Ok?
    ensures var panes := CheatsheetPanes(wrap, setting, name).value;
            exists key, sheet ::
              && key in setting.cheatsheets.keys && StartsWith(key, name)
              && (forall k :: k in setting.cheatsheets.keys && StartsWith(k, name) ==> k == key)
              && setting.cheatsheets.factory(key) == Ok(sheet)
              && |panes| == |sheet.sections|
              && (forall i :: 0 <= i < |panes| ==> panes[i] == SectionLines(wrap, sheet.sections[i], setting.paneWidth))
              && CheatsheetScreen(wrap, setting, name) == Ok(Screen(panes, ViewLayout(setting)))
  {
    FromPrefixFound(setting.cheatsheets, name);
    var key :| && key in setting.cheatsheets.keys && StartsWith(key, name)
               && FromPrefix(setting.cheatsheets, name).value == setting.cheatsheets.factory(key)
               && forall k :: k in setting.cheatsheets.keys && StartsWith(k, name) ==> k == key;
    var sheet := setting.cheatsheets.factory(key).value;
    var panes := CheatsheetPanes(wrap, setting, name).value;
    assert panes == SectionPanes(wrap, sheet, setting.paneWidth);
  }

  /** Every line of every pane fits the setting's pane width. */
  lemma CheatsheetPanesWithin(wrap: Wrapper, setting: Setting, name: string)
    requires WrapBounded(wrap) && IndentWidth < setting.paneWidth
    requires CheatsheetPanes(wrap, setting, name).Ok?
    ensures var panes := CheatsheetPanes(wrap, setting, name).value;
            forall i :: 0 <= i < |panes| ==> LinesWithin(panes[i], setting.paneWidth)
  {
    var sheet := FromPrefix(setting.cheatsheets, name).value.value;
    forall i | 0 <= i < |sheet.sections|
      ensures LinesWithin(SectionLines(wrap, sheet.sections[i], setting.paneWidth), setting.paneWidth)
    {
      SectionLinesWithin(wrap, sheet.sections[i], setting.paneWidth);
    }
  }
}
