/** The earlier stat block of the top-level stats.py, which renders a
    monster as one string: its name, a general description, its armour
    class, hit points, speed and challenge, and its ability table between
    two rules.

    Only the fields `formatted_string` reads are modelled; the ability
    dictionary is a sequence of (name, score) pairs in insertion order. The
    centring, the ability columns and the score cells are those of the
    later stat block (`TextUtils.CentrePad`, `Stats.NameCells`,
    `Stats.ScoreCells`, `Stats.AbilityRow`), which the older code computes
    in the same way. */
module LegacyStats {
  import opened Strings
  import opened Outcomes
  import opened TextUtils
  import Stats

  datatype LegacyStatBlock = LegacyStatBlock(
    name: string,
    size: string,
    creatureType: string,
    alignment: string,
    ac: int,
    hp: string,
    speed: string,
    challenge: int,
    ability: seq<(string, int)>)

  /** The smallest width with room for six ability cells. */
  const LegacyMinimumWidth := 56

  /** The description line and the four statistics lines. */
  function StatisticsLines(sb: LegacyStatBlock): (r: seq<string>)
    ensures |r| == 5
  {
    [Capitalize(sb.size) + " " + sb.creatureType + ", " + sb.alignment,
     "AC " + IntToString(sb.ac), "HP " + sb.hp, "Speed " + sb.speed,
     "Challenge " + IntToString(sb.challenge)]
  }

  /** The ability table between its two rules. */
  function AbilityLines(sb: LegacyStatBlock, w: int): (r: seq<string>)
    requires |sb.ability| > 0 && w >= 0
    ensures |r| == 4
  {
    var aw := Stats.AbilityWidth(w, |sb.ability|);
    [Stats.Rule(w), Stats.AbilityRow(Stats.NameCells(sb.ability, aw), w),
     Stats.AbilityRow(Stats.ScoreCells(sb.ability, aw), w), Stats.Rule(w)]
  }

  /** The eleven lines of the rendering, in order. */
  function FormattedLines(sb: LegacyStatBlock, w: int): Result<seq<string>> {
    if w < LegacyMinimumWidth then Err(LegacyWidthTooSmall)
    else if |sb.ability| == 0 then Err(NoAbilities)
    else Ok(Title(Capitalize(sb.name), w) + StatisticsLines(sb) + AbilityLines(sb, w))
  }

  /** `formatted_string(line_width)`: the lines joined by newlines. */
  function FormattedString(sb: LegacyStatBlock, w: int): Result<string> {
    var lines :- FormattedLines(sb, w);
    Ok(Join("\n", lines))
  }

  /** The width check comes first: any width under 56 is refused, whatever
      the stat block, and any other width is refused only for a stat block
      without abilities (the division by their number). */
  lemma FormattedWidthCheck(sb: LegacyStatBlock, w: int)
    ensures w < 56 <==> FormattedString(sb, w) == Err(LegacyWidthTooSmall)
    ensures FormattedString(sb, w).Ok? <==> 56 <= w && |sb.ability| > 0
  {
  }

  /** The statistics lines: the description, then the AC, HP, speed and
      challenge lines, each with its value after its label. */
  lemma StatisticsLinesLabels(sb: LegacyStatBlock)
    ensures var st := StatisticsLines(sb);
            && st[0] == Capitalize(sb.size) + " " + sb.creatureType + ", " + sb.alignment
            && |st[1]| >= 3 && st[1][..3] == "AC " && st[1][3..] == IntToString(sb.ac)
            && |st[2]| >= 3 && st[2][..3] == "HP " && st[2][3..] == sb.hp
            && |st[3]| >= 6 && st[3][..6] == "Speed " && st[3][6..] == sb.speed
            && |st[4]| >= 10 && st[4][..10] == "Challenge " && st[4][10..] == IntToString(sb.challenge)
  {
    var st := StatisticsLines(sb);
    assert st[1] == "AC " + IntToString(sb.ac);
    assert st[2] == "HP " + sb.hp;
    assert st[3] == "Speed " + sb.speed;
    assert st[4] == "Challenge " + IntToString(sb.challenge);
  }

  /** The header is the title of the capitalised name; the statistics lines
      come next, then the ability table. */
  lemma FormattedLinesOrder(sb: LegacyStatBlock, w: int)
    requires FormattedLines(sb, w).Ok?
    ensures var lines := FormattedLines(sb, w).value;
            && |lines| == 11
            && lines[..2] == Title(Capitalize(sb.name), w)
            && lines[2..7] == StatisticsLines(sb)
            && lines[7..] == AbilityLines(sb, w)
  {
    var lines := FormattedLines(sb, w).value;
    assert lines[2..7] == StatisticsLines(sb);
    assert lines[..2] == Title(Capitalize(sb.name), w);
    assert lines[7..] == AbilityLines(sb, w);
  }

  /** The ability rows sit between two rules of `-` as wide as the output. */
  lemma FormattedLinesRules(sb: LegacyStatBlock, w: int)
    requires FormattedLines(sb, w).Ok?
    ensures var lines := FormattedLines(sb, w).value;
            && var aw := Stats.AbilityWidth(w, |sb.ability|);
            && lines[8] == Stats.AbilityRow(Stats.NameCells(sb.ability, aw), w)
            && lines[9] == Stats.AbilityRow(Stats.ScoreCells(sb.ability, aw), w)
            && |lines[7]| == |lines[10]| == w
            && (forall j :: 0 <= j < w ==> lines[7][j] == '-' && lines[10][j] == '-')
  {
    FormattedLinesOrder(sb, w);
    var lines := FormattedLines(sb, w).value;
    var ab := AbilityLines(sb, w);
    assert lines[7] == ab[0] && lines[8] == ab[1] && lines[9] == ab[2] && lines[10] == ab[3];
    RepeatChars('-', w);
  }

  /** With a name no wider than the output and every ability fitting its
      column of `floor(W/n)` characters, the header, its rule, the two rules
      and both ability rows are exactly as wide as the output. */
  lemma FormattedLinesExactWidth(sb: LegacyStatBlock, w: int)
    requires FormattedLines(sb, w).Ok?
    requires |sb.name| <= w && Stats.AbilitiesFit(sb.ability, w)
    ensures var lines := FormattedLines(sb, w).value;
            |lines[0]| == |lines[1]| == |lines[7]| == |lines[8]| == |lines[9]| == |lines[10]| == w
  {
    FormattedLinesOrder(sb, w);
    var lines := FormattedLines(sb, w).value;
    var t := Title(Capitalize(sb.name), w);
    var ab := AbilityLines(sb, w);
    assert lines[0] == t[0] && lines[1] == t[1];
    assert lines[7] == ab[0] && lines[8] == ab[1] && lines[9] == ab[2] && lines[10] == ab[3];
    Stats.AbilityRowsExact(sb.ability, w);
    CapitalizeChars(sb.name);
  }

  /** The string holds the lines, one after another with a newline between
      neighbours: splitting it at its newlines gives the lines back when none
      of them holds a newline itself. */
  lemma FormattedStringLines(sb: LegacyStatBlock, w: int)
    requires FormattedLines(sb, w).Ok?
    ensures var lines := FormattedLines(sb, w).value;
            && |FormattedString(sb, w).value| == TotalLength(lines) + 10
            && ((forall i, j :: 0 <= i < |lines| && 0 <= j < |lines[i]| ==> lines[i][j] != '\n') ==>
                  SplitLines(FormattedString(sb, w).value) == lines)
  {
    var lines := FormattedLines(sb, w).value;
    JoinLength("\n", lines);
    if forall i, j :: 0 <= i < |lines| && 0 <= j < |lines[i]| ==> lines[i][j] != '\n' {
      SplitJoinLines(lines);
    }
  }

  /** `formatted_string` as the source builds it: the width check, the
      header and statistics lines, the ability loop, the rules, the join. */
  method RenderFormattedString(sb: LegacyStatBlock, w: int) returns (r: Result<string>)
    ensures r == FormattedString(sb, w)
  {
    if w < 56 {
      return Err(LegacyWidthTooSmall);
    }
    var lines := [CentrePad(Capitalize(sb.name), w), Repeat('=', w)];
    assert lines == Title(Capitalize(sb.name), w);
    ghost var header := lines;
    lines := lines + [Capitalize(sb.size) + " " + sb.creatureType + ", " + sb.alignment];
    lines := lines + ["AC " + IntToString(sb.ac), "HP " + sb.hp, "Speed " + sb.speed];
    lines := lines + ["Challenge " + IntToString(sb.challenge)];
    assert lines == header + StatisticsLines(sb);
    ghost var top := lines;
    lines := lines + [Repeat('-', w)];
    if |sb.ability| == 0 {
      return Err(NoAbilities);
    }
    var aw := w / |sb.ability|;
    var names, scores := Stats.AbilityStrings(sb.ability, aw);
    lines := lines + [CentrePad(Join("", names), w), CentrePad(Join("", scores), w)];
    lines := lines + [Repeat('-', w)];
    assert lines == top + AbilityLines(sb, w);
    return Ok(Join("\n", lines));
  }
}
