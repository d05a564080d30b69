/** Stat blocks of fourhills/stats.py: the challenge-to-XP table, the ability
    modifier, the three-line summary and the battle information.

    A stat block is the record the source loads from YAML; its dictionaries
    become sequences of (key, value) pairs in insertion order, as Python
    dictionaries iterate. The challenge rating is an exact `real` (the
    source's float is exact on every valid rating). */
module Stats {
  import opened Strings
  import opened Outcomes
  import opened TextUtils

  /** Six abilities of 9 characters each (2 for the score, 3 for the signed
      modifier, 2 for its brackets and one space either side) need 54
      characters; the source asks for at least 56. */
  const MinimumTerminalWidth := 56

  /** The details of one melee or ranged attack: `hit`, `reach` (melee) or
      `range` (ranged), `targets`, `damage`, and the optional `info`. */
  datatype Attack = Attack(hit: string, distance: string, targets: string, damage: string, info: Option<string>)

  /** The `StatBlock` dataclass. `challengeIsFloat` records whether the file
      wrote the rating as a YAML float rather than an integer, the one thing
      about its number type that shows in the output. */
  datatype StatBlock = StatBlock(
    name: string,
    size: string,
    creatureType: string,
    alignment: string,
    ac: string,
    hp: string,
    speed: string,
    ability: seq<(string, int)>,
    challenge: real,
    challengeIsFloat: bool,
    passivePerception: int,
    savingThrows: Option<seq<(string, string)>>,
    skills: Option<seq<(string, string)>>,
    damageVulnerabilities: Option<seq<string>>,
    damageResistances: Option<seq<string>>,
    damageImmunities: Option<seq<string>>,
    conditionImmunities: Option<seq<string>>,
    specialSenses: Option<seq<(string, string)>>,
    languages: Option<seq<string>>,
    specialTraits: Option<seq<(string, string)>>,
    meleeAttacks: Option<seq<(string, Attack)>>,
    rangedAttacks: Option<seq<(string, Attack)>>,
    multiattack: Option<string>,
    otherActions: Option<seq<(string, string)>>,
    description: Option<string>)

  // ----- Challenge rating and XP -----

  /** `xp_table`: the 34 challenge ratings and their experience points. */
  const XpTable: seq<(real, nat)> := [
    (0.0, 0), (0.125, 25), (0.25, 50), (0.5, 100), (1.0, 200), (2.0, 450), (3.0, 700),
    (4.0, 1100), (5.0, 1800), (6.0, 2300), (7.0, 2900), (8.0, 3900), (9.0, 5000),
    (10.0, 5900), (11.0, 7200), (12.0, 8400), (13.0, 10000), (14.0, 11500), (15.0, 13000),
    (16.0, 15000), (17.0, 18000), (18.0, 20000), (19.0, 22000), (20.0, 25000),
    (21.0, 33000), (22.0, 41000), (23.0, 50000), (24.0, 62000), (25.0, 75000),
    (26.0, 90000), (27.0, 105000), (28.0, 120000), (29.0, 135000), (30.0, 155000)]

  /** The ratings the source's error message allows: 0.125, 0.25, 0.5 or a whole number from 0 to 30. */
  predicate ValidChallenge(c: real) {
    c == 0.125 || c == 0.25 || c == 0.5 || (c == c.Floor as real && 0 <= c.Floor <= 30)
  }

  /** Dictionary lookup: the value of the first entry with key `c`. */
  function Find(table: seq<(real, nat)>, c: real): (r: Option<nat>)
    ensures r.Some? <==> exists i :: 0 <= i < |table| && table[i].0 == c
    ensures r.Some? ==> exists i :: 0 <= i < |table| && table[i] == (c, r.value)
    decreases |table|
  {
    if |table| == 0 then None
    else if table[0].0 == c then Some(table[0].1)
    else
      var r := Find(table[1..], c);
      assert forall i :: 1 <= i < |table| ==> table[i] == table[1..][i - 1];
      r
  }

  lemma XpTableAdjacent()
    ensures |XpTable| == 34
    ensures forall i :: 0 <= i < 33 ==> XpTable[i].0 < XpTable[i + 1].0 && XpTable[i].1 < XpTable[i + 1].1
  {
  }

  lemma XpTableWholeKeys(i: nat)
    requires 4 <= i < 34
    ensures XpTable[i].0 == (i - 3) as real
  {
  }

  /** The table is ordered: both the ratings and the XP strictly increase. */
  lemma {:induction false} XpTableIncreasing(i: nat, j: nat)
    requires i < j < |XpTable|
    ensures XpTable[i].0 < XpTable[j].0 && XpTable[i].1 < XpTable[j].1
    decreases j - i
  {
    XpTableAdjacent();
    if i + 1 < j {
      XpTableIncreasing(i + 1, j);
    }
  }

  /** The keys of the table are exactly the valid challenge ratings. */
  lemma XpTableKeys(c: real)
    ensures (exists i :: 0 <= i < |XpTable| && XpTable[i].0 == c) <==> ValidChallenge(c)
  {
    XpTableAdjacent();
    if i :| 0 <= i < |XpTable| && XpTable[i].0 == c {
      if i >= 4 {
        XpTableWholeKeys(i);
      }
    }
    if ValidChallenge(c) && c != 0.125 && c != 0.25 && c != 0.5 {
      var k := c.Floor;
      if k == 0 {
        assert XpTable[0].0 == c;
      } else {
        XpTableWholeKeys(k + 3);
        assert XpTable[k + 3].0 == c;
      }
    } else if c == 0.125 {
      assert XpTable[1].0 == c;
    } else if c == 0.25 {
      assert XpTable[2].0 == c;
    } else if c == 0.5 {
      assert XpTable[3].0 == c;
    }
  }

  /** `xp_table[challenge]`, None for a rating that is not a key. */
  function ChallengeXp(c: real): (r: Option<nat>)
    ensures r.Some? <==> ValidChallenge(c)
  {
    XpTableKeys(c);
    Find(XpTable, c)
  }

  /** Each rating of the table gets its own XP. */
  lemma ChallengeXpAt(i: nat)
    requires i < |XpTable|
    ensures ChallengeXp(XpTable[i].0) == Some(XpTable[i].1)
  {
    var c := XpTable[i].0;
    var r := ChallengeXp(c);
    var j :| 0 <= j < |XpTable| && XpTable[j] == (c, r.value);
    if i < j {
      XpTableIncreasing(i, j);
    } else if j < i {
      XpTableIncreasing(j, i);
    }
  }

  /** The place of a valid rating in the table. */
  lemma KeyIndex(c: real) returns (i: nat)
    requires ValidChallenge(c)
    ensures i < |XpTable| && XpTable[i].0 == c
  {
    XpTableKeys(c);
    i :| 0 <= i < |XpTable| && XpTable[i].0 == c;
  }

  /** Table positions follow the order of their ratings. */
  lemma KeyOrder(i: nat, j: nat)
    requires i < |XpTable| && j < |XpTable| && XpTable[i].0 < XpTable[j].0
    ensures i < j
  {
    if j < i {
      XpTableIncreasing(j, i);
      assert false;
    }
  }

  /** A later rating of the table is worth strictly more XP. */
  lemma ChallengeXpIncreasingAt(i: nat, j: nat)
    requires i < j < |XpTable|
    ensures ChallengeXp(XpTable[i].0).value < ChallengeXp(XpTable[j].0).value
  {
    ChallengeXpAt(i);
    ChallengeXpAt(j);
    XpTableIncreasing(i, j);
  }

  /** A higher valid challenge rating is worth strictly more XP. */
  lemma ChallengeXpIncreasing(c: real, d: real)
    requires ValidChallenge(c) && ValidChallenge(d) && c < d
    ensures ChallengeXp(c).value < ChallengeXp(d).value
  {
    var i := KeyIndex(c);
    var j := KeyIndex(d);
    KeyOrder(i, j);
    ChallengeXpIncreasingAt(i, j);
  }

  /** The low end of the table. */
  lemma ChallengeXpLowExamples()
    ensures ChallengeXp(0.0) == Some(0) && ChallengeXp(0.125) == Some(25)
  {
    assert XpTable[0] == (0.0, 0);
    ChallengeXpAt(0);
    assert XpTable[1] == (0.125, 25);
    ChallengeXpAt(1);
  }

  /** The largest fraction and the top of the table. */
  lemma ChallengeXpHighExamples()
    ensures ChallengeXp(0.5) == Some(100) && ChallengeXp(30.0) == Some(155000)
  {
    assert XpTable[3] == (0.5, 100);
    ChallengeXpAt(3);
    assert XpTable[33] == (30.0, 155000);
    ChallengeXpAt(33);
  }

  /** Ratings between the fractions, beyond 30 or negative have no XP. */
  lemma InvalidChallengeExamples()
    ensures !ValidChallenge(0.3) && !ValidChallenge(1.5) && !ValidChallenge(31.0) && !ValidChallenge(-1.0)
  {
    assert 0.3.Floor == 0 && 1.5.Floor == 1;
  }

  /** The `xp` property: the XP of the rating, or the parse error naming the
      stat block and its rating. */
  function Xp(sb: StatBlock): (r: Result<nat>)
    ensures r.Ok? <==> ValidChallenge(sb.challenge)
    ensures r.Ok? ==> Some(r.value) == ChallengeXp(sb.challenge)
    ensures r.Err? ==> r.error == InvalidChallenge(sb.name, sb.challenge)
  {
    match ChallengeXp(sb.challenge)
    case Some(x) => Ok(x)
    case None => Err(InvalidChallenge(sb.name, sb.challenge))
  }

  /** `f"{self.challenge}"` for a valid rating, which Python prints as the
      number the file wrote: a YAML integer such as `2` prints as "2", a YAML
      float such as `2.0` as "2.0"; a fractional rating is always a float. */
  function ChallengeText(c: real, isFloat: bool): string
    requires ValidChallenge(c)
  {
    if c == 0.125 then "0.125" else if c == 0.25 then "0.25" else if c == 0.5 then "0.5"
    else if isFloat then NatToString(c.Floor) + ".0"
    else NatToString(c.Floor)
  }

  /** A whole rating prints as its decimal digits, which read back as the
      rating, followed by ".0" exactly when the file wrote it as a float. */
  lemma ChallengeTextWhole(c: real, isFloat: bool)
    requires ValidChallenge(c) && c == c.Floor as real
    ensures var digits := ChallengeText(c, false);
            && AllDigits(digits) && DigitsValue(digits) as real == c
            && ChallengeText(c, isFloat) == if isFloat then digits + ".0" else digits
  {
    DigitsValueOfNatToString(c.Floor);
  }

  /** The three printed forms: 2 as "2", 2.0 as "2.0", 0.5 as "0.5". */
  lemma ChallengeTextExamples()
    ensures ChallengeText(2.0, false) == "2"
    ensures ChallengeText(2.0, true) == "2.0"
    ensures ChallengeText(0.5, true) == "0.5"
  {
  }

  // ----- Abilities -----

  /** `calculate_ability_modifier`: `floor((score - 10) / 2)`. */
  function AbilityModifier(score: int): (m: int)
    ensures 2 * m <= score - 10 < 2 * m + 2
  {
    (score - 10) / 2
  }

  lemma AbilityModifierExamples()
    ensures AbilityModifier(10) == 0 && AbilityModifier(11) == 0
    ensures AbilityModifier(9) == -1 && AbilityModifier(8) == -1
    ensures AbilityModifier(1) == -5 && AbilityModifier(20) == 5
  {
  }

  /** Raising a score never lowers its modifier, and two more points add exactly one. */
  lemma AbilityModifierSteps(a: int, b: int)
    requires a <= b
    ensures AbilityModifier(a) <= AbilityModifier(b)
    ensures AbilityModifier(a + 2) == AbilityModifier(a) + 1
  {
  }

  /** `f"{score:d}({modifier:+d})"`. */
  function ScoreText(score: int): string {
    IntToString(score) + "(" + SignedIntToString(AbilityModifier(score)) + ")"
  }

  lemma {:induction false} NatToStringShort(n: nat)
    requires n < 100
    ensures |NatToString(n)| == (if n < 10 then 1 else 2)
  {
    if n >= 10 {
      assert n / 10 < 10;
    }
  }

  /** A score from 0 to 99 prints in at most 7 characters, so six of them fit
      the 9 characters per ability that 56 columns leave. */
  lemma ScoreTextShort(score: int)
    requires 0 <= score <= 99
    ensures |ScoreText(score)| <= 7
    ensures MinimumTerminalWidth / 6 >= 7 + 2
  {
    var m := AbilityModifier(score);
    NatToStringShort(score);
    NatToStringShort(if m < 0 then -m else m);
  }

  /** `math.floor(line_width / len(self.ability))`. */
  function AbilityWidth(w: int, n: nat): (aw: nat)
    requires n > 0 && w >= 0
  {
    w / n
  }

  /** The `n` columns of `floor(W/n)` characters fill `W` but for less than `n`. */
  lemma AbilityWidthBounds(w: int, n: nat)
    requires n > 0 && w >= 0
    ensures AbilityWidth(w, n) * n <= w < (AbilityWidth(w, n) + 1) * n
  {
  }

  /** Every text centred in a column of `aw` characters. */
  function Centred(texts: seq<string>, aw: int): (r: seq<string>)
    ensures |r| == |texts|
    decreases |texts|
  {
    if |texts| == 0 then []
    else Centred(texts[..|texts| - 1], aw) + [CentrePad(texts[|texts| - 1], aw)]
  }

  /** Centring one more text appends its centred cell. */
  lemma CentredSnoc(texts: seq<string>, aw: int, i: nat)
    requires i < |texts|
    ensures Centred(texts[..i + 1], aw) == Centred(texts[..i], aw) + [CentrePad(texts[i], aw)]
  {
    assert texts[..i + 1][..i] == texts[..i];
  }

  /** Cell `i` is text `i`, centred. */
  lemma {:induction false} CentredAt(texts: seq<string>, aw: int, i: nat)
    requires i < |texts|
    ensures Centred(texts, aw)[i] == CentrePad(texts[i], aw)
    decreases |texts|
  {
    var front := texts[..|texts| - 1];
    if i < |front| {
      CentredAt(front, aw, i);
    }
  }

  function Names(ability: seq<(string, int)>): (r: seq<string>)
    ensures |r| == |ability| && forall i :: 0 <= i < |r| ==> r[i] == ability[i].0
  {
    seq(|ability|, i requires 0 <= i < |ability| => ability[i].0)
  }

  function ScoreTexts(ability: seq<(string, int)>): (r: seq<string>)
    ensures |r| == |ability| && forall i :: 0 <= i < |r| ==> r[i] == ScoreText(ability[i].1)
  {
    seq(|ability|, i requires 0 <= i < |ability| => ScoreText(ability[i].1))
  }

  /** `ability_name_strings`: every ability name centred in its column. */
  function NameCells(ability: seq<(string, int)>, aw: int): seq<string> {
    Centred(Names(ability), aw)
  }

  /** `ability_score_strings`: every score and modifier centred in its column. */
  function ScoreCells(ability: seq<(string, int)>, aw: int): seq<string> {
    Centred(ScoreTexts(ability), aw)
  }

  /** Cell `i` of the two rows: ability `i`'s name, and its score with its
      modifier, each centred. */
  lemma AbilityCellAt(ability: seq<(string, int)>, aw: int, i: nat)
    requires i < |ability|
    ensures |NameCells(ability, aw)| == |ScoreCells(ability, aw)| == |ability|
    ensures NameCells(ability, aw)[i] == CentrePad(ability[i].0, aw)
    ensures ScoreCells(ability, aw)[i] == CentrePad(ScoreText(ability[i].1), aw)
  {
    CentredAt(Names(ability), aw, i);
    CentredAt(ScoreTexts(ability), aw, i);
  }

  /** `centre_pad("".join(cells), line_width)`. */
  function AbilityRow(cells: seq<string>, w: int): string {
    CentrePad(Join("", cells), w)
  }

  /** Cells all `aw` wide, `n` of them within `w`: their join is `n * aw` wide
      with cell `i` at `i * aw`, and the re-centred row is exactly `w` wide. */
  lemma RowOfCells(cells: seq<string>, aw: nat, w: int)
    requires |cells| > 0 && |cells| * aw <= w
    requires forall i :: 0 <= i < |cells| ==> |cells[i]| == aw
    ensures |Join("", cells)| == |cells| * aw
    ensures |AbilityRow(cells, w)| == w
    ensures forall i :: 0 <= i < |cells| ==>
      Offset(i, aw, 0) + aw <= |Join("", cells)| && Join("", cells)[Offset(i, aw, 0) .. Offset(i, aw, 0) + aw] == cells[i]
  {
    JoinUniformLength("", cells, aw);
    forall i | 0 <= i < |cells|
      ensures Offset(i, aw, 0) + aw <= |Join("", cells)| && Join("", cells)[Offset(i, aw, 0) .. Offset(i, aw, 0) + aw] == cells[i]
    {
      JoinPartAt("", cells, aw, i);
    }
  }

  /** Every ability whose name and score text fit the column of `floor(W/n)`. */
  predicate AbilitiesFit(ability: seq<(string, int)>, w: int)
    requires |ability| > 0 && w >= 0
  {
    forall i :: 0 <= i < |ability| ==>
      |ability[i].0| <= AbilityWidth(w, |ability|) && |ScoreText(ability[i].1)| <= AbilityWidth(w, |ability|)
  }

  /** When every ability fits its column, every cell is exactly `floor(W/n)`
      wide, so both rows are exactly `W` wide, ability `i` occupying
      characters `i * floor(W/n)` to `(i + 1) * floor(W/n)` (`RowOfCells`). */
  lemma AbilityRowsExact(ability: seq<(string, int)>, w: int)
    requires |ability| > 0 && w >= 0 && AbilitiesFit(ability, w)
    ensures var aw := AbilityWidth(w, |ability|);
            && (forall i :: 0 <= i < |ability| ==> |NameCells(ability, aw)[i]| == aw && |ScoreCells(ability, aw)[i]| == aw)
            && |AbilityRow(NameCells(ability, aw), w)| == w
            && |AbilityRow(ScoreCells(ability, aw), w)| == w
  {
    var aw := AbilityWidth(w, |ability|);
    AbilityWidthBounds(w, |ability|);
    var names, scores := NameCells(ability, aw), ScoreCells(ability, aw);
    forall i | 0 <= i < |ability|
      ensures |names[i]| == aw && |scores[i]| == aw
    {
      AbilityCellAt(ability, aw, i);
    }
    RowOfCells(names, aw, w);
    RowOfCells(scores, aw, w);
  }

  // ----- Summary -----

  /** `f"{name} x{quantity:d}" if quantity else name`. */
  function SummaryTitle(name: string, quantity: Option<int>): string {
    if quantity.Some? && quantity.value != 0 then name + " x" + IntToString(quantity.value) else name
  }

  /** `summary_info(line_width, quantity)`: the title, its rule and the
      size/type/alignment line. */
  function SummaryInfo(sb: StatBlock, w: int, quantity: Option<int>): (r: seq<string>)
    ensures |r| == 3 && r[..2] == Title(SummaryTitle(sb.name, quantity), w)
    ensures r[2] == Capitalize(sb.size) + " " + sb.creatureType + ", " + sb.alignment
  {
    Title(SummaryTitle(sb.name, quantity), w) + [Capitalize(sb.size) + " " + sb.creatureType + ", " + sb.alignment]
  }

  /** The quantity shows exactly when it is truthy: None and 0 give the bare name. */
  lemma SummaryTitleQuantity(name: string, quantity: Option<int>)
    ensures quantity.Some? && quantity.value != 0 ==>
      SummaryTitle(name, quantity) == name + " x" + IntToString(quantity.value)
    ensures quantity.None? || quantity.value == 0 ==> SummaryTitle(name, quantity) == name
    ensures StartsWith(SummaryTitle(name, quantity), name)
  {
    var t := SummaryTitle(name, quantity);
    assert t[..|name|] == name;
  }

  // ----- Battle information -----

  /** `"-" * line_width`. */
  function Rule(w: int): (r: string)
    ensures |r| == Max(w, 0)
  {
    Repeat('-', w)
  }

  /** `[f"{key} {value}" for key, value in d.items()]`, None staying None. */
  function PairTexts(d: Option<seq<(string, string)>>): (r: Option<seq<string>>)
    ensures Present(r) <==> Present(d)
    ensures d.Some? ==>
              && r.Some? && |r.value| == |d.value|
              && forall i :: 0 <= i < |d.value| ==> r.value[i] == d.value[i].0 + " " + d.value[i].1
  {
    match d
    case None => None
    case Some(ps) => Some(seq(|ps|, i requires 0 <= i < |ps| => ps[i].0 + " " + ps[i].1))
  }

  /** `if items: lines.extend(format_list(title, items, line_width))`. */
  function ListIf(wrap: Wrapper, title: string, items: Option<seq<string>>, w: int): seq<string> {
    if Present(items) then FormatList(wrap, title, items.value, w) else []
  }

  /** `self.languages or ["none"]`. */
  function LanguagesOrNone(languages: Option<seq<string>>): (r: seq<string>)
    ensures Present(languages) ==> r == languages.value
    ensures !Present(languages) ==> r == ["none"]
  {
    if Present(languages) then languages.value else ["none"]
  }

  /** The entries of an optional dictionary, none when it is None or empty. */
  function Items<T>(d: Option<seq<T>>): (r: seq<T>)
    ensures Present(d) ==> r == d.value
    ensures !Present(d) ==> r == []
  {
    if Present(d) then d.value else []
  }

  /** `f"{name.capitalize()}: {text}"` for every entry. */
  function Labelled(d: seq<(string, string)>): (r: seq<string>)
    ensures |r| == |d| && forall i :: 0 <= i < |d| ==> r[i] == Capitalize(d[i].0) + ": " + d[i].1
  {
    seq(|d|, i requires 0 <= i < |d| => Capitalize(d[i].0) + ": " + d[i].1)
  }

  /** The text of a melee attack. */
  function MeleeText(name: string, a: Attack): string {
    Capitalize(name) + ": melee weapon attack, " + a.hit + " to hit, reach " + a.distance + ", "
    + a.targets + ". " + AttackTail(a)
  }

  /** The text of a ranged attack; the source puts no space after the range's comma. */
  function RangedText(name: string, a: Attack): string {
    Capitalize(name) + ": ranged weapon attack, " + a.hit + " to hit, range " + a.distance + ","
    + a.targets + ". " + AttackTail(a)
  }

  function MeleeTexts(d: seq<(string, Attack)>): (r: seq<string>)
    ensures |r| == |d| && forall i :: 0 <= i < |d| ==> r[i] == MeleeText(d[i].0, d[i].1)
  {
    seq(|d|, i requires 0 <= i < |d| => MeleeText(d[i].0, d[i].1))
  }

  function RangedTexts(d: seq<(string, Attack)>): (r: seq<string>)
    ensures |r| == |d| && forall i :: 0 <= i < |d| ==> r[i] == RangedText(d[i].0, d[i].1)
  {
    seq(|d|, i requires 0 <= i < |d| => RangedText(d[i].0, d[i].1))
  }

  /** The tail every attack's text closes with: its damage, then `" info."`
      exactly when the details have `info`. */
  function AttackTail(a: Attack): string {
    "Hit damage: " + a.damage + "." + (if a.info.Some? then " " + a.info.value + "." else "")
  }

  /** A melee attack's text opens with its capitalised name and kind, and
      closes with the attack's tail. */
  lemma MeleeTextShape(name: string, a: Attack)
    ensures StartsWith(MeleeText(name, a), Capitalize(name) + ": melee weapon attack, ")
    ensures |AttackTail(a)| <= |MeleeText(name, a)|
    ensures MeleeText(name, a)[|MeleeText(name, a)| - |AttackTail(a)|..] == AttackTail(a)
  {
    var m := MeleeText(name, a);
    var mp := Capitalize(name) + ": melee weapon attack, ";
    var mhead := mp + a.hit + " to hit, reach " + a.distance + ", " + a.targets + ". ";
    assert m == mhead + AttackTail(a);
    assert m[..|mp|] == mp;
  }

  /** A ranged attack's text opens with its capitalised name and kind, and
      closes with the attack's tail. */
  lemma RangedTextShape(name: string, a: Attack)
    ensures StartsWith(RangedText(name, a), Capitalize(name) + ": ranged weapon attack, ")
    ensures |AttackTail(a)| <= |RangedText(name, a)|
    ensures RangedText(name, a)[|RangedText(name, a)| - |AttackTail(a)|..] == AttackTail(a)
  {
    var r := RangedText(name, a);
    var rp := Capitalize(name) + ": ranged weapon attack, ";
    var rhead := rp + a.hit + " to hit, range " + a.distance + "," + a.targets + ". ";
    assert r == rhead + AttackTail(a);
    assert r[..|rp|] == rp;
  }

  /** A melee and a ranged attack with the same details differ in length only
      by the kind: "ranged" is one letter longer than "melee", and the range
      lacks the space after its comma, so the texts are equally long. */
  lemma AttackTextsSameLength(name: string, a: Attack)
    ensures |RangedText(name, a)| == |MeleeText(name, a)|
  {
  }

  /** The centred label between a blank line and a rule. */
  function Header(caption: string, w: int): (r: seq<string>)
    ensures |r| == 3 && r[0] == "" && r[1] == CentrePad(caption, w) && r[2] == Rule(w)
  {
    ["", CentrePad(caption, w), Rule(w)]
  }

  /** AC, HP, speed, a rule, the two ability rows, a rule. */
  function TopLines(sb: StatBlock, w: int): (r: seq<string>)
    requires |sb.ability| > 0 && w >= 0
    ensures var aw := AbilityWidth(w, |sb.ability|);
            && |r| == 7 && r[0] == "AC " + sb.ac && r[1] == "HP " + sb.hp && r[2] == "Speed " + sb.speed
            && r[3] == Rule(w) && r[4] == AbilityRow(NameCells(sb.ability, aw), w)
            && r[5] == AbilityRow(ScoreCells(sb.ability, aw), w) && r[6] == Rule(w)
  {
    var aw := AbilityWidth(w, |sb.ability|);
    ["AC " + sb.ac, "HP " + sb.hp, "Speed " + sb.speed, Rule(w)]
    + [AbilityRow(NameCells(sb.ability, aw), w), AbilityRow(ScoreCells(sb.ability, aw), w), Rule(w)]
  }

  function PerceptionLine(sb: StatBlock): string {
    "Passive perception: " + IntToString(sb.passivePerception)
  }

  function LanguageLines(wrap: Wrapper, sb: StatBlock, w: int): seq<string> {
    FormatList(wrap, "Languages", LanguagesOrNone(sb.languages), w)
  }

  function ChallengeLine(sb: StatBlock): string
    requires ValidChallenge(sb.challenge)
  {
    "Challenge: " + ChallengeText(sb.challenge, sb.challengeIsFloat) + " (" + NatToString(ChallengeXp(sb.challenge).value) + " XP)"
  }

  /** The six lists between the ability table and passive perception, each
      present only when its field is. */
  function OptionalLists(wrap: Wrapper, sb: StatBlock, w: int): seq<string> {
    ListIf(wrap, "Saving throws", PairTexts(sb.savingThrows), w)
    + ListIf(wrap, "Skills", PairTexts(sb.skills), w)
    + ListIf(wrap, "Damage vulnerabilities", sb.damageVulnerabilities, w)
    + ListIf(wrap, "Damage resistances", sb.damageResistances, w)
    + ListIf(wrap, "Damage immunities", sb.damageImmunities, w)
    + ListIf(wrap, "Condition immunities", sb.conditionImmunities, w)
  }

  /** Everything up to the challenge line: the top lines; saving throws,
      skills and the damage and condition lists, each only when non-empty;
      passive perception; senses; languages; the challenge. */
  function StatLines(wrap: Wrapper, sb: StatBlock, w: int): seq<string>
    requires |sb.ability| > 0 && w >= 0 && ValidChallenge(sb.challenge)
  {
    TopLines(sb, w) + OptionalLists(wrap, sb, w) + [PerceptionLine(sb)]
    + ListIf(wrap, "Senses", PairTexts(sb.specialSenses), w)
    + LanguageLines(wrap, sb, w)
    + [ChallengeLine(sb)]
  }

  function TraitLines(wrap: Wrapper, sb: StatBlock, w: int): seq<string> {
    WrappedLines(wrap, Labelled(Items(sb.specialTraits)), w)
  }

  function MeleeLines(wrap: Wrapper, sb: StatBlock, w: int): seq<string> {
    WrappedLines(wrap, MeleeTexts(Items(sb.meleeAttacks)), w)
  }

  function RangedLines(wrap: Wrapper, sb: StatBlock, w: int): seq<string> {
    WrappedLines(wrap, RangedTexts(Items(sb.rangedAttacks)), w)
  }

  function MultiattackLines(wrap: Wrapper, sb: StatBlock, w: int): seq<string> {
    if PresentText(sb.multiattack) then wrap("Multiattack: " + sb.multiattack.value, w) else []
  }

  function OtherActionLines(wrap: Wrapper, sb: StatBlock, w: int): seq<string> {
    WrappedLines(wrap, Labelled(Items(sb.otherActions)), w)
  }

  function DescriptionLines(wrap: Wrapper, sb: StatBlock, w: int): seq<string> {
    if PresentText(sb.description) then wrap(sb.description.value, w) else []
  }

  /** Everything after the challenge line: the traits and the actions, each
      under its header even when there are none, a blank line and the
      description. */
  function TailLines(wrap: Wrapper, sb: StatBlock, w: int): seq<string> {
    Header("Special traits", w) + TraitLines(wrap, sb, w)
    + Header("Actions", w)
    + MeleeLines(wrap, sb, w) + RangedLines(wrap, sb, w) + MultiattackLines(wrap, sb, w) + OtherActionLines(wrap, sb, w)
    + [""] + DescriptionLines(wrap, sb, w)
  }

  /** The lines of a battle info that raises nothing. */
  function BattleLines(wrap: Wrapper, sb: StatBlock, w: int): seq<string>
    requires |sb.ability| > 0 && w >= 0 && ValidChallenge(sb.challenge)
  {
    StatLines(wrap, sb, w) + TailLines(wrap, sb, w)
  }

  /** `battle_info(line_width)`: the width check, then the lines; no abilities
      is the source's division by zero, an invalid rating the `xp` error. */
  function BattleInfo(wrap: Wrapper, sb: StatBlock, w: int): Result<seq<string>> {
    if w < MinimumTerminalWidth then Err(WidthTooSmall(MinimumTerminalWidth))
    else if |sb.ability| == 0 then Err(NoAbilities)
    else if !ValidChallenge(sb.challenge) then Err(InvalidChallenge(sb.name, sb.challenge))
    else Ok(BattleLines(wrap, sb, w))
  }

  /** The battle info is produced exactly when the width is at least 56, there
      are abilities and the rating is valid, and each failure is reported in
      that order of precedence. */
  lemma BattleInfoOutcome(wrap: Wrapper, sb: StatBlock, w: int)
    ensures BattleInfo(wrap, sb, w).Ok? <==>
      w >= MinimumTerminalWidth && |sb.ability| > 0 && Xp(sb).Ok?
    ensures w < MinimumTerminalWidth ==> BattleInfo(wrap, sb, w) == Err(WidthTooSmall(56))
    ensures w >= MinimumTerminalWidth && |sb.ability| == 0 ==> BattleInfo(wrap, sb, w) == Err(NoAbilities)
    ensures w >= MinimumTerminalWidth && |sb.ability| > 0 && Xp(sb).Err? ==>
      BattleInfo(wrap, sb, w) == Err(Xp(sb).error)
  {
  }

  /** Where six blocks sit in their concatenation, for any blocks. */
  lemma ListsLayout(a1: seq<string>, a2: seq<string>, a3: seq<string>, a4: seq<string>,
                    a5: seq<string>, a6: seq<string>, lists: seq<string>)
    requires lists == a1 + a2 + a3 + a4 + a5 + a6
    ensures var o3 := |a1| + |a2|;
            var o4 := o3 + |a3|;
            var o5 := o4 + |a4|;
            var o6 := o5 + |a5|;
            && At(lists, 0, a1) && At(lists, |a1|, a2) && At(lists, o3, a3)
            && At(lists, o4, a4) && At(lists, o5, a5) && At(lists, o6, a6)
  {
    var k2 := a1 + a2;
    var k3 := k2 + a3;
    var k4 := k3 + a4;
    var k5 := k4 + a5;
    PrefixOfAppend(k5, a6);
    PrefixOfAppend(k4, a5);
    PrefixTrans(k4, k5, lists);
    PrefixOfAppend(k3, a4);
    PrefixTrans(k3, k4, lists);
    PrefixOfAppend(k2, a3);
    PrefixTrans(k2, k3, lists);
    AtStart(a1, a2);
    AtPrefix(k2, lists, 0, a1);
    AtEnd(a1, a2);
    AtPrefix(k2, lists, |a1|, a2);
    AtEnd(k2, a3);
    AtPrefix(k3, lists, |k2|, a3);
    AtEnd(k3, a4);
    AtPrefix(k4, lists, |k3|, a4);
    AtEnd(k4, a5);
    AtPrefix(k5, lists, |k4|, a5);
    AtEnd(k5, a6);
  }

  /** Where the blocks of the statistics chain sit, the optional lists taken
      together, for any blocks. */
  lemma ChainLayout(top: seq<string>, lists: seq<string>, perception: string, senses: seq<string>,
                   langs: seq<string>, challenge: string, st: seq<string>)
    requires st == top + lists + [perception] + senses + langs + [challenge]
    ensures var p := |st| - 2 - |langs| - |senses|;
            && |top| + |lists| == p && At(st, 0, top) && At(st, |top|, lists) && st[p] == perception
            && At(st, |st| - 1 - |langs|, langs) && st[|st| - 1] == challenge
  {
    var l1 := top + lists;
    var l7 := l1 + [perception];
    var l8 := l7 + senses;
    var l9 := l8 + langs;
    PrefixOfAppend(l9, [challenge]);
    PrefixOfAppend(l8, langs);
    PrefixTrans(l8, l9, st);
    PrefixOfAppend(l7, senses);
    PrefixTrans(l7, l8, st);
    PrefixOfAppend(l1, [perception]);
    PrefixTrans(l1, l7, st);
    AtStart(top, lists);
    AtPrefix(l1, st, 0, top);
    AtEnd(top, lists);
    AtPrefix(l1, st, |top|, lists);
    AtEnd(l8, langs);
    AtPrefix(l9, st, |l8|, langs);
    assert st[|l1|] == l7[|l1|];
  }

  /** Six blocks sit one after another in `st` from offset `o` on. */
  ghost predicate ListsAt(st: seq<string>, o: nat, a1: seq<string>, a2: seq<string>, a3: seq<string>,
                          a4: seq<string>, a5: seq<string>, a6: seq<string>)
  {
    var o2 := o + |a1|;
    var o3 := o2 + |a2|;
    var o4 := o3 + |a3|;
    var o5 := o4 + |a4|;
    var o6 := o5 + |a5|;
    && At(st, o, a1) && At(st, o2, a2) && At(st, o3, a3)
    && At(st, o4, a4) && At(st, o5, a5) && At(st, o6, a6)
  }

  /** The statistics chain laid out block by block: `top`, the six optional
      lists in order, the perception line, the senses, the languages and the
      challenge line, with nothing before, between or after them. */
  ghost predicate StatSections(top: seq<string>, a1: seq<string>, a2: seq<string>, a3: seq<string>,
                               a4: seq<string>, a5: seq<string>, a6: seq<string>, perception: string,
                               senses: seq<string>, langs: seq<string>, challenge: string, st: seq<string>)
  {
    var p := |top| + |a1| + |a2| + |a3| + |a4| + |a5| + |a6|;
    && |st| == p + 2 + |senses| + |langs|
    && At(st, 0, top)
    && ListsAt(st, |top|, a1, a2, a3, a4, a5, a6)
    && st[p] == perception
    && At(st, p + 1, senses)
    && At(st, p + 1 + |senses|, langs)
    && st[|st| - 1] == challenge
  }

  /** Six blocks that make up a block at `o` sit one after another from `o`. */
  lemma ListsIn(st: seq<string>, o: nat, lists: seq<string>, a1: seq<string>, a2: seq<string>,
                a3: seq<string>, a4: seq<string>, a5: seq<string>, a6: seq<string>)
    requires lists == a1 + a2 + a3 + a4 + a5 + a6 && At(st, o, lists)
    ensures ListsAt(st, o, a1, a2, a3, a4, a5, a6)
  {
    ListsLayout(a1, a2, a3, a4, a5, a6, lists);
    var o3 := |a1| + |a2|;
    var o4 := o3 + |a3|;
    var o5 := o4 + |a4|;
    var o6 := o5 + |a5|;
    AtIn(st, o, lists, 0, a1);
    AtIn(st, o, lists, |a1|, a2);
    AtIn(st, o, lists, o3, a3);
    AtIn(st, o, lists, o4, a4);
    AtIn(st, o, lists, o5, a5);
    AtIn(st, o, lists, o6, a6);
  }

  /** Where every block of the statistics chain sits, for any blocks. */
  lemma StatLayout(top: seq<string>, a1: seq<string>, a2: seq<string>, a3: seq<string>, a4: seq<string>,
                   a5: seq<string>, a6: seq<string>, perception: string, senses: seq<string>,
                   langs: seq<string>, challenge: string, st: seq<string>)
    requires st == top + (a1 + a2 + a3 + a4 + a5 + a6) + [perception] + senses + langs + [challenge]
    ensures StatSections(top, a1, a2, a3, a4, a5, a6, perception, senses, langs, challenge, st)
  {
    var lists := a1 + a2 + a3 + a4 + a5 + a6;
    ChainLayout(top, lists, perception, senses, langs, challenge, st);
    ListsIn(st, |top|, lists, a1, a2, a3, a4, a5, a6);
  }

  /** Where the blocks after the statistics sit, for any blocks. */
  lemma TailLayout(traits: seq<string>, melee: seq<string>, ranged: seq<string>,
                   multiattack: seq<string>, other: seq<string>, description: seq<string>, w: int,
                   lines: seq<string>)
    requires lines == Header("Special traits", w) + traits + Header("Actions", w)
                      + melee + ranged + multiattack + other + [""] + description
    ensures var a := 3 + |traits|;
            var d := a + 3 + |melee| + |ranged| + |multiattack| + |other|;
            && At(lines, 0, Header("Special traits", w))
            && At(lines, a, Header("Actions", w))
            && At(lines, d, [""])
            && d + 1 <= |lines| && lines[d + 1..] == description
  {
    var m1 := Header("Special traits", w);
    var m2 := m1 + traits;
    var m3 := m2 + Header("Actions", w);
    var m7 := m3 + melee + ranged + multiattack + other;
    var m8 := m7 + [""];
    PrefixOfAppend(m8, description);
    PrefixOfAppend(m7, [""]);
    PrefixTrans(m7, m8, lines);
    PrefixOfAppend(m3, melee + ranged + multiattack + other);
    assert m7 == m3 + (melee + ranged + multiattack + other);
    PrefixTrans(m3, m7, lines);
    PrefixOfAppend(m2, Header("Actions", w));
    PrefixTrans(m2, m3, lines);
    PrefixOfAppend(m1, traits);
    PrefixTrans(m1, m2, lines);
    AtStart(m1, traits);
    AtPrefix(m2, lines, 0, m1);
    AtEnd(m2, Header("Actions", w));
    AtPrefix(m3, lines, |m2|, Header("Actions", w));
    AtEnd(m7, [""]);
    AtPrefix(m8, lines, |m7|, [""]);
    assert lines[|m8|..] == description;
  }

  /** Blocks the source formats before the challenge line: the top seven
      lines first; then saving throws, skills, damage vulnerabilities,
      resistances and immunities and condition immunities, in that order;
      passive perception (always); the senses; the languages ("none" when
      there are none); the challenge line last. Which lists are empty is
      `StatListsPresence`. */
  lemma StatLinesSections(wrap: Wrapper, sb: StatBlock, w: int)
    requires |sb.ability| > 0 && w >= 0 && ValidChallenge(sb.challenge)
    ensures |TopLines(sb, w)| == 7
    ensures StatSections(TopLines(sb, w),
              ListIf(wrap, "Saving throws", PairTexts(sb.savingThrows), w),
              ListIf(wrap, "Skills", PairTexts(sb.skills), w),
              ListIf(wrap, "Damage vulnerabilities", sb.damageVulnerabilities, w),
              ListIf(wrap, "Damage resistances", sb.damageResistances, w),
              ListIf(wrap, "Damage immunities", sb.damageImmunities, w),
              ListIf(wrap, "Condition immunities", sb.conditionImmunities, w),
              PerceptionLine(sb), ListIf(wrap, "Senses", PairTexts(sb.specialSenses), w),
              LanguageLines(wrap, sb, w), ChallengeLine(sb), StatLines(wrap, sb, w))
    ensures !Present(sb.languages) ==> LanguageLines(wrap, sb, w) == FormatList(wrap, "Languages", ["none"], w)
  {
    StatLayout(TopLines(sb, w),
      ListIf(wrap, "Saving throws", PairTexts(sb.savingThrows), w),
      ListIf(wrap, "Skills", PairTexts(sb.skills), w),
      ListIf(wrap, "Damage vulnerabilities", sb.damageVulnerabilities, w),
      ListIf(wrap, "Damage resistances", sb.damageResistances, w),
      ListIf(wrap, "Damage immunities", sb.damageImmunities, w),
      ListIf(wrap, "Condition immunities", sb.conditionImmunities, w),
      PerceptionLine(sb), ListIf(wrap, "Senses", PairTexts(sb.specialSenses), w),
      LanguageLines(wrap, sb, w), ChallengeLine(sb), StatLines(wrap, sb, w));
  }

  /** Each optional list of the statistics is present exactly when its field
      holds at least one entry, and then it is that field formatted under its
      title. */
  lemma StatListsPresence(wrap: Wrapper, sb: StatBlock, w: int)
    ensures var saves := ListIf(wrap, "Saving throws", PairTexts(sb.savingThrows), w);
            && (!Present(sb.savingThrows) ==> saves == [])
            && (Present(sb.savingThrows) ==> saves == FormatList(wrap, "Saving throws", PairTexts(sb.savingThrows).value, w))
    ensures var skills := ListIf(wrap, "Skills", PairTexts(sb.skills), w);
            && (!Present(sb.skills) ==> skills == [])
            && (Present(sb.skills) ==> skills == FormatList(wrap, "Skills", PairTexts(sb.skills).value, w))
    ensures var vulnerable := ListIf(wrap, "Damage vulnerabilities", sb.damageVulnerabilities, w);
            && (!Present(sb.damageVulnerabilities) ==> vulnerable == [])
            && (Present(sb.damageVulnerabilities) ==>
                  vulnerable == FormatList(wrap, "Damage vulnerabilities", sb.damageVulnerabilities.value, w))
    ensures var resistant := ListIf(wrap, "Damage resistances", sb.damageResistances, w);
            && (!Present(sb.damageResistances) ==> resistant == [])
            && (Present(sb.damageResistances) ==>
                  resistant == FormatList(wrap, "Damage resistances", sb.damageResistances.value, w))
    ensures var immune := ListIf(wrap, "Damage immunities", sb.damageImmunities, w);
            && (!Present(sb.damageImmunities) ==> immune == [])
            && (Present(sb.damageImmunities) ==>
                  immune == FormatList(wrap, "Damage immunities", sb.damageImmunities.value, w))
    ensures var conditions := ListIf(wrap, "Condition immunities", sb.conditionImmunities, w);
            && (!Present(sb.conditionImmunities) ==> conditions == [])
            && (Present(sb.conditionImmunities) ==>
                  conditions == FormatList(wrap, "Condition immunities", sb.conditionImmunities.value, w))
    ensures var senses := ListIf(wrap, "Senses", PairTexts(sb.specialSenses), w);
            && (!Present(sb.specialSenses) ==> senses == [])
            && (Present(sb.specialSenses) ==> senses == FormatList(wrap, "Senses", PairTexts(sb.specialSenses).value, w))
  {
  }

  /** A battle info is the statistics followed by the rest. */
  lemma BattleInfoParts(wrap: Wrapper, sb: StatBlock, w: int)
    requires BattleInfo(wrap, sb, w).Ok?
    ensures var lines := BattleInfo(wrap, sb, w).value;
            && IsPrefix(StatLines(wrap, sb, w), lines)
            && lines[|StatLines(wrap, sb, w)|..] == TailLines(wrap, sb, w)
  {
    PrefixOfAppend(StatLines(wrap, sb, w), TailLines(wrap, sb, w));
    assert BattleInfo(wrap, sb, w).value[|StatLines(wrap, sb, w)|..] == TailLines(wrap, sb, w);
  }

  /** After the statistics come the "Special traits" header, the traits and
      the "Actions" header; both headers are there even with no traits or
      actions. */
  lemma TailHeaders(wrap: Wrapper, sb: StatBlock, w: int)
    ensures var tail := TailLines(wrap, sb, w);
            && At(tail, 0, Header("Special traits", w))
            && At(tail, 3 + |TraitLines(wrap, sb, w)|, Header("Actions", w))
  {
    TailLayout(TraitLines(wrap, sb, w), MeleeLines(wrap, sb, w), RangedLines(wrap, sb, w),
      MultiattackLines(wrap, sb, w), OtherActionLines(wrap, sb, w), DescriptionLines(wrap, sb, w), w,
      TailLines(wrap, sb, w));
  }

  /** With no traits the traits section is empty, so the "Actions" header
      follows the "Special traits" header straight away. */
  lemma NoTraitLines(wrap: Wrapper, sb: StatBlock, w: int)
    requires !Present(sb.specialTraits)
    ensures TraitLines(wrap, sb, w) == []
  {
    assert Labelled(Items(sb.specialTraits)) == [];
  }

  /** The actions are followed by one blank line and then the description,
      which ends the battle info. */
  lemma TailEnding(wrap: Wrapper, sb: StatBlock, w: int)
    ensures var tail := TailLines(wrap, sb, w);
            var d := 6 + |TraitLines(wrap, sb, w)| + |MeleeLines(wrap, sb, w)| + |RangedLines(wrap, sb, w)|
                     + |MultiattackLines(wrap, sb, w)| + |OtherActionLines(wrap, sb, w)|;
            && At(tail, d, [""])
            && d + 1 <= |tail| && tail[d + 1..] == DescriptionLines(wrap, sb, w)
  {
    TailLayout(TraitLines(wrap, sb, w), MeleeLines(wrap, sb, w), RangedLines(wrap, sb, w),
      MultiattackLines(wrap, sb, w), OtherActionLines(wrap, sb, w), DescriptionLines(wrap, sb, w), w,
      TailLines(wrap, sb, w));
  }

  /** Any chain of blocks that each fit the width fits it. */
  lemma StatChainWithin(top: seq<string>, lists: seq<string>, perception: string, senses: seq<string>,
                        langs: seq<string>, challenge: string, w: int, st: seq<string>)
    requires LinesWithin(top, w) && LinesWithin(lists, w) && |perception| <= w
    requires LinesWithin(senses, w) && LinesWithin(langs, w) && |challenge| <= w
    requires st == top + lists + [perception] + senses + langs + [challenge]
    ensures LinesWithin(st, w)
  {
    WithinConcat(top, lists, w);
    WithinConcat(top + lists, [perception], w);
    WithinConcat(top + lists + [perception], senses, w);
    WithinConcat(top + lists + [perception] + senses, langs, w);
    WithinConcat(top + lists + [perception] + senses + langs, [challenge], w);
  }

  /** The six optional lists fit the width when wrapping keeps its bound. */
  lemma OptionalListsWithin(wrap: Wrapper, sb: StatBlock, w: int)
    requires WrapBounded(wrap) && w >= MinimumTerminalWidth
    ensures LinesWithin(OptionalLists(wrap, sb, w), w)
  {
    var a1 := ListIf(wrap, "Saving throws", PairTexts(sb.savingThrows), w);
    var a2 := ListIf(wrap, "Skills", PairTexts(sb.skills), w);
    var a3 := ListIf(wrap, "Damage vulnerabilities", sb.damageVulnerabilities, w);
    var a4 := ListIf(wrap, "Damage resistances", sb.damageResistances, w);
    var a5 := ListIf(wrap, "Damage immunities", sb.damageImmunities, w);
    var a6 := ListIf(wrap, "Condition immunities", sb.conditionImmunities, w);
    ListIfWithin(wrap, "Saving throws", PairTexts(sb.savingThrows), w);
    ListIfWithin(wrap, "Skills", PairTexts(sb.skills), w);
    ListIfWithin(wrap, "Damage vulnerabilities", sb.damageVulnerabilities, w);
    ListIfWithin(wrap, "Damage resistances", sb.damageResistances, w);
    ListIfWithin(wrap, "Damage immunities", sb.damageImmunities, w);
    ListIfWithin(wrap, "Condition immunities", sb.conditionImmunities, w);
    WithinConcat(a1, a2, w);
    WithinConcat(a1 + a2, a3, w);
    WithinConcat(a1 + a2 + a3, a4, w);
    WithinConcat(a1 + a2 + a3 + a4, a5, w);
    WithinConcat(a1 + a2 + a3 + a4 + a5, a6, w);
  }

  /** Any chain of blocks after the statistics that each fit the width fits it. */
  lemma TailChainWithin(traits: seq<string>, melee: seq<string>, ranged: seq<string>,
                        multiattack: seq<string>, other: seq<string>, description: seq<string>, w: int,
                        tail: seq<string>)
    requires w >= 0 && LinesWithin(traits, w) && LinesWithin(melee, w)
    requires LinesWithin(ranged, w) && LinesWithin(multiattack, w) && LinesWithin(other, w)
    requires LinesWithin(description, w) && |CentrePad("Special traits", w)| <= w && |CentrePad("Actions", w)| <= w
    requires tail == Header("Special traits", w) + traits + Header("Actions", w)
                     + melee + ranged + multiattack + other + [""] + description
    ensures LinesWithin(tail, w)
  {
    var m1 := Header("Special traits", w);
    WithinConcat(m1, traits, w);
    WithinConcat(m1 + traits, Header("Actions", w), w);
    var m3 := m1 + traits + Header("Actions", w);
    WithinConcat(m3, melee, w);
    WithinConcat(m3 + melee, ranged, w);
    WithinConcat(m3 + melee + ranged, multiattack, w);
    WithinConcat(m3 + melee + ranged + multiattack, other, w);
    WithinConcat(m3 + melee + ranged + multiattack + other, [""], w);
    WithinConcat(m3 + melee + ranged + multiattack + other + [""], description, w);
  }

  /** The statistics fit the width when the lines the source does not wrap
      fit (AC, HP, speed, passive perception, challenge) and every ability fits
      its column: the rules and the ability rows are exactly `W` wide, and
      every wrapped line is at most `W`. */
  lemma StatLinesWithin(wrap: Wrapper, sb: StatBlock, w: int)
    requires WrapBounded(wrap) && w >= MinimumTerminalWidth && |sb.ability| > 0 && ValidChallenge(sb.challenge)
    requires |"AC " + sb.ac| <= w && |"HP " + sb.hp| <= w && |"Speed " + sb.speed| <= w
    requires |PerceptionLine(sb)| <= w && |ChallengeLine(sb)| <= w
    requires AbilitiesFit(sb.ability, w)
    ensures LinesWithin(StatLines(wrap, sb, w), w)
  {
    TopLinesWithin(sb, w);
    OptionalListsWithin(wrap, sb, w);
    ListIfWithin(wrap, "Senses", PairTexts(sb.specialSenses), w);
    FormatListWithin(wrap, "Languages", LanguagesOrNone(sb.languages), w);
    StatChainWithin(TopLines(sb, w), OptionalLists(wrap, sb, w), PerceptionLine(sb), ListIf(wrap, "Senses", PairTexts(sb.specialSenses), w),
      LanguageLines(wrap, sb, w), ChallengeLine(sb), w, StatLines(wrap, sb, w));
  }

  /** The top seven lines fit: AC, HP and speed by assumption, the rules and
      the ability rows because they are exactly `W` wide. */
  lemma TopLinesWithin(sb: StatBlock, w: int)
    requires w >= 0 && |sb.ability| > 0
    requires |"AC " + sb.ac| <= w && |"HP " + sb.hp| <= w && |"Speed " + sb.speed| <= w
    requires AbilitiesFit(sb.ability, w)
    ensures LinesWithin(TopLines(sb, w), w)
  {
    AbilityRowsExact(sb.ability, w);
  }

  /** The traits and the three kinds of action fit the width: each of their
      lines is wrapped. */
  lemma TailBlocksWithin(wrap: Wrapper, sb: StatBlock, w: int)
    requires WrapBounded(wrap) && w >= MinimumTerminalWidth
    ensures LinesWithin(TraitLines(wrap, sb, w), w) && LinesWithin(MeleeLines(wrap, sb, w), w)
    ensures LinesWithin(RangedLines(wrap, sb, w), w) && LinesWithin(OtherActionLines(wrap, sb, w), w)
  {
    WrappedLinesWithin(wrap, Labelled(Items(sb.specialTraits)), w);
    WrappedLinesWithin(wrap, MeleeTexts(Items(sb.meleeAttacks)), w);
    WrappedLinesWithin(wrap, RangedTexts(Items(sb.rangedAttacks)), w);
    WrappedLinesWithin(wrap, Labelled(Items(sb.otherActions)), w);
  }

  /** The multiattack and the description fit the width: each is one
      wrapped paragraph, or nothing. */
  lemma TailParagraphsWithin(wrap: Wrapper, sb: StatBlock, w: int)
    requires WrapBounded(wrap) && w >= MinimumTerminalWidth
    ensures LinesWithin(MultiattackLines(wrap, sb, w), w) && LinesWithin(DescriptionLines(wrap, sb, w), w)
  {
    if PresentText(sb.multiattack) {
      assert LinesWithin(wrap("Multiattack: " + sb.multiattack.value, w), w);
    }
    if PresentText(sb.description) {
      assert LinesWithin(wrap(sb.description.value, w), w);
    }
  }

  /** Every line after the statistics fits the width: the centred headers
      are exactly `W` wide and every wrapped line is at most `W`. */
  lemma TailLinesWithin(wrap: Wrapper, sb: StatBlock, w: int)
    requires WrapBounded(wrap) && w >= MinimumTerminalWidth
    ensures LinesWithin(TailLines(wrap, sb, w), w)
  {
    TailBlocksWithin(wrap, sb, w);
    TailParagraphsWithin(wrap, sb, w);
    assert |CentrePad("Special traits", w)| <= w && |CentrePad("Actions", w)| <= w;
    TailChainWithin(TraitLines(wrap, sb, w), MeleeLines(wrap, sb, w), RangedLines(wrap, sb, w),
      MultiattackLines(wrap, sb, w), OtherActionLines(wrap, sb, w), DescriptionLines(wrap, sb, w), w,
      TailLines(wrap, sb, w));
  }

  /** Every line of the battle info fits the width under the conditions of
      `StatLinesWithin`. */
  lemma BattleInfoWithin(wrap: Wrapper, sb: StatBlock, w: int)
    requires WrapBounded(wrap) && BattleInfo(wrap, sb, w).Ok?
    requires |"AC " + sb.ac| <= w && |"HP " + sb.hp| <= w && |"Speed " + sb.speed| <= w
    requires |PerceptionLine(sb)| <= w && |ChallengeLine(sb)| <= w
    requires AbilitiesFit(sb.ability, w)
    ensures LinesWithin(BattleInfo(wrap, sb, w).value, w)
  {
    StatLinesWithin(wrap, sb, w);
    TailLinesWithin(wrap, sb, w);
    WithinConcat(StatLines(wrap, sb, w), TailLines(wrap, sb, w), w);
  }

  lemma WithinConcat(a: seq<string>, b: seq<string>, w: int)
    requires LinesWithin(a, w) && LinesWithin(b, w)
    ensures LinesWithin(a + b, w)
  {
    forall i | 0 <= i < |a + b| ensures |(a + b)[i]| <= w {
      if i >= |a| {
        assert (a + b)[i] == b[i - |a|];
      }
    }
  }

  lemma ListIfWithin(wrap: Wrapper, title: string, items: Option<seq<string>>, w: int)
    requires WrapBounded(wrap) && IndentWidth < w
    ensures LinesWithin(ListIf(wrap, title, items, w), w)
  {
    if Present(items) {
      FormatListWithin(wrap, title, items.value, w);
    }
  }

  // ----- The imperative rendering -----

  /** The ability loop of `battle_info`: both rows of centred cells. */
  method AbilityStrings(ability: seq<(string, int)>, aw: int) returns (names: seq<string>, scores: seq<string>)
    ensures names == NameCells(ability, aw) && scores == ScoreCells(ability, aw)
  {
    names, scores := [], [];
    ghost var allNames, allScores := Names(ability), ScoreTexts(ability);
    for i := 0 to |ability|
      invariant names == Centred(allNames[..i], aw)
      invariant scores == Centred(allScores[..i], aw)
    {
      CentredSnoc(allNames, aw, i);
      CentredSnoc(allScores, aw, i);
      var (ab, score) := ability[i];
      assert allNames[i] == ab && allScores[i] == ScoreText(score);
      names := names + [CentrePad(ab, aw)];
      var modifier := AbilityModifier(score);
      scores := scores + [CentrePad(IntToString(score) + "(" + SignedIntToString(modifier) + ")", aw)];
    }
    assert allNames[..|ability|] == allNames;
    assert allScores[..|ability|] == allScores;
  }

  /** `lines.extend(format_indented_paragraph(text, line_width))` for each text in turn. */
  method ExtendWrapped(wrap: Wrapper, lines: seq<string>, texts: seq<string>, w: int) returns (r: seq<string>)
    ensures r == lines + WrappedLines(wrap, texts, w)
  {
    r := lines;
    for i := 0 to |texts|
      invariant r == lines + WrappedLines(wrap, texts[..i], w)
    {
      assert texts[..i + 1][..i] == texts[..i];
      r := r + FormatIndentedParagraph(wrap, texts[i], w);
    }
    assert texts[..|texts|] == texts;
  }

  /** `if items: lines.extend(format_list(title, items, line_width))`. */
  method ExtendList(wrap: Wrapper, lines: seq<string>, title: string, items: Option<seq<string>>, w: int)
    returns (r: seq<string>)
    ensures r == lines + ListIf(wrap, title, items, w)
  {
    r := lines;
    if Present(items) {
      r := r + FormatList(wrap, title, items.value, w);
    }
  }

  /** Six blocks appended one by one are the first followed by the other five
      joined. */
  lemma AppendSix(t: seq<string>, a1: seq<string>, a2: seq<string>, a3: seq<string>,
                  a4: seq<string>, a5: seq<string>, a6: seq<string>)
    ensures t + a1 + a2 + a3 + a4 + a5 + a6 == t + (a1 + a2 + a3 + a4 + a5 + a6)
  {
  }

  /** The statistics part of `battle_info`, up to the challenge line. */
  method RenderStats(wrap: Wrapper, sb: StatBlock, w: int) returns (lines: seq<string>)
    requires |sb.ability| > 0 && w >= 0 && ValidChallenge(sb.challenge)
    ensures lines == StatLines(wrap, sb, w)
  {
    lines := ["AC " + sb.ac, "HP " + sb.hp, "Speed " + sb.speed, Rule(w)];
    var aw := w / |sb.ability|;
    var names, scores := AbilityStrings(sb.ability, aw);
    lines := lines + [CentrePad(Join("", names), w), CentrePad(Join("", scores), w), Rule(w)];
    assert lines == TopLines(sb, w);
    ghost var top := lines;
    lines := ExtendList(wrap, lines, "Saving throws", PairTexts(sb.savingThrows), w);
    lines := ExtendList(wrap, lines, "Skills", PairTexts(sb.skills), w);
    lines := ExtendList(wrap, lines, "Damage vulnerabilities", sb.damageVulnerabilities, w);
    lines := ExtendList(wrap, lines, "Damage resistances", sb.damageResistances, w);
    lines := ExtendList(wrap, lines, "Damage immunities", sb.damageImmunities, w);
    lines := ExtendList(wrap, lines, "Condition immunities", sb.conditionImmunities, w);
    AppendSix(top, ListIf(wrap, "Saving throws", PairTexts(sb.savingThrows), w),
      ListIf(wrap, "Skills", PairTexts(sb.skills), w),
      ListIf(wrap, "Damage vulnerabilities", sb.damageVulnerabilities, w),
      ListIf(wrap, "Damage resistances", sb.damageResistances, w),
      ListIf(wrap, "Damage immunities", sb.damageImmunities, w),
      ListIf(wrap, "Condition immunities", sb.conditionImmunities, w));
    assert lines == top + OptionalLists(wrap, sb, w);
    lines := lines + ["Passive perception: " + IntToString(sb.passivePerception)];
    lines := ExtendList(wrap, lines, "Senses", PairTexts(sb.specialSenses), w);
    lines := lines + FormatList(wrap, "Languages", LanguagesOrNone(sb.languages), w);
    var xp := ChallengeXp(sb.challenge).value;
    lines := lines + ["Challenge: " + ChallengeText(sb.challenge, sb.challengeIsFloat) + " (" + NatToString(xp) + " XP)"];
  }

  /** The part of `battle_info` after the challenge line: the traits, the
      actions, a blank line and the description. */
  method RenderTail(wrap: Wrapper, sb: StatBlock, w: int) returns (lines: seq<string>)
    ensures lines == TailLines(wrap, sb, w)
  {
    lines := ["", CentrePad("Special traits", w), Rule(w)];
    lines := ExtendWrapped(wrap, lines, Labelled(Items(sb.specialTraits)), w);
    lines := lines + ["", CentrePad("Actions", w), Rule(w)];
    lines := ExtendWrapped(wrap, lines, MeleeTexts(Items(sb.meleeAttacks)), w);
    lines := ExtendWrapped(wrap, lines, RangedTexts(Items(sb.rangedAttacks)), w);
    ghost var beforeMultiattack := lines;
    if PresentText(sb.multiattack) {
      lines := lines + FormatIndentedParagraph(wrap, "Multiattack: " + sb.multiattack.value, w);
    }
    assert lines == beforeMultiattack + MultiattackLines(wrap, sb, w);
    lines := ExtendWrapped(wrap, lines, Labelled(Items(sb.otherActions)), w);
    lines := lines + [""];
    ghost var beforeDescription := lines;
    if PresentText(sb.description) {
      lines := lines + FormatIndentedParagraph(wrap, sb.description.value, w);
    }
    assert lines == beforeDescription + DescriptionLines(wrap, sb, w);
  }

  /** `battle_info`: the width check, then the lines section by section as
      the source builds them. */
  method RenderBattleInfo(wrap: Wrapper, sb: StatBlock, w: int) returns (r: Result<seq<string>>)
    ensures r == BattleInfo(wrap, sb, w)
  {
    if w < MinimumTerminalWidth {
      return Err(WidthTooSmall(MinimumTerminalWidth));
    }
    if |sb.ability| == 0 {
      return Err(NoAbilities);
    }
    var xp := Xp(sb);
    if xp.Err? {
      return Err(xp.error);
    }
    var st := RenderStats(wrap, sb, w);
    var tail := RenderTail(wrap, sb, w);
    return Ok(st + tail);
  }
}
