/** `load_battle_info` of the top-level fourhills.py: the monsters of a
    battle file as (name, quantity) pairs, each entry split by the same
    entry expression as the later scene file (`MonsterEntries.MatchEntry`).

    Reading and parsing the file is not part of this model; the function
    works on the parsed file. The older code's `int(number)` cannot fail on
    what the expression accepts, so its error branch is never taken here. */
module LegacyBattle {
  import opened Outcomes
  import opened Records
  import opened MonsterEntries

  /** One entry of the `monsters` list: a mismatch is a file load error. */
  function BattleEntry(v: Value): (r: Result<(string, nat)>)
    ensures r.Ok? <==> v.Text? && MatchEntry(v.text).Some?
    ensures r.Ok? ==> r.value == MatchEntry(v.text).value
    ensures v.Text? && MatchEntry(v.text).None? ==> r == Err(BattleFileError)
  {
    if !v.Text? then Err(WrongShape("monsters"))
    else if MatchEntry(v.text).None? then Err(BattleFileError)
    else Ok(MatchEntry(v.text).value)
  }

  /** The battle's monsters: none without a `monsters` key; a `characters`
      key is refused once the monsters are read. */
  function BattleInfoOf(d: Record): Result<seq<(string, nat)>> {
    var monsters :- if "monsters" !in d then Ok([])
                    else if !d["monsters"].List? then Err(WrongShape("monsters"))
                    else MapAll(d["monsters"].items, BattleEntry);
    if "characters" in d then Err(NotImplemented) else Ok(monsters)
  }

  /** The loop of `load_battle_info`: each entry matched and appended in turn,
      the first bad entry stopping the load, then the `characters` check. */
  method LoadBattleInfo(d: Record) returns (r: Result<seq<(string, nat)>>)
    ensures r == BattleInfoOf(d)
  {
    var monsterInfo: seq<(string, nat)> := [];
    if "monsters" in d {
      if !d["monsters"].List? {
        return Err(WrongShape("monsters"));
      }
      var entries := d["monsters"].items;
      for i := 0 to |entries|
        invariant MapAll(entries[..i], BattleEntry) == Ok(monsterInfo)
      {
        var entry := entries[i];
        MapAllStep(entries, BattleEntry, i);
        if !entry.Text? {
          MapAllErrPrefix(entries, BattleEntry, i + 1);
          return Err(WrongShape("monsters"));
        }
        var matched := MatchEntry(entry.text);
        if matched.None? {
          MapAllErrPrefix(entries, BattleEntry, i + 1);
          return Err(BattleFileError);
        }
        var (name, number) := matched.value;
        monsterInfo := monsterInfo + [(name, number)];
      }
      assert entries[..|entries|] == entries;
    }
    if "characters" in d {
      return Err(NotImplemented);
    }
    return Ok(monsterInfo);
  }

  /** A file without `monsters` or `characters` has no monsters; a
      `characters` key is refused even when every monster entry matched. */
  lemma BattleInfoKeys(d: Record)
    ensures "monsters" !in d && "characters" !in d ==> BattleInfoOf(d) == Ok([])
    ensures "characters" in d ==> BattleInfoOf(d).Err?
    ensures "characters" in d && ("monsters" !in d || (d["monsters"].List? && MapAll(d["monsters"].items, BattleEntry).Ok?)) ==>
      BattleInfoOf(d) == Err(NotImplemented)
  {
  }

  /** A loaded battle keeps the file's entries in order, entry `i` giving the
      name and quantity the expression splits it into. */
  lemma BattleInfoEntries(d: Record)
    requires BattleInfoOf(d).Ok? && "monsters" in d
    ensures var monsters := BattleInfoOf(d).value;
            && d["monsters"].List?
            && |monsters| == |d["monsters"].items|
            && forall i :: 0 <= i < |monsters| ==>
                 d["monsters"].items[i].Text? && MatchEntry(d["monsters"].items[i].text) == Some(monsters[i])
  {
    var monsters := BattleInfoOf(d).value;
    forall i | 0 <= i < |monsters|
      ensures d["monsters"].items[i].Text? && MatchEntry(d["monsters"].items[i].text) == Some(monsters[i])
    {
      MapAllAt(d["monsters"].items, BattleEntry, i);
    }
  }

  /** The first entry that does not match stops the load with a file error,
      before the `characters` key is looked at. */
  lemma BattleInfoBadEntry(d: Record, i: nat)
    requires "monsters" in d && d["monsters"].List?
    requires var items := d["monsters"].items;
             && i < |items| && items[i].Text? && MatchEntry(items[i].text).None?
             && forall k :: 0 <= k < i ==> BattleEntry(items[k]).Ok?
    ensures BattleInfoOf(d) == Err(BattleFileError)
  {
    MapAllFirstError(d["monsters"].items, BattleEntry, i);
  }
}
