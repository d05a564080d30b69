/** `DirectoryDict` of fourhills/setting.py: a directory of files seen as a
    read-only dictionary from file stems to the objects the files define.

    The key table is built once, from the stems of the files with the
    dictionary's extension; walking the directory is not part of this model,
    so the table is given as `keys` (in the order the directory listing gives
    them, which is the order the source iterates them in). The item factory,
    which reads and parses a file, is the function `factory`. */
module Directories {
  import opened Strings
  import opened Outcomes

  datatype DirectoryDict<T> = DirectoryDict(keys: seq<string>, factory: string -> T) {
    /** The stems of files with one extension are distinct. */
    predicate Valid() {
      Distinct(keys)
    }
  }

  /** `__getitem__`: the factory's object for a key of the table, a
      `KeyError` for any other key. */
  function GetItem<T>(dd: DirectoryDict<T>, key: string): (r: Result<T>)
    ensures r.Ok? <==> key in dd.keys
    ensures r.Err? ==> r.error == KeyNotFound(key)
  {
    if key in dd.keys then Ok(dd.factory(key)) else Err(KeyNotFound(key))
  }

  /** A successful lookup is the factory applied to the key, at the time of
      the lookup: nothing is cached, so two lookups of one key both call it. */
  lemma GetItemCallsFactory<T>(dd: DirectoryDict<T>, key: string)
    requires key in dd.keys
    ensures GetItem(dd, key) == Ok(dd.factory(key))
  {
  }

  /** `dd[key]` when the item factory may itself raise: the lookup's error
      for a missing key, else whatever the factory gives. */
  function Load<T>(dd: DirectoryDict<Result<T>>, key: string): (r: Result<T>)
    ensures key !in dd.keys ==> r == Err(KeyNotFound(key))
    ensures key in dd.keys ==> r == dd.factory(key)
  {
    var item :- GetItem(dd, key);
    item
  }

  /** `__iter__`: the stems, in table order. */
  function Iter<T>(dd: DirectoryDict<T>): (r: seq<string>)
    ensures |r| == |dd.keys|
    ensures forall i :: 0 <= i < |r| ==> r[i] == dd.keys[i]
  {
    dd.keys
  }

  /** `__len__`. */
  function Len<T>(dd: DirectoryDict<T>): nat {
    |dd.keys|
  }

  /** Iteration yields exactly the keys that can be looked up, and the
      length counts them. */
  lemma IterKeys<T>(dd: DirectoryDict<T>)
    requires dd.Valid()
    ensures forall k :: k in Iter(dd) <==> GetItem(dd, k).Ok?
    ensures Len(dd) == |Iter(dd)| == |set k | k in Iter(dd)|
  {
    DistinctCardinality(dd.keys);
    assert Iter(dd) == dd.keys;
  }

  /** `from_prefix(prefix)`: every key starting with `prefix` is a candidate,
      the prefix itself getting no priority when it is a key. */
  function FromPrefix<T>(dd: DirectoryDict<T>, prefix: string): Result<T> {
    var matches := PrefixMatches(dd.keys, prefix);
    if |matches| == 0 then Err(NoMatch(prefix))
    else if |matches| == 1 then GetItem(dd, matches[0])
    else Err(AmbiguousReference(prefix, matches))
  }

  /** The message of the ambiguity error: the prefix and the matching keys,
      in table order, separated by commas. */
  function AmbiguityMessage(prefix: string, matches: seq<string>): string {
    "Multiple items match prefix \"" + prefix + "\": " + Join(", ", matches)
  }

  /** No key starting with the prefix is a `ValueError` naming the prefix,
      and nothing else is. */
  lemma FromPrefixNoMatch<T>(dd: DirectoryDict<T>, prefix: string)
    ensures FromPrefix(dd, prefix) == Err(NoMatch(prefix)) <==>
      forall k :: k in dd.keys ==> !StartsWith(k, prefix)
  {
    var matches := PrefixMatches(dd.keys, prefix);
    if |matches| > 0 {
      assert matches[0] in matches;
    }
  }

  /** With exactly one key starting with the prefix, the result is that key's object. */
  lemma FromPrefixUnique<T>(dd: DirectoryDict<T>, prefix: string, key: string)
    requires dd.Valid() && key in dd.keys && StartsWith(key, prefix)
    requires forall k :: k in dd.keys && StartsWith(k, prefix) ==> k == key
    ensures FromPrefix(dd, prefix) == Ok(dd.factory(key))
  {
    var matches := PrefixMatches(dd.keys, prefix);
    PrefixMatchesDistinct(dd.keys, prefix);
    assert key in matches;
    if |matches| >= 2 {
      PrefixMatchesAt(dd.keys, prefix, 0);
      PrefixMatchesAt(dd.keys, prefix, 1);
      assert false;
    }
  }

  /** Two keys starting with the prefix make it ambiguous, and the error lists
      every matching key in table order. */
  lemma FromPrefixAmbiguous<T>(dd: DirectoryDict<T>, prefix: string, k1: string, k2: string)
    requires k1 in dd.keys && k2 in dd.keys && k1 != k2
    requires StartsWith(k1, prefix) && StartsWith(k2, prefix)
    ensures FromPrefix(dd, prefix) == Err(AmbiguousReference(prefix, PrefixMatches(dd.keys, prefix)))
  {
    TwoMembers(PrefixMatches(dd.keys, prefix), k1, k2);
  }

  /** A successful lookup found the only key starting with the prefix. */
  lemma FromPrefixFound<T>(dd: DirectoryDict<T>, prefix: string)
    requires dd.Valid() && FromPrefix(dd, prefix).Ok?
    ensures exists key ::
              && key in dd.keys && StartsWith(key, prefix)
              && FromPrefix(dd, prefix).value == dd.factory(key)
              && forall k :: k in dd.keys && StartsWith(k, prefix) ==> k == key
  {
    var matches := PrefixMatches(dd.keys, prefix);
    var key := matches[0];
    assert key in matches;
    forall k | k in dd.keys && StartsWith(k, prefix) ensures k == key {
      assert k in matches;
    }
  }

  /** A full key that is also the start of another key is ambiguous: with
      `goblin` and `goblin_boss` in the table, `goblin` matches both. */
  lemma NoExactPriorityExample<T>(factory: string -> T)
    ensures var dd := DirectoryDict(["goblin", "goblin_boss"], factory);
            FromPrefix(dd, "goblin") == Err(AmbiguousReference("goblin", ["goblin", "goblin_boss"]))
  {
    var dd := DirectoryDict(["goblin", "goblin_boss"], factory);
    assert StartsWith("goblin", "goblin");
    assert StartsWith("goblin_boss", "goblin") by {
      assert "goblin_boss"[..6] == "goblin";
    }
    assert PrefixMatches(["goblin_boss"], "goblin") == ["goblin_boss"] by {
      assert ["goblin_boss"][1..] == [];
      assert PrefixMatches([], "goblin") == [];
    }
    assert ["goblin", "goblin_boss"][1..] == ["goblin_boss"];
    assert PrefixMatches(dd.keys, "goblin") == ["goblin", "goblin_boss"];
  }
}
