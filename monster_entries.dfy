/** The monster entries of a scene or battle file: "name", "name N",
    "name xN" or "name N" and "name xN" without the space. Both
    fourhills/scene.py and fourhills.py read them with
    `re.match(r"^(\w*)(?: ?x?(\d+))?$", entry)`, taking group 1 as the name and
    group 2 (or "1" when it did not take part) as the quantity.

    `MatchEntry` is a matcher written out by hand for that regular expression;
    `Decomposes` says declaratively what it is for a string to be in the
    expression's language with a given split into groups. The lemmas prove
    that the matcher accepts exactly the strings that decompose, and that it
    picks the split the regular-expression engine picks: since `\w*` is greedy
    and backtracks only when the rest cannot match, the name is the longest
    one any split allows. `\w` and `\d` are taken in their ASCII sense, and
    `$` matches at the end or before a final newline, as Python's does. */
module MonsterEntries {
  import opened Strings
  import opened Outcomes

  predicate IsWordChar(c: char) {
    'a' <= c <= 'z' || 'A' <= c <= 'Z' || IsDigit(c) || c == '_'
  }

  /** Every character from `i` up to `k` is a word character. */
  predicate WordsBetween(s: string, i: nat, k: nat)
    requires i <= k <= |s|
  {
    forall p :: i <= p < k ==> IsWordChar(s[p])
  }

  /** Every character from `i` up to `k` is a digit. */
  predicate DigitsBetween(s: string, i: nat, k: nat)
    requires i <= k <= |s|
  {
    forall p :: i <= p < k ==> IsDigit(s[p])
  }

  /** What `$` accepts at `m`: the end, or a final newline. */
  predicate LineEndAt(s: string, m: nat)
    requires m <= |s|
  {
    m == |s| || (m + 1 == |s| && s[m] == '\n')
  }

  /** `s[k..j]` is what `?:( ?x?` can consume before the digits: nothing, a
      space, an `x`, or a space and an `x`. */
  predicate SeparatorBetween(s: string, k: nat, j: nat)
    requires k <= j <= |s|
  {
    || j == k
    || (j == k + 1 && (s[k] == ' ' || s[k] == 'x'))
    || (j == k + 2 && s[k] == ' ' && s[k + 1] == 'x')
  }

  /** `s` is in the expression's language with group 1 `s[..k]`, the
      separator `s[k..j]` and group 2 `s[j..m]`; `j == m` means the optional
      group did not take part, and then it consumed nothing. */
  predicate Decomposes(s: string, k: nat, j: nat, m: nat) {
    && k <= j <= m <= |s|
    && WordsBetween(s, 0, k)
    && SeparatorBetween(s, k, j)
    && DigitsBetween(s, j, m)
    && (j == m ==> k == j)
    && LineEndAt(s, m)
  }

  /** Digits between two positions are a digit string. */
  lemma DigitsSlice(s: string, j: nat, m: nat)
    requires j <= m <= |s| && DigitsBetween(s, j, m)
    ensures AllDigits(s[j..m])
  {
    assert forall i :: 0 <= i < m - j ==> s[j..m][i] == s[j + i];
  }

  /** `int(match[2] or "1")` for a split. */
  function Quantity(s: string, j: nat, m: nat): nat
    requires j <= m <= |s| && DigitsBetween(s, j, m)
  {
    if j == m then 1 else (DigitsSlice(s, j, m); DigitsValue(s[j..m]))
  }

  /** Where the run of word characters starting at `i` ends. */
  function WordEnd(s: string, i: nat): (n: nat)
    requires i <= |s|
    ensures i <= n <= |s| && WordsBetween(s, i, n)
    ensures n < |s| ==> !IsWordChar(s[n])
    decreases |s| - i
  {
    if i == |s| || !IsWordChar(s[i]) then i else WordEnd(s, i + 1)
  }

  /** Where the run of digits starting at `i` ends. */
  function DigitEnd(s: string, i: nat): (n: nat)
    requires i <= |s|
    ensures i <= n <= |s| && DigitsBetween(s, i, n)
    ensures n < |s| ==> !IsDigit(s[n])
    decreases |s| - i
  {
    if i == |s| || !IsDigit(s[i]) then i else DigitEnd(s, i + 1)
  }

  /** Word characters from `i` up to `k` put the end of the run at `k` or later. */
  lemma {:induction false} WordEndAtLeast(s: string, i: nat, k: nat)
    requires i <= k <= |s| && WordsBetween(s, i, k)
    ensures k <= WordEnd(s, i)
    decreases k - i
  {
    if i < k {
      WordEndAtLeast(s, i + 1, k);
    }
  }

  /** Word characters from `i` up to a non-word character (or the end) at
      `k` are the whole run. */
  lemma WordEndExact(s: string, i: nat, k: nat)
    requires i <= k <= |s| && WordsBetween(s, i, k) && (k < |s| ==> !IsWordChar(s[k]))
    ensures WordEnd(s, i) == k
  {
    WordEndAtLeast(s, i, k);
  }

  /** Digits from `i` up to a non-digit (or the end) at `k` are the whole run. */
  lemma {:induction false} DigitEndExact(s: string, i: nat, k: nat)
    requires i <= k <= |s| && DigitsBetween(s, i, k) && (k < |s| ==> !IsDigit(s[k]))
    ensures DigitEnd(s, i) == k
    decreases k - i
  {
    if i < k {
      DigitEndExact(s, i + 1, k);
    }
  }

  /** `re.match(...)` followed by `(match[1], int(match[2] or "1"))`: the name
      runs as far as the word characters go; then either the entry ends there,
      or a space, an optional `x` and at least one digit end it. */
  function MatchEntry(s: string): Option<(string, nat)> {
    var k := WordEnd(s, 0);
    if k < |s| && s[k] == ' ' then
      var j := if k + 1 < |s| && s[k + 1] == 'x' then k + 2 else k + 1;
      var m := DigitEnd(s, j);
      if j < m && LineEndAt(s, m) then Some((s[..k], Quantity(s, j, m))) else None
    else if LineEndAt(s, k) then Some((s[..k], 1))
    else None
  }

  /** Whatever the matcher accepts decomposes, with the longest word run as
      the name and the quantity the split gives. */
  lemma MatchEntrySound(s: string)
    requires MatchEntry(s).Some?
    ensures exists j, m :: Decomposes(s, WordEnd(s, 0), j, m)
                           && MatchEntry(s).value == (s[..WordEnd(s, 0)], Quantity(s, j, m))
  {
    var k := WordEnd(s, 0);
    if k < |s| && s[k] == ' ' {
      var j := if k + 1 < |s| && s[k + 1] == 'x' then k + 2 else k + 1;
      var m := DigitEnd(s, j);
      assert Decomposes(s, k, j, m) && MatchEntry(s).value == (s[..k], Quantity(s, j, m));
    } else {
      assert Decomposes(s, k, k, k) && MatchEntry(s).value == (s[..k], Quantity(s, k, k));
    }
  }

  /** A split whose name is the whole word run is the split the matcher takes. */
  lemma MatchLongestSplit(s: string, k: nat, j: nat, m: nat)
    requires Decomposes(s, k, j, m) && k == WordEnd(s, 0)
    ensures MatchEntry(s) == Some((s[..k], Quantity(s, j, m)))
  {
    if j < m {
      assert IsDigit(s[j]);
      assert s[k] == ' ';
      assert j == if k + 1 < |s| && s[k + 1] == 'x' then k + 2 else k + 1;
      assert m < |s| ==> s[m] == '\n';
      DigitEndExact(s, j, m);
    }
  }

  /** Every string that decomposes is accepted; the matcher's name is the
      longest word run, so a shorter split's name is never the one taken. */
  lemma MatchEntryComplete(s: string, k: nat, j: nat, m: nat)
    requires Decomposes(s, k, j, m)
    ensures MatchEntry(s).Some?
    ensures k == WordEnd(s, 0) ==> MatchEntry(s).value == (s[..k], Quantity(s, j, m))
  {
    var w := WordEnd(s, 0);
    WordEndAtLeast(s, 0, k);
    if k == w {
      MatchLongestSplit(s, k, j, m);
    } else {
      assert IsWordChar(s[k]);
      assert j < m;
      assert WordsBetween(s, 0, m);
      WordEndExact(s, 0, m);
      assert Decomposes(s, m, m, m);
      MatchLongestSplit(s, m, m, m);
    }
  }

  /** The matcher accepts exactly the entries in the expression's language. */
  lemma MatchEntryAccepts(s: string)
    ensures MatchEntry(s).Some? <==> exists k, j, m :: Decomposes(s, k, j, m)
  {
    if MatchEntry(s).Some? {
      MatchEntrySound(s);
    }
    if exists k, j, m :: Decomposes(s, k, j, m) {
      var k, j, m :| Decomposes(s, k, j, m);
      MatchEntryComplete(s, k, j, m);
    }
  }

  /** Without a number the quantity is 1. */
  lemma MatchEntryDefaultQuantity(s: string)
    requires WordsBetween(s, 0, |s|)
    ensures MatchEntry(s) == Some((s, 1))
  {
    WordEndExact(s, 0, |s|);
    assert s[..|s|] == s;
  }

  /** "lion x3" is three lions. */
  lemma SpacedXQuantityExample()
    ensures MatchEntry("lion x3") == Some(("lion", 3))
  {
    var a := "lion x3";
    WordEndExact(a, 0, 4);
    DigitEndExact(a, 6, 7);
    assert a[..4] == "lion" && a[6..7] == "3";
    assert DigitsValue("3") == 3 by {
      assert "3"[..0] == [];
    }
  }

  /** "lion 3" is three lions too. */
  lemma SpacedQuantityExample()
    ensures MatchEntry("lion 3") == Some(("lion", 3))
  {
    var a := "lion 3";
    WordEndExact(a, 0, 4);
    DigitEndExact(a, 5, 6);
    assert a[..4] == "lion" && a[5..6] == "3";
    assert DigitsValue("3") == 3 by {
      assert "3"[..0] == [];
    }
  }

  /** A final newline is allowed after the number. */
  lemma TrailingNewlineExample()
    ensures MatchEntry("lion x3\n") == Some(("lion", 3))
  {
    var a := "lion x3\n";
    WordEndExact(a, 0, 4);
    DigitEndExact(a, 6, 7);
    assert a[..4] == "lion" && a[6..7] == "3";
    assert DigitsValue("3") == 3 by {
      assert "3"[..0] == [];
    }
  }

  /** Greedy `\w*` takes the `x` and the digits into the name when no space
      comes first: "lionx3" is one "lionx3" and "lion3" one "lion3", though
      "lion3" also splits as the name "lion" and the number 3. */
  lemma GreedyNameExamples()
    ensures MatchEntry("lionx3") == Some(("lionx3", 1))
    ensures MatchEntry("lion3") == Some(("lion3", 1))
    ensures Decomposes("lion3", 4, 4, 5) && Quantity("lion3", 4, 5) == 3
  {
    MatchEntryDefaultQuantity("lionx3");
    MatchEntryDefaultQuantity("lion3");
    var s := "lion3";
    assert s[4..5] == "3";
    assert DigitsValue("3") == 3 by {
      assert "3"[..0] == [];
    }
  }

  /** "giant rat" is not an entry: a space must be followed by a number. */
  lemma SpacedNameRejected()
    ensures MatchEntry("giant rat") == None
  {
    var a := "giant rat";
    WordEndExact(a, 0, 5);
    DigitEndExact(a, 6, 6);
  }

  /** "lion x" is not an entry: the `x` must be followed by a number. */
  lemma MissingNumberRejected()
    ensures MatchEntry("lion x") == None
  {
    var b := "lion x";
    WordEndExact(b, 0, 4);
    DigitEndExact(b, 6, 6);
  }

  /** The empty entry is accepted, with an empty name and quantity 1. */
  lemma EmptyEntryExample()
    ensures MatchEntry("") == Some(("", 1))
  {
    MatchEntryDefaultQuantity("");
  }
}
