/** The Python string operations the core relies on: repetition (`c * n`),
    `sep.join(parts)`, `str.startswith`, `str.capitalize` (ASCII letters only),
    decimal conversion of integers (`str`, the `d` and `+d` format specifications, `int`) and
    `sorted` on strings (code-point order). */
module Strings {

  function Max(a: int, b: int): int { if a < b then b else a }

  /** `c * n`: `n` copies of `c`; a non-positive `n` gives "". */
  function Repeat(c: char, n: int): (r: string)
    ensures |r| == Max(n, 0)
    decreases n
  {
    if n <= 0 then "" else [c] + Repeat(c, n - 1)
  }

  /** Every character of `c * n` is `c`. */
  lemma {:induction false} RepeatChars(c: char, n: int)
    ensures forall i :: 0 <= i < |Repeat(c, n)| ==> Repeat(c, n)[i] == c
    decreases n
  {
    if n > 0 {
      RepeatChars(c, n - 1);
    }
  }

  /** `" " * n`. */
  function Spaces(n: int): (r: string)
    ensures |r| == Max(n, 0)
  {
    Repeat(' ', n)
  }

  predicate AllSpaces(s: string) {
    forall i :: 0 <= i < |s| ==> s[i] == ' '
  }

  lemma SpacesAreSpaces(n: int)
    ensures AllSpaces(Spaces(n))
  {
    RepeatChars(' ', n);
  }

  lemma SpacesSplit(a: nat, b: nat)
    ensures Spaces(a) + Spaces(b) == Spaces(a + b)
  {
    var l, r := Spaces(a) + Spaces(b), Spaces(a + b);
    SpacesAreSpaces(a);
    SpacesAreSpaces(b);
    SpacesAreSpaces(a + b);
    assert |l| == |r|;
    forall i | 0 <= i < |l| ensures l[i] == r[i] {
    }
  }

  /** `sep.join(parts)`. */
  function Join(sep: string, parts: seq<string>): string
    decreases |parts|
  {
    if |parts| == 0 then ""
    else if |parts| == 1 then parts[0]
    else parts[0] + sep + Join(sep, parts[1..])
  }

  /** Sum of the lengths of some strings. */
  function TotalLength(parts: seq<string>): nat
    decreases |parts|
  {
    if |parts| == 0 then 0 else |parts[0]| + TotalLength(parts[1..])
  }

  /** The length of a join: every part and one separator between neighbours. */
  lemma {:induction false} JoinLength(sep: string, parts: seq<string>)
    requires |parts| > 0
    ensures |Join(sep, parts)| == TotalLength(parts) + (|parts| - 1) * |sep|
    decreases |parts|
  {
    if |parts| > 1 {
      JoinLength(sep, parts[1..]);
    }
  }

  /** Joining `n` parts that all have length `w` gives `n * w + (n - 1) * |sep|` characters. */
  lemma {:induction false} JoinUniformLength(sep: string, parts: seq<string>, w: nat)
    requires |parts| > 0
    requires forall i :: 0 <= i < |parts| ==> |parts[i]| == w
    ensures |Join(sep, parts)| == |parts| * (w + |sep|) - |sep|
    decreases |parts|
  {
    if |parts| > 1 {
      JoinUniformLength(sep, parts[1..], w);
      assert |parts| * (w + |sep|) == (|parts| - 1) * (w + |sep|) + (w + |sep|);
    }
  }

  /** Where part `k` starts when every part has width `w` and separators have width `g`. */
  function Offset(k: nat, w: nat, g: nat): nat {
    k * (w + g)
  }

  /** Joining parts that all have length `w` puts part `k` at offset `k * (w + |sep|)`. */
  lemma {:induction false} JoinPartAt(sep: string, parts: seq<string>, w: nat, k: nat)
    requires k < |parts|
    requires forall i :: 0 <= i < |parts| ==> |parts[i]| == w
    ensures Offset(k, w, |sep|) + w <= |Join(sep, parts)|
    ensures Join(sep, parts)[Offset(k, w, |sep|) .. Offset(k, w, |sep|) + w] == parts[k]
    decreases |parts|
  {
    JoinUniformLength(sep, parts, w);
    if k > 0 {
      var d := w + |sep|;
      var rest := Join(sep, parts[1..]);
      JoinPartAt(sep, parts[1..], w, k - 1);
      var off := (k - 1) * d;
      assert k * d == off + d;
      assert Join(sep, parts) == parts[0] + sep + rest;
      assert (parts[1..])[k - 1] == parts[k];
      assert Join(sep, parts)[d + off .. d + off + w] == rest[off .. off + w];
    }
  }

  /** `block` sits in `lines` from index `k` on. */
  ghost predicate At<T>(lines: seq<T>, k: nat, block: seq<T>) {
    k + |block| <= |lines| && lines[k .. k + |block|] == block
  }

  lemma AtEnd<T>(a: seq<T>, b: seq<T>)
    ensures At(a + b, |a|, b)
  {
    assert (a + b)[|a| .. |a| + |b|] == b;
  }

  lemma AtStart<T>(a: seq<T>, b: seq<T>)
    ensures At(a + b, 0, a)
  {
    assert (a + b)[0 .. |a|] == a;
  }

  ghost predicate IsPrefix<T>(a: seq<T>, b: seq<T>) {
    |a| <= |b| && b[..|a|] == a
  }

  lemma PrefixOfAppend<T>(a: seq<T>, b: seq<T>)
    ensures IsPrefix(a, a + b)
  {
    assert (a + b)[..|a|] == a;
  }

  lemma PrefixTrans<T>(a: seq<T>, b: seq<T>, c: seq<T>)
    requires IsPrefix(a, b) && IsPrefix(b, c)
    ensures IsPrefix(a, c)
  {
    assert c[..|a|] == c[..|b|][..|a|];
  }

  /** Extending a sequence keeps every block where it was. */
  lemma AtPrefix<T>(a: seq<T>, b: seq<T>, k: nat, block: seq<T>)
    requires At(a, k, block) && IsPrefix(a, b)
    ensures At(b, k, block)
  {
    assert b[k .. k + |block|] == b[..|a|][k .. k + |block|];
  }

  /** A block inside a block sits at the sum of the two offsets. */
  lemma AtIn<T>(lines: seq<T>, o: nat, outer: seq<T>, k: nat, block: seq<T>)
    requires At(lines, o, outer) && At(outer, k, block)
    ensures At(lines, o + k, block)
  {
    forall i | 0 <= i < |block|
      ensures lines[o + k + i] == block[i]
    {
      assert block[i] == outer[k .. k + |block|][i] == outer[k + i];
      assert outer[k + i] == lines[o .. o + |outer|][k + i];
    }
    assert lines[o + k .. o + k + |block|] == block;
  }

  /** `s.startswith(prefix)`. */
  predicate StartsWith(s: string, prefix: string) {
    |prefix| <= |s| && s[..|prefix|] == prefix
  }

  /** `[key for key in keys if key.startswith(prefix)]`. */
  function PrefixMatches(keys: seq<string>, prefix: string): (r: seq<string>)
    ensures forall x :: x in r <==> x in keys && StartsWith(x, prefix)
    ensures |r| <= |keys|
    decreases |keys|
  {
    if |keys| == 0 then []
    else (if StartsWith(keys[0], prefix) then [keys[0]] else []) + PrefixMatches(keys[1..], prefix)
  }

  predicate Distinct(s: seq<string>) {
    forall i, j :: 0 <= i < j < |s| ==> s[i] != s[j]
  }

  lemma PrefixMatchesAt(keys: seq<string>, prefix: string, i: nat)
    ensures i < |PrefixMatches(keys, prefix)| ==>
      PrefixMatches(keys, prefix)[i] in keys && StartsWith(PrefixMatches(keys, prefix)[i], prefix)
  {
    if i < |PrefixMatches(keys, prefix)| {
      assert PrefixMatches(keys, prefix)[i] in PrefixMatches(keys, prefix);
    }
  }

  lemma {:induction false} PrefixMatchesDistinct(keys: seq<string>, prefix: string)
    requires Distinct(keys)
    ensures Distinct(PrefixMatches(keys, prefix))
    decreases |keys|
  {
    if keys != [] {
      PrefixMatchesDistinct(keys[1..], prefix);
      assert keys[0] !in keys[1..];
    }
  }

  /** A distinct sequence has as many elements as its set. */
  lemma {:induction false} DistinctCardinality(s: seq<string>)
    requires Distinct(s)
    ensures |set x | x in s| == |s|
    decreases |s|
  {
    if s != [] {
      DistinctCardinality(s[1..]);
      assert s[0] !in s[1..];
      assert (set x | x in s) == (set x | x in s[1..]) + {s[0]};
    }
  }

  /** Two different members of a filtered list mean it has at least two elements. */
  lemma TwoMembers(r: seq<string>, a: string, b: string)
    requires a in r && b in r && a != b
    ensures |r| >= 2
  {
  }

  // ----- Case mapping (ASCII letters only) -----

  function Upper(c: char): char {
    if 'a' <= c <= 'z' then (c as int - 32) as char else c
  }

  function Lower(c: char): char {
    if 'A' <= c <= 'Z' then (c as int + 32) as char else c
  }

  /** Every character mapped to lower case. */
  function LowerAll(s: string): (r: string)
    ensures |r| == |s|
  {
    if |s| == 0 then "" else [Lower(s[0])] + LowerAll(s[1..])
  }

  lemma {:induction false} LowerAllChars(s: string)
    ensures forall i :: 0 <= i < |s| ==> LowerAll(s)[i] == Lower(s[i])
  {
    if |s| > 0 {
      LowerAllChars(s[1..]);
    }
  }

  /** `s.capitalize()`: first character upper case, the rest lower case. */
  function Capitalize(s: string): (r: string)
    ensures |r| == |s|
  {
    if |s| == 0 then "" else [Upper(s[0])] + LowerAll(s[1..])
  }

  lemma CapitalizeChars(s: string)
    ensures |s| > 0 ==> Capitalize(s)[0] == Upper(s[0])
    ensures forall i :: 0 < i < |s| ==> Capitalize(s)[i] == Lower(s[i])
  {
    if |s| > 0 {
      LowerAllChars(s[1..]);
    }
  }

  // ----- Decimal numerals -----

  predicate IsDigit(c: char) { '0' <= c <= '9' }

  predicate AllDigits(s: string) {
    forall i :: 0 <= i < |s| ==> IsDigit(s[i])
  }

  function DigitChar(d: nat): (c: char)
    requires d < 10
    ensures IsDigit(c) && c as int - '0' as int == d
  {
    (d + '0' as int) as char
  }

  /** `str(n)` for a non-negative integer. */
  function NatToString(n: nat): (r: string)
    ensures |r| >= 1
    decreases n
  {
    if n < 10 then [DigitChar(n)] else NatToString(n / 10) + [DigitChar(n % 10)]
  }

  /** `int(s)` for a string of decimal digits (leading zeros allowed). */
  function DigitsValue(s: string): (n: nat)
    requires AllDigits(s)
    decreases |s|
  {
    if |s| == 0 then 0 else DigitsValue(s[..|s| - 1]) * 10 + (s[|s| - 1] as int - '0' as int)
  }

  /** `str(n)` is all decimal digits, and `int(str(n)) == n`. */
  lemma {:induction false} DigitsValueOfNatToString(n: nat)
    ensures AllDigits(NatToString(n))
    ensures DigitsValue(NatToString(n)) == n
    decreases n
  {
    if n >= 10 {
      DigitsValueOfNatToString(n / 10);
      var s := NatToString(n);
      assert s == NatToString(n / 10) + [DigitChar(n % 10)];
      assert s[..|s| - 1] == NatToString(n / 10);
    }
  }

  /** `str(i)` / `f"{i:d}"`. */
  function IntToString(i: int): (r: string)
    ensures i >= 0 ==> r == NatToString(i)
    ensures i < 0 ==> r == "-" + NatToString(-i)
  {
    if i < 0 then "-" + NatToString(-i) else NatToString(i)
  }

  /** `f"{i:+d}"`: always carries a sign, `+0` for zero. */
  function SignedIntToString(i: int): (r: string)
    ensures |r| >= 2
    ensures i >= 0 <==> r[0] == '+'
    ensures r[1..] == NatToString(if i < 0 then -i else i)
  {
    if i < 0 then "-" + NatToString(-i) else "+" + NatToString(i)
  }

  // ----- Lines of a string -----

  /** The index of the first newline of `s`, or `|s|` when it has none. */
  function LineEnd(s: string): (k: nat)
    ensures k <= |s| && (k < |s| ==> s[k] == '\n')
    ensures forall i :: 0 <= i < k ==> s[i] != '\n'
    decreases |s|
  {
    if |s| == 0 || s[0] == '\n' then 0
    else
      var k := 1 + LineEnd(s[1..]);
      assert forall i :: 1 <= i < k ==> s[1..][i - 1] == s[i];
      k
  }

  /** `s.split("\n")`. */
  function SplitLines(s: string): (r: seq<string>)
    ensures |r| > 0
    decreases |s|
  {
    var k := LineEnd(s);
    if k == |s| then [s] else [s[..k]] + SplitLines(s[k + 1..])
  }

  /** Splitting undoes joining with newlines, when no part holds a newline. */
  lemma {:induction false} SplitJoinLines(parts: seq<string>)
    requires |parts| > 0
    requires forall i, j :: 0 <= i < |parts| && 0 <= j < |parts[i]| ==> parts[i][j] != '\n'
    ensures SplitLines(Join("\n", parts)) == parts
    decreases |parts|
  {
    var a := parts[0];
    if |parts| == 1 {
      assert LineEnd(a) == |a|;
    } else {
      var rest := Join("\n", parts[1..]);
      var s := a + "\n" + rest;
      assert s[|a|] == '\n';
      assert forall i :: 0 <= i < |a| ==> s[i] == a[i];
      assert LineEnd(s) == |a|;
      assert s[..|a|] == a && s[|a| + 1..] == rest;
      SplitJoinLines(parts[1..]);
      assert parts == [a] + parts[1..];
    }
  }

  // ----- Code-point order and sorting -----

  /** Python's `a <= b` on strings. */
  predicate LexLessEq(a: string, b: string)
    decreases |a|
  {
    a == [] || (b != [] && (a[0] < b[0] || (a[0] == b[0] && LexLessEq(a[1..], b[1..]))))
  }

  lemma {:induction false} LexTotal(a: string, b: string)
    ensures LexLessEq(a, b) || LexLessEq(b, a)
    decreases |a|
  {
    if a != [] && b != [] && a[0] == b[0] {
      LexTotal(a[1..], b[1..]);
    }
  }

  lemma {:induction false} LexAntisymmetric(a: string, b: string)
    requires LexLessEq(a, b) && LexLessEq(b, a)
    ensures a == b
    decreases |a|
  {
    if a != [] && b != [] {
      LexAntisymmetric(a[1..], b[1..]);
      assert a == [a[0]] + a[1..] && b == [b[0]] + b[1..];
    }
  }

  predicate Sorted(s: seq<string>) {
    forall i :: 0 <= i < |s| - 1 ==> LexLessEq(s[i], s[i + 1])
  }

  function Insert(x: string, s: seq<string>): seq<string>
    decreases |s|
  {
    if |s| == 0 then [x]
    else if LexLessEq(x, s[0]) then [x] + s
    else [s[0]] + Insert(x, s[1..])
  }

  lemma {:induction false} InsertPermutes(x: string, s: seq<string>)
    ensures multiset(Insert(x, s)) == multiset(s) + multiset{x}
    ensures |Insert(x, s)| == |s| + 1
    decreases |s|
  {
    if s != [] {
      assert s == [s[0]] + s[1..];
      if !LexLessEq(x, s[0]) {
        InsertPermutes(x, s[1..]);
      }
    }
  }

  lemma {:induction false} InsertSorted(x: string, s: seq<string>)
    requires Sorted(s)
    ensures Sorted(Insert(x, s))
    ensures Insert(x, s)[0] == x || (s != [] && Insert(x, s)[0] == s[0])
    decreases |s|
  {
    InsertPermutes(x, s);
    if s != [] && !LexLessEq(x, s[0]) {
      var t := Insert(x, s[1..]);
      assert Sorted(s[1..]) by {
        forall i | 0 <= i < |s[1..]| - 1 ensures LexLessEq(s[1..][i], s[1..][i + 1]) {
          assert s[1..][i] == s[i + 1] && s[1..][i + 1] == s[i + 2];
        }
      }
      InsertSorted(x, s[1..]);
      LexTotal(x, s[0]);
      InsertPermutes(x, s[1..]);
      assert LexLessEq(s[0], t[0]);
      var u := [s[0]] + t;
      assert Insert(x, s) == u;
      forall i | 0 <= i < |u| - 1 ensures LexLessEq(u[i], u[i + 1]) {
        if i > 0 {
          assert u[i] == t[i - 1] && u[i + 1] == t[i];
        }
      }
    }
  }

  /** `sorted(s)`. */
  function Sort(s: seq<string>): (r: seq<string>)
    ensures |r| == |s|
    decreases |s|
  {
    if |s| == 0 then [] else (InsertPermutes(s[0], Sort(s[1..])); Insert(s[0], Sort(s[1..])))
  }

  /** `sorted` returns an ordered permutation of its argument. */
  lemma {:induction false} SortCorrect(s: seq<string>)
    ensures Sorted(Sort(s))
    ensures multiset(Sort(s)) == multiset(s)
    decreases |s|
  {
    if s != [] {
      var rest := Sort(s[1..]);
      SortCorrect(s[1..]);
      InsertSorted(s[0], rest);
      InsertPermutes(s[0], rest);
      assert Sort(s) == Insert(s[0], rest);
      assert s == [s[0]] + s[1..];
      assert multiset(s) == multiset(s[1..]) + multiset{s[0]};
    }
  }
}
