/** The text primitives of fourhills/text_utils.py (and of the older copy
    text_utils.py, whose four functions are the same): centred padding,
    titles, comma-separated lists and paragraph wrapping.

    Wrapping itself is Python's `textwrap.wrap(text, width=w, tabsize=4,
    subsequent_indent="    ")`, a library call whose internals are not part
    of this model. Every operation that wraps takes it as a parameter `wrap`;
    what the library's documentation promises about it, that no line is wider
    than `w`, is the predicate `WrapBounded`. */
module TextUtils {
  import opened Strings

  /** Width of the indent textwrap puts before every line after the first. */
  const IndentWidth := 4

  /** `lambda text, w: textwrap.wrap(text, width=w, tabsize=4, subsequent_indent="    ")`. */
  type Wrapper = (string, int) -> seq<string>

  predicate LinesWithin(lines: seq<string>, w: int) {
    forall i :: 0 <= i < |lines| ==> |lines[i]| <= w
  }

  /** No wrapped line is wider than the requested width, once that width leaves
      room for the indent (textwrap can only overrun a width that the indent
      alone fills). */
  ghost predicate WrapBounded(wrap: Wrapper) {
    forall text, w :: IndentWidth < w ==> LinesWithin(wrap(text, w), w)
  }

  /** Centring by the `^` alignment of `str.format` with the width `w`: a string shorter than `w` is padded
      with spaces to `w`, half of the slack (rounded down) on the left, the
      rest on the right; a longer string is left alone. */
  function CentrePad(s: string, w: int): (r: string)
    ensures |r| == Max(|s|, w)
  {
    if |s| >= w then s
    else
      var left := (w - |s|) / 2;
      Spaces(left) + s + Spaces(w - |s| - left)
  }

  /** The padded string holds `s` after half the slack (rounded down) of
      spaces, and nothing but spaces either side of it. */
  lemma CentrePadLayout(s: string, w: int)
    ensures var r := CentrePad(s, w);
            var left := (|r| - |s|) / 2;
            && r[left .. left + |s|] == s
            && AllSpaces(r[..left])
            && AllSpaces(r[left + |s|..])
  {
    var r := CentrePad(s, w);
    if |s| < w {
      var left := (w - |s|) / 2;
      assert r == Spaces(left) + s + Spaces(w - |s| - left);
      SpacesAreSpaces(left);
      SpacesAreSpaces(w - |s| - left);
      assert r[left .. left + |s|] == s;
      assert r[..left] == Spaces(left);
      assert r[left + |s|..] == Spaces(w - |s| - left);
    } else {
      assert r[0 .. |s|] == s;
    }
  }

  /** The right-hand padding of `CentrePad` is the left-hand padding or one more. */
  lemma CentrePadOddSpaceRight(s: string, w: int)
    requires |s| < w
    ensures var r := CentrePad(s, w);
            var left := (w - |s|) / 2;
            var right := |r| - left - |s|;
            && (right == left || right == left + 1)
            && (right == left + 1 <==> (w - |s|) % 2 == 1)
  {
  }

  /** `title(text, w)`: the centred text above a rule of `w` equals signs. */
  function Title(text: string, w: int): (r: seq<string>)
    ensures |r| == 2
    ensures r[0] == CentrePad(text, w)
    ensures |r[1]| == Max(w, 0) && forall i :: 0 <= i < |r[1]| ==> r[1][i] == '='
  {
    RepeatChars('=', w);
    [CentrePad(text, w), Repeat('=', w)]
  }

  /** `format_indented_paragraph(text, w)`. */
  function FormatIndentedParagraph(wrap: Wrapper, text: string, w: int): seq<string>
  {
    wrap(text, w)
  }

  /** The text that `format_list` wraps: `f"{title}: {', '.join(items)}"`. */
  function ListText(title: string, items: seq<string>): string
  {
    title + ": " + Join(", ", items)
  }

  /** `format_list(title, items, w)`. */
  function FormatList(wrap: Wrapper, title: string, items: seq<string>, w: int): seq<string>
  {
    FormatIndentedParagraph(wrap, ListText(title, items), w)
  }

  /** `format_list` treats the empty list like any other: it wraps `"title: "`. */
  lemma FormatListEmpty(wrap: Wrapper, title: string, w: int)
    ensures FormatList(wrap, title, [], w) == wrap(title + ": ", w)
  {
    assert ListText(title, []) == title + ": " + "" == title + ": ";
  }

  /** `format_list` wraps the title, `": "` and the items joined by `", "`:
      the title's length, 2, the items' lengths and 2 for each comma. */
  lemma {:induction false} FormatListText(wrap: Wrapper, title: string, items: seq<string>, w: int)
    ensures FormatList(wrap, title, items, w) == wrap(ListText(title, items), w)
    ensures |ListText(title, items)| == |title| + 2 + TotalLength(items) + 2 * (if |items| == 0 then 0 else |items| - 1)
  {
    if |items| > 0 {
      JoinLength(", ", items);
    }
  }

  /** The lines `wrap_lines_paragraph(lines, w)` returns: each input line wrapped
      on its own, the results concatenated in order. */
  function WrappedLines(wrap: Wrapper, lines: seq<string>, w: int): seq<string>
    decreases |lines|
  {
    if |lines| == 0 then []
    else WrappedLines(wrap, lines[..|lines| - 1], w) + wrap(lines[|lines| - 1], w)
  }

  /** Wrapping two blocks of lines is wrapping each and concatenating. */
  lemma {:induction false} WrappedLinesAppend(wrap: Wrapper, a: seq<string>, b: seq<string>, w: int)
    ensures WrappedLines(wrap, a + b, w) == WrappedLines(wrap, a, w) + WrappedLines(wrap, b, w)
    decreases |b|
  {
    if b == [] {
      assert a + b == a;
    } else {
      var b' := b[..|b| - 1];
      assert (a + b)[..|a + b| - 1] == a + b';
      assert (a + b)[|a + b| - 1] == b[|b| - 1];
      WrappedLinesAppend(wrap, a, b', w);
    }
  }

  /** One line on its own is wrapped exactly as `format_indented_paragraph` wraps it. */
  lemma WrappedLinesSingle(wrap: Wrapper, line: string, w: int)
    ensures WrappedLines(wrap, [line], w) == wrap(line, w)
  {
    assert [line][..0] == [];
  }

  /** Every line `wrap_lines_paragraph` returns fits the width. */
  lemma {:induction false} WrappedLinesWithin(wrap: Wrapper, lines: seq<string>, w: int)
    requires WrapBounded(wrap) && IndentWidth < w
    ensures LinesWithin(WrappedLines(wrap, lines, w), w)
    decreases |lines|
  {
    if lines != [] {
      WrappedLinesWithin(wrap, lines[..|lines| - 1], w);
      assert LinesWithin(wrap(lines[|lines| - 1], w), w);
    }
  }

  /** Every line `format_list` returns fits the width. */
  lemma FormatListWithin(wrap: Wrapper, title: string, items: seq<string>, w: int)
    requires WrapBounded(wrap) && IndentWidth < w
    ensures LinesWithin(FormatList(wrap, title, items, w), w)
  {
  }

  /** `wrap_lines_paragraph`: extends the output with the wrap of each line in turn. */
  method WrapLinesParagraph(wrap: Wrapper, lines: seq<string>, w: int) returns (output: seq<string>)
    ensures output == WrappedLines(wrap, lines, w)
  {
    output := [];
    for i := 0 to |lines|
      invariant output == WrappedLines(wrap, lines[..i], w)
    {
      assert lines[..i + 1][..i] == lines[..i];
      output := output + FormatIndentedParagraph(wrap, lines[i], w);
    }
    assert lines[..|lines|] == lines;
  }
}
