/** `display_panes` of fourhills/text_utils.py: lays out panes (lists of
    lines) in columns for the terminal.

    Pane `i` goes to column `i mod columns`; each column is one stream of
    lines (its panes in ascending order, each followed by a blank line of
    `width` spaces when `paneGap` is set); the columns are read in lock-step,
    a used-up column giving a blank cell; every cell is left-justified to
    `width` and the cells of a row are joined by one space (when `columnGap`
    is set). Output stops on the first row where every column is used up.

    `Screen` states the result; the method `DisplayPanes` computes it the way
    the source does, with one cursor per column standing for the source's
    per-column generator and an `Exhausted` state for the generator that
    yields None forever. The pager the source hands the lines to is not part
    of this model: `DisplayPanes` returns the lines instead. */
module PaneLayout {
  import opened Strings
  import opened Outcomes

  type Pane = seq<string>

  /** The arguments of `display_panes` after the list of panes. */
  datatype Layout = Layout(columns: int, width: int, paneGap: bool, columnGap: bool)

  /** `display_panes(panes, columns, width)` with its default arguments, as every caller uses it. */
  function DefaultLayout(columns: int, width: int): (lay: Layout)
    ensures lay.paneGap && lay.columnGap
    ensures lay.columns == columns && lay.width == width
  {
    Layout(columns, width, true, true)
  }

  // ----- The column streams -----

  /** `range(k, n, columns)`: the pane indices of one column, from `k` on. */
  function PaneIndices(k: nat, n: nat, columns: nat): (r: seq<nat>)
    requires columns > 0
    ensures forall j :: 0 <= j < |r| ==> r[j] == k + j * columns && r[j] < n
    decreases n - k
  {
    if k >= n then [] else [k] + PaneIndices(k + columns, n, columns)
  }

  lemma {:induction false} MulAtLeast(a: int, b: int)
    requires a >= 1 && b >= 1
    ensures a * b >= b
    decreases a
  {
    if a > 1 {
      MulAtLeast(a - 1, b);
      assert a * b == (a - 1) * b + b;
    }
  }

  /** Euclidean division is unique: `q * d + m` with `0 <= m < d` has quotient `q`, remainder `m`. */
  lemma DivModUnique(i: int, q: int, d: int, m: int)
    requires d > 0 && 0 <= m < d && i == q * d + m
    ensures i / d == q && i % d == m
  {
    var q', m' := i / d, i % d;
    assert q' * d + m' == q * d + m;
    if q' > q {
      MulAtLeast(q' - q, d);
    } else if q' < q {
      MulAtLeast(q - q', d);
    }
  }

  /** Pane `k + j * columns` is the `j`-th of the range starting at `k`, when it exists. */
  lemma {:induction false} PaneIndicesAt(k: nat, n: nat, columns: nat, j: nat)
    requires columns > 0 && k + j * columns < n
    ensures j < |PaneIndices(k, n, columns)| && PaneIndices(k, n, columns)[j] == k + j * columns
    decreases j
  {
    if j > 0 {
      assert k + j * columns == (k + columns) + (j - 1) * columns;
      PaneIndicesAt(k + columns, n, columns, j - 1);
    }
  }

  /** Pane `i` is placed in column `i mod columns`, and in no other. */
  lemma PaneColumn(panes: seq<Pane>, columns: nat, c: nat, i: nat)
    requires 0 < columns && c < columns && i < |panes|
    ensures i in PaneIndices(c, |panes|, columns) <==> i % columns == c
  {
    var idx := PaneIndices(c, |panes|, columns);
    if i in idx {
      var j :| 0 <= j < |idx| && idx[j] == i;
      DivModUnique(i, j, columns, c);
    }
    if i % columns == c {
      var q := i / columns;
      assert i == q * columns + c;
      if q < 0 {
        MulAtLeast(-q, columns);
      }
      PaneIndicesAt(c, |panes|, columns, q);
    }
  }

  /** Within a column the panes come in ascending index order, `columns` apart. */
  lemma PaneIndicesAscending(k: nat, n: nat, columns: nat, j: nat)
    requires columns > 0 && j + 1 < |PaneIndices(k, n, columns)|
    ensures PaneIndices(k, n, columns)[j] < PaneIndices(k, n, columns)[j + 1]
  {
    var idx := PaneIndices(k, n, columns);
    assert idx[j + 1] == k + (j + 1) * columns == idx[j] + columns;
  }

  /** The blank line that follows every pane when there is a gap between panes. */
  function Gap(lay: Layout): (r: seq<string>)
    ensures |r| == (if lay.paneGap then 1 else 0)
    ensures forall i :: 0 <= i < |r| ==> r[i] == Spaces(lay.width)
  {
    if lay.paneGap then [Spaces(lay.width)] else []
  }

  /** The lines of the panes `idx`, in that order, each followed by the gap. */
  function Blocks(panes: seq<Pane>, idx: seq<nat>, gap: seq<string>): seq<string>
    requires forall j :: 0 <= j < |idx| ==> idx[j] < |panes|
    decreases |idx|
  {
    if |idx| == 0 then [] else panes[idx[0]] + gap + Blocks(panes, idx[1..], gap)
  }

  /** The lines a column's generator yields from pane `k` on, before it yields None. */
  function StreamFrom(panes: seq<Pane>, lay: Layout, k: nat): seq<string>
    requires lay.columns > 0
  {
    Blocks(panes, PaneIndices(k, |panes|, lay.columns), Gap(lay))
  }

  /** `line_for_column(c)`: all the lines column `c` shows. */
  function ColumnStream(panes: seq<Pane>, lay: Layout, c: nat): seq<string>
    requires 0 <= c < lay.columns
  {
    StreamFrom(panes, lay, c)
  }

  lemma StreamFromUnfold(panes: seq<Pane>, lay: Layout, k: nat)
    requires lay.columns > 0 && k < |panes|
    ensures StreamFrom(panes, lay, k) == panes[k] + Gap(lay) + StreamFrom(panes, lay, k + lay.columns)
  {
    var idx := PaneIndices(k, |panes|, lay.columns);
    assert idx[1..] == PaneIndices(k + lay.columns, |panes|, lay.columns);
  }

  /** A column's stream holds one more line per pane when there is a pane gap. */
  function ColumnLineCount(panes: seq<Pane>, idx: seq<nat>, gap: nat): nat
    requires forall j :: 0 <= j < |idx| ==> idx[j] < |panes|
    decreases |idx|
  {
    if |idx| == 0 then 0 else |panes[idx[0]]| + gap + ColumnLineCount(panes, idx[1..], gap)
  }

  lemma {:induction false} BlocksLength(panes: seq<Pane>, idx: seq<nat>, gap: seq<string>)
    requires forall j :: 0 <= j < |idx| ==> idx[j] < |panes|
    ensures |Blocks(panes, idx, gap)| == ColumnLineCount(panes, idx, |gap|)
    decreases |idx|
  {
    if idx != [] {
      BlocksLength(panes, idx[1..], gap);
    }
  }

  predicate PanesWithin(panes: seq<Pane>, w: int) {
    forall i, j :: 0 <= i < |panes| && 0 <= j < |panes[i]| ==> |panes[i][j]| <= w
  }

  /** Every line of a column is a pane line or the gap line. */
  lemma {:induction false} BlocksWithin(panes: seq<Pane>, idx: seq<nat>, lay: Layout)
    requires forall j :: 0 <= j < |idx| ==> idx[j] < |panes|
    requires PanesWithin(panes, lay.width) && lay.width >= 0
    ensures forall r :: 0 <= r < |Blocks(panes, idx, Gap(lay))| ==> |Blocks(panes, idx, Gap(lay))[r]| <= lay.width
    decreases |idx|
  {
    if idx != [] {
      BlocksWithin(panes, idx[1..], lay);
      var p, g, rest := panes[idx[0]], Gap(lay), Blocks(panes, idx[1..], Gap(lay));
      forall r | 0 <= r < |p + g + rest| ensures |(p + g + rest)[r]| <= lay.width {
        if r < |p| {
          assert (p + g + rest)[r] == p[r];
        } else if r < |p| + |g| {
          assert (p + g + rest)[r] == g[r - |p|];
        } else {
          assert (p + g + rest)[r] == rest[r - |p| - |g|];
        }
      }
    }
  }

  // ----- The screen -----

  /** `part.ljust(w)`. */
  function LJust(s: string, w: int): (r: string)
    ensures |r| == Max(|s|, w)
    ensures r[..|s|] == s && AllSpaces(r[|s|..])
  {
    SpacesAreSpaces(w - |s|);
    assert (s + Spaces(w - |s|))[|s|..] == Spaces(w - |s|);
    s + Spaces(w - |s|)
  }

  /** One cell of `format_screen_line`: the text left-justified, or `width`
      spaces for None (and for "", which Python also treats as false). */
  function Cell(part: Option<string>, w: int): string
  {
    if part.Some? && part.value != "" then LJust(part.value, w) else Spaces(w)
  }

  lemma CellOfLine(s: string, w: int)
    ensures Cell(Some(s), w) == LJust(s, w)
  {
    if s == "" {
      assert LJust(s, w) == Spaces(w);
    }
  }

  function Separator(lay: Layout): string {
    if lay.columnGap then " " else ""
  }

  function Cells(parts: seq<Option<string>>, w: int): (r: seq<string>)
    ensures |r| == |parts| && forall i :: 0 <= i < |parts| ==> r[i] == Cell(parts[i], w)
  {
    seq(|parts|, i requires 0 <= i < |parts| => Cell(parts[i], w))
  }

  /** `format_screen_line(line_parts)`. */
  function FormatScreenLine(parts: seq<Option<string>>, lay: Layout): string
  {
    Join(Separator(lay), Cells(parts, lay.width))
  }

  /** What column `c` gives on row `r`: its line, or None once it is used up. */
  function Part(panes: seq<Pane>, lay: Layout, c: nat, r: nat): Option<string>
    requires c < lay.columns
  {
    var s := ColumnStream(panes, lay, c);
    if r < |s| then Some(s[r]) else None
  }

  /** `line_parts` on row `r`. */
  function Parts(panes: seq<Pane>, lay: Layout, r: nat): seq<Option<string>>
  {
    seq(Max(lay.columns, 0), c requires 0 <= c < Max(lay.columns, 0) => Part(panes, lay, c, r))
  }

  /** The length of the longest of the first `n` column streams. */
  function LongestStream(panes: seq<Pane>, lay: Layout, n: nat): (m: nat)
    requires n <= Max(lay.columns, 0)
    ensures forall c :: 0 <= c < n ==> |ColumnStream(panes, lay, c)| <= m
    ensures n > 0 ==> exists c :: 0 <= c < n && |ColumnStream(panes, lay, c)| == m
    ensures n == 0 ==> m == 0
  {
    if n == 0 then 0 else Max(LongestStream(panes, lay, n - 1), |ColumnStream(panes, lay, n - 1)|)
  }

  /** The number of rows: the length of the longest column, gap lines included. */
  function RowCount(panes: seq<Pane>, lay: Layout): nat
  {
    LongestStream(panes, lay, Max(lay.columns, 0))
  }

  /** The lines `display_panes` hands to the pager. */
  function Screen(panes: seq<Pane>, lay: Layout): seq<string>
  {
    seq(RowCount(panes, lay), r requires 0 <= r < RowCount(panes, lay) => FormatScreenLine(Parts(panes, lay, r), lay))
  }

  predicate AllNone(parts: seq<Option<string>>) {
    forall i :: 0 <= i < |parts| ==> parts[i].None?
  }

  /** The number of rows is the length of the longest column (gap lines
      included), and every row before the last has a column still showing
      lines: output stops exactly when every column is used up, never earlier. */
  lemma ScreenRows(panes: seq<Pane>, lay: Layout)
    ensures |Screen(panes, lay)| == RowCount(panes, lay)
    ensures forall c :: 0 <= c < lay.columns ==> |ColumnStream(panes, lay, c)| <= |Screen(panes, lay)|
    ensures lay.columns > 0 ==> exists c :: 0 <= c < lay.columns && |ColumnStream(panes, lay, c)| == |Screen(panes, lay)|
    ensures lay.columns <= 0 ==> Screen(panes, lay) == []
    ensures forall r :: 0 <= r < |Screen(panes, lay)| ==> !AllNone(Parts(panes, lay, r))
  {
    var n := RowCount(panes, lay);
    forall r | 0 <= r < n ensures !AllNone(Parts(panes, lay, r)) {
      var c :| 0 <= c < lay.columns && |ColumnStream(panes, lay, c)| == n;
      assert Parts(panes, lay, r)[c] == Part(panes, lay, c, r);
    }
  }

  /** A column's part on any row is absent or fits the width, when every pane line does. */
  lemma PartWithin(panes: seq<Pane>, lay: Layout, c: nat, r: nat)
    requires PanesWithin(panes, lay.width) && lay.width >= 0 && c < lay.columns
    ensures Part(panes, lay, c, r).Some? ==> |Part(panes, lay, c, r).value| <= lay.width
  {
    BlocksWithin(panes, PaneIndices(c, |panes|, lay.columns), lay);
  }

  lemma CellsWidth(panes: seq<Pane>, lay: Layout, r: nat)
    requires PanesWithin(panes, lay.width) && lay.width >= 0
    ensures forall i :: 0 <= i < |Cells(Parts(panes, lay, r), lay.width)| ==>
      |Cells(Parts(panes, lay, r), lay.width)[i]| == lay.width
  {
    var parts := Parts(panes, lay, r);
    forall i | 0 <= i < |parts| ensures |Cell(parts[i], lay.width)| == lay.width {
      PartWithin(panes, lay, i, r);
    }
  }

  /** A screen line whose cells all have the width has cell `c` at `Offset(c, ...)`. */
  lemma LineCellAt(parts: seq<Option<string>>, lay: Layout, c: nat)
    requires lay.width >= 0 && c < |parts|
    requires forall i :: 0 <= i < |Cells(parts, lay.width)| ==> |Cells(parts, lay.width)[i]| == lay.width
    ensures var g := |Separator(lay)|;
            && |FormatScreenLine(parts, lay)| == |parts| * (lay.width + g) - g
            && Offset(c, lay.width, g) + lay.width <= |FormatScreenLine(parts, lay)|
            && FormatScreenLine(parts, lay)[Offset(c, lay.width, g) .. Offset(c, lay.width, g) + lay.width]
               == Cell(parts[c], lay.width)
  {
    var cells := Cells(parts, lay.width);
    JoinUniformLength(Separator(lay), cells, lay.width);
    JoinPartAt(Separator(lay), cells, lay.width, c);
  }

  /** Every row has each cell at its fixed offset: the column's line
      left-justified to `width`, or `width` spaces once the column is used up;
      so, when every line fits, every row is exactly
      `columns * width + (columns - 1)` characters (no separator: `columns * width`). */
  lemma ScreenCell(panes: seq<Pane>, lay: Layout, r: nat, c: nat)
    requires PanesWithin(panes, lay.width) && lay.width >= 0
    requires r < |Screen(panes, lay)| && c < lay.columns
    ensures var g := |Separator(lay)|;
            && |Screen(panes, lay)[r]| == lay.columns * (lay.width + g) - g
            && Offset(c, lay.width, g) + lay.width <= |Screen(panes, lay)[r]|
            && Screen(panes, lay)[r][Offset(c, lay.width, g) .. Offset(c, lay.width, g) + lay.width]
               == (if r < |ColumnStream(panes, lay, c)| then LJust(ColumnStream(panes, lay, c)[r], lay.width)
                   else Spaces(lay.width))
  {
    var parts := Parts(panes, lay, r);
    assert Screen(panes, lay)[r] == FormatScreenLine(parts, lay);
    CellsWidth(panes, lay, r);
    LineCellAt(parts, lay, c);
    assert parts[c] == Part(panes, lay, c, r);
    var s := ColumnStream(panes, lay, c);
    if r < |s| {
      CellOfLine(s[r], lay.width);
    }
  }

  // ----- The per-column cursors -----

  /** Where a column's generator is suspended: inside pane `pane` before its
      line `line` (`line == |panes[pane]|` is just before the gap line), or
      exhausted, yielding None forever. */
  datatype Cursor = At(pane: nat, line: nat) | Exhausted

  predicate CursorOk(panes: seq<Pane>, cur: Cursor) {
    cur.At? && cur.pane < |panes| ==> cur.line <= |panes[cur.pane]|
  }

  /** The lines a cursor has still to yield. */
  function Remaining(panes: seq<Pane>, lay: Layout, cur: Cursor): seq<string>
    requires lay.columns > 0 && CursorOk(panes, cur)
  {
    match cur
    case Exhausted => []
    case At(k, j) =>
      if k >= |panes| then [] else panes[k][j..] + Gap(lay) + StreamFrom(panes, lay, k + lay.columns)
  }

  /** `next(generator)`: the next line (None once exhausted) and the new cursor. */
  function Next(panes: seq<Pane>, lay: Layout, cur: Cursor): (Option<string>, Cursor)
    requires lay.columns > 0 && CursorOk(panes, cur)
    decreases if cur.At? && cur.pane < |panes| then |panes| - cur.pane else 0
  {
    match cur
    case Exhausted => (None, Exhausted)
    case At(k, j) =>
      if k >= |panes| then (None, Exhausted)
      else if j < |panes[k]| then (Some(panes[k][j]), At(k, j + 1))
      else if lay.paneGap then (Some(Spaces(lay.width)), At(k + lay.columns, 0))
      else Next(panes, lay, At(k + lay.columns, 0))
  }

  /** A fresh cursor at pane `k` has the whole stream from `k` still to yield. */
  lemma FreshCursor(panes: seq<Pane>, lay: Layout, k: nat)
    requires lay.columns > 0
    ensures CursorOk(panes, At(k, 0))
    ensures Remaining(panes, lay, At(k, 0)) == StreamFrom(panes, lay, k)
  {
    if k < |panes| {
      StreamFromUnfold(panes, lay, k);
      assert panes[k][0..] == panes[k];
    }
  }

  /** What `Next` promises: the first remaining line (None when there is
      none) and a cursor that has the rest still to yield. */
  predicate Advances(panes: seq<Pane>, lay: Layout, cur: Cursor, out: Option<string>, cur': Cursor)
    requires lay.columns > 0 && CursorOk(panes, cur)
  {
    var rest := Remaining(panes, lay, cur);
    && CursorOk(panes, cur')
    && (rest == [] ==> out == None && Remaining(panes, lay, cur') == [])
    && (rest != [] ==> out == Some(rest[0]) && Remaining(panes, lay, cur') == rest[1..])
  }

  lemma InsidePane(panes: seq<Pane>, lay: Layout, k: nat, j: nat)
    requires lay.columns > 0 && k < |panes| && j < |panes[k]|
    ensures Advances(panes, lay, At(k, j), Some(panes[k][j]), At(k, j + 1))
  {
    var tail := Gap(lay) + StreamFrom(panes, lay, k + lay.columns);
    var p := panes[k][j..];
    assert Remaining(panes, lay, At(k, j)) == p + tail;
    assert Remaining(panes, lay, At(k, j + 1)) == p[1..] + tail;
    ConsTail(p, tail);
  }

  lemma ConsTail(a: seq<string>, t: seq<string>)
    requires |a| > 0
    ensures (a + t)[0] == a[0] && (a + t)[1..] == a[1..] + t
  {
  }

  lemma EndOfPane(panes: seq<Pane>, lay: Layout, k: nat)
    requires lay.columns > 0 && k < |panes|
    ensures Remaining(panes, lay, At(k, |panes[k]|)) == Gap(lay) + Remaining(panes, lay, At(k + lay.columns, 0))
  {
    FreshCursor(panes, lay, k + lay.columns);
    assert panes[k][|panes[k]|..] == [];
  }

  /** A cursor yields its remaining lines one at a time, then None forever. */
  lemma {:induction false} NextCorrect(panes: seq<Pane>, lay: Layout, cur: Cursor)
    requires lay.columns > 0 && CursorOk(panes, cur)
    ensures Advances(panes, lay, cur, Next(panes, lay, cur).0, Next(panes, lay, cur).1)
    decreases if cur.At? && cur.pane < |panes| then |panes| - cur.pane else 0
  {
    match cur
    case Exhausted =>
    case At(k, j) =>
      if k < |panes| {
        if j < |panes[k]| {
          InsidePane(panes, lay, k, j);
        } else {
          EndOfPane(panes, lay, k);
          FreshCursor(panes, lay, k + lay.columns);
          if !lay.paneGap {
            NextCorrect(panes, lay, At(k + lay.columns, 0));
          }
        }
      }
  }

  function Drop(s: seq<string>, i: nat): seq<string> {
    if i <= |s| then s[i..] else []
  }

  /** A cursor that has still to yield the lines of `s` from line `i` on. */
  predicate Tracks(panes: seq<Pane>, lay: Layout, cur: Cursor, s: seq<string>, i: nat)
    requires lay.columns > 0
  {
    CursorOk(panes, cur) && Remaining(panes, lay, cur) == Drop(s, i)
  }

  /** One step of a column's cursor on row `i`: the column's line `i`, if any. */
  lemma StepCursor(panes: seq<Pane>, lay: Layout, cur: Cursor, s: seq<string>, i: nat)
    requires lay.columns > 0 && Tracks(panes, lay, cur, s, i)
    ensures CursorOk(panes, cur)
    ensures Next(panes, lay, cur).0 == PartOf(s, i)
    ensures Tracks(panes, lay, Next(panes, lay, cur).1, s, i + 1)
  {
    NextCorrect(panes, lay, cur);
    if i < |s| {
      assert s[i..][1..] == s[i + 1..];
    }
  }

  /** A fresh generator for column `c` has the whole column still to yield. */
  lemma InitialCursor(panes: seq<Pane>, lay: Layout, c: nat)
    requires c < lay.columns
    ensures Tracks(panes, lay, At(c, 0), ColumnStream(panes, lay, c), 0)
  {
    FreshCursor(panes, lay, c);
  }

  /** The parts read from the column streams are the row's `Parts`; when all
      are None every column is used up, otherwise some column is still longer. */
  lemma PartsOfStreams(panes: seq<Pane>, lay: Layout, k: nat, parts: seq<Option<string>>)
    requires lay.columns > 0 && |parts| == lay.columns
    requires forall c :: 0 <= c < lay.columns ==> parts[c] == PartOf(ColumnStream(panes, lay, c), k)
    ensures parts == Parts(panes, lay, k)
    ensures AllNone(parts) ==> forall c :: 0 <= c < lay.columns ==> |ColumnStream(panes, lay, c)| <= k
    ensures !AllNone(parts) ==> k < RowCount(panes, lay)
  {
    if !AllNone(parts) {
      var c :| 0 <= c < |parts| && parts[c].Some?;
      assert k < |ColumnStream(panes, lay, c)|;
    }
  }

  lemma ScreenExtend(panes: seq<Pane>, lay: Layout, k: nat)
    requires k < RowCount(panes, lay)
    ensures Screen(panes, lay)[..k + 1] == Screen(panes, lay)[..k] + [FormatScreenLine(Parts(panes, lay, k), lay)]
  {
  }

  /** Once every column is used up, the rows so far are the whole screen. */
  lemma ScreenComplete(panes: seq<Pane>, lay: Layout, k: nat)
    requires k <= RowCount(panes, lay)
    requires forall c :: 0 <= c < lay.columns ==> |ColumnStream(panes, lay, c)| <= k
    ensures Screen(panes, lay)[..k] == Screen(panes, lay)
  {
    ScreenRows(panes, lay);
  }

  // ----- Worked examples -----

  /** Three panes of 2, 5 and 3 lines in two columns: column 0 is panes 0 and
      2, column 1 is pane 1. Without gaps that is 5 rows of `2 * w` characters;
      with the source's default gaps, a blank line after every pane makes
      column 0 seven lines and column 1 six, so 7 rows of `2 * w + 1`. */
  lemma ThreePanesExample(panes: seq<Pane>, w: nat)
    requires |panes| == 3 && |panes[0]| == 2 && |panes[1]| == 5 && |panes[2]| == 3
    ensures var tight := Layout(2, w, false, false);
            && ColumnStream(panes, tight, 0) == panes[0] + panes[2]
            && ColumnStream(panes, tight, 1) == panes[1]
            && |Screen(panes, tight)| == 5
    ensures var spaced := DefaultLayout(2, w);
            && ColumnStream(panes, spaced, 0) == panes[0] + [Spaces(w)] + panes[2] + [Spaces(w)]
            && ColumnStream(panes, spaced, 1) == panes[1] + [Spaces(w)]
            && |Screen(panes, spaced)| == 7
  {
    assert PaneIndices(0, 3, 2) == [0, 2] by {
      assert PaneIndices(4, 3, 2) == [];
      assert PaneIndices(2, 3, 2) == [2];
    }
    assert PaneIndices(1, 3, 2) == [1] by {
      assert PaneIndices(3, 3, 2) == [];
    }
    var tight, spaced := Layout(2, w, false, false), DefaultLayout(2, w);
    assert [0, 2][1..] == [2];
    assert ColumnStream(panes, tight, 0) == panes[0] + panes[2];
    assert ColumnStream(panes, spaced, 0) == panes[0] + [Spaces(w)] + (panes[2] + [Spaces(w)]);
    assert ColumnStream(panes, tight, 1) == panes[1];
  }

  /** Panes of 1 and 4 lines in two columns, without gaps: 4 rows, column 0
      blank from row 1 on. */
  lemma UnevenPanesExample(panes: seq<Pane>, w: nat, r: nat)
    requires |panes| == 2 && |panes[0]| == 1 && |panes[1]| == 4
    requires PanesWithin(panes, w) && 1 <= r < 4
    ensures var tight := Layout(2, w, false, false);
            && |Screen(panes, tight)| == 4
            && Screen(panes, tight)[r][..w] == Spaces(w)
  {
    var tight := Layout(2, w, false, false);
    assert Gap(tight) == [];
    StreamFromUnfold(panes, tight, 0);
    StreamFromUnfold(panes, tight, 1);
    assert StreamFrom(panes, tight, 2) == [] && StreamFrom(panes, tight, 3) == [] by {
      assert PaneIndices(2, 2, 2) == [] && PaneIndices(3, 2, 2) == [];
    }
    assert ColumnStream(panes, tight, 0) == panes[0] + [] + [];
    assert ColumnStream(panes, tight, 1) == panes[1] + [] + [];
    assert RowCount(panes, tight) == 4;
    ScreenRows(panes, tight);
    ScreenCell(panes, tight, r, 0);
    assert Offset(0, w, 0) == 0;
  }

  /** What column `c` shows on row `k`, given its whole stream. */
  function PartOf(stream: seq<string>, k: nat): Option<string> {
    if k < |stream| then Some(stream[k]) else None
  }

  /** One row of `display_panes`: `next` on every column's generator in turn. */
  method ReadRow(panes: seq<Pane>, lay: Layout, cursors: seq<Cursor>, ghost k: nat)
    returns (parts: seq<Option<string>>, advanced: seq<Cursor>)
    requires lay.columns > 0 && |cursors| == lay.columns
    requires forall c :: 0 <= c < |cursors| ==> Tracks(panes, lay, cursors[c], ColumnStream(panes, lay, c), k)
    ensures |parts| == |cursors| && forall c :: 0 <= c < |cursors| ==> parts[c] == PartOf(ColumnStream(panes, lay, c), k)
    ensures |advanced| == |cursors|
    ensures forall c :: 0 <= c < |cursors| ==> Tracks(panes, lay, advanced[c], ColumnStream(panes, lay, c), k + 1)
  {
    parts, advanced := [], [];
    ghost var streams := seq(|cursors|, c requires 0 <= c < |cursors| => ColumnStream(panes, lay, c));
    for c := 0 to |cursors|
      invariant |parts| == c && |advanced| == c
      invariant forall d :: 0 <= d < c ==> parts[d] == PartOf(streams[d], k)
      invariant AllTrack(panes, lay, advanced, streams, k + 1)
    {
      StepCursor(panes, lay, cursors[c], streams[c], k);
      var (part, cursor) := Next(panes, lay, cursors[c]);
      AllTrackSnoc(panes, lay, advanced, cursor, streams, k + 1);
      parts := parts + [part];
      advanced := advanced + [cursor];
    }
    AllTrackAt(panes, lay, advanced, streams, k + 1);
  }

  /** Each cursor tracks the stream of its column, from row `i` on. */
  predicate AllTrack(panes: seq<Pane>, lay: Layout, cursors: seq<Cursor>, streams: seq<seq<string>>, i: nat)
    requires lay.columns > 0
  {
    |cursors| <= |streams| && forall d :: 0 <= d < |cursors| ==> Tracks(panes, lay, cursors[d], streams[d], i)
  }

  /** A cursor tracking the next column's stream extends the tracking cursors. */
  lemma AllTrackSnoc(panes: seq<Pane>, lay: Layout, cursors: seq<Cursor>, cur: Cursor, streams: seq<seq<string>>, i: nat)
    requires lay.columns > 0 && AllTrack(panes, lay, cursors, streams, i)
    requires |cursors| < |streams| && Tracks(panes, lay, cur, streams[|cursors|], i)
    ensures AllTrack(panes, lay, cursors + [cur], streams, i)
  {
    forall d | 0 <= d < |cursors| + 1
      ensures Tracks(panes, lay, (cursors + [cur])[d], streams[d], i)
    {
      if d < |cursors| {
        assert (cursors + [cur])[d] == cursors[d];
      }
    }
  }

  /** Tracking cursors, one by one. */
  lemma AllTrackAt(panes: seq<Pane>, lay: Layout, cursors: seq<Cursor>, streams: seq<seq<string>>, i: nat)
    requires lay.columns > 0 && AllTrack(panes, lay, cursors, streams, i)
    ensures forall d :: 0 <= d < |cursors| ==> Tracks(panes, lay, cursors[d], streams[d], i)
  {
  }

  /** The cursors `display_panes` starts with: column `c` at the start of pane `c`. */
  lemma InitialCursors(panes: seq<Pane>, lay: Layout, cursors: seq<Cursor>)
    requires lay.columns > 0 && |cursors| == lay.columns
    requires forall c :: 0 <= c < |cursors| ==> cursors[c] == At(c, 0)
    ensures forall c :: 0 <= c < |cursors| ==> Tracks(panes, lay, cursors[c], ColumnStream(panes, lay, c), 0)
  {
    forall c | 0 <= c < |cursors|
      ensures Tracks(panes, lay, cursors[c], ColumnStream(panes, lay, c), 0)
    {
      InitialCursor(panes, lay, c);
    }
  }

  /** A row read from the columns either ends the screen (every part None)
      or is its next line. */
  lemma RowStep(panes: seq<Pane>, lay: Layout, screen: seq<string>, parts: seq<Option<string>>)
    requires lay.columns > 0 && |parts| == lay.columns
    requires |screen| <= RowCount(panes, lay) && screen == Screen(panes, lay)[..|screen|]
    requires forall c :: 0 <= c < lay.columns ==> parts[c] == PartOf(ColumnStream(panes, lay, c), |screen|)
    ensures AllNone(parts) ==> screen == Screen(panes, lay)
    ensures !AllNone(parts) ==>
              && |screen| < RowCount(panes, lay)
              && screen + [FormatScreenLine(parts, lay)] == Screen(panes, lay)[..|screen| + 1]
  {
    var k := |screen|;
    PartsOfStreams(panes, lay, k, parts);
    if AllNone(parts) {
      ScreenComplete(panes, lay, k);
    } else {
      ScreenExtend(panes, lay, k);
    }
  }

  /** `display_panes`: reads the column generators in lock-step until every
      one yields None, formatting each row. */
  method DisplayPanes(panes: seq<Pane>, lay: Layout) returns (screen: seq<string>)
    ensures screen == Screen(panes, lay)
  {
    if lay.columns <= 0 {
      ScreenRows(panes, lay);
      return [];
    }
    var cursors: seq<Cursor> := seq(lay.columns, c requires 0 <= c < lay.columns => At(c, 0));
    InitialCursors(panes, lay, cursors);
    screen := [];
    while true
      invariant |cursors| == lay.columns
      invariant forall c :: 0 <= c < lay.columns ==> Tracks(panes, lay, cursors[c], ColumnStream(panes, lay, c), |screen|)
      invariant |screen| <= RowCount(panes, lay)
      invariant screen == Screen(panes, lay)[..|screen|]
      decreases RowCount(panes, lay) - |screen|
    {
      var parts, advanced := ReadRow(panes, lay, cursors, |screen|);
      RowStep(panes, lay, screen, parts);
      if AllNone(parts) {
        break;
      }
      screen := screen + [FormatScreenLine(parts, lay)];
      cursors := advanced;
    }
  }
}
