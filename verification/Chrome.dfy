/** The rounded input box (`input_box`, crates/inline/src/chrome.rs). */
module Chrome {
  import opened Styles
  import opened Nats
  import opened Editing
  import Width

  const BAR := Grapheme("│", 1)
  const DASH := Grapheme("─", 1)
  const MARK := Grapheme("›", 1)

  function Times(g: Grapheme, n: nat): seq<Grapheme> { seq(n, _ => g) }

  /** Cells between the borders, and for text after the two-cell mark. */
  function Inner(width: nat): nat { Max(Less(width, 4), 4) }

  function TextWidthIn(width: nat): nat { Max(Less(Inner(width), 2), 2) }

  function Border(left: string, right: string, width: nat, style: Style): Line {
    Line([Span([Grapheme(left, 1)] + Times(DASH, Less(width, 2)) + [Grapheme(right, 1)], style)], None)
  }

  /** One row of the box around `text`, which starts with the mark. */
  function BoxRow(text: seq<Grapheme>, inner: nat, style: Style): Line {
    Line([Span([BAR, SPACE], style), Span(text, PLAIN),
          Span(Times(SPACE, Less(inner, TextWidth(text))), PLAIN), Span([SPACE, BAR], style)], None)
  }

  function Marked(first: bool, text: seq<Grapheme>): seq<Grapheme> {
    (if first then [MARK, SPACE] else [SPACE, SPACE]) + text
  }

  /** The box: the top, the rows, the bottom. */
  function Box(rows: seq<seq<Grapheme>>, width: nat, style: Style): seq<Line> {
    [Border("╭", "╮", width, style)]
    + seq(|rows|, k requires 0 <= k < |rows| => BoxRow(rows[k], Inner(width), style))
    + [Border("╰", "╯", width, style)]
  }

  /** The rows of the editor that show, from visual row `first`. */
  function Window(buf: seq<Grapheme>, rows: seq<Row>, first: nat, n: nat): seq<seq<Grapheme>>
    requires first + n <= |rows| && forall k :: 0 <= k < |rows| ==> rows[k].start <= rows[k].end <= |buf|
  {
    seq(n, k requires 0 <= k < n => Marked(first + k == 0, buf[rows[first + k].start..rows[first + k].end]))
  }

  /** Visual rows `first` to `first + |texts|` of the editor show, the cursor's among them, at
      `row` and `col` from the first shown cell. */
  ghost predicate ShowsCursor(buf: seq<Grapheme>, cur: nat, textW: nat, maxRows: nat, texts: seq<seq<Grapheme>>,
                              first: nat, owner: nat, row: nat, col: nat) {
    var rows := VisualRows(buf, textW);
    (forall k :: 0 <= k < |rows| ==> rows[k].start <= rows[k].end <= |buf|) &&
    first + |texts| <= |rows| && |texts| == Min(Max(maxRows, 1), |rows|) &&
    texts == Window(buf, rows, first, |texts|) &&
    first <= owner < first + |texts| && Owns(rows, owner, cur) && rows[owner].start <= cur <= |buf| &&
    row == owner - first && col == 2 + Sum(buf, rows[owner].start, cur)
  }

  /** The rows shown: a window of at most `maxRows` rows around the cursor's. */
  method VisibleRows(buf: seq<Grapheme>, cur: nat, textW: nat, maxRows: nat)
    returns (texts: seq<seq<Grapheme>>, row: nat, col: nat, ghost owner: nat, ghost first: nat)
    requires cur <= |buf|
    ensures ShowsCursor(buf, cur, textW, maxRows, texts, first, owner, row, col)
    ensures row < |texts| <= Max(maxRows, 1) && col >= 2
  {
    var rows := Rows(buf, textW);
    var cr, cc := CursorPos(buf, cur, textW);
    VisualRowsTile(buf, textW);
    forall k | 0 <= k < |rows| ensures rows[k].start <= rows[k].end <= |buf| {
      assert GoodRow(buf, Max(textW, 1), rows[k]);
    }
    var visible := Max(maxRows, 1);
    var from := Min(if cr >= visible then cr + 1 - visible else 0, Less(|rows|, visible));
    texts := ShownRows(buf, rows, from, Min(visible, |rows| - from));
    row, col := cr - from, 2 + cc;
    owner, first := cr, from;
  }

  method ShownRows(buf: seq<Grapheme>, rows: seq<Row>, from: nat, n: nat) returns (texts: seq<seq<Grapheme>>)
    requires from + n <= |rows| && forall k :: 0 <= k < |rows| ==> rows[k].start <= rows[k].end <= |buf|
    ensures texts == Window(buf, rows, from, n)
  {
    texts := [];
    for k := 0 to n
      invariant texts == Window(buf, rows, from, k)
    {
      var r := rows[from + k];
      var text := (if from + k == 0 then [MARK, SPACE] else [SPACE, SPACE]) + buf[r.start..r.end];
      assert text == Marked(from + k == 0, buf[r.start..r.end]);
      assert Window(buf, rows, from, k + 1) == Window(buf, rows, from, k) + [text];
      texts := texts + [text];
    }
  }

  method DrawBox(texts: seq<seq<Grapheme>>, width: nat, style: Style) returns (out: seq<Line>)
    ensures out == Box(texts, width, style)
  {
    var inner := Inner(width);
    out := [Border("╭", "╮", width, style)];
    for k := 0 to |texts|
      invariant out == [Border("╭", "╮", width, style)] + seq(k, i requires 0 <= i < k => BoxRow(texts[i], inner, style))
    {
      out := out + [BoxRow(texts[k], inner, style)];
    }
    out := out + [Border("╰", "╯", width, style)];
  }

  /** Returns the rows of the box and the cursor cell within them. */
  method InputBox(buf: seq<Grapheme>, cur: nat, placeholder: seq<Grapheme>, width: nat, maxRows: nat, style: Style)
    returns (out: seq<Line>, row: nat, col: nat, ghost texts: seq<seq<Grapheme>>, ghost owner: nat, ghost first: nat)
    requires cur <= |buf|
    ensures out == Box(texts, width, style) && row >= 1 && col >= 2
    ensures buf == [] ==>
              texts == [Marked(true, Width.Truncated(placeholder, TextWidthIn(width)))] && row == 1 && col == 4
    ensures buf != [] ==> ShowsCursor(buf, cur, TextWidthIn(width), maxRows, texts, first, owner, row - 1, col - 2)
  {
    var textW := TextWidthIn(width);
    var shown: seq<seq<Grapheme>>;
    if buf == [] {
      var text := Width.Truncate(placeholder, textW);
      shown := [[MARK, SPACE] + text];
      row, col := 0, 2;
      owner, first := 0, 0;
    } else {
      shown, row, col, owner, first := VisibleRows(buf, cur, textW, maxRows);
    }
    texts := shown;
    out := DrawBox(shown, width, style);
    row, col := row + 1, col + 2;
  }

  // ----- widths -------------------------------------------------------------------------

  lemma {:induction false} TimesWidth(g: Grapheme, n: nat, j: nat)
    requires j <= n && g.width == 1
    ensures Sum(Times(g, n), 0, j) == j
  {
    if j > 0 { TimesWidth(g, n, j - 1); }
  }

  lemma OneSpan(s: Span)
    ensures SpansWidth([s]) == TextWidth(s.text)
  {
    assert [s][..0] == [];
    assert SpansWidth([s]) == SpansWidth([]) + TextWidth(s.text);
  }

  lemma BorderWidth(left: string, right: string, width: nat, style: Style)
    ensures LineWidth(Border(left, right, width, style)) == Less(width, 2) + 2
  {
    var l, m, r := [Grapheme(left, 1)], Times(DASH, Less(width, 2)), [Grapheme(right, 1)];
    TimesWidth(DASH, Less(width, 2), Less(width, 2));
    TextWidthAppend(l, m);
    TextWidthAppend(l + m, r);
    assert Sum(l, 0, 1) == 1 && Sum(r, 0, 1) == 1;
    OneSpan(Span(l + m + r, style));
  }

  lemma TwoWidth(a: Grapheme, b: Grapheme)
    requires a.width == 1 && b.width == 1
    ensures TextWidth([a, b]) == 2
  {
    assert Sum([a, b], 0, 1) == 1;
  }

  lemma BoxRowWidth(text: seq<Grapheme>, inner: nat, style: Style)
    ensures LineWidth(BoxRow(text, inner, style)) == 4 + Max(inner, TextWidth(text))
  {
    var pad := Less(inner, TextWidth(text));
    var a, b, c, d := Span([BAR, SPACE], style), Span(text, PLAIN), Span(Times(SPACE, pad), PLAIN), Span([SPACE, BAR], style);
    TimesWidth(SPACE, pad, pad);
    TwoWidth(BAR, SPACE);
    TwoWidth(SPACE, BAR);
    OneSpan(a);
    OneSpan(b);
    OneSpan(c);
    OneSpan(d);
    SpansWidthAppend([a], [b]);
    SpansWidthAppend([a] + [b], [c]);
    SpansWidthAppend([a] + [b] + [c], [d]);
    assert BoxRow(text, inner, style).spans == [a] + [b] + [c] + [d];
  }

  lemma MarkedWidth(first: bool, text: seq<Grapheme>)
    ensures TextWidth(Marked(first, text)) == 2 + TextWidth(text)
  {
    TwoWidth(MARK, SPACE);
    TwoWidth(SPACE, SPACE);
    TextWidthAppend(if first then [MARK, SPACE] else [SPACE, SPACE], text);
  }

  lemma SliceWidth(buf: seq<Grapheme>, i: nat, j: nat)
    requires i <= j <= |buf|
    ensures TextWidth(buf[i..j]) == Sum(buf, i, j)
  {
    SliceSum(buf, i, j, j - i);
  }

  lemma {:induction false} SliceSum(buf: seq<Grapheme>, i: nat, j: nat, n: nat)
    requires i <= j <= |buf| && n <= j - i
    ensures Sum(buf[i..j], 0, n) == Sum(buf, i, i + n)
  {
    if n > 0 { SliceSum(buf, i, j, n - 1); }
  }

  ghost predicate AllExactly(out: seq<Line>, width: nat) { forall k :: 0 <= k < |out| ==> LineWidth(out[k]) == width }

  /** Rows of text that fit between the borders. */
  ghost predicate TextsFit(texts: seq<seq<Grapheme>>, width: nat) {
    texts != [] && forall k :: 0 <= k < |texts| ==> TextWidth(texts[k]) <= Inner(width)
  }

  lemma BoxWidths(texts: seq<seq<Grapheme>>, width: nat, style: Style)
    ensures var out, n := Box(texts, width, style), |texts|;
            |out| == n + 2 && LineWidth(out[0]) == LineWidth(out[n + 1]) == Less(width, 2) + 2 &&
            forall k :: 0 <= k < n ==> LineWidth(out[k + 1]) == 4 + Max(Inner(width), TextWidth(texts[k]))
  {
    var out := Box(texts, width, style);
    BorderWidth("╭", "╮", width, style);
    BorderWidth("╰", "╯", width, style);
    forall k | 0 <= k < |texts| ensures LineWidth(out[k + 1]) == 4 + Max(Inner(width), TextWidth(texts[k])) {
      BoxRowWidth(texts[k], Inner(width), style);
      assert out[k + 1] == BoxRow(texts[k], Inner(width), style);
    }
  }

  /** Every row of the box is exactly `width` cells exactly when the terminal has eight and the
      rows fit between the borders. */
  lemma BoxIsExactIff(texts: seq<seq<Grapheme>>, width: nat, style: Style)
    requires texts != []
    ensures AllExactly(Box(texts, width, style), width) <==> width >= 8 && TextsFit(texts, width)
  {
    hide LineWidth, TextWidth;
    var out, n := Box(texts, width, style), |texts|;
    BoxWidths(texts, width, style);
    if AllExactly(out, width) {
      assert LineWidth(out[1]) == width;
      forall k | 0 <= k < n ensures TextWidth(texts[k]) <= Inner(width) { assert LineWidth(out[k + 1]) == width; }
    }
    if width >= 8 && TextsFit(texts, width) {
      forall k | 0 <= k < |out| ensures LineWidth(out[k]) == width {
        if 0 < k <= n { assert LineWidth(out[k - 1 + 1]) == 4 + Inner(width); }
      }
    }
  }

  /** No grapheme of the row is wider than the text between the borders. */
  ghost predicate NarrowRow(buf: seq<Grapheme>, r: Row, width: nat)
    requires r.end <= |buf|
  {
    forall k :: r.start <= k < r.end ==> buf[k].width <= TextWidthIn(width)
  }

  /** The editor's rows that show fit the box exactly when none of their graphemes is too wide for
      it: the rows were cut to that width. */
  lemma WindowFitsIff(buf: seq<Grapheme>, rows: seq<Row>, first: nat, n: nat, width: nat)
    requires rows == VisualRows(buf, TextWidthIn(width)) && first + n <= |rows| && n > 0
    requires forall k :: 0 <= k < |rows| ==> rows[k].start <= rows[k].end <= |buf|
    ensures TextsFit(Window(buf, rows, first, n), width) <==>
            forall k :: first <= k < first + n ==> NarrowRow(buf, rows[k], width)
  {
    var texts := Window(buf, rows, first, n);
    forall k | first <= k < first + n
      ensures TextWidth(texts[k - first]) <= Inner(width) <==> NarrowRow(buf, rows[k], width)
    {
      RowFitsIff(buf, rows, k, width);
      MarkedWidth(k == 0, buf[rows[k].start..rows[k].end]);
    }
    hide TextWidth, NarrowRow;
    assert |texts| == n;
    if TextsFit(texts, width) {
      forall k | first <= k < first + n ensures NarrowRow(buf, rows[k], width) {
        assert TextWidth(texts[k - first]) <= Inner(width);
      }
    }
    if forall k :: first <= k < first + n ==> NarrowRow(buf, rows[k], width) {
      forall k | 0 <= k < |texts| ensures TextWidth(texts[k]) <= Inner(width) {
        assert NarrowRow(buf, rows[first + k], width) && texts[first + k - first] == texts[k];
      }
    }
  }

  lemma RowFitsIff(buf: seq<Grapheme>, rows: seq<Row>, k: nat, width: nat)
    requires rows == VisualRows(buf, TextWidthIn(width)) && k < |rows| && rows[k].start <= rows[k].end <= |buf|
    ensures 2 + TextWidth(buf[rows[k].start..rows[k].end]) <= Inner(width) <==> NarrowRow(buf, rows[k], width)
  {
    var r := rows[k];
    VisualRowsTile(buf, TextWidthIn(width));
    assert GoodRow(buf, Max(TextWidthIn(width), 1), r);
    SliceWidth(buf, r.start, r.end);
    if Sum(buf, r.start, r.end) <= TextWidthIn(width) {
      forall i | r.start <= i < r.end ensures buf[i].width <= TextWidthIn(width) {
        SumSplit(buf, r.start, i, r.end);
        SumSplit(buf, i, i + 1, r.end);
        assert Sum(buf, i, i + 1) == buf[i].width;
      }
    }
  }

  lemma PlaceholderFits(placeholder: seq<Grapheme>, width: nat)
    ensures TextsFit([Marked(true, Width.Truncated(placeholder, TextWidthIn(width)))], width)
  {
    Width.TruncatedFitsIff(placeholder, TextWidthIn(width));
    MarkedWidth(true, Width.Truncated(placeholder, TextWidthIn(width)));
  }

  /** The cursor cell is strictly inside the borders, left of the right bar, when its row fits. */
  lemma CursorInside(buf: seq<Grapheme>, cur: nat, width: nat, maxRows: nat, texts: seq<seq<Grapheme>>,
                     first: nat, owner: nat, row: nat, col: nat)
    requires cur <= |buf| && width >= 8
    requires ShowsCursor(buf, cur, TextWidthIn(width), maxRows, texts, first, owner, row, col)
    requires NarrowRow(buf, VisualRows(buf, TextWidthIn(width))[owner], width)
    ensures 4 <= col + 2 <= width - 2 && row < |texts|
  {
    var w := TextWidthIn(width);
    VisualRowsTile(buf, w);
    var r := VisualRows(buf, w)[owner];
    assert GoodRow(buf, Max(w, 1), r);
    SumSplit(buf, r.start, cur, r.end);
  }
}
