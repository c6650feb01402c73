/** Wrapping and truncating (crates/inline/src/width.rs), measured in cells per grapheme. */
module Width {
  import opened Chars
  import opened Styles
  import opened Nats

  const ELLIPSIS := Grapheme("…", 1)

  // ----- truncate ------------------------------------------------------------------

  /** How many graphemes from `k` on fit in what `room` cells leave after `used`. */
  function FitFrom(s: seq<Grapheme>, room: nat, k: nat, used: nat): (n: nat)
    requires k <= |s|
    ensures k <= n <= |s|
    decreases |s| - k
  {
    if k < |s| && used + s[k].width <= room then FitFrom(s, room, k + 1, used + s[k].width) else k
  }

  function FitCount(s: seq<Grapheme>, room: nat): (n: nat)
    ensures n <= |s|
  {
    FitFrom(s, room, 0, 0)
  }

  lemma {:induction false} FitFromIs(s: seq<Grapheme>, room: nat, k: nat)
    requires k <= |s| && Sum(s, 0, k) <= room
    ensures var n := FitFrom(s, room, k, Sum(s, 0, k));
            Sum(s, 0, n) <= room && (n < |s| ==> Sum(s, 0, n + 1) > room)
    decreases |s| - k
  {
    if k < |s| && Sum(s, 0, k + 1) <= room { FitFromIs(s, room, k + 1); }
  }

  /** `FitCount` is the longest prefix that fits. */
  lemma FitCountIs(s: seq<Grapheme>, room: nat)
    ensures var n := FitCount(s, room);
            Sum(s, 0, n) <= room && (n < |s| ==> Sum(s, 0, n + 1) > room)
  {
    FitFromIs(s, room, 0);
  }

  /** `truncate` as a value: unchanged if it fits, else the most that leaves a cell for the
      ellipsis. */
  function Truncated(s: seq<Grapheme>, max: nat): seq<Grapheme> {
    if TextWidth(s) <= max then s
    else if max == 0 then [ELLIPSIS]
    else s[..FitCount(s, max - 1)] + [ELLIPSIS]
  }

  method Truncate(s: seq<Grapheme>, max: nat) returns (out: seq<Grapheme>)
    ensures out == Truncated(s, max)
  {
    if TextWidth(s) <= max { return s; }
    out := [];
    var w: nat, k: nat := 0, 0;
    while k < |s|
      invariant k <= |s| && out == s[..k]
      invariant max == 0 ==> k == 0 && w == 0
      invariant max > 0 ==> FitFrom(s, max - 1, k, w) == FitCount(s, max - 1)
    {
      var gw := s[k].width;
      if w + gw + 1 > max { break; }
      out := out + [s[k]];
      w := w + gw;
      k := k + 1;
    }
    out := out + [ELLIPSIS];
  }

  lemma EllipsisWidth(x: seq<Grapheme>)
    ensures TextWidth(x + [ELLIPSIS]) == TextWidth(x) + 1
  {
    TextWidthAppend(x, [ELLIPSIS]);
    assert Sum([ELLIPSIS], 0, 1) == 1;
  }

  lemma PrefixWidth(s: seq<Grapheme>, n: nat)
    requires n <= |s|
    ensures TextWidth(s[..n]) == Sum(s, 0, n) <= TextWidth(s)
    ensures TextWidth(s[n..]) == Sum(s, n, |s|)
  {
    TextWidthAppend(s[..n], s[n..]);
    assert s[..n] + s[n..] == s;
  }

  /** The result fits in `max` cells exactly when there is room for the ellipsis or nothing
      to cut. */
  lemma TruncatedFitsIff(s: seq<Grapheme>, max: nat)
    ensures TextWidth(Truncated(s, max)) <= max <==> max >= 1 || TextWidth(s) == 0
  {
    if TextWidth(s) > max {
      if max > 0 {
        var n := FitCount(s, max - 1);
        FitCountIs(s, max - 1);
        PrefixWidth(s, n);
        EllipsisWidth(s[..n]);
      } else {
        EllipsisWidth([]);
        assert [] + [ELLIPSIS] == [ELLIPSIS];
      }
    }
  }

  /** What is cut is marked, and no longer prefix would have left room for the mark. */
  lemma TruncatedKeepsMost(s: seq<Grapheme>, max: nat, n: nat)
    requires 1 <= max < TextWidth(s) && n <= |s| && TextWidth(s[..n]) + 1 <= max
    ensures var out := Truncated(s, max);
            n < |out| <= |s| + 1 && out[|out| - 1] == ELLIPSIS && out[..|out| - 1] == s[..|out| - 1]
  {
    var m := FitCount(s, max - 1);
    FitCountIs(s, max - 1);
    PrefixWidth(s, n);
    if m < n { SumSplit(s, 0, m + 1, n); }
  }

  // ----- ellipsize_middle ------------------------------------------------------------

  /** Where the longest suffix within what `room` leaves after `used` starts, taking
      graphemes backwards from `k`. */
  function BackFrom(s: seq<Grapheme>, room: nat, k: nat, used: nat): (t: nat)
    requires k <= |s|
    ensures t <= k
  {
    if k > 0 && used + s[k - 1].width <= room then BackFrom(s, room, k - 1, used + s[k - 1].width) else k
  }

  lemma {:induction false} BackFromIs(s: seq<Grapheme>, room: nat, k: nat)
    requires k <= |s| && Sum(s, k, |s|) <= room
    ensures var t := BackFrom(s, room, k, Sum(s, k, |s|));
            Sum(s, t, |s|) <= room && (t > 0 ==> Sum(s, t - 1, |s|) > room)
  {
    if k > 0 {
      SumSplit(s, k - 1, k, |s|);
      assert Sum(s, k - 1, k) == s[k - 1].width;
      if Sum(s, k - 1, |s|) <= room { BackFromIs(s, room, k - 1); }
    }
  }

  /** `ellipsize_middle` as a value. */
  function Ellipsized(s: seq<Grapheme>, max: nat): seq<Grapheme> {
    if TextWidth(s) <= max then s
    else if max < 8 then Truncated(s, max)
    else
      var keep := max - 1;
      var tailW := keep * 2 / 5;
      s[..FitCount(s, keep - tailW)] + [ELLIPSIS] + s[BackFrom(s, tailW, |s|, 0)..]
  }

  method EllipsizeMiddle(s: seq<Grapheme>, max: nat) returns (out: seq<Grapheme>)
    ensures out == Ellipsized(s, max)
  {
    if TextWidth(s) <= max { return s; }
    if max < 8 {
      out := Truncate(s, max);
      return;
    }
    var keep := max - 1;
    var tailW := keep * 2 / 5;
    var headW := keep - tailW;
    var head := TakeHead(s, headW);
    var tail := TakeTail(s, tailW);
    out := head + [ELLIPSIS] + tail;
  }

  method TakeHead(s: seq<Grapheme>, room: nat) returns (head: seq<Grapheme>)
    ensures head == s[..FitCount(s, room)]
  {
    var w: nat, k: nat := 0, 0;
    head := [];
    while k < |s|
      invariant k <= |s| && head == s[..k]
      invariant FitFrom(s, room, k, w) == FitCount(s, room)
    {
      if w + s[k].width > room { break; }
      head := head + [s[k]];
      w := w + s[k].width;
      k := k + 1;
    }
  }

  method TakeTail(s: seq<Grapheme>, room: nat) returns (tail: seq<Grapheme>)
    ensures tail == s[BackFrom(s, room, |s|, 0)..]
  {
    var w: nat, k: nat := 0, |s|;
    tail := [];
    while k > 0
      invariant k <= |s| && tail == s[k..]
      invariant BackFrom(s, room, k, w) == BackFrom(s, room, |s|, 0)
    {
      if w + s[k - 1].width > room { break; }
      tail := [s[k - 1]] + tail;
      w := w + s[k - 1].width;
      k := k - 1;
    }
  }

  lemma NoSum(s: seq<Grapheme>)
    ensures Sum(s, |s|, |s|) == 0 && Sum(s, 0, |s|) == TextWidth(s)
  {
  }

  /** A shortened text is the longest prefix and the longest suffix that fit their shares,
      which never overlap, around an ellipsis; and it fits (`max < 8` falls back to
      `truncate`). */
  lemma EllipsizedKeepsEnds(s: seq<Grapheme>, max: nat) returns (h: nat, t: nat)
    requires max >= 8 && TextWidth(s) > max
    ensures h <= t <= |s| && Ellipsized(s, max) == s[..h] + [ELLIPSIS] + s[t..]
    ensures TextWidth(Ellipsized(s, max)) <= max
    ensures var tailW := (max - 1) * 2 / 5; h < |s| && Sum(s, 0, h + 1) > max - 1 - tailW && t > 0 && Sum(s, t - 1, |s|) > tailW
  {
    hide BackFrom, FitCount, FitFrom, Truncated, Sum;
    var tailW := (max - 1) * 2 / 5;
    var headW := max - 1 - tailW;
    h := FitCount(s, headW);
    t := BackFrom(s, tailW, |s|, 0);
    NoSum(s);
    FitCountIs(s, headW);
    BackFromIs(s, tailW, |s|);
    PrefixWidth(s, h);
    PrefixWidth(s, t);
    EndsApart(s, h, t, headW, tailW);
    hide TextWidth;
    EllipsisWidth(s[..h]);
    TextWidthAppend(s[..h] + [ELLIPSIS], s[t..]);
  }

  lemma EndsApart(s: seq<Grapheme>, h: nat, t: nat, headW: nat, tailW: nat)
    requires h <= |s| && t <= |s| && headW + tailW < TextWidth(s)
    requires Sum(s, 0, h) <= headW && Sum(s, t, |s|) <= tailW
    ensures h <= t
  {
    SumSplit(s, 0, t, |s|);
    if t < h { SumSplit(s, 0, t, h); }
  }

  /** Whatever the branch, the result fits exactly when `truncate`'s would. */
  lemma EllipsizedFitsIff(s: seq<Grapheme>, max: nat)
    ensures TextWidth(Ellipsized(s, max)) <= max <==> max >= 1 || TextWidth(s) == 0
  {
    TruncatedFitsIff(s, max);
    if max >= 8 && TextWidth(s) > max { var h, t := EllipsizedKeepsEnds(s, max); }
  }

  // ----- wrap: cells -------------------------------------------------------------------

  datatype Cell = Cell(g: Grapheme, style: Style)

  predicate IsSpace(c: Cell) { AllWhitespace(c.g.text) }

  predicate IsNewline(g: Grapheme) { g.text == "\n" || g.text == "\r\n" }

  /** Cells taken by `cells[i..j]`. */
  function CellsSum(cells: seq<Cell>, i: nat, j: nat): nat
    requires i <= j <= |cells|
    decreases j
  {
    if i == j then 0 else CellsSum(cells, i, j - 1) + cells[j - 1].g.width
  }

  lemma {:induction false} CellsSplit(cells: seq<Cell>, i: nat, j: nat, k: nat)
    requires i <= j <= k <= |cells|
    ensures CellsSum(cells, i, k) == CellsSum(cells, i, j) + CellsSum(cells, j, k)
    decreases k
  {
    if j < k { CellsSplit(cells, i, j, k - 1); }
  }

  lemma {:induction false} CellsPrefix(x: seq<Cell>, y: seq<Cell>, i: nat, j: nat)
    requires i <= j <= |x| && x <= y
    ensures CellsSum(x, i, j) == CellsSum(y, i, j)
    decreases j
  {
    if i < j { CellsPrefix(x, y, i, j - 1); }
  }

  /** The styled graphemes of a line, line breaks left out. */
  function Flatten(spans: seq<Span>): seq<Cell> {
    if spans == [] then []
    else Flatten(spans[..|spans| - 1]) + SpanCells(spans[|spans| - 1].text, spans[|spans| - 1].style)
  }

  function SpanCells(text: seq<Grapheme>, style: Style): seq<Cell> {
    if text == [] then []
    else if IsNewline(text[|text| - 1]) then SpanCells(text[..|text| - 1], style)
    else SpanCells(text[..|text| - 1], style) + [Cell(text[|text| - 1], style)]
  }

  /** Cells grouped into spans, neighbours of one style together. */
  function Spans(cells: seq<Cell>): seq<Span> {
    if cells == [] then []
    else
      var before, c := Spans(cells[..|cells| - 1]), cells[|cells| - 1];
      PushCell(before, c)
  }

  function PushCell(spans: seq<Span>, c: Cell): seq<Span> {
    var n := |spans|;
    if n > 0 && spans[n - 1].style == c.style
    then spans[n - 1 := Span(spans[n - 1].text + [c.g], c.style)]
    else spans + [Span([c.g], c.style)]
  }

  lemma PushKeepsCells(spans: seq<Span>, c: Cell)
    requires !IsNewline(c.g)
    ensures Flatten(PushCell(spans, c)) == Flatten(spans) + [c]
  {
    var n, after := |spans|, PushCell(spans, c);
    if n > 0 && spans[n - 1].style == c.style {
      var t := spans[n - 1].text;
      assert after[..n - 1] == spans[..n - 1];
      assert (t + [c.g])[..|t|] == t;
    } else {
      assert after[..n] == spans;
      assert [c.g][..0] == [];
      assert SpanCells([c.g], c.style) == SpanCells([], c.style) + [c] == [c];
    }
  }

  lemma PushKeepsWidth(spans: seq<Span>, c: Cell)
    ensures SpansWidth(PushCell(spans, c)) == SpansWidth(spans) + c.g.width
  {
    var n, after := |spans|, PushCell(spans, c);
    assert Sum([c.g], 0, 1) == c.g.width;
    if n > 0 && spans[n - 1].style == c.style {
      TextWidthAppend(spans[n - 1].text, [c.g]);
      assert after[..n - 1] == spans[..n - 1];
    } else {
      assert after[..n] == spans;
    }
  }

  /** Grouping into spans loses nothing. */
  lemma {:induction false} SpansKeepCells(cells: seq<Cell>)
    requires forall c :: c in cells ==> !IsNewline(c.g)
    ensures Flatten(Spans(cells)) == cells
  {
    if cells != [] {
      var init, c := cells[..|cells| - 1], cells[|cells| - 1];
      assert cells == init + [c];
      SpansKeepCells(init);
      PushKeepsCells(Spans(init), c);
    }
  }

  lemma {:induction false} SpansKeepWidth(cells: seq<Cell>)
    ensures SpansWidth(Spans(cells)) == CellsSum(cells, 0, |cells|)
  {
    if cells != [] {
      var init, c := cells[..|cells| - 1], cells[|cells| - 1];
      SpansKeepWidth(init);
      PushKeepsWidth(Spans(init), c);
      CellsPrefix(init, cells, 0, |init|);
    }
  }

  /** Where the run of spaces (or of non-spaces) that starts at `i` ends. */
  function Run(cells: seq<Cell>, i: nat): (r: nat)
    requires i < |cells|
    ensures i < r <= |cells|
    decreases |cells| - i
  {
    if i + 1 < |cells| && IsSpace(cells[i + 1]) == IsSpace(cells[i]) then Run(cells, i + 1) else i + 1
  }

  lemma {:induction false} RunIs(cells: seq<Cell>, i: nat, k: nat)
    requires i < |cells| && i <= k < Run(cells, i)
    ensures IsSpace(cells[k]) == IsSpace(cells[i])
    ensures Run(cells, i) < |cells| ==> IsSpace(cells[Run(cells, i)]) != IsSpace(cells[i])
    decreases |cells| - i
  {
    if i + 1 < |cells| && IsSpace(cells[i + 1]) == IsSpace(cells[i]) {
      RunIs(cells, i + 1, if k == i then i + 1 else k);
    }
  }

  function RunWidth(cells: seq<Cell>, i: nat): nat
    requires i < |cells|
  {
    CellsSum(cells, i, Run(cells, i))
  }

  // ----- wrap: what a layout is ----------------------------------------------------------

  /** A row shows `cells[from..to]`. */
  datatype Range = Range(from: nat, to: nat)

  function Limit(k: nat, width: nat, indentW: nat): nat
    requires indentW < width
  {
    if k == 0 then width else width - indentW
  }

  /** A row keeps to its limit unless a single grapheme is wider than that. */
  ghost predicate Fits(cells: seq<Cell>, r: Range, limit: nat) {
    r.from <= r.to <= |cells| &&
    (CellsSum(cells, r.from, r.to) <= limit ||
     (r.from < r.to && CellsSum(cells, r.from, r.to - 1) == 0 && cells[r.to - 1].g.width > limit))
  }

  ghost predicate InsideWord(cells: seq<Cell>, i: nat) {
    0 < i < |cells| && !IsSpace(cells[i - 1]) && !IsSpace(cells[i])
  }

  /** The word around `i` is wider than `limit`. */
  ghost predicate WideWord(cells: seq<Cell>, i: nat, limit: nat) {
    exists a: nat :: WordAround(cells, a, i) && RunWidth(cells, a) > limit
  }

  /** The word that starts at `a` goes past `i`. */
  ghost predicate WordAround(cells: seq<Cell>, a: nat, i: nat) {
    a < i < |cells| && !IsSpace(cells[a]) && (a == 0 || IsSpace(cells[a - 1])) && Run(cells, a) > i
  }

  /** The next row may start at `from` after a row `r` with room for `limit` cells: only a
      run of spaces is skipped, what comes next did not fit, a word moves down only from a
      row that has something, and is split only if wider than a continuation row (`cont`). */
  ghost predicate GoodBreak(cells: seq<Cell>, r: Range, from: nat, limit: nat, cont: nat)
    requires r.from <= r.to
  {
    r.to < |cells| && (from == r.to || (IsSpace(cells[r.to]) && from == Run(cells, r.to))) &&
    var w := CellsSum(cells, r.from, r.to);
    if r.to == from && InsideWord(cells, from) then
      w > 0 && w + cells[from].g.width > limit && WideWord(cells, from, cont)
    else w + RunWidth(cells, r.to) > limit && (r.to == from ==> w > 0)
  }

  /** `rows` are finished rows from the start of `cells`, the next one starts at `from`. */
  ghost predicate Closed(cells: seq<Cell>, rows: seq<Range>, from: nat, width: nat, indentW: nat)
    requires indentW < width
  {
    if rows == [] then from == 0
    else
      var n := |rows| - 1;
      Closed(cells, rows[..n], rows[n].from, width, indentW) &&
      Fits(cells, rows[n], Limit(n, width, indentW)) &&
      GoodBreak(cells, rows[n], from, Limit(n, width, indentW), width - indentW)
  }

  /** The whole of `cells` laid out greedily. */
  ghost predicate IsLayout(cells: seq<Cell>, rows: seq<Range>, width: nat, indentW: nat)
    requires indentW < width
  {
    rows != [] && var n := |rows| - 1;
    Closed(cells, rows[..n], rows[n].from, width, indentW) &&
    rows[n].to == |cells| && Fits(cells, rows[n], Limit(n, width, indentW))
  }

  function TrimEnd(cells: seq<Cell>): (r: seq<Cell>)
    ensures |r| <= |cells| && r == cells[..|r|]
    ensures r != [] ==> !IsSpace(r[|r| - 1])
    ensures forall k :: |r| <= k < |cells| ==> IsSpace(cells[k])
  {
    if cells != [] && IsSpace(cells[|cells| - 1]) then TrimEnd(cells[..|cells| - 1]) else cells
  }

  function Indented(k: nat, indentW: nat, indent: Line): seq<Span> {
    if k > 0 && indentW > 0 then indent.spans else []
  }

  function RowLine(row: seq<Cell>, k: nat, indentW: nat, indent: Line, fill: Option<Color>): Line {
    Line(Indented(k, indentW, indent) + Spans(TrimEnd(row)), fill)
  }

  // ----- wrap: the greedy loop -------------------------------------------------------------

  /** The loop's state: the rows pushed so far are `rows`, the one being built shows
      `cells[from..to]`. */
  ghost predicate Going(cells: seq<Cell>, rows: seq<Range>, from: nat, to: nat,
                        done: seq<seq<Cell>>, row: seq<Cell>, rowW: nat, width: nat, indentW: nat) {
    && indentW < width && from <= to <= |cells|
    && Shows(cells, rows, done)
    && row == cells[from..to] && rowW == CellsSum(cells, from, to)
    && Closed(cells, rows, from, width, indentW)
    && Fits(cells, Range(from, to), Limit(|rows|, width, indentW))
  }

  ghost predicate Shows(cells: seq<Cell>, rows: seq<Range>, done: seq<seq<Cell>>) {
    |rows| == |done| && (rows == [] ||
    var n := |rows| - 1;
    rows[n].from <= rows[n].to <= |cells| && done[n] == cells[rows[n].from..rows[n].to] &&
    Shows(cells, rows[..n], done[..n]))
  }

  lemma GoingBreak(cells: seq<Cell>, rows: seq<Range>, from: nat, to: nat, next: nat,
                   done: seq<seq<Cell>>, row: seq<Cell>, rowW: nat, width: nat, indentW: nat)
    requires Going(cells, rows, from, to, done, row, rowW, width, indentW)
    requires GoodBreak(cells, Range(from, to), next, Limit(|rows|, width, indentW), width - indentW)
    ensures Going(cells, rows + [Range(from, to)], next, next, done + [row], [], 0, width, indentW)
  {
    assert (rows + [Range(from, to)])[..|rows|] == rows;
    assert (done + [row])[..|rows|] == done;
    assert cells[next..next] == [];
  }

  /** Break before the run at `i`, or after it when it is spaces. */
  lemma BreakAtRun(cells: seq<Cell>, rows: seq<Range>, from: nat, i: nat, next: nat,
                   done: seq<seq<Cell>>, row: seq<Cell>, rowW: nat, width: nat, indentW: nat)
    requires Going(cells, rows, from, i, done, row, rowW, width, indentW) && AtRun(cells, i)
    requires rowW + RunWidth(cells, i) > Limit(|rows|, width, indentW)
    requires if IsSpace(cells[i]) then next == Run(cells, i) else next == i && rowW > 0
    ensures Going(cells, rows + [Range(from, i)], next, next, done + [row], [], 0, width, indentW)
  {
    GoingBreak(cells, rows, from, i, next, done, row, rowW, width, indentW);
  }

  /** Break inside the overlong word at `i`. */
  lemma BreakInWord(cells: seq<Cell>, rows: seq<Range>, from: nat, i: nat, p: nat,
                    done: seq<seq<Cell>>, row: seq<Cell>, rowW: nat, width: nat, indentW: nat)
    requires Going(cells, rows, from, p, done, row, rowW, width, indentW) && AtRun(cells, i) && !IsSpace(cells[i])
    requires i <= p < Run(cells, i) && RunWidth(cells, i) > width - indentW
    requires rowW > 0 && rowW + cells[p].g.width > Limit(|rows|, width, indentW)
    ensures Going(cells, rows + [Range(from, p)], p, p, done + [row], [], 0, width, indentW)
  {
    SplitIsGood(cells, i, Run(cells, i), p, Range(from, p), Limit(|rows|, width, indentW), width - indentW);
    GoingBreak(cells, rows, from, p, p, done, row, rowW, width, indentW);
  }

  /** `i` starts a run. */
  ghost predicate AtRun(cells: seq<Cell>, i: nat) {
    i < |cells| && (i > 0 ==> IsSpace(cells[i - 1]) != IsSpace(cells[i]))
  }

  lemma GoingRun(cells: seq<Cell>, rows: seq<Range>, from: nat, i: nat, j: nat,
                 done: seq<seq<Cell>>, row: seq<Cell>, rowW: nat, width: nat, indentW: nat)
    requires Going(cells, rows, from, i, done, row, rowW, width, indentW)
    requires i < |cells| && j == Run(cells, i) && rowW + RunWidth(cells, i) <= Limit(|rows|, width, indentW)
    ensures Going(cells, rows, from, j, done, row + cells[i..j], rowW + RunWidth(cells, i), width, indentW)
  {
    CellsSplit(cells, from, i, j);
    assert cells[from..i] + cells[i..j] == cells[from..j];
  }

  lemma GoingCounts(cells: seq<Cell>, rows: seq<Range>, from: nat, p: nat,
                    done: seq<seq<Cell>>, row: seq<Cell>, rowW: nat, width: nat, indentW: nat)
    requires Going(cells, rows, from, p, done, row, rowW, width, indentW)
    ensures indentW < width && p <= |cells| && (rows == [] <==> done == [])
  {
  }

  /** One more cell fits, or is alone on its row. */
  lemma GoingCell(cells: seq<Cell>, rows: seq<Range>, from: nat, p: nat,
                  done: seq<seq<Cell>>, row: seq<Cell>, rowW: nat, width: nat, indentW: nat)
    requires Going(cells, rows, from, p, done, row, rowW, width, indentW) && p < |cells|
    requires rowW + cells[p].g.width <= Limit(|rows|, width, indentW) || rowW == 0
    ensures Going(cells, rows, from, p + 1, done, row + [cells[p]], rowW + cells[p].g.width, width, indentW)
  {
    assert cells[from..p] + [cells[p]] == cells[from..p + 1];
  }

  lemma GoingStart(cells: seq<Cell>, width: nat, indentW: nat)
    requires indentW < width
    ensures Going(cells, [], 0, 0, [], [], 0, width, indentW)
  {
    assert cells[0..0] == [];
  }

  /** Measure the run of spaces or of non-spaces at `i`. */
  method MeasureRun(cells: seq<Cell>, i: nat) returns (j: nat, w: nat)
    requires i < |cells|
    ensures j == Run(cells, i) && w == RunWidth(cells, i)
    ensures j < |cells| ==> IsSpace(cells[j]) != IsSpace(cells[i]) && IsSpace(cells[j - 1]) == IsSpace(cells[i])
  {
    j, w := i + 1, cells[i].g.width;
    while j < |cells| && IsSpace(cells[j]) == IsSpace(cells[i])
      invariant i < j <= |cells| && w == CellsSum(cells, i, j)
      invariant IsSpace(cells[j - 1]) == IsSpace(cells[i]) && Run(cells, i) == Run(cells, j - 1)
    {
      w := w + cells[j].g.width;
      j := j + 1;
    }
  }

  method LayOut(cells: seq<Cell>, width: nat, indentW: nat) returns (done: seq<seq<Cell>>, ghost rows: seq<Range>)
    requires indentW < width
    ensures IsLayout(cells, rows, width, indentW) && Shows(cells, rows, done)
    ensures done != [] && NonSpaces(Bodies(done)) == NonSpaces(cells)
  {
    hide Going, IsLayout, Shows, NonSpaces, RunWidth;
    done, rows := [], [];
    var row: seq<Cell>, rowW: nat, i: nat := [], 0, 0;
    ghost var from: nat := 0;
    GoingStart(cells, width, indentW);
    while i < |cells|
      invariant Going(cells, rows, from, i, done, row, rowW, width, indentW)
      invariant i < |cells| ==> AtRun(cells, i)
      decreases |cells| - i, rowW
    {
      GoingCounts(cells, rows, from, i, done, row, rowW, width, indentW);
      var limit := if done == [] then width else width - indentW;
      var isSpace := IsSpace(cells[i]);
      var j, wordW := MeasureRun(cells, i);
      if rowW + wordW <= limit {
        GoingRun(cells, rows, from, i, j, done, row, rowW, width, indentW);
        row, rowW, i := row + cells[i..j], rowW + wordW, j;
      } else if isSpace {
        // The run of spaces is the end of the row.
        BreakAtRun(cells, rows, from, i, j, done, row, rowW, width, indentW);
        rows, from := rows + [Range(from, i)], j;
        done, row, rowW, i := done + [row], [], 0, j;
      } else if rowW > 0 && wordW <= width - indentW {
        // The next row has room for the word.
        BreakAtRun(cells, rows, from, i, i, done, row, rowW, width, indentW);
        rows, from := rows + [Range(from, i)], i;
        done, row, rowW := done + [row], [], 0;
      } else {
        done, row, rowW, rows, from := SplitWord(cells, i, j, width, indentW, done, row, rowW, rows, from);
        i := j;
      }
    }
    GoingCounts(cells, rows, from, i, done, row, rowW, width, indentW);
    LayoutDone(cells, rows, from, done, row, rowW, width, indentW);
    done := done + [row];
    rows := rows + [Range(from, i)];
    LayoutKeepsWords(cells, rows, done, width, indentW);
  }

  lemma LayoutDone(cells: seq<Cell>, rows: seq<Range>, from: nat,
                   done: seq<seq<Cell>>, row: seq<Cell>, rowW: nat, width: nat, indentW: nat)
    requires Going(cells, rows, from, |cells|, done, row, rowW, width, indentW)
    ensures IsLayout(cells, rows + [Range(from, |cells|)], width, indentW)
    ensures Shows(cells, rows + [Range(from, |cells|)], done + [row])
  {
    assert (rows + [Range(from, |cells|)])[..|rows|] == rows;
    assert (done + [row])[..|rows|] == done;
  }

  /** Put a word that fits no row on several, as many graphemes to a row as it holds. */
  method SplitWord(cells: seq<Cell>, i: nat, j: nat, width: nat, indentW: nat,
                   done0: seq<seq<Cell>>, row0: seq<Cell>, rowW0: nat, ghost rows0: seq<Range>, ghost from0: nat)
    returns (done: seq<seq<Cell>>, row: seq<Cell>, rowW: nat, ghost rows: seq<Range>, ghost from: nat)
    requires Going(cells, rows0, from0, i, done0, row0, rowW0, width, indentW)
    requires AtRun(cells, i) && j == Run(cells, i) && !IsSpace(cells[i])
    requires RunWidth(cells, i) > width - indentW
    ensures Going(cells, rows, from, j, done, row, rowW, width, indentW)
    ensures row != [] && row[|row| - 1] == cells[j - 1]
  {
    hide Going, Run, RunWidth;
    done, row, rowW, rows, from := done0, row0, rowW0, rows0, from0;
    GoingCounts(cells, rows, from, i, done, row, rowW, width, indentW);
    for p := i to j
      invariant Going(cells, rows, from, p, done, row, rowW, width, indentW)
      invariant p > i ==> row != [] && row[|row| - 1] == cells[p - 1]
    {
      GoingCounts(cells, rows, from, p, done, row, rowW, width, indentW);
      var limit := if done == [] then width else width - indentW;
      if rowW + cells[p].g.width > limit && rowW > 0 {
        BreakInWord(cells, rows, from, i, p, done, row, rowW, width, indentW);
        rows, from := rows + [Range(from, p)], p;
        done, row, rowW := done + [row], [], 0;
      }
      GoingCell(cells, rows, from, p, done, row, rowW, width, indentW);
      row, rowW := row + [cells[p]], rowW + cells[p].g.width;
    }
  }

  lemma SplitIsGood(cells: seq<Cell>, i: nat, j: nat, p: nat, r: Range, limit: nat, cont: nat)
    requires i <= p < j && i < |cells| && j == Run(cells, i) && !IsSpace(cells[i])
    requires i > 0 ==> IsSpace(cells[i - 1])
    requires CellsSum(cells, i, j) > cont && r.from <= r.to == p
    requires CellsSum(cells, r.from, p) > 0 && CellsSum(cells, r.from, p) + cells[p].g.width > limit
    ensures GoodBreak(cells, r, p, limit, cont)
  {
    if p == i {
      CellsSplit(cells, p, p + 1, j);
    } else {
      RunIs(cells, i, p);
      RunIs(cells, i, p - 1);
      assert WordAround(cells, i, p);
    }
  }

  method Wrap(line: Line, width0: nat, indent: Line)
    returns (out: seq<Line>, ghost rows: seq<Range>, ghost done: seq<seq<Cell>>)
    ensures IsWrapping(out, rows, done, line, width0, indent)
    ensures out != [] && exists r, d :: IsWrapping(out, r, d, line, width0, indent)
  {
    hide IsLayout, Shows, NonSpaces, Bodies, Flatten, RowLine;
    var width := Max(width0, 1);
    var indentW := Min(LineWidth(indent), width - 1);
    var laid;
    laid, rows := LayOut(Flatten(line.spans), width, indentW);
    out := FinishRows(laid, indentW, indent, line.fill);
    done := laid;
  }

  /** The finished rows: no space at the end, and all but the first behind the indent. */
  method FinishRows(done: seq<seq<Cell>>, indentW: nat, indent: Line, fill: Option<Color>) returns (out: seq<Line>)
    ensures |out| == |done|
    ensures forall n :: 0 <= n < |done| ==> out[n] == RowLine(done[n], n, indentW, indent, fill)
  {
    out := [];
    for k := 0 to |done|
      invariant |out| == k
      invariant forall n :: 0 <= n < k ==> out[n] == RowLine(done[n], n, indentW, indent, fill)
    {
      var spans := Spans(TrimEnd(done[k]));
      if k > 0 && indentW > 0 { spans := indent.spans + spans; } else { assert [] + spans == spans; }
      out := out + [Line(spans, fill)];
    }
  }

  /** `out` is `line` wrapped: the rows of a greedy layout, trimmed and indented. */
  ghost predicate IsWrapping(out: seq<Line>, rows: seq<Range>, done: seq<seq<Cell>>, line: Line, width0: nat, indent: Line) {
    var width := Max(width0, 1);
    var indentW := Min(LineWidth(indent), width - 1);
    IsLayout(Flatten(line.spans), rows, width, indentW) && Shows(Flatten(line.spans), rows, done) &&
    |out| == |done| && forall k :: 0 <= k < |out| ==> out[k] == RowLine(done[k], k, indentW, indent, line.fill)
  }

  // ----- wrap: what a wrapped line shows -----------------------------------------------------

  /** Reading off one finished row. */
  lemma {:induction false} ClosedRow(cells: seq<Cell>, rows: seq<Range>, done: seq<seq<Cell>>, from: nat,
                                     width: nat, indentW: nat, k: nat)
    requires indentW < width && Closed(cells, rows, from, width, indentW) && Shows(cells, rows, done) && k < |rows|
    ensures Fits(cells, rows[k], Limit(k, width, indentW)) && done[k] == cells[rows[k].from..rows[k].to]
    ensures var next := if k + 1 < |rows| then rows[k + 1].from else from;
            GoodBreak(cells, rows[k], next, Limit(k, width, indentW), width - indentW)
    ensures k == 0 ==> rows[0].from == 0
  {
    var n := |rows| - 1;
    if k < n {
      ClosedRow(cells, rows[..n], done[..n], rows[n].from, width, indentW, k);
    } else if k > 0 {
    } else {
      assert Closed(cells, rows[..n], rows[n].from, width, indentW);
      assert rows[..n] == [];
    }
  }

  /** Row `k` of a layout keeps its limit, and the break after it was forced. */
  lemma LayoutRow(cells: seq<Cell>, rows: seq<Range>, done: seq<seq<Cell>>, width: nat, indentW: nat, k: nat)
    requires indentW < width && IsLayout(cells, rows, width, indentW) && Shows(cells, rows, done) && k < |rows|
    ensures Fits(cells, rows[k], Limit(k, width, indentW)) && done[k] == cells[rows[k].from..rows[k].to]
    ensures k + 1 < |rows| ==>
              GoodBreak(cells, rows[k], rows[k + 1].from, Limit(k, width, indentW), width - indentW)
    ensures k == 0 ==> rows[0].from == 0
    ensures k + 1 == |rows| ==> rows[k].to == |cells|
  {
    hide Fits, GoodBreak;
    var n := |rows| - 1;
    if k < n {
      ClosedRow(cells, rows[..n], done[..n], rows[n].from, width, indentW, k);
    } else if n == 0 {
      assert rows[..n] == [];
    }
  }

  ghost predicate Narrow(cells: seq<Cell>, g: nat) { forall c :: c in cells ==> c.g.width <= g }

  ghost predicate AllFit(out: seq<Line>, width: nat) { forall k :: 0 <= k < |out| ==> LineWidth(out[k]) <= width }

  /** The exact condition on the indent and the widest grapheme for rows to fit: an indent
      as wide as the row is only harmless at width 1, where it is never painted. */
  ghost predicate Room(width: nat, indent: Line, g: nat)
    requires width >= 1
  {
    (width == 1 || LineWidth(indent) < width) && g <= width - Min(LineWidth(indent), width - 1)
  }

  lemma RowLineWidth(row: seq<Cell>, k: nat, indentW: nat, indent: Line, fill: Option<Color>)
    ensures LineWidth(RowLine(row, k, indentW, indent, fill)) ==
            SpansWidth(Indented(k, indentW, indent)) + CellsSum(row, 0, |TrimEnd(row)|)
  {
    var t := TrimEnd(row);
    SpansWidthAppend(Indented(k, indentW, indent), Spans(t));
    SpansKeepWidth(t);
    CellsPrefix(t, row, 0, |t|);
  }

  lemma {:induction false} SliceSum(cells: seq<Cell>, i: nat, j: nat, k: nat)
    requires i <= j && j + k <= |cells| && i <= j
    ensures CellsSum(cells[j..], 0, k) == CellsSum(cells, j, j + k)
  {
    if k > 0 { SliceSum(cells, i, j, k - 1); }
  }

  lemma RowSum(cells: seq<Cell>, r: Range, n: nat)
    requires r.from <= r.to <= |cells| && n <= r.to - r.from
    ensures CellsSum(cells[r.from..r.to], 0, n) == CellsSum(cells, r.from, r.from + n) <= CellsSum(cells, r.from, r.to)
  {
    SliceSum(cells, 0, r.from, n);
    assert cells[r.from..r.to] <= cells[r.from..];
    CellsPrefix(cells[r.from..r.to], cells[r.from..], 0, n);
    CellsSplit(cells, r.from, r.from + n, r.to);
  }

  lemma RowFits(cells: seq<Cell>, r: Range, k: nat, width: nat, indent: Line, fill: Option<Color>, g: nat)
    requires width >= 1 && Room(width, indent, g) && Narrow(cells, g)
    requires Fits(cells, r, Limit(k, width, Min(LineWidth(indent), width - 1)))
    ensures LineWidth(RowLine(cells[r.from..r.to], k, Min(LineWidth(indent), width - 1), indent, fill)) <= width
  {
    var indentW, row := Min(LineWidth(indent), width - 1), cells[r.from..r.to];
    RowLineWidth(row, k, indentW, indent, fill);
    RowSum(cells, r, |TrimEnd(row)|);
    if r.from < r.to { assert cells[r.to - 1] in cells; }
  }

  /** With room, every row of every wrapped line fits, the indent included. */
  lemma WrapFits(out: seq<Line>, rows: seq<Range>, done: seq<seq<Cell>>, line: Line, width0: nat, indent: Line, g: nat)
    requires IsWrapping(out, rows, done, line, width0, indent) && Narrow(Flatten(line.spans), g)
    requires Room(Max(width0, 1), indent, g)
    ensures AllFit(out, Max(width0, 1))
  {
    var width, cells := Max(width0, 1), Flatten(line.spans);
    var indentW := Min(LineWidth(indent), width - 1);
    forall k | 0 <= k < |out| ensures LineWidth(out[k]) <= width {
      LayoutRow(cells, rows, done, width, indentW, k);
      RowFits(cells, rows[k], k, width, indent, line.fill, g);
    }
  }

  /** Of more graphemes than cells the second row holds one, behind the indent. */
  lemma OverflowsSecond(out: seq<Line>, rows: seq<Range>, done: seq<seq<Cell>>, line: Line, width0: nat, indent: Line, x: nat)
    requires IsWrapping(out, rows, done, line, width0, indent) && x >= 1
    requires var width := Max(width0, 1);
             Flatten(line.spans) == seq(width + 1, _ => Cell(Grapheme("x", x), PLAIN)) &&
             SpansWidth(Indented(1, Min(LineWidth(indent), width - 1), indent)) + x > width
    ensures !AllFit(out, Max(width0, 1))
  {
    hide IsLayout, NonSpaces;
    var width := Max(width0, 1);
    var indentW := Min(LineWidth(indent), width - 1);
    SecondRow(Flatten(line.spans), rows, done, width, indentW, x);
    RowLineWidth(done[1], 1, indentW, indent, line.fill);
    assert LineWidth(out[1]) > width;
  }

  /** Without room there is a line, of narrow enough graphemes, that no wrapping fits. */
  lemma WrapOverflows(width0: nat, indent: Line, g: nat) returns (line: Line)
    requires g >= 1 && !Room(Max(width0, 1), indent, g)
    ensures Narrow(Flatten(line.spans), g)
    ensures forall out, rows, done :: IsWrapping(out, rows, done, line, width0, indent) ==> !AllFit(out, Max(width0, 1))
  {
    var width := Max(width0, 1);
    var x := if LineWidth(indent) < width then g else if width == 1 then g else 1;
    var text := seq(width + 1, _ => Grapheme("x", x));
    line := Line([Span(text, PLAIN)], None);
    var cells := WordCells(text, x);
    forall out, rows, done | IsWrapping(out, rows, done, line, width0, indent) ensures !AllFit(out, width) {
      OverflowsSecond(out, rows, done, line, width0, indent, x);
    }
  }

  /** A line that is one word of equal graphemes. */
  lemma WordCells(text: seq<Grapheme>, x: nat) returns (cells: seq<Cell>)
    requires forall k :: 0 <= k < |text| ==> text[k] == Grapheme("x", x)
    ensures cells == Flatten([Span(text, PLAIN)]) && |cells| == |text|
    ensures forall k :: 0 <= k < |cells| ==> cells[k] == Cell(Grapheme("x", x), PLAIN)
  {
    var spans := [Span(text, PLAIN)];
    cells := Flatten(spans);
    WordSpan(text, x);
    assert spans[..|spans| - 1] == [];
    assert Flatten(spans) == Flatten([]) + SpanCells(text, PLAIN);
  }

  lemma {:induction false} WordSpan(text: seq<Grapheme>, x: nat)
    requires forall k :: 0 <= k < |text| ==> text[k] == Grapheme("x", x)
    ensures var cells := SpanCells(text, PLAIN);
            |cells| == |text| && forall k :: 0 <= k < |cells| ==> cells[k] == Cell(Grapheme("x", x), PLAIN)
  {
    if text != [] {
      assert |"x"| == 1;
      WordSpan(text[..|text| - 1], x);
    }
  }

  lemma {:induction false} WordSum(cells: seq<Cell>, i: nat, j: nat, x: nat)
    requires i <= j <= |cells| && forall k :: 0 <= k < |cells| ==> cells[k].g.width == x
    ensures CellsSum(cells, i, j) == (j - i) * x
    decreases j
  {
    if i < j { WordSum(cells, i, j - 1, x); }
  }

  /** A word that overflows its first row leaves at least one grapheme on the second. */
  lemma SecondRow(cells: seq<Cell>, rows: seq<Range>, done: seq<seq<Cell>>, width: nat, indentW: nat, x: nat)
    requires indentW < width && IsLayout(cells, rows, width, indentW) && Shows(cells, rows, done)
    requires |cells| == width + 1 && x >= 1
    requires forall k :: 0 <= k < |cells| ==> cells[k] == Cell(Grapheme("x", x), PLAIN)
    ensures |rows| >= 2 && CellsSum(done[1], 0, |TrimEnd(done[1])|) >= x
  {
    assert AllWhitespace("x") == false;
    LayoutRow(cells, rows, done, width, indentW, 0);
    FirstRowOverflows(cells, rows[0], width, x);
    LayoutRow(cells, rows, done, width, indentW, 1);
    var r := rows[1];
    assert !IsSpace(cells[rows[0].to]);
    SecondIsLong(cells, r, x);
    assert !IsSpace(cells[r.to - 1]) && done[1][|done[1]| - 1] == cells[r.to - 1];
    assert TrimEnd(done[1]) == done[1];
  }

  lemma FirstRowOverflows(cells: seq<Cell>, r: Range, width: nat, x: nat)
    requires |cells| == width + 1 && width >= 1 && x >= 1
    requires forall k :: 0 <= k < |cells| ==> cells[k].g.width == x
    requires Fits(cells, r, width) && r.from == 0
    ensures r.to < |cells|
  {
    if r.to == |cells| {
      WordSum(cells, 0, width + 1, x);
      WordSum(cells, 0, width, x);
      Grows(width, x);
    }
  }

  lemma Grows(width: nat, x: nat)
    requires x >= 1
    ensures width <= width * x < (width + 1) * x
  {
  }

  lemma SecondIsLong(cells: seq<Cell>, r: Range, x: nat)
    requires r.from < r.to <= |cells|
    requires forall k :: 0 <= k < |cells| ==> cells[k].g.width == x
    ensures CellsSum(cells[r.from..r.to], 0, r.to - r.from) >= x
  {
    RowSum(cells, r, r.to - r.from);
    CellsSplit(cells, r.from, r.to - 1, r.to);
  }

  lemma OneRow(cells: seq<Cell>, rows: seq<Range>, done: seq<seq<Cell>>, width: nat, indentW: nat)
    requires indentW < width && IsLayout(cells, rows, width, indentW) && Shows(cells, rows, done)
    requires CellsSum(cells, 0, |cells|) <= width
    ensures done == [cells]
  {
    LayoutRow(cells, rows, done, width, indentW, 0);
    if |rows| > 1 {
      BreakMeansWide(cells, rows[0], rows[1].from, width, width - indentW);
    }
    assert cells[0..|cells|] == cells;
  }

  /** A line that fits is left on one row. */
  lemma FittingLineStaysWhole(out: seq<Line>, rows: seq<Range>, done: seq<seq<Cell>>, line: Line, width0: nat, indent: Line)
    requires IsWrapping(out, rows, done, line, width0, indent)
    requires CellsSum(Flatten(line.spans), 0, |Flatten(line.spans)|) <= Max(width0, 1)
    ensures out == [RowLine(Flatten(line.spans), 0, 0, indent, line.fill)]
  {
    var width := Max(width0, 1);
    OneRow(Flatten(line.spans), rows, done, width, Min(LineWidth(indent), width - 1));
  }

  lemma BreakMeansWide(cells: seq<Cell>, r: Range, from: nat, limit: nat, cont: nat)
    requires r.from == 0 <= r.to && GoodBreak(cells, r, from, limit, cont)
    ensures CellsSum(cells, 0, |cells|) > limit
  {
    var stop := if r.to == from && InsideWord(cells, from) then from + 1 else Run(cells, r.to);
    CellsSplit(cells, 0, r.to, stop);
    CellsSplit(cells, 0, stop, |cells|);
  }

  // ----- wrap: only whitespace is dropped --------------------------------------------------------

  function NonSpaces(cells: seq<Cell>): seq<Cell> {
    if cells == [] then []
    else if IsSpace(cells[|cells| - 1]) then NonSpaces(cells[..|cells| - 1])
    else NonSpaces(cells[..|cells| - 1]) + [cells[|cells| - 1]]
  }

  lemma {:induction false} NonSpacesAppend(x: seq<Cell>, y: seq<Cell>)
    ensures NonSpaces(x + y) == NonSpaces(x) + NonSpaces(y)
  {
    if y == [] {
      assert x + y == x;
    } else {
      NonSpacesAppend(x, y[..|y| - 1]);
      assert (x + y)[..|x + y| - 1] == x + y[..|y| - 1];
    }
  }

  lemma {:induction false} TrimKeepsWords(cells: seq<Cell>)
    ensures NonSpaces(TrimEnd(cells)) == NonSpaces(cells)
  {
    if cells != [] && IsSpace(cells[|cells| - 1]) { TrimKeepsWords(cells[..|cells| - 1]); }
  }

  lemma {:induction false} SpacesDrop(cells: seq<Cell>, i: nat, j: nat)
    requires i < |cells| && IsSpace(cells[i]) && i <= j <= Run(cells, i)
    ensures NonSpaces(cells[i..j]) == []
    decreases j
  {
    if i < j {
      SpacesDrop(cells, i, j - 1);
      RunIs(cells, i, j - 1);
      assert cells[i..j][..j - i - 1] == cells[i..j - 1];
    }
  }

  /** The bodies of the rows, joined. */
  function Bodies(done: seq<seq<Cell>>): seq<Cell> {
    if done == [] then [] else Bodies(done[..|done| - 1]) + TrimEnd(done[|done| - 1])
  }

  lemma {:induction false} ClosedKeepsWords(cells: seq<Cell>, rows: seq<Range>, done: seq<seq<Cell>>, from: nat,
                                            width: nat, indentW: nat)
    requires indentW < width && Closed(cells, rows, from, width, indentW) && Shows(cells, rows, done)
    requires from <= |cells|
    ensures NonSpaces(Bodies(done)) == NonSpaces(cells[..from])
  {
    if rows == [] { return; }
    var n := |rows| - 1;
    var r := rows[n];
    ClosedKeepsWords(cells, rows[..n], done[..n], r.from, width, indentW);
    RowKeepsWords(cells, Bodies(done[..n]), r, from);
  }

  lemma RowKeepsWords(cells: seq<Cell>, before: seq<Cell>, r: Range, from: nat)
    requires r.from <= r.to <= from <= |cells| && NonSpaces(before) == NonSpaces(cells[..r.from])
    requires from == r.to || (IsSpace(cells[r.to]) && from == Run(cells, r.to))
    ensures NonSpaces(before + TrimEnd(cells[r.from..r.to])) == NonSpaces(cells[..from])
  {
    TrimKeepsWords(cells[r.from..r.to]);
    GapDrops(cells, r.to, from);
    Assemble(before, cells[..r.from], cells[r.from..r.to], TrimEnd(cells[r.from..r.to]), cells[r.to..from]);
    Slices(cells, r.from, r.to, from);
  }

  lemma Slices(cells: seq<Cell>, a: nat, b: nat, c: nat)
    requires a <= b <= c <= |cells|
    ensures cells[..c] == cells[..a] + cells[a..b] + cells[b..c]
  {
  }

  lemma Assemble(before: seq<Cell>, pre: seq<Cell>, row: seq<Cell>, trimmed: seq<Cell>, gap: seq<Cell>)
    requires NonSpaces(before) == NonSpaces(pre) && NonSpaces(trimmed) == NonSpaces(row) && NonSpaces(gap) == []
    ensures NonSpaces(before + trimmed) == NonSpaces(pre + row + gap)
  {
    NonSpacesAppend(before, trimmed);
    ThreeParts(pre, row, gap);
  }

  lemma GapDrops(cells: seq<Cell>, i: nat, j: nat)
    requires i <= j <= |cells| && (i == j || (IsSpace(cells[i]) && j == Run(cells, i)))
    ensures NonSpaces(cells[i..j]) == []
  {
    if i < j { SpacesDrop(cells, i, j); }
  }

  lemma ThreeParts(x: seq<Cell>, y: seq<Cell>, z: seq<Cell>)
    ensures NonSpaces(x + y + z) == NonSpaces(x) + NonSpaces(y) + NonSpaces(z)
  {
    NonSpacesAppend(x, y);
    NonSpacesAppend(x + y, z);
  }

  lemma {:induction false} FlattenHasNoNewline(spans: seq<Span>)
    ensures forall c :: c in Flatten(spans) ==> !IsNewline(c.g)
  {
    if spans != [] {
      FlattenHasNoNewline(spans[..|spans| - 1]);
      SpanHasNoNewline(spans[|spans| - 1].text, spans[|spans| - 1].style);
    }
  }

  lemma {:induction false} SpanHasNoNewline(text: seq<Grapheme>, style: Style)
    ensures forall c :: c in SpanCells(text, style) ==> !IsNewline(c.g)
  {
    if text != [] { SpanHasNoNewline(text[..|text| - 1], style); }
  }

  lemma LayoutKeepsWords(cells: seq<Cell>, rows: seq<Range>, done: seq<seq<Cell>>, width: nat, indentW: nat)
    requires indentW < width && IsLayout(cells, rows, width, indentW) && Shows(cells, rows, done)
    ensures NonSpaces(Bodies(done)) == NonSpaces(cells)
  {
    var n := |rows| - 1;
    ClosedKeepsWords(cells, rows[..n], done[..n], rows[n].from, width, indentW);
    RowKeepsWords(cells, Bodies(done[..n]), rows[n], |cells|);
    assert cells[..|cells|] == cells;
  }

  /** Row `k` of the output is its indent and a body. */
  ghost predicate IsRow(shown: Line, k: nat, body: seq<Cell>, indentW: nat, indent: Line) {
    exists own :: shown.spans == Indented(k, indentW, indent) + own && Flatten(own) == body
  }

  lemma RowBody(row: seq<Cell>, k: nat, indentW: nat, indent: Line, fill: Option<Color>)
    requires forall c :: c in row ==> !IsNewline(c.g)
    ensures IsRow(RowLine(row, k, indentW, indent, fill), k, TrimEnd(row), indentW, indent)
  {
    SpansKeepCells(TrimEnd(row));
    var own := Spans(TrimEnd(row));
    assert Flatten(own) == TrimEnd(row);
  }

  lemma RowsAreBodies(cells: seq<Cell>, rows: seq<Range>, done: seq<seq<Cell>>, width: nat, indentW: nat,
                      indent: Line, fill: Option<Color>, k: nat)
    requires indentW < width && IsLayout(cells, rows, width, indentW) && Shows(cells, rows, done) && k < |done|
    requires forall c :: c in cells ==> !IsNewline(c.g)
    ensures IsRow(RowLine(done[k], k, indentW, indent, fill), k, TrimEnd(done[k]), indentW, indent)
  {
    LayoutRow(cells, rows, done, width, indentW, k);
    assert forall c :: c in done[k] ==> c in cells;
    RowBody(done[k], k, indentW, indent, fill);
  }

  /** Every word survives in order with its styles: each row is its indent and a body that
      does not end in whitespace, and the bodies joined read as the line with some whitespace
      gone. */
  lemma WordsSurvive(out: seq<Line>, rows: seq<Range>, done: seq<seq<Cell>>, line: Line, width0: nat, indent: Line)
    requires IsWrapping(out, rows, done, line, width0, indent)
    ensures NonSpaces(Bodies(done)) == NonSpaces(Flatten(line.spans))
    ensures forall k :: 0 <= k < |out| ==>
              IsRow(out[k], k, TrimEnd(done[k]), Min(LineWidth(indent), Max(width0, 1) - 1), indent)
  {
    hide IsRow, RowLine, TrimEnd, NonSpaces, IsLayout, Shows, Flatten, Bodies;
    var width, cells := Max(width0, 1), Flatten(line.spans);
    var indentW := Min(LineWidth(indent), width - 1);
    FlattenHasNoNewline(line.spans);
    LayoutKeepsWords(cells, rows, done, width, indentW);
    forall k | 0 <= k < |out| ensures IsRow(out[k], k, TrimEnd(done[k]), indentW, indent) {
      RowsAreBodies(cells, rows, done, width, indentW, indent, line.fill, k);
    }
  }
}
