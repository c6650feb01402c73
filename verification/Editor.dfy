/** The prompt editor (crates/inline/src/editor.rs): visual rows and the cursor's place in
    them, undo, history, and the input box that shows it (crates/inline/src/chrome.rs).
    The buffer is a sequence of graphemes; offsets count graphemes. */
module Editing {
  import opened Chars
  import opened Styles
  import opened Nats

  const NEWLINE := Grapheme("\n", 0)

  predicate IsNewline(g: Grapheme) { g.text == "\n" }

  predicate IsSpace(g: Grapheme) { AllWhitespace(g.text) }

  // ----- visual rows --------------------------------------------------------------

  /** The graphemes from `start` up to `end` are shown on one row. */
  datatype Row = Row(start: nat, end: nat)

  /** The rows from `i` on, the current one having started at `start` and used `w` cells. */
  function RowsFrom(buf: seq<Grapheme>, width: nat, start: nat, i: nat, w: nat): seq<Row>
    requires start <= i <= |buf|
    decreases |buf| - i
  {
    if i == |buf| then [Row(start, i)]
    else if IsNewline(buf[i]) then [Row(start, i)] + RowsFrom(buf, width, i + 1, i + 1, 0)
    else if w + buf[i].width > width && w > 0 then [Row(start, i)] + RowsFrom(buf, width, i, i + 1, buf[i].width)
    else RowsFrom(buf, width, start, i + 1, w + buf[i].width)
  }

  function VisualRows(buf: seq<Grapheme>, width: nat): seq<Row> {
    RowsFrom(buf, Max(width, 1), 0, 0, 0)
  }

  /** Where the logical line that starts at `i` ends. */
  function LineEnd(buf: seq<Grapheme>, i: nat): (e: nat)
    requires i <= |buf|
    ensures i <= e <= |buf| && (e < |buf| ==> IsNewline(buf[e]))
    ensures forall k :: i <= k < e ==> !IsNewline(buf[k])
    decreases |buf| - i
  {
    if i < |buf| && !IsNewline(buf[i]) then LineEnd(buf, i + 1) else i
  }

  /** Where the logical line around `i` starts. */
  function LineStart(buf: seq<Grapheme>, i: nat): (s: nat)
    requires i <= |buf|
    ensures s <= i && (s > 0 ==> IsNewline(buf[s - 1]))
    ensures forall k :: s <= k < i ==> !IsNewline(buf[k])
  {
    if i > 0 && !IsNewline(buf[i - 1]) then LineStart(buf, i - 1) else i
  }

  /** Cuts the buffer at newlines and where a row would exceed the width. */
  method Rows(buf: seq<Grapheme>, width0: nat) returns (rows: seq<Row>)
    ensures rows == VisualRows(buf, width0)
  {
    var width := Max(width0, 1);
    rows := [];
    var off: nat, more := 0, true;
    assert rows + RowsFrom(buf, width, 0, 0, 0) == VisualRows(buf, width0);
    while more
      invariant more ==> off <= |buf| && rows + RowsFrom(buf, width, off, off, 0) == VisualRows(buf, width0)
      invariant !more ==> rows == VisualRows(buf, width0)
      decreases more, |buf| - off
    {
      var end := LineEnd(buf, off);
      ghost var before := rows;
      rows := LineRows(buf, width, off, end, rows);
      if end == |buf| {
        more := false;
      } else {
        off := end + 1;
      }
    }
  }

  /** The rows of one logical line. */
  method LineRows(buf: seq<Grapheme>, width: nat, off: nat, end: nat, rows0: seq<Row>) returns (rows: seq<Row>)
    requires width >= 1 && off <= |buf| && end == LineEnd(buf, off)
    ensures end == |buf| ==> rows == rows0 + RowsFrom(buf, width, off, off, 0)
    ensures end < |buf| ==> rows + RowsFrom(buf, width, end + 1, end + 1, 0) == rows0 + RowsFrom(buf, width, off, off, 0)
  {
    rows := rows0;
    var start: nat, w: nat, idx: nat := off, 0, off;
    while idx < end
      invariant off <= start <= idx <= end
      invariant rows + RowsFrom(buf, width, start, idx, w) == rows0 + RowsFrom(buf, width, off, off, 0)
    {
      var gw := buf[idx].width;
      if w + gw > width && w > 0 {
        Assoc(rows, [Row(start, idx)], RowsFrom(buf, width, idx, idx + 1, gw));
        rows := rows + [Row(start, idx)];
        start := idx;
        w := 0;
      }
      w := w + gw;
      idx := idx + 1;
    }
    if end < |buf| { Assoc(rows, [Row(start, idx)], RowsFrom(buf, width, end + 1, end + 1, 0)); }
    rows := rows + [Row(start, idx)];
  }

  lemma Assoc(x: seq<Row>, y: seq<Row>, z: seq<Row>)
    ensures x + (y + z) == (x + y) + z
  {
  }

  /** Row `k` is followed by `next`: at once after a soft wrap, past the newline otherwise. */
  ghost predicate Follows(buf: seq<Grapheme>, width: nat, r: Row, next: Row) {
    r.start <= r.end < |buf| && r.end <= next.start <= |buf| &&
    if IsNewline(buf[r.end]) then next.start == r.end + 1
    else next.start == r.end && r.start < r.end && Sum(buf, r.start, r.end) > 0 &&
         Sum(buf, r.start, r.end) + buf[r.end].width > width
  }

  /** A row has no newline, and fits unless a single grapheme is too wide. */
  ghost predicate GoodRow(buf: seq<Grapheme>, width: nat, r: Row) {
    r.start <= r.end <= |buf| && (forall k :: r.start <= k < r.end ==> !IsNewline(buf[k])) &&
    ((forall k :: r.start <= k < r.end ==> buf[k].width <= width) ==> Sum(buf, r.start, r.end) <= width)
  }

  /** `rows` tile `buf[from..]`. */
  ghost predicate Tiled(buf: seq<Grapheme>, width: nat, rows: seq<Row>, from: nat) {
    rows != [] && rows[0].start == from && rows[|rows| - 1].end == |buf| &&
    (forall k :: 0 <= k < |rows| ==> GoodRow(buf, width, rows[k])) &&
    (forall k :: 0 <= k < |rows| - 1 ==> Follows(buf, width, rows[k], rows[k + 1]))
  }

  lemma TiledFirst(buf: seq<Grapheme>, width: nat, rows: seq<Row>, from: nat)
    requires Tiled(buf, width, rows, from)
    ensures rows != [] && rows[0].start == from
  {
  }

  lemma TiledCons(buf: seq<Grapheme>, width: nat, r: Row, rows: seq<Row>, from: nat)
    requires Tiled(buf, width, rows, from) && GoodRow(buf, width, r) && Follows(buf, width, r, rows[0])
    ensures Tiled(buf, width, [r] + rows, r.start)
  {
    var all := [r] + rows;
    forall k | 0 <= k < |all| - 1 ensures Follows(buf, width, all[k], all[k + 1]) {
      if k > 0 { assert all[k] == rows[k - 1] && all[k + 1] == rows[k]; }
    }
  }

  lemma {:induction false} RowsTile(buf: seq<Grapheme>, width: nat, start: nat, i: nat, w: nat)
    requires width >= 1 && start <= i <= |buf| && w == Sum(buf, start, i)
    requires forall k :: start <= k < i ==> !IsNewline(buf[k])
    requires (forall k :: start <= k < i ==> buf[k].width <= width) ==> w <= width
    ensures Tiled(buf, width, RowsFrom(buf, width, start, i, w), start)
    decreases |buf| - i
  {
    var rows := RowsFrom(buf, width, start, i, w);
    if i == |buf| {
    } else if IsNewline(buf[i]) {
      assert rows == [Row(start, i)] + RowsFrom(buf, width, i + 1, i + 1, 0);
      RowsTile(buf, width, i + 1, i + 1, 0);
      hide RowsFrom, Tiled;
      TiledFirst(buf, width, RowsFrom(buf, width, i + 1, i + 1, 0), i + 1);
      TiledCons(buf, width, Row(start, i), RowsFrom(buf, width, i + 1, i + 1, 0), i + 1);
    } else if w + buf[i].width > width && w > 0 {
      assert rows == [Row(start, i)] + RowsFrom(buf, width, i, i + 1, buf[i].width);
      assert Sum(buf, i, i) == 0;
      RowsTile(buf, width, i, i + 1, buf[i].width);
      hide RowsFrom, Tiled;
      TiledFirst(buf, width, RowsFrom(buf, width, i, i + 1, buf[i].width), i);
      TiledCons(buf, width, Row(start, i), RowsFrom(buf, width, i, i + 1, buf[i].width), i);
    } else {
      assert rows == RowsFrom(buf, width, start, i + 1, w + buf[i].width);
      hide RowsFrom, Tiled;
      RowsTile(buf, width, start, i + 1, w + buf[i].width);
    }
  }

  /** The rows tile the whole buffer, with gaps only at newlines; soft wraps are forced. */
  lemma VisualRowsTile(buf: seq<Grapheme>, width: nat)
    ensures Tiled(buf, Max(width, 1), VisualRows(buf, width), 0)
  {
    RowsTile(buf, Max(width, 1), 0, 0, 0);
  }

  // ----- the cursor's row ---------------------------------------------------------------

  /** Row `k` owns the offsets in it.  It owns its end as well unless the row after starts there,
      so an offset where a line is wrapped is the start of a row and not the end of one. */
  predicate Owns(rows: seq<Row>, k: nat, cur: nat)
    requires k < |rows|
  {
    rows[k].start <= cur && (cur < rows[k].end || (cur == rows[k].end && (k + 1 == |rows| || rows[k + 1].start != cur)))
  }

  method CursorRow(rows: seq<Row>, cur: nat) returns (k: nat)
    ensures rows != [] ==> k < |rows|
    ensures (exists r :: 0 <= r < |rows| && Owns(rows, r, cur)) ==> Owns(rows, k, cur)
  {
    k := 0;
    while k < |rows|
      invariant k <= |rows| && forall r :: 0 <= r < k ==> !Owns(rows, r, cur)
    {
      if Owns(rows, k, cur) { return; }
      k := k + 1;
    }
    k := if |rows| == 0 then 0 else |rows| - 1;
  }

  lemma {:induction false} StartsIncrease(buf: seq<Grapheme>, width: nat, rows: seq<Row>, from: nat, i: nat, j: nat)
    requires Tiled(buf, width, rows, from) && i <= j < |rows|
    ensures i < j ==> rows[i].end <= rows[j].start && rows[i].start < rows[j].start
    decreases j
  {
    if i < j {
      StartsIncrease(buf, width, rows, from, i, j - 1);
      assert Follows(buf, width, rows[j - 1], rows[j]);
      assert GoodRow(buf, width, rows[j - 1]);
    }
  }

  /** Every cursor position belongs to exactly one visual row. */
  lemma OwnerIsUnique(buf: seq<Grapheme>, width: nat, rows: seq<Row>, i: nat, j: nat, cur: nat)
    requires Tiled(buf, width, rows, 0) && i < |rows| && j < |rows|
    requires Owns(rows, i, cur) && Owns(rows, j, cur)
    ensures i == j
  {
    if i < j {
      StartsIncrease(buf, width, rows, 0, i, j);
      StartsIncrease(buf, width, rows, 0, i + 1, j);
    } else if j < i {
      StartsIncrease(buf, width, rows, 0, j, i);
      StartsIncrease(buf, width, rows, 0, j + 1, i);
    }
  }

  lemma {:induction false} OwnerFrom(buf: seq<Grapheme>, width: nat, rows: seq<Row>, cur: nat, k: nat) returns (r: nat)
    requires Tiled(buf, width, rows, 0) && k < |rows| && rows[k].start <= cur <= |buf|
    ensures r < |rows| && Owns(rows, r, cur)
    decreases |rows| - k
  {
    if Owns(rows, k, cur) {
      r := k;
    } else {
      assert k + 1 < |rows|;
      assert Follows(buf, width, rows[k], rows[k + 1]);
      r := OwnerFrom(buf, width, rows, cur, k + 1);
    }
  }

  lemma OwnerExists(buf: seq<Grapheme>, width: nat, cur: nat) returns (r: nat)
    requires cur <= |buf|
    ensures r < |VisualRows(buf, width)| && Owns(VisualRows(buf, width), r, cur)
  {
    VisualRowsTile(buf, width);
    r := OwnerFrom(buf, Max(width, 1), VisualRows(buf, width), cur, 0);
  }

  /** Which row owns the cursor, and how many cells are before it in that row. */
  method CursorPos(buf: seq<Grapheme>, cur: nat, width: nat) returns (r: nat, col: nat)
    requires cur <= |buf|
    ensures r < |VisualRows(buf, width)| && Owns(VisualRows(buf, width), r, cur)
    ensures var row := VisualRows(buf, width)[r];
            row.start <= cur <= row.end <= |buf| && col == Sum(buf, row.start, cur)
  {
    var rows := Rows(buf, width);
    ghost var owner := OwnerExists(buf, width, cur);
    r := CursorRow(rows, cur);
    VisualRowsTile(buf, width);
    assert GoodRow(buf, Max(width, 1), rows[r]);
    col := Sum(buf, rows[r].start, cur);
  }

  // ----- moving up and down ------------------------------------------------------------

  /** How far into row `t` a column of `col` cells reaches. */
  function Reach(buf: seq<Grapheme>, t: Row, col: nat, i: nat): (r: nat)
    requires t.start <= i <= t.end <= |buf|
    ensures i <= r <= t.end
    decreases t.end - i
  {
    if i < t.end && Sum(buf, t.start, i + 1) <= col then Reach(buf, t, col, i + 1) else i
  }

  method ReachIn(buf: seq<Grapheme>, t: Row, col: nat) returns (i: nat)
    requires t.start <= t.end <= |buf|
    ensures i == Reach(buf, t, col, t.start)
  {
    i := t.start;
    var w := 0;
    while i < t.end
      invariant t.start <= i <= t.end && w == Sum(buf, t.start, i)
      invariant Reach(buf, t, col, i) == Reach(buf, t, col, t.start)
    {
      if w + buf[i].width > col { break; }
      w := w + buf[i].width;
      i := i + 1;
    }
  }

  lemma {:induction false} ReachIsEnd(buf: seq<Grapheme>, t: Row, col: nat, i: nat)
    requires t.start <= i <= t.end <= |buf| && Sum(buf, t.start, i) <= col
    ensures Reach(buf, t, col, i) == t.end <==> Sum(buf, t.start, t.end) <= col
    decreases t.end - i
  {
    if i < t.end {
      SumSplit(buf, t.start, i + 1, t.end);
      if Sum(buf, t.start, i + 1) <= col { ReachIsEnd(buf, t, col, i + 1); }
    }
  }

  /** A vertical move aimed at row `k` leaves the cursor in that row exactly when the row is
      wider than the column, or ends in a newline or the buffer: otherwise it stops at the soft
      wrap, which belongs to the next row. */
  lemma VerticalMoveLands(buf: seq<Grapheme>, width: nat, k: nat, col: nat)
    requires k < |VisualRows(buf, width)|
    ensures var rows := VisualRows(buf, width);
            var t := rows[k];
            t.start <= t.end <= |buf| &&
            (Owns(rows, k, Reach(buf, t, col, t.start)) <==>
             Sum(buf, t.start, t.end) > col || k + 1 == |rows| || (t.end < |buf| && IsNewline(buf[t.end])))
  {
    var rows, w := VisualRows(buf, width), Max(width, 1);
    VisualRowsTile(buf, width);
    assert GoodRow(buf, w, rows[k]);
    ReachIsEnd(buf, rows[k], col, rows[k].start);
    if k + 1 < |rows| { assert Follows(buf, w, rows[k], rows[k + 1]); }
  }

  // ----- words ---------------------------------------------------------------------------

  function SkipBack(s: seq<Grapheme>, i: nat, space: bool): (r: nat)
    requires i <= |s|
    ensures r <= i
  {
    if i > 0 && IsSpace(s[i - 1]) == space then SkipBack(s, i - 1, space) else i
  }

  function WordLeft(s: seq<Grapheme>, i: nat): (r: nat)
    requires i <= |s|
    ensures r <= i
  {
    SkipBack(s, SkipBack(s, i, true), false)
  }

  function SkipOn(s: seq<Grapheme>, i: nat, space: bool): (r: nat)
    requires i <= |s|
    ensures i <= r <= |s|
    decreases |s| - i
  {
    if i < |s| && IsSpace(s[i]) == space then SkipOn(s, i + 1, space) else i
  }

  function WordRight(s: seq<Grapheme>, i: nat): (r: nat)
    requires i <= |s|
    ensures i <= r <= |s|
  {
    SkipOn(s, SkipOn(s, i, true), false)
  }

  // ----- the editor -----------------------------------------------------------------------

  datatype EditKey =
    | Text(t: seq<Grapheme>)
    | Enter(newline: bool)
    | Backspace(word: bool)
    | Delete(word: bool)
    | Left(word: bool)
    | Right(word: bool)
    | MoveUp | MoveDown
    | ToLineStart | ToLineEnd
    | KillToEnd | KillToStart | Yank
    | Undo

  datatype Outcome = Unchanged | Changed | Submit(text: seq<Grapheme>)

  const MAX_UNDO: nat := 200
  const MAX_HISTORY: nat := 500

  type Text = seq<Grapheme>

  datatype State = State(buf: Text, cur: nat, undo: seq<(Text, nat)>, typing: bool, kill: Text,
                         history: seq<Text>, histIdx: Option<nat>, draft: Option<Text>)

  /** The cursor is in the buffer, so are saved cursors; the history index points at an entry. */
  predicate Ok(s: State) {
    s.cur <= |s.buf| && |s.undo| <= MAX_UNDO &&
    (forall k :: 0 <= k < |s.undo| ==> s.undo[k].1 <= |s.undo[k].0|) &&
    (s.histIdx.Some? ==> s.histIdx.value < |s.history|)
  }

  /** Remember the buffer before a change; consecutive typing is one step. */
  function Snapshot(s: State, typing: bool): State {
    if typing && s.typing then s
    else
      var grown := s.undo + [(s.buf, s.cur)];
      s.(typing := typing, undo := if |grown| > MAX_UNDO then grown[1..] else grown)
  }

  /** What an edit makes of the buffer, the cursor and the kill text. */
  datatype Change = Nothing | Change(buf: Text, cur: nat, kill: Text)

  function Replace(s: State, from: nat, to: nat, t: Text, cur: nat): Change
    requires from <= to <= |s.buf|
  {
    Change(s.buf[..from] + t + s.buf[to..], cur, s.kill)
  }

  /** Carriage returns in typed text become newlines. */
  function Normalized(t: Text): Text {
    seq(|t|, k requires 0 <= k < |t| => if t[k].text == "\r\n" || t[k].text == "\r" then NEWLINE else t[k])
  }

  predicate Blank(t: Text) { forall k :: 0 <= k < |t| ==> IsSpace(t[k]) }

  function Submitted(s: State): (State, Outcome) {
    if Blank(s.buf) then (s, Unchanged)
    else
      var grown := s.history + [s.buf];
      var history :=
        if s.history != [] && s.history[|s.history| - 1] == s.buf then s.history
        else if |grown| > MAX_HISTORY then grown[1..] else grown;
      (s.(buf := [], cur := 0, undo := [], typing := false, histIdx := None, draft := None, history := history), Submit(s.buf))
  }

  function HistoryPrev(s: State): (State, Outcome)
    requires Ok(s)
  {
    if s.history == [] || s.histIdx == Some(0) then (s, Unchanged)
    else
      var idx := if s.histIdx.None? then |s.history| - 1 else s.histIdx.value - 1;
      var text := s.history[idx];
      (s.(draft := if s.histIdx.None? then Some(s.buf) else s.draft, histIdx := Some(idx), buf := text, cur := |text|), Changed)
  }

  function HistoryNext(s: State): (State, Outcome)
    requires Ok(s)
  {
    if s.histIdx.None? then (s, Unchanged)
    else
      var i := s.histIdx.value + 1;
      if i < |s.history| then (s.(histIdx := Some(i), buf := s.history[i], cur := |s.history[i]|), Changed)
      else
        var text := if s.draft.Some? then s.draft.value else [];
        (s.(histIdx := None, buf := text, cur := |text|, draft := None), Changed)
  }

  /** One row up or down, keeping the column; nothing when there is no such row. */
  function Vertical(s: State, up: bool, width: nat): Option<nat>
    requires s.cur <= |s.buf|
  {
    VisualRowsTile(s.buf, width);
    var rows := VisualRows(s.buf, width);
    var r := OwnerOf(rows, 0, s.cur);
    if (up && r == 0) || (!up && r + 1 >= |rows|) then None
    else
      var t := rows[if up then r - 1 else r + 1];
      assert GoodRow(s.buf, Max(width, 1), t) && GoodRow(s.buf, Max(width, 1), rows[r]);
      var from := Min(rows[r].start, s.cur);
      Some(Reach(s.buf, t, Sum(s.buf, from, s.cur), t.start))
  }

  /** The first row that owns the cursor. */
  function OwnerOf(rows: seq<Row>, k: nat, cur: nat): (r: nat)
    requires rows != []
    ensures r < |rows|
    decreases |rows| - k
  {
    if k >= |rows| then |rows| - 1 else if Owns(rows, k, cur) then k else OwnerOf(rows, k + 1, cur)
  }

  /** Keys that edit the buffer; Enter may submit instead. */
  predicate IsEdit(key: EditKey) {
    key.Text? || key.Enter? || key.Backspace? || key.Delete? || key.KillToEnd? || key.KillToStart? || key.Yank?
  }

  predicate Submits(s: State, key: EditKey)
    requires s.cur <= |s.buf|
  {
    key == Enter(false) && !(s.cur > 0 && s.buf[s.cur - 1].text == "\\")
  }

  function ChangeOf(s: State, key: EditKey): Change
    requires Ok(s) && IsEdit(key) && !Submits(s, key)
  {
    match key
    case Text(t) => if t == [] then Nothing else Replace(s, s.cur, s.cur, Normalized(t), s.cur + |t|)
    case Enter(newline) =>
      if newline then Replace(s, s.cur, s.cur, [NEWLINE], s.cur + 1)
      else Replace(s, s.cur - 1, s.cur, [NEWLINE], s.cur)
    case Backspace(word) =>
      if s.cur == 0 then Nothing
      else
        var from := if word then WordLeft(s.buf, s.cur) else s.cur - 1;
        Replace(s, from, s.cur, [], from)
    case Delete(word) =>
      if s.cur >= |s.buf| then Nothing
      else Replace(s, s.cur, if word then WordRight(s.buf, s.cur) else s.cur + 1, [], s.cur)
    case KillToEnd =>
      var e := LineEnd(s.buf, s.cur);
      var end := if e == s.cur && e < |s.buf| then e + 1 else e;
      if end == s.cur then Nothing else Replace(s, s.cur, end, [], s.cur).(kill := s.buf[s.cur..end])
    case KillToStart =>
      var start := LineStart(s.buf, s.cur);
      if start == s.cur then Nothing else Replace(s, start, s.cur, [], start).(kill := s.buf[start..s.cur])
    case Yank => if s.kill == [] then Nothing else Replace(s, s.cur, s.cur, s.kill, s.cur + |s.kill|)
  }

  /** An edit remembers the state before it, unless typing goes on. */
  function Edit(s: State, key: EditKey): (State, Outcome)
    requires Ok(s) && IsEdit(key) && !Submits(s, key)
  {
    match ChangeOf(s, key)
    case Nothing => (s, Unchanged)
    case Change(buf, cur, kill) => (Snapshot(s, key.Text?).(buf := buf, cur := cur, kill := kill), Changed)
  }

  /** Moving the cursor within the buffer. */
  function Moved(s: State, key: EditKey): State
    requires Ok(s) && (key.Left? || key.Right? || key.ToLineStart? || key.ToLineEnd?)
  {
    match key
    case Left(word) =>
      s.(typing := false, cur := if word then WordLeft(s.buf, s.cur) else if s.cur > 0 then s.cur - 1 else 0)
    case Right(word) =>
      s.(typing := false, cur := if word then WordRight(s.buf, s.cur) else if s.cur < |s.buf| then s.cur + 1 else s.cur)
    case ToLineStart => s.(cur := LineStart(s.buf, s.cur))
    case ToLineEnd => s.(cur := LineEnd(s.buf, s.cur))
  }

  function Undid(s: State): (State, Outcome)
    requires Ok(s)
    ensures Ok(Undid(s).0)
  {
    if s.undo == [] then (s, Unchanged)
    else
      var n := |s.undo| - 1;
      (s.(buf := s.undo[n].0, cur := s.undo[n].1, undo := s.undo[..n], typing := false), Changed)
  }

  /** What a key does. */
  function Handle(s: State, key: EditKey, width: nat): (State, Outcome)
    requires Ok(s)
  {
    match key
    case MoveUp =>
      (match Vertical(s, true, width) case Some(i) => (s.(cur := i, typing := false), Changed) case None => HistoryPrev(s))
    case MoveDown =>
      (match Vertical(s, false, width) case Some(i) => (s.(cur := i, typing := false), Changed) case None => HistoryNext(s))
    case Left(_) => (Moved(s, key), Changed)
    case Right(_) => (Moved(s, key), Changed)
    case ToLineStart => (Moved(s, key), Changed)
    case ToLineEnd => (Moved(s, key), Changed)
    case Undo => Undid(s)
    case _ => if Submits(s, key) then Submitted(s) else Edit(s, key)
  }

  class Editor {
    var buf: Text
    /** Always within the buffer. */
    var cur: nat
    var history: seq<Text>
    var histIdx: Option<nat>
    var draft: Option<Text>
    var undo: seq<(Text, nat)>
    var killed: Text
    /** A run of typing is open: more of it takes no snapshot. */
    var typing: bool

    ghost function View(): State
      reads this
    {
      State(buf, cur, undo, typing, killed, history, histIdx, draft)
    }

    constructor ()
      ensures Ok(View()) && View() == State([], 0, [], false, [], [], None, None)
    {
      buf, cur, undo, typing, killed, history, histIdx, draft := [], 0, [], false, [], [], None, None;
    }

    method HandleKey(key: EditKey, width: nat) returns (outcome: Outcome)
      requires Ok(View())
      modifies this
      ensures Ok(View()) && (View(), outcome) == Handle(old(View()), key, width)
    {
      hide Edit, Submitted, Vertical, HistoryPrev, HistoryNext, Undid, WordLeft, WordRight, LineStart, LineEnd;
      outcome := Changed;
      if key.MoveUp? {
        var moved := MoveVertical(true, width);
        if !moved { outcome := GoPrev(); }
      } else if key.MoveDown? {
        var moved := MoveVertical(false, width);
        if !moved { outcome := GoNext(); }
      } else if key.Left? {
        cur := if key.word then WordLeft(buf, cur) else if cur > 0 then cur - 1 else 0;
        typing := false;
      } else if key.Right? {
        cur := if key.word then WordRight(buf, cur) else if cur < |buf| then cur + 1 else cur;
        typing := false;
      } else if key.ToLineStart? {
        cur := LineStart(buf, cur);
      } else if key.ToLineEnd? {
        cur := LineEnd(buf, cur);
      } else if key.Undo? {
        outcome := PopUndo();
      } else if key == Enter(false) && !(cur > 0 && buf[cur - 1].text == "\\") {
        outcome := SubmitBuffer();
      } else {
        outcome := EditBuffer(key);
      }
    }

    method EditBuffer(key: EditKey) returns (outcome: Outcome)
      requires Ok(View()) && IsEdit(key) && !Submits(View(), key)
      modifies this
      ensures Ok(View()) && (View(), outcome) == Edit(old(View()), key)
    {
      outcome := Changed;
      if key.Text? {
        if key.t == [] { return Unchanged; }
        Splice(true, cur, cur, Normalized(key.t), cur + |key.t|);
      } else if key.Enter? {
        if key.newline { Splice(false, cur, cur, [NEWLINE], cur + 1); } else { Splice(false, cur - 1, cur, [NEWLINE], cur); }
      } else if key.Backspace? {
        if cur == 0 { return Unchanged; }
        var from := if key.word then WordLeft(buf, cur) else cur - 1;
        Splice(false, from, cur, [], from);
      } else if key.Delete? {
        if cur >= |buf| { return Unchanged; }
        var to := if key.word then WordRight(buf, cur) else cur + 1;
        Splice(false, cur, to, [], cur);
      } else {
        outcome := KillOrYank(key);
      }
    }

    method KillOrYank(key: EditKey) returns (outcome: Outcome)
      requires Ok(View()) && (key.KillToEnd? || key.KillToStart? || key.Yank?)
      modifies this
      ensures Ok(View()) && (View(), outcome) == Edit(old(View()), key)
    {
      outcome := Changed;
      if key.KillToEnd? {
        var end := LineEnd(buf, cur);
        if end == cur && end < |buf| { end := end + 1; }
        if end == cur { return Unchanged; }
        var text := buf[cur..end];
        Splice(false, cur, end, [], cur);
        killed := text;
      } else if key.KillToStart? {
        var start := LineStart(buf, cur);
        if start == cur { return Unchanged; }
        var text := buf[start..cur];
        Splice(false, start, cur, [], start);
        killed := text;
      } else {
        if killed == [] { return Unchanged; }
        Splice(false, cur, cur, killed, cur + |killed|);
      }
    }

    /** Take a snapshot, then replace `buf[from..to]` and put the cursor at `c`. */
    method Splice(isTyping: bool, from: nat, to: nat, t: Text, c: nat)
      requires Ok(View()) && from <= to <= |buf| && c <= from + |t| + |buf| - to
      modifies `buf, `cur, `typing, `undo
      ensures Ok(View())
      ensures View() == Snapshot(old(View()), isTyping).(buf := old(buf)[..from] + t + old(buf)[to..], cur := c)
    {
      TakeSnapshot(isTyping);
      buf := buf[..from] + t + buf[to..];
      cur := c;
    }

    method PopUndo() returns (outcome: Outcome)
      requires Ok(View())
      modifies this
      ensures Ok(View()) && (View(), outcome) == Undid(old(View()))
    {
      if undo == [] { return Unchanged; }
      var n := |undo| - 1;
      buf, cur, undo, typing := undo[n].0, undo[n].1, undo[..n], false;
      outcome := Changed;
    }

    method TakeSnapshot(isTyping: bool)
      requires Ok(View())
      modifies `typing, `undo
      ensures Ok(View()) && View() == Snapshot(old(View()), isTyping)
    {
      if isTyping && typing { return; }
      typing := isTyping;
      undo := undo + [(buf, cur)];
      if |undo| > MAX_UNDO { undo := undo[1..]; }
    }

    method SubmitBuffer() returns (outcome: Outcome)
      requires Ok(View())
      modifies this
      ensures Ok(View()) && (View(), outcome) == Submitted(old(View()))
    {
      if Blank(buf) { return Unchanged; }
      var text := buf;
      buf := [];
      if history == [] || history[|history| - 1] != text {
        history := history + [text];
        if |history| > MAX_HISTORY { history := history[1..]; }
      }
      cur, histIdx, draft, undo, typing := 0, None, None, [], false;
      outcome := Submit(text);
    }

    method GoPrev() returns (outcome: Outcome)
      requires Ok(View())
      modifies this
      ensures Ok(View()) && (View(), outcome) == HistoryPrev(old(View()))
    {
      if history == [] { return Unchanged; }
      var idx;
      if histIdx.None? {
        draft := Some(buf);
        idx := |history| - 1;
      } else if histIdx.value == 0 {
        return Unchanged;
      } else {
        idx := histIdx.value - 1;
      }
      histIdx := Some(idx);
      buf := history[idx];
      cur := |buf|;
      outcome := Changed;
    }

    method GoNext() returns (outcome: Outcome)
      requires Ok(View())
      modifies this
      ensures Ok(View()) && (View(), outcome) == HistoryNext(old(View()))
    {
      if histIdx.None? { return Unchanged; }
      var i := histIdx.value;
      if i + 1 < |history| {
        histIdx := Some(i + 1);
        buf := history[i + 1];
      } else {
        histIdx := None;
        buf := if draft.Some? then draft.value else [];
        draft := None;
      }
      cur := |buf|;
      outcome := Changed;
    }

    method MoveVertical(up: bool, width: nat) returns (moved: bool)
      requires Ok(View())
      modifies `cur, `typing
      ensures Ok(View())
      ensures match Vertical(old(View()), up, width)
              case Some(i) => moved && View() == old(View()).(cur := i, typing := false)
              case None => !moved && View() == old(View())
    {
      hide Vertical, VisualRows, OwnerOf;
      var rows := Rows(buf, width);
      var r, col := CursorPos(buf, cur, width);
      VerticalFrom(View(), up, width, r);
      if (up && r == 0) || (!up && r + 1 >= |rows|) { return false; }
      var t := rows[if up then r - 1 else r + 1];
      cur := ReachIn(buf, t, col);
      typing := false;
      moved := true;
    }
  }

  /** A vertical move from the row that owns the cursor. */
  lemma VerticalFrom(s: State, up: bool, width: nat, r: nat)
    requires s.cur <= |s.buf| && r < |VisualRows(s.buf, width)| && Owns(VisualRows(s.buf, width), r, s.cur)
    ensures var rows := VisualRows(s.buf, width);
            if (up && r == 0) || (!up && r + 1 >= |rows|) then Vertical(s, up, width) == None
            else
              var t := rows[if up then r - 1 else r + 1];
              t.start <= t.end <= |s.buf| && rows[r].start <= s.cur &&
              Vertical(s, up, width) == Some(Reach(s.buf, t, Sum(s.buf, rows[r].start, s.cur), t.start))
  {
    OwnerOfIs(s.buf, width, r, s.cur);
    VisualRowsTile(s.buf, width);
    var rows := VisualRows(s.buf, width);
    hide VisualRows, OwnerOf;
    if !((up && r == 0) || (!up && r + 1 >= |rows|)) {
      assert GoodRow(s.buf, Max(width, 1), rows[if up then r - 1 else r + 1]);
    }
  }

  /** `OwnerOf` finds the one owner. */
  lemma OwnerOfIs(buf: seq<Grapheme>, width: nat, r: nat, cur: nat)
    requires r < |VisualRows(buf, width)| && Owns(VisualRows(buf, width), r, cur)
    ensures OwnerOf(VisualRows(buf, width), 0, cur) == r
  {
    VisualRowsTile(buf, width);
    FoundIs(buf, Max(width, 1), VisualRows(buf, width), 0, r, cur);
  }

  lemma {:induction false} FoundIs(buf: seq<Grapheme>, width: nat, rows: seq<Row>, k: nat, r: nat, cur: nat)
    requires Tiled(buf, width, rows, 0) && k <= r < |rows| && Owns(rows, r, cur)
    ensures OwnerOf(rows, k, cur) == r
    decreases r - k
  {
    if Owns(rows, k, cur) {
      OwnerIsUnique(buf, width, rows, k, r, cur);
    } else {
      FoundIs(buf, width, rows, k + 1, r, cur);
    }
  }

  // ----- undo undoes ---------------------------------------------------------------------------

  /** An edit that took a snapshot, and one Undo: the buffer, the cursor and the older
      snapshots are back (but for the oldest, if there were already 200). */
  lemma UndoRestores(s: State, key: EditKey)
    requires Ok(s) && Edits(s, key) && !(key.Text? && s.typing)
    ensures Ok(Edit(s, key).0)
    ensures Edit(s, key).0.undo == (if |s.undo| == 200 then s.undo[1..] else s.undo) + [(s.buf, s.cur)]
    ensures var t := Undid(Edit(s, key).0).0;
            t.buf == s.buf && t.cur == s.cur && t.undo == (if |s.undo| == 200 then s.undo[1..] else s.undo)
  {
    var old1 := if |s.undo| == MAX_UNDO then s.undo[1..] else s.undo;
    assert Snapshot(s, key.Text?).undo == old1 + [(s.buf, s.cur)];
    assert (old1 + [(s.buf, s.cur)])[..|old1|] == old1;
    ChangeInBuffer(s, key);
  }

  /** The key edits the buffer and there is something to change. */
  ghost predicate Edits(s: State, key: EditKey)
    requires Ok(s)
  {
    IsEdit(key) && !Submits(s, key) && ChangeOf(s, key) != Nothing
  }

  lemma ChangeInBuffer(s: State, key: EditKey)
    requires Ok(s) && Edits(s, key)
    ensures ChangeOf(s, key).cur <= |ChangeOf(s, key).buf|
  {
  }

  function Typed(s: State, texts: seq<Text>): State
    requires Ok(s) && forall k :: 0 <= k < |texts| ==> texts[k] != []
    ensures Ok(Typed(s, texts))
    decreases |texts|
  {
    if texts == [] then s
    else
      ChangeInBuffer(s, EditKey.Text(texts[0]));
      Typed(Edit(s, EditKey.Text(texts[0])).0, texts[1..])
  }

  lemma {:induction false} TypingKeepsSnapshots(s: State, texts: seq<Text>)
    requires Ok(s) && s.typing && forall k :: 0 <= k < |texts| ==> texts[k] != []
    ensures Typed(s, texts).undo == s.undo
    decreases |texts|
  {
    if texts != [] {
      ChangeInBuffer(s, EditKey.Text(texts[0]));
      TypingKeepsSnapshots(Edit(s, EditKey.Text(texts[0])).0, texts[1..]);
    }
  }

  /** A whole run of typing is one step: one Undo takes back all of it. */
  lemma UndoTakesBackTyping(s: State, texts: seq<Text>)
    requires Ok(s) && !s.typing && texts != [] && forall k :: 0 <= k < |texts| ==> texts[k] != []
    ensures var t := Undid(Typed(s, texts)).0; t.buf == s.buf && t.cur == s.cur
  {
    UndoRestores(s, EditKey.Text(texts[0]));
    TypingKeepsSnapshots(Edit(s, EditKey.Text(texts[0])).0, texts[1..]);
  }

  /** Keys that move the cursor or walk the history. */
  predicate Moves(key: EditKey) {
    key.Left? || key.Right? || key.ToLineStart? || key.ToLineEnd? || key.MoveUp? || key.MoveDown?
  }

  /** A key that ends a run of typing: the source leaves the run open on the keys that go to the
      start or the end of the line, and on steps through the history. */
  predicate StopsTyping(s: State, key: EditKey, width: nat)
    requires Ok(s)
  {
    key.Left? || key.Right? || (key.MoveUp? && Vertical(s, true, width).Some?) || (key.MoveDown? && Vertical(s, false, width).Some?)
  }

  datatype Press = Press(key: EditKey, width: nat)

  predicate AllMove(keys: seq<Press>) { forall k :: 0 <= k < |keys| ==> Moves(keys[k].key) }

  lemma MoveIsOk(s: State, p: Press)
    requires Ok(s) && Moves(p.key)
    ensures var t := Handle(s, p.key, p.width).0;
            Ok(t) && t.undo == s.undo && t.typing == (s.typing && !StopsTyping(s, p.key, p.width))
  {
    if p.key.MoveUp? && Vertical(s, true, p.width).Some? { VerticalInBuffer(s, true, p.width); }
    if p.key.MoveDown? && Vertical(s, false, p.width).Some? { VerticalInBuffer(s, false, p.width); }
  }

  lemma VerticalInBuffer(s: State, up: bool, width: nat)
    requires Ok(s) && Vertical(s, up, width).Some?
    ensures Vertical(s, up, width).value <= |s.buf|
  {
    VisualRowsTile(s.buf, width);
    var rows := VisualRows(s.buf, width);
    var r := OwnerOf(rows, 0, s.cur);
    assert GoodRow(s.buf, Max(width, 1), rows[if up then r - 1 else r + 1]);
  }

  ghost function AfterMoves(s: State, keys: seq<Press>): (t: State)
    requires Ok(s) && AllMove(keys)
    ensures Ok(t) && t.undo == s.undo
    decreases |keys|
  {
    if keys == [] then s
    else
      MoveIsOk(s, keys[0]);
      AfterMoves(Handle(s, keys[0].key, keys[0].width).0, keys[1..])
  }

  ghost predicate SomeStops(s: State, keys: seq<Press>)
    requires Ok(s) && AllMove(keys)
    decreases |keys|
  {
    keys != [] &&
    (StopsTyping(s, keys[0].key, keys[0].width) ||
     (MoveIsOk(s, keys[0]); SomeStops(Handle(s, keys[0].key, keys[0].width).0, keys[1..])))
  }

  lemma {:induction false} TypingGoesOn(s: State, keys: seq<Press>)
    requires Ok(s) && AllMove(keys)
    ensures AfterMoves(s, keys).typing == (s.typing && !SomeStops(s, keys))
    decreases |keys|
  {
    if keys != [] {
      MoveIsOk(s, keys[0]);
      TypingGoesOn(Handle(s, keys[0].key, keys[0].width).0, keys[1..]);
    }
  }

  /** Is the state the one the next Undo brings back? */
  predicate OnTop(s: State) { s.undo != [] && s.undo[|s.undo| - 1] == (s.buf, s.cur) }

  /** One Undo takes back just the text typed last exactly when a run of typing did not go on, or
      the buffer is as the run found it. */
  lemma UndoTakesBackLastIff(s: State, text: Text)
    requires Ok(s) && text != []
    ensures Ok(Edit(s, EditKey.Text(text)).0)
    ensures var t := Undid(Edit(s, EditKey.Text(text)).0).0;
            (t.buf == s.buf && t.cur == s.cur) <==> (!s.typing || OnTop(s))
  {
    ChangeInBuffer(s, EditKey.Text(text));
    if !s.typing {
      UndoRestores(s, EditKey.Text(text));
    } else {
      assert |Edit(s, EditKey.Text(text)).0.buf| == |s.buf| + |text|;
    }
  }

  /** Over typing, any keys that move or walk the history, and more typing: one Undo takes back
      just the last text exactly when one of the keys stopped the run of typing, or left the buffer
      as it was before the run. */
  lemma UndoAfterMovesIff(s: State, keys: seq<Press>, text: Text)
    requires Ok(s) && s.typing && AllMove(keys) && text != []
    ensures var m := AfterMoves(s, keys);
            Ok(Edit(m, EditKey.Text(text)).0) &&
            var t := Undid(Edit(m, EditKey.Text(text)).0).0;
            (t.buf == m.buf && t.cur == m.cur) <==> (SomeStops(s, keys) || OnTop(m))
  {
    TypingGoesOn(s, keys);
    UndoTakesBackLastIff(AfterMoves(s, keys), text);
  }

  /** Typing, a step back into the history, typing and Undo: the buffer from before the first text
      is back, not the entry of the history. */
  lemma UndoSkipsHistory(s: State, first: Text, second: Text, width: nat)
    requires Ok(s) && !s.typing && s.history != [] && s.histIdx.None? && first != [] && second != []
    requires Ok(Edit(s, EditKey.Text(first)).0) && Vertical(Edit(s, EditKey.Text(first)).0, true, width).None?
    ensures var m := Handle(Edit(s, EditKey.Text(first)).0, MoveUp, width).0;
            m.buf == s.history[|s.history| - 1] && Ok(m) && Ok(Edit(m, EditKey.Text(second)).0) &&
            var t := Undid(Edit(m, EditKey.Text(second)).0).0; t.buf == s.buf && t.cur == s.cur
  {
    var a := Edit(s, EditKey.Text(first)).0;
    UndoRestores(s, EditKey.Text(first));
    MoveIsOk(a, Press(MoveUp, width));
    var m := Handle(a, MoveUp, width).0;
    ChangeInBuffer(m, EditKey.Text(second));
    hide Vertical;
    assert Edit(m, EditKey.Text(second)).0.undo == a.undo;
  }

  /** Edits that each took a snapshot, one after another. */
  ghost predicate EditRun(s: State, keys: seq<EditKey>)
    decreases |keys|
  {
    Ok(s) && (keys == [] || (Edits(s, keys[0]) && !(keys[0].Text? && s.typing) && EditRun(Edit(s, keys[0]).0, keys[1..])))
  }

  ghost function Edited(s: State, keys: seq<EditKey>): State
    requires EditRun(s, keys)
    ensures Ok(Edited(s, keys))
    decreases |keys|
  {
    if keys == [] then s else Edited(Edit(s, keys[0]).0, keys[1..])
  }

  function Undone(s: State, n: nat): State
    requires Ok(s)
    ensures Ok(Undone(s, n))
  {
    if n == 0 then s else Undid(Undone(s, n - 1)).0
  }

  /** As many Undos as edits, however many of them (up to the 200 kept), bring back the buffer
      and the cursor. */
  lemma {:induction false} UndosRestore(s: State, keys: seq<EditKey>)
    requires EditRun(s, keys) && |s.undo| + |keys| <= 200
    ensures var t := Undone(Edited(s, keys), |keys|);
            t.buf == s.buf && t.cur == s.cur && t.undo == s.undo
    decreases |keys|
  {
    hide Edit, ChangeOf;
    if keys != [] {
      UndoRestores(s, keys[0]);
      UndosRestore(Edit(s, keys[0]).0, keys[1..]);
    }
  }

  // ----- history keeps the draft --------------------------------------------------------------------

  function Prevs(s: State, n: nat): State
    requires Ok(s)
    ensures Ok(Prevs(s, n))
  {
    if n == 0 then s else HistoryPrev(Prevs(s, n - 1)).0
  }

  function Nexts(s: State, n: nat): State
    requires Ok(s)
    ensures Ok(Nexts(s, n))
  {
    if n == 0 then s else HistoryNext(Nexts(s, n - 1)).0
  }

  lemma {:induction false} PrevsWalk(s: State, n: nat)
    requires Ok(s) && s.histIdx.None? && 1 <= n <= |s.history|
    ensures var t := Prevs(s, n);
            t.history == s.history && t.histIdx == Some(|s.history| - n) && t.draft == Some(s.buf) &&
            t.buf == s.history[|s.history| - n]
  {
    if n > 1 { PrevsWalk(s, n - 1); } else { assert Prevs(s, 0) == s; }
  }

  lemma {:induction false} NextsWalk(s: State, n: nat)
    requires Ok(s) && s.histIdx.Some? && s.histIdx.value + n < |s.history|
    ensures Nexts(s, n).history == s.history && Nexts(s, n).draft == s.draft && Nexts(s, n).histIdx == Some(s.histIdx.value + n)
  {
    if n > 0 { NextsWalk(s, n - 1); }
  }

  /** Going back any number of entries and as many forward restores the draft. */
  lemma DraftComesBack(s: State, n: nat)
    requires Ok(s) && s.histIdx.None? && 1 <= n <= |s.history|
    ensures var t := Nexts(Prevs(s, n), n);
            t.buf == s.buf && t.histIdx.None? && t.history == s.history && t.cur == |s.buf|
  {
    PrevsWalk(s, n);
    NextsWalk(Prevs(s, n), n - 1);
  }
}
