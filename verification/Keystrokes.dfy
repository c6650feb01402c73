/** What each key does to the buffer (`Editor::handle`, crates/inline/src/editor.rs), said of the
    graphemes before and after the cursor. */
module Keystrokes {
  import opened Chars
  import opened Styles
  import opened Nats
  import opened Editing

  /** Only the text, the cursor, the snapshots and the kill text may differ. */
  ghost predicate HistoryAlone(s: State, n: State) { n.history == s.history && n.histIdx == s.histIdx && n.draft == s.draft }

  /** Typed text goes in at the cursor, carriage returns as newlines, and the cursor goes behind it. */
  lemma TypingInserts(s: State, t: Text, width: nat)
    requires Ok(s)
    ensures var (n, outcome) := Handle(s, EditKey.Text(t), width);
            if t == [] then n == s && outcome == Unchanged
            else
              outcome == Changed && HistoryAlone(s, n) && n.kill == s.kill && n.typing &&
              |n.buf| == |s.buf| + |t| && n.cur == s.cur + |t| &&
              n.buf[..s.cur] == s.buf[..s.cur] && n.buf[n.cur..] == s.buf[s.cur..] &&
              forall k :: 0 <= k < |t| ==>
                n.buf[s.cur + k] == if t[k].text in {"\r", "\r\n"} then Grapheme("\n", 0) else t[k]
  {
    if t != [] {
      var n := Handle(s, EditKey.Text(t), width).0;
      assert n.buf == s.buf[..s.cur] + Normalized(t) + s.buf[s.cur..];
    }
  }

  /** Enter puts in a newline, replaces a backslash before the cursor by one, or hands the buffer
      over. */
  lemma EnterMeans(s: State, newline: bool, width: nat)
    requires Ok(s)
    ensures var (n, outcome) := Handle(s, Enter(newline), width);
            if newline then
              outcome == Changed && HistoryAlone(s, n) && !n.typing && n.cur == s.cur + 1 && |n.buf| == |s.buf| + 1 &&
              n.buf[..s.cur] == s.buf[..s.cur] && n.buf[s.cur].text == "\n" && n.buf[n.cur..] == s.buf[s.cur..]
            else if s.cur > 0 && s.buf[s.cur - 1].text == "\\" then
              outcome == Changed && HistoryAlone(s, n) && !n.typing && n.cur == s.cur && |n.buf| == |s.buf| &&
              n.buf[..s.cur - 1] == s.buf[..s.cur - 1] && n.buf[s.cur - 1].text == "\n" && n.buf[s.cur..] == s.buf[s.cur..]
            else SubmitMeansNow(s, n, outcome)
  {
    if newline {
      assert Handle(s, Enter(newline), width).0.buf == s.buf[..s.cur] + [NEWLINE] + s.buf[s.cur..];
    } else if s.cur > 0 && s.buf[s.cur - 1].text == "\\" {
      assert Handle(s, Enter(newline), width).0.buf == s.buf[..s.cur - 1] + [NEWLINE] + s.buf[s.cur..];
    } else {
      SubmitHandsOver(s);
    }
  }

  /** A blank buffer stays; any other is handed over as it is, is the newest entry of the history,
      and leaves an empty editor. */
  ghost predicate SubmitMeansNow(s: State, n: State, outcome: Outcome) {
    if forall k :: 0 <= k < |s.buf| ==> AllWhitespace(s.buf[k].text) then n == s && outcome == Unchanged
    else
      outcome == Submit(s.buf) && n.buf == [] && n.cur == 0 && n.undo == [] && !n.typing && n.kill == s.kill &&
      n.histIdx == None && n.draft == None && n.history != [] && n.history[|n.history| - 1] == s.buf &&
      n.history == if s.history != [] && s.history[|s.history| - 1] == s.buf then s.history
                   else if |s.history| < 500 then s.history + [s.buf]
                   else s.history[1..] + [s.buf]
  }

  lemma SubmitHandsOver(s: State)
    ensures SubmitMeansNow(s, Submitted(s).0, Submitted(s).1)
  {
    assert Blank(s.buf) <==> forall k :: 0 <= k < |s.buf| ==> AllWhitespace(s.buf[k].text);
    var grown := s.history + [s.buf];
    assert |grown| != |s.history|;
    if |grown| > MAX_HISTORY {
      assert grown[1..] == s.history[1..] + [s.buf] && grown[1..][|s.history| - 1] == s.buf;
    }
  }

  /** What a key removes: the graphemes from `a` to `b`, with the cursor left at `a`. */
  ghost predicate Removes(s: State, n: State, a: nat, b: nat) {
    a < b <= |s.buf| && n.buf == s.buf[..a] + s.buf[b..] && n.cur == a && HistoryAlone(s, n) && !n.typing
  }

  predicate IsBlankText(t: seq<Grapheme>) { forall k :: 0 <= k < |t| ==> AllWhitespace(t[k].text) }

  predicate HasNoSpace(t: seq<Grapheme>) { forall k :: 0 <= k < |t| ==> !AllWhitespace(t[k].text) }

  /** From `a` a word back from `b`: a word and the space behind it, up to the next space. */
  ghost predicate WordBack(buf: seq<Grapheme>, a: nat, b: nat) {
    a <= b <= |buf| && (a > 0 ==> AllWhitespace(buf[a - 1].text) && a < b) &&
    exists m: nat :: a <= m <= b && HasNoSpace(buf[a..m]) && IsBlankText(buf[m..b]) && (a == m ==> a == 0)
  }

  /** To `b` a word on from `a`: the space before a word and the word, up to the next space. */
  ghost predicate WordOn(buf: seq<Grapheme>, a: nat, b: nat) {
    a <= b <= |buf| && (b < |buf| ==> AllWhitespace(buf[b].text) && a < b) &&
    exists m: nat :: a <= m <= b && IsBlankText(buf[a..m]) && HasNoSpace(buf[m..b]) && (m == b ==> b == |buf|)
  }

  lemma {:induction false} SkipBackIs(s: seq<Grapheme>, i: nat, space: bool)
    requires i <= |s|
    ensures var r := SkipBack(s, i, space);
            (forall k :: r <= k < i ==> AllWhitespace(s[k].text) == space) && (r > 0 ==> AllWhitespace(s[r - 1].text) != space)
  {
    if i > 0 && IsSpace(s[i - 1]) == space { SkipBackIs(s, i - 1, space); }
  }

  lemma {:induction false} SkipOnIs(s: seq<Grapheme>, i: nat, space: bool)
    requires i <= |s|
    ensures var r := SkipOn(s, i, space);
            (forall k :: i <= k < r ==> AllWhitespace(s[k].text) == space) && (r < |s| ==> AllWhitespace(s[r].text) != space)
    decreases |s| - i
  {
    if i < |s| && IsSpace(s[i]) == space { SkipOnIs(s, i + 1, space); }
  }

  lemma WordLeftIs(s: seq<Grapheme>, i: nat)
    requires i <= |s|
    ensures WordBack(s, WordLeft(s, i), i)
  {
    var m, r := SkipBack(s, i, true), WordLeft(s, i);
    SkipBackIs(s, i, true);
    SkipBackIs(s, m, false);
    hide SkipBack;
    assert r <= m <= i && HasNoSpace(s[r..m]) && IsBlankText(s[m..i]);
  }

  lemma WordRightIs(s: seq<Grapheme>, i: nat)
    requires i <= |s|
    ensures WordOn(s, i, WordRight(s, i))
  {
    var m, r := SkipOn(s, i, true), WordRight(s, i);
    SkipOnIs(s, i, true);
    SkipOnIs(s, m, false);
    hide SkipOn;
    assert i <= m <= r && IsBlankText(s[i..m]) && HasNoSpace(s[m..r]);
  }

  lemma WordMoves(s: seq<Grapheme>, i: nat)
    requires i <= |s|
    ensures (i > 0 ==> WordLeft(s, i) < i) && (i < |s| ==> WordRight(s, i) > i)
  {
    SkipBackIs(s, i, true);
    SkipOnIs(s, i, true);
  }

  /** Backspace removes the grapheme before the cursor, or the word. */
  lemma BackspaceRemoves(s: State, word: bool, width: nat)
    requires Ok(s)
    ensures var (n, outcome) := Handle(s, Backspace(word), width);
            if s.cur == 0 then n == s && outcome == Unchanged
            else outcome == Changed && n.kill == s.kill && Removes(s, n, n.cur, s.cur) &&
                 if word then WordBack(s.buf, n.cur, s.cur) else n.cur == s.cur - 1
  {
    hide WordLeft, WordBack;
    var n := Handle(s, Backspace(word), width).0;
    if s.cur > 0 {
      WordLeftIs(s.buf, s.cur);
      WordMoves(s.buf, s.cur);
      assert s.buf[..n.cur] + [] + s.buf[s.cur..] == s.buf[..n.cur] + s.buf[s.cur..];
    }
  }

  /** Delete removes the grapheme at the cursor, or the word. */
  lemma DeleteRemoves(s: State, word: bool, width: nat)
    requires Ok(s)
    ensures var (n, outcome) := Handle(s, Delete(word), width);
            if s.cur >= |s.buf| then n == s && outcome == Unchanged
            else outcome == Changed && n.kill == s.kill &&
                 exists b: nat :: Removes(s, n, s.cur, b) && if word then WordOn(s.buf, s.cur, b) else b == s.cur + 1
  {
    hide WordRight, WordOn;
    if s.cur < |s.buf| {
      WordRightIs(s.buf, s.cur);
      WordMoves(s.buf, s.cur);
      var n := Handle(s, Delete(word), width).0;
      var b := if word then WordRight(s.buf, s.cur) else s.cur + 1;
      assert s.buf[..s.cur] + [] + s.buf[b..] == s.buf[..s.cur] + s.buf[b..];
      assert Removes(s, n, s.cur, b);
    }
  }

  /** Backspace takes back one typed grapheme. */
  lemma BackspaceUndoesTyping(s: State, g: Grapheme, width: nat)
    requires Ok(s)
    ensures var n := Handle(s, EditKey.Text([g]), width).0;
            Ok(n) && var b := Handle(n, Backspace(false), width).0; b.buf == s.buf && b.cur == s.cur
  {
    TypingInserts(s, [g], width);
    var n := Handle(s, EditKey.Text([g]), width).0;
    ChangeInBuffer(s, EditKey.Text([g]));
    BackspaceRemoves(n, false, width);
    assert n.buf[..s.cur] + n.buf[s.cur + 1..] == s.buf;
  }

  /** Where the line at the cursor starts and ends. */
  ghost predicate OnOneLine(buf: seq<Grapheme>, a: nat, b: nat) {
    a <= b <= |buf| && forall k :: a <= k < b ==> buf[k].text != "\n"
  }

  /** Killing to the end removes the rest of the line, or the newline at its end, and keeps it for a
      yank. */
  lemma KillToEndRemoves(s: State, width: nat)
    requires Ok(s)
    ensures var (n, outcome) := Handle(s, KillToEnd, width);
            if s.cur == |s.buf| then n == s && outcome == Unchanged
            else outcome == Changed && Removes(s, n, s.cur, s.cur + |n.kill|) && n.kill == s.buf[s.cur..s.cur + |n.kill|] &&
                 if s.buf[s.cur].text == "\n" then |n.kill| == 1
                 else OnOneLine(s.buf, s.cur, s.cur + |n.kill|) &&
                      (s.cur + |n.kill| < |s.buf| ==> s.buf[s.cur + |n.kill|].text == "\n")
  {
    var n, e := Handle(s, KillToEnd, width).0, LineEnd(s.buf, s.cur);
    var end := if e == s.cur && e < |s.buf| then e + 1 else e;
    if s.cur < |s.buf| {
      assert n.buf == s.buf[..s.cur] + [] + s.buf[end..] == s.buf[..s.cur] + s.buf[end..];
      assert n.kill == s.buf[s.cur..end];
    }
  }

  lemma KillToStartRemoves(s: State, width: nat)
    requires Ok(s)
    ensures var (n, outcome) := Handle(s, KillToStart, width);
            if s.cur == 0 || s.buf[s.cur - 1].text == "\n" then n == s && outcome == Unchanged
            else outcome == Changed && Removes(s, n, n.cur, s.cur) && n.kill == s.buf[n.cur..s.cur] &&
                 OnOneLine(s.buf, n.cur, s.cur) && (n.cur > 0 ==> s.buf[n.cur - 1].text == "\n")
  {
    var n, start := Handle(s, KillToStart, width).0, LineStart(s.buf, s.cur);
    if start < s.cur {
      assert n.buf == s.buf[..start] + [] + s.buf[s.cur..] == s.buf[..start] + s.buf[s.cur..];
    }
  }

  /** A yank puts the kill text in at the cursor and goes behind it. */
  lemma YankInserts(s: State, width: nat)
    requires Ok(s)
    ensures var (n, outcome) := Handle(s, Yank, width);
            if s.kill == [] then n == s && outcome == Unchanged
            else outcome == Changed && HistoryAlone(s, n) && !n.typing && n.kill == s.kill &&
                 n.buf == s.buf[..s.cur] + s.kill + s.buf[s.cur..] && n.cur == s.cur + |s.kill|
  {
  }

  lemma KillIsEdit(s: State, key: EditKey, width: nat)
    requires Ok(s) && (key.KillToEnd? || key.KillToStart?)
    ensures Ok(Handle(s, key, width).0)
  {
    if ChangeOf(s, key) != Nothing { ChangeInBuffer(s, key); }
  }

  /** A yank after what was removed gives the buffer back. */
  lemma YankPutsBack(s: State, n: State, a: nat, b: nat, width: nat)
    requires Ok(n) && Removes(s, n, a, b) && n.kill == s.buf[a..b]
    ensures var y := Handle(n, Yank, width).0; y.buf == s.buf && y.cur == b
  {
    YankInserts(n, width);
    assert n.buf[..n.cur] + n.kill + n.buf[n.cur..] == s.buf;
    hide Handle;
  }

  /** A yank right after a kill gives the buffer back, with the cursor behind what comes back. */
  lemma YankUndoesKill(s: State, width: nat)
    requires Ok(s)
    ensures var (n, outcome) := Handle(s, KillToEnd, width);
            outcome == Changed ==>
              Ok(n) && var y := Handle(n, Yank, width).0; y.buf == s.buf && y.cur == s.cur + |n.kill|
    ensures var (n, outcome) := Handle(s, KillToStart, width);
            outcome == Changed ==> Ok(n) && var y := Handle(n, Yank, width).0; y.buf == s.buf && y.cur == s.cur
  {
    hide Handle, Removes, Ok;
    YankUndoesKillToEnd(s, width);
    YankUndoesKillToStart(s, width);
  }

  lemma YankUndoesKillToEnd(s: State, width: nat)
    requires Ok(s)
    ensures var (n, outcome) := Handle(s, KillToEnd, width);
            outcome == Changed ==> Ok(n) && var y := Handle(n, Yank, width).0; y.buf == s.buf && y.cur == s.cur + |n.kill|
  {
    hide Handle, Removes;
    var (e, e1) := Handle(s, KillToEnd, width);
    KillToEndRemoves(s, width);
    KillIsEdit(s, KillToEnd, width);
    hide Ok;
    if e1 == Changed { YankPutsBack(s, e, s.cur, s.cur + |e.kill|, width); }
  }

  lemma YankUndoesKillToStart(s: State, width: nat)
    requires Ok(s)
    ensures var (n, outcome) := Handle(s, KillToStart, width);
            outcome == Changed ==> Ok(n) && var y := Handle(n, Yank, width).0; y.buf == s.buf && y.cur == s.cur
  {
    hide Handle, Removes;
    var (b, b1) := Handle(s, KillToStart, width);
    KillToStartRemoves(s, width);
    KillIsEdit(s, KillToStart, width);
    hide Ok;
    if b1 == Changed { YankPutsBack(s, b, b.cur, s.cur, width); }
  }

  /** Moves leave everything but the cursor and the run of typing. */
  ghost predicate OnlyMoves(s: State, n: State) { n == s.(cur := n.cur, typing := n.typing) }

  /** Left and right go one grapheme, or one word; both end a run of typing. */
  lemma LeftRightMove(s: State, word: bool, width: nat)
    requires Ok(s)
    ensures var n := Handle(s, Left(word), width).0;
            OnlyMoves(s, n) && !n.typing && if word then WordBack(s.buf, n.cur, s.cur) else n.cur == if s.cur == 0 then 0 else s.cur - 1
    ensures var n := Handle(s, Right(word), width).0;
            OnlyMoves(s, n) && !n.typing &&
            if word then WordOn(s.buf, s.cur, n.cur) else n.cur == if s.cur == |s.buf| then s.cur else s.cur + 1
  {
    WordLeftIs(s.buf, s.cur);
    WordRightIs(s.buf, s.cur);
  }

  lemma LeftUndoesRight(s: State, width: nat)
    requires Ok(s) && s.cur < |s.buf|
    ensures var n := Handle(s, Right(false), width).0; Ok(n) && Handle(n, Left(false), width).0 == s.(typing := false)
  {
    LeftRightMove(s, false, width);
    LeftRightMove(Handle(s, Right(false), width).0, false, width);
  }

  /** To the start and the end of the line, leaving a run of typing open. */
  lemma LineKeysMove(s: State, width: nat)
    requires Ok(s)
    ensures var n := Handle(s, ToLineStart, width).0;
            n == s.(cur := n.cur) && OnOneLine(s.buf, n.cur, s.cur) && (n.cur > 0 ==> s.buf[n.cur - 1].text == "\n")
    ensures var n := Handle(s, ToLineEnd, width).0;
            n == s.(cur := n.cur) && OnOneLine(s.buf, s.cur, n.cur) && (n.cur < |s.buf| ==> s.buf[n.cur].text == "\n")
  {
  }

  /** `i` is as far into row `t` as `col` cells reach. */
  ghost predicate AtColumn(buf: seq<Grapheme>, t: Row, col: nat, i: nat) {
    t.start <= i <= t.end <= |buf| && (i > t.start ==> Sum(buf, t.start, i) <= col) &&
    (i < t.end ==> Sum(buf, t.start, i + 1) > col)
  }

  lemma {:induction false} ReachIs(buf: seq<Grapheme>, t: Row, col: nat, i: nat)
    requires t.start <= i <= t.end <= |buf| && (i > t.start ==> Sum(buf, t.start, i) <= col)
    ensures AtColumn(buf, t, col, Reach(buf, t, col, i))
    decreases t.end - i
  {
    if i < t.end && Sum(buf, t.start, i + 1) <= col { ReachIs(buf, t, col, i + 1); }
  }

  /** Up and down go to the same column of the row above or below the one that owns the cursor; past
      the first and the last row they walk the history. */
  lemma VerticalKeysMove(s: State, up: bool, width: nat, r: nat)
    requires Ok(s) && r < |VisualRows(s.buf, width)| && Owns(VisualRows(s.buf, width), r, s.cur)
    ensures var rows, (n, outcome) := VisualRows(s.buf, width), Handle(s, if up then MoveUp else MoveDown, width);
            if up && r == 0 then (n, outcome) == HistoryPrev(s)
            else if !up && r + 1 == |rows| then (n, outcome) == HistoryNext(s)
            else outcome == Changed && OnlyMoves(s, n) && !n.typing && rows[r].start <= s.cur &&
                 AtColumn(s.buf, rows[if up then r - 1 else r + 1], Sum(s.buf, rows[r].start, s.cur), n.cur)
  {
    VerticalFrom(s, up, width, r);
    var rows := VisualRows(s.buf, width);
    hide VisualRows, Vertical, Reach, Owns;
    if !(up && r == 0) && !(!up && r + 1 == |rows|) {
      var t := rows[if up then r - 1 else r + 1];
      ReachIs(s.buf, t, Sum(s.buf, rows[r].start, s.cur), t.start);
    }
  }

  /** A step back shows the entry before, or the newest, with the cursor at its end; a step forward
      the entry after, or the draft. */
  lemma HistoryKeysShow(s: State)
    requires Ok(s)
    ensures var (n, outcome) := HistoryPrev(s);
            if s.history == [] || s.histIdx == Some(0) then n == s && outcome == Unchanged
            else
              var i: nat := if s.histIdx.None? then |s.history| - 1 else s.histIdx.value - 1;
              outcome == Changed && n.buf == s.history[i] && n.cur == |n.buf| && n.histIdx == Some(i) && n.history == s.history &&
              n.draft == (if s.histIdx.None? then Some(s.buf) else s.draft) && n.undo == s.undo && n.typing == s.typing && n.kill == s.kill
    ensures var (n, outcome) := HistoryNext(s);
            if s.histIdx.None? then n == s && outcome == Unchanged
            else
              var last := s.histIdx.value + 1 == |s.history|;
              outcome == Changed && n.cur == |n.buf| && n.history == s.history && n.undo == s.undo && n.typing == s.typing && n.kill == s.kill &&
              if last then n.histIdx == None && n.draft == None && n.buf == (if s.draft.Some? then s.draft.value else [])
              else n.buf == s.history[s.histIdx.value + 1] && n.histIdx == Some(s.histIdx.value + 1) && n.draft == s.draft
  {
  }

  /** Undo brings back the newest snapshot and drops it. */
  lemma UndoBringsBack(s: State, width: nat)
    requires Ok(s)
    ensures var (n, outcome) := Handle(s, Undo, width);
            if s.undo == [] then n == s && outcome == Unchanged
            else outcome == Changed && (n.buf, n.cur) == s.undo[|s.undo| - 1] && n.undo == s.undo[..|s.undo| - 1] && !n.typing &&
                 n.kill == s.kill && HistoryAlone(s, n)
  {
  }
}
