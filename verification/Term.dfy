/** The inline terminal writer (crates/inline/src/term.rs): history is printed once, the live
    region below it is redrawn in place, and the cursor is tracked by arithmetic alone.

    The class keeps a ghost screen that executes every operation it sends.  Its invariant says
    what that screen shows; each method says exactly how it changes. */
module Term {
  import opened Styles
  import opened Sgr
  import opened Ansi
  import opened Terminal
  import Width

  /** A frame of the live region, and where to park the cursor in it. */
  datatype LiveFrame = LiveFrame(lines: seq<Line>, cursor: Option<(nat, nat)>)

  // ----- clipping a row ----------------------------------------------------------

  /** The spans from `k` on that fit after `used` cells, the first that does not truncated. */
  function ClipFrom(spans: seq<Span>, k: nat, used: nat, width: nat): seq<Span>
    requires k <= |spans| && used <= width
    decreases |spans| - k
  {
    if k == |spans| then []
    else
      var w := TextWidth(spans[k].text);
      if used + w <= width - 1 then [spans[k]] + ClipFrom(spans, k + 1, used + w, width)
      else [Span(Width.Truncated(spans[k].text, width - used), spans[k].style)]
  }

  /** What of a line is sent to a row of `width` cells. */
  function Clip(line: Line, width: nat): Line {
    if LineWidth(line) <= width then line else Line(ClipFrom(line.spans, 0, 0, width), line.fill)
  }

  lemma SpanWidth(span: Span, rest: seq<Span>)
    ensures SpansWidth([span] + rest) == TextWidth(span.text) + SpansWidth(rest)
    ensures SpansWidth([span]) == TextWidth(span.text)
  {
    SpansWidthAppend([span], rest);
    assert [span][..0] == [];
    assert SpansWidth([span]) == SpansWidth([]) + TextWidth(span.text);
  }

  lemma TruncatedIsMeasured(text: seq<Grapheme>, max: nat)
    requires Measured(text)
    ensures Measured(Width.Truncated(text, max))
  {
    assert |Width.ELLIPSIS.text| == 1 && Width.ELLIPSIS.text[0] == '…';
  }

  lemma {:induction false} ClipFromFits(spans: seq<Span>, k: nat, used: nat, width: nat)
    requires k <= |spans| && used < width
    requires forall i :: 0 <= i < |spans| ==> Measured(spans[i].text)
    ensures used + SpansWidth(ClipFrom(spans, k, used, width)) <= width
    ensures forall i :: 0 <= i < |ClipFrom(spans, k, used, width)| ==> Measured(ClipFrom(spans, k, used, width)[i].text)
    decreases |spans| - k
  {
    if k < |spans| {
      var w, rest := TextWidth(spans[k].text), ClipFrom(spans, k, used, width);
      if used + w <= width - 1 {
        ClipFromFits(spans, k + 1, used + w, width);
        assert rest == [spans[k]] + ClipFrom(spans, k + 1, used + w, width);
        hide ClipFrom, TextWidth;
        SpanWidth(spans[k], ClipFrom(spans, k + 1, used + w, width));
      } else {
        assert rest == [Span(Width.Truncated(spans[k].text, width - used), spans[k].style)] + [];
        Width.TruncatedFitsIff(spans[k].text, width - used);
        TruncatedIsMeasured(spans[k].text, width - used);
        hide ClipFrom, TextWidth, Width.Truncated;
        SpanWidth(Span(Width.Truncated(spans[k].text, width - used), spans[k].style), []);
      }
    }
  }

  /** A clipped line paints no wider than the row. */
  lemma ClipFits(line: Line, width: nat)
    requires MeasuredLine(line) && width >= 1
    ensures CellsWidth(PaintLine(Clip(line, width), width)) <= width
  {
    if LineWidth(line) > width { ClipFromFits(line.spans, 0, 0, width); }
    PaintLineWidth(Clip(line, width), width);
  }

  /** The cells a line shows on a terminal of `w` columns; the last column stays free. */
  function LineCells(line: Line, w: nat): (cells: seq<Painted>)
    requires w >= 2 && MeasuredLine(line)
    ensures CellsWidth(cells) < w
  {
    ClipFits(line, w - 1);
    PaintLine(Clip(line, w - 1), w - 1)
  }

  /** The row a line shows as. */
  function LineRow(line: Line, w: nat): Row
    requires w >= 2 && MeasuredLine(line)
  {
    RowOf(LineCells(line, w), w)
  }

  function LineRows(lines: seq<Line>, w: nat): seq<Row>
    requires w >= 2 && forall k :: 0 <= k < |lines| ==> MeasuredLine(lines[k])
  {
    seq(|lines|, k requires 0 <= k < |lines| => LineRow(lines[k], w))
  }

  lemma ClipEnds(spans: seq<Span>, used: nat, width: nat)
    requires used <= width
    ensures ClipFrom(spans, |spans|, used, width) == []
  {
  }

  lemma ClipStep(spans: seq<Span>, k: nat, used: nat, width: nat)
    requires k < |spans| && used <= width
    ensures var span, w := spans[k], TextWidth(spans[k].text);
            ClipFrom(spans, k, used, width) ==
            if used + w <= width - 1 then [span] + ClipFrom(spans, k + 1, used + w, width)
            else [Span(Width.Truncated(span.text, width - used), span.style)]
  {
  }

  /** The tokens of a line, cut with an ellipsis if it would wrap. */
  method EncodeRow(line: Line, width: nat) returns (out: seq<Token>)
    requires MeasuredLine(line) && width >= 1
    ensures Read(PLAIN, out) == (LineCells(line, width + 1), PLAIN)
  {
    var shown := line;
    if LineWidth(line) > width { shown := ClipLine(line, width); }
    out := Encode(shown, width);
  }

  method ClipLine(line: Line, width: nat) returns (out: Line)
    requires LineWidth(line) > width
    ensures out == Clip(line, width)
  {
    hide Width.Truncated, TextWidth, ClipFrom, LineWidth;
    var clipped: seq<Span> := [];
    var used: nat, k: nat := 0, 0;
    while k < |line.spans|
      invariant k <= |line.spans| && used <= width
      invariant clipped + ClipFrom(line.spans, k, used, width) == ClipFrom(line.spans, 0, 0, width)
    {
      var span := line.spans[k];
      var w := TextWidth(span.text);
      ClipStep(line.spans, k, used, width);
      if used + w > width - 1 {
        var t := Width.Truncate(span.text, width - used);
        return Line(clipped + [Span(t, span.style)], line.fill);
      }
      SpansAssoc(clipped, [span], ClipFrom(line.spans, k + 1, used + w, width));
      clipped := clipped + [span];
      used := used + w;
      k := k + 1;
    }
    ClipEnds(line.spans, used, width);
    assert clipped + [] == clipped;
    out := Line(clipped, line.fill);
  }

  lemma SpansAssoc(x: seq<Span>, y: seq<Span>, z: seq<Span>)
    ensures x + (y + z) == (x + y) + z
  {
  }

  // ----- the tape as history, live rows and blanks ------------------------------------

  function Blanks(w: nat, n: nat): seq<Row> { seq(n, _ => Erased(w, Default)) }

  function TapeOf(above: seq<Row>, live: seq<Row>, w: nat, len: nat): seq<Row>
    requires |above| + |live| <= len
  {
    above + live + Blanks(w, len - |above| - |live|)
  }

  /** The screen shows `above`, then `live`, then blank rows; the cursor is on row `y`, no row
      has wrapped, and the region's top has not left the screen. */
  ghost predicate Showing(s: Screen, above: seq<Row>, live: seq<Row>, y: nat, len: nat) {
    && Wf(s) && s.pen == PLAIN && !s.wrapped && s.x < s.w && s.y == y
    && |above| + |live| <= len && |above| < len <= |above| + s.h && |s.tape| == len
    && s.tape == TapeOf(above, live, s.w, len)
  }

  lemma ShowingFacts(s: Screen, above: seq<Row>, live: seq<Row>, y: nat, len: nat)
    requires Showing(s, above, live, y, len)
    ensures Wf(s) && s.y == y && |s.tape| == len && |above| + |live| <= len && |above| < len <= |above| + s.h
  {
  }

  lemma HiddenShows(s: Screen, above: seq<Row>, live: seq<Row>, y: nat, len: nat)
    requires Showing(s, above, live, y, len)
    ensures Showing(s.(shown := false), above, live, y, len)
  {
  }

  lemma StepCr(s: Screen, above: seq<Row>, live: seq<Row>, y: nat, len: nat)
    requires Showing(s, above, live, y, len)
    ensures Showing(Exec(s, Cr), above, live, y, len) && AtStart(Exec(s, Cr)) && Exec(s, Cr).shown == s.shown
  {
  }

  lemma StepRight(s: Screen, above: seq<Row>, live: seq<Row>, y: nat, len: nat, n: nat)
    requires Showing(s, above, live, y, len) && s.x == 0 && n < s.w
    ensures Showing(Exec(s, Right(n)), above, live, y, len) && Exec(s, Right(n)).x == n && Exec(s, Right(n)).shown == s.shown
  {
  }

  lemma StepShow(s: Screen, above: seq<Row>, live: seq<Row>, y: nat, len: nat)
    requires Showing(s, above, live, y, len)
    ensures Showing(Exec(s, ShowCursor), above, live, y, len) && Exec(s, ShowCursor).shown && Exec(s, ShowCursor).x == s.x
  {
  }

  lemma PlainShown(s: Screen, above: seq<Row>, len: nat)
    requires Showing(s, above, [], |above|, len)
    ensures var t := Run(s, [Put(Pen(PLAIN)), ShowCursor]); Showing(t, above, [], |above|, len) && t.shown && |t.tape| == len
  {
    RunTwo(s, Put(Pen(PLAIN)), ShowCursor);
    SgrRoundTrip(PLAIN, PLAIN);
  }

  /** Down to a row that exists. */
  lemma StepDown(s: Screen, above: seq<Row>, live: seq<Row>, y: nat, len: nat, n: nat)
    requires Showing(s, above, live, y, len) && y + n < len
    ensures Showing(Exec(s, Down(n)), above, live, y + n, len)
  {
  }

  lemma StepUp(s: Screen, above: seq<Row>, live: seq<Row>, y: nat, len: nat, n: nat)
    requires Showing(s, above, live, y, len) && |above| + n <= y
    ensures Showing(Exec(s, Up(n)), above, live, y - n, len) && Exec(s, Up(n)).shown == s.shown
  {
  }

  /** A line feed goes down, adding a blank row (and so scrolling) at the bottom. */
  lemma StepLf(s: Screen, above: seq<Row>, live: seq<Row>, y: nat, len: nat)
    requires Showing(s, above, live, y, len) && y + 1 < |above| + s.h
    ensures Showing(Exec(s, Lf), above, live, y + 1, if y + 1 < len then len else len + 1)
    ensures Exec(s, Lf).x == s.x
  {
    if y + 1 == len {
      var w, k := s.w, len - |above| - |live|;
      assert Blanks(w, k + 1) == Blanks(w, k) + [Erased(w, Default)];
      assert TapeOf(above, live, w, len + 1) == TapeOf(above, live, w, len) + [Erased(w, Default)];
    }
  }

  /** Live rows of which the first `i` are already the new ones. */
  function Mixed(news: seq<Row>, olds: seq<Row>, i: nat): seq<Row>
    requires i <= |news|
  {
    news[..i] + if i < |olds| then olds[i..] else []
  }

  lemma ReplaceRow(above: seq<Row>, news: seq<Row>, olds: seq<Row>, w: nat, len: nat, i: nat)
    requires i < |news| && |above| + |Mixed(news, olds, i)| <= len && |above| + i < len
    ensures |above| + |Mixed(news, olds, i + 1)| <= len
    ensures TapeOf(above, Mixed(news, olds, i), w, len)[|above| + i := news[i]] ==
            TapeOf(above, Mixed(news, olds, i + 1), w, len)
  {
  }

  lemma PaintHere(s: Screen, tokens: seq<Token>, cells: seq<Painted>, above: seq<Row>, news: seq<Row>, olds: seq<Row>, i: nat, len: nat)
    requires i < |news| && Showing(s, above, Mixed(news, olds, i), |above| + i, len) && s.x == 0
    requires Read(PLAIN, tokens) == (cells, PLAIN) && CellsWidth(cells) < s.w && RowOf(cells, s.w) == news[i]
    ensures Showing(Run(s, Puts(tokens) + [EraseRight]), above, Mixed(news, olds, i + 1), |above| + i, len)
  {
    PaintRow(s, tokens, cells);
    ReplaceRow(above, news, olds, s.w, len, i);
  }

  lemma PaintNext(s: Screen, tokens: seq<Token>, cells: seq<Painted>, above: seq<Row>, news: seq<Row>, olds: seq<Row>, i: nat, len: nat)
    requires i < |news| && Showing(s, above, Mixed(news, olds, i), |above| + i, len)
    requires Read(PLAIN, tokens) == (cells, PLAIN) && CellsWidth(cells) < s.w && RowOf(cells, s.w) == news[i]
    ensures Showing(Run(s, [Cr] + (Puts(tokens) + [EraseRight])), above, Mixed(news, olds, i + 1), |above| + i, len)
  {
    StepCr(s, above, Mixed(news, olds, i), |above| + i, len);
    RunAppend(s, [Cr], Puts(tokens) + [EraseRight]);
    RunOne(s, Cr);
    PaintHere(Exec(s, Cr), tokens, cells, above, news, olds, i, len);
  }

  /** Down to live row `i`, creating it if there were fewer. */
  lemma MoveNext(s: Screen, above: seq<Row>, live: seq<Row>, i: nat, len: nat, had: nat)
    requires i > 0 && Showing(s, above, live, |above| + i - 1, len) && i + 1 < s.h && |above| + had <= len
    ensures var ops := if i < had then [Down(1)] else [Cr, Lf];
            Showing(Run(s, ops), above, live, |above| + i, Max(len, |above| + i + 1))
  {
    if i < had {
      RunOne(s, Down(1));
      StepDown(s, above, live, |above| + i - 1, len, 1);
    } else {
      RunTwo(s, Cr, Lf);
      StepCr(s, above, live, |above| + i - 1, len);
      StepLf(Exec(s, Cr), above, live, |above| + i - 1, len);
    }
  }

  /** Erasing from the start of row `y` drops every live row from there on. */
  lemma EraseFrom(s: Screen, above: seq<Row>, live: seq<Row>, y: nat, len: nat, keep: nat)
    requires Showing(s, above, live, y, len) && s.x == 0 && y == |above| + keep && keep <= |live|
    ensures Showing(Exec(s, EraseBelow), above, live[..keep], y, len)
  {
    var t := Exec(s, EraseBelow);
    assert s.tape[y][..0] + Erased(s.w, Default) == Erased(s.w, Default);
    assert s.tape[..y] == above + live[..keep];
    assert t.tape == TapeOf(above, live[..keep], s.w, len);
  }

  /** Clearing the rows a shorter frame no longer has, from its last row. */
  lemma ClearRest(s: Screen, above: seq<Row>, live: seq<Row>, n: nat, len: nat)
    requires n < |live| && Showing(s, above, live, |above| + (if n > 0 then n - 1 else 0), len)
    ensures var last: nat := if n > 0 then n - 1 else 0;
            Showing(Run(s, [Cr, Lf, EraseBelow, Up(1)]), above, live[..last + 1], |above| + last, Max(len, |above| + last + 2))
  {
    hide Showing, Run, Exec;
    var last: nat := if n > 0 then n - 1 else 0;
    var y, len2 := |above| + last, Max(len, |above| + last + 2);
    ShowingFacts(s, above, live, y, len);
    RunAppend(s, [Cr, Lf], [EraseBelow, Up(1)]);
    assert [Cr, Lf] + [EraseBelow, Up(1)] == [Cr, Lf, EraseBelow, Up(1)];
    RunTwo(s, Cr, Lf);
    var t1 := Exec(s, Cr);
    StepCr(s, above, live, y, len);
    ShowingFacts(t1, above, live, y, len);
    StepLf(t1, above, live, y, len);
    var t2 := Exec(t1, Lf);
    RunTwo(t2, EraseBelow, Up(1));
    EraseFrom(t2, above, live, y + 1, len2, last + 1);
    StepUp(Exec(t2, EraseBelow), above, live[..last + 1], y + 1, len2, 1);
  }

  /** An empty frame blanks the region's first row. */
  lemma ClearFirst(s: Screen, above: seq<Row>, live: seq<Row>, len: nat)
    requires |live| <= 1 && Showing(s, above, live, |above|, len)
    ensures Showing(Run(s, [Cr, EraseRight]), above, [], |above|, len)
  {
    RunTwo(s, Cr, EraseRight);
    var t := Exec(s, Cr);
    var w, k := s.w, len - |above|;
    assert t.tape[t.y][..0] + Erased(w, Default) == Erased(w, Default);
    assert Blanks(w, k) == [Erased(w, Default)] + Blanks(w, k - 1);
    assert TapeOf(above, live, w, len)[|above| := Erased(w, Default)] == TapeOf(above, [], w, len);
  }

  /** A line printed at the start of the region joins the rows above it. */
  lemma PrintOne(s: Screen, tokens: seq<Token>, cells: seq<Painted>, above: seq<Row>, live: seq<Row>, row: Row, len: nat)
    requires Showing(s, above, live, |above|, len) && s.x == 0
    requires Read(PLAIN, tokens) == (cells, PLAIN) && CellsWidth(cells) < s.w && RowOf(cells, s.w) == row
    ensures var t := Run(s, (Puts(tokens) + [EraseRight]) + [Cr, Lf]);
            Showing(t, above + [row], if live == [] then [] else live[1..], |above| + 1, Max(len, |above| + 2)) && t.x == 0
  {
    hide Showing, Run, Exec, Read, RowOf, Wf, TapeOf, CellsWidth;
    var rest := if live == [] then [] else live[1..];
    var base := |above|;
    ShowingFacts(s, above, live, base, len);
    assert Mixed([row], live, 0) == live && Mixed([row], live, 1) == [row] + rest;
    PaintHere(s, tokens, cells, above, [row], live, 0, len);
    var t := Run(s, Puts(tokens) + [EraseRight]);
    RunAppend(s, Puts(tokens) + [EraseRight], [Cr, Lf]);
    RunTwo(t, Cr, Lf);
    StepCr(t, above, [row] + rest, base, len);
    ShowingFacts(t, above, [row] + rest, base, len);
    StepLf(Exec(t, Cr), above, [row] + rest, base, len);
    Promote(Exec(Exec(t, Cr), Lf), above, row, rest, Max(len, base + 2));
  }

  lemma Promote(s: Screen, above: seq<Row>, row: Row, rest: seq<Row>, len: nat)
    requires Showing(s, above, [row] + rest, |above| + 1, len)
    ensures Showing(s, above + [row], rest, |above| + 1, len)
  {
    assert (above + [row]) + rest == above + ([row] + rest);
  }

  lemma LineDraws(tokens: seq<Token>, line: Line, w: nat)
    requires w >= 2 && MeasuredLine(line) && Read(PLAIN, tokens) == (LineCells(line, w), PLAIN)
    ensures RowOf(LineCells(line, w), w) == LineRow(line, w) && CellsWidth(LineCells(line, w)) < w
    ensures Draws(tokens, LineRow(line, w), w)
  {
  }

  lemma RowsAssoc(x: seq<Row>, y: seq<Row>, z: seq<Row>)
    ensures x + (y + z) == (x + y) + z
  {
  }

  lemma PutsAreQuiet(tokens: seq<Token>)
    ensures Quiet((Puts(tokens) + [EraseRight]) + [Cr, Lf])
  {
  }

  lemma EraseKeeps(s: Screen)
    requires Wf(s)
    ensures Exec(s, EraseBelow).x == s.x && Exec(s, EraseBelow).shown == s.shown
  {
  }

  predicate Quiet(ops: seq<Op>) { forall k :: 0 <= k < |ops| ==> !ops[k].ShowCursor? && !ops[k].HideCursor? }

  lemma {:induction false} ShownKept(s: Screen, ops: seq<Op>)
    requires Wf(s) && Quiet(ops)
    ensures Run(s, ops).shown == s.shown
    decreases |ops|
  {
    if ops != [] { ShownKept(Exec(s, ops[0]), ops[1..]); }
  }

  /** How long the tape is after drawing `n` rows over `had` at row `base`.  Only an empty
      frame over a single row at the very bottom adds a row it does not use. */
  function LenAfter(len: nat, base: nat, n: nat, had: nat): nat {
    if n == 0 && had > 0 then Max(len, base + 2) else Max(len, base + n)
  }

  // ----- the writer ----------------------------------------------------------------------

  /** The lines of a frame that fit: its last `rows`. */
  function Bottom(lines: seq<Line>, rows: nat): seq<Line> {
    if |lines| <= rows then lines else lines[|lines| - rows..]
  }

  ghost predicate MeasuredLines(lines: seq<Line>) { forall k :: 0 <= k < |lines| ==> MeasuredLine(lines[k]) }

  /** `tokens` paint `row`. */
  ghost predicate Draws(tokens: seq<Token>, row: Row, w: nat) {
    var (cells, pen) := Read(PLAIN, tokens);
    pen == PLAIN && CellsWidth(cells) < w && row == RowOf(cells, w)
  }

  ghost predicate AllDraw(rows: seq<seq<Token>>, shown: seq<Row>, w: nat) {
    |rows| == |shown| && forall k :: 0 <= k < |rows| ==> Draws(rows[k], shown[k], w)
  }

  lemma NothingDrawn(w: nat)
    ensures AllDraw([], [], w)
  {
  }

  method EncodeAll(lines: seq<Line>, w: nat) returns (rows: seq<seq<Token>>)
    requires w >= 2 && MeasuredLines(lines)
    ensures AllDraw(rows, LineRows(lines, w), w)
  {
    hide Draws, LineRow, LineCells, Read, CellsWidth, RowOf;
    rows := [];
    for k := 0 to |lines|
      invariant |rows| == k && forall i :: 0 <= i < k ==> Draws(rows[i], LineRow(lines[i], w), w)
    {
      var row := EncodeRow(lines[k], w - 1);
      LineDraws(row, lines[k], w);
      rows := rows + [row];
    }
  }

  lemma DrawAt(rows: seq<seq<Token>>, shown: seq<Row>, w: nat, k: nat)
    requires AllDraw(rows, shown, w) && k < |rows|
    ensures Draws(rows[k], shown[k], w)
  {
  }

  /** An unchanged encoding means an unchanged row. */
  lemma SameTokens(rows: seq<seq<Token>>, news: seq<Row>, drawn: seq<seq<Token>>, olds: seq<Row>, w: nat, i: nat)
    requires AllDraw(rows, news, w) && AllDraw(drawn, olds, w) && i < |rows| && i < |drawn| && rows[i] == drawn[i]
    ensures Mixed(news, olds, i + 1) == Mixed(news, olds, i)
  {
    hide Read, RowOf, CellsWidth;
    DrawAt(rows, news, w, i);
    DrawAt(drawn, olds, w, i);
    assert news[i] == olds[i];
  }

  lemma MixedEnds(news: seq<Row>, olds: seq<Row>)
    ensures Mixed(news, olds, 0) == olds
    ensures |Mixed(news, olds, |news|)| == Max(|news|, |olds|)
    ensures |olds| <= |news| ==> Mixed(news, olds, |news|) == news
    ensures |news| < |olds| ==> Mixed(news, olds, |news|)[..|news|] == news
  {
  }

  class InlineTerminal {
    var width: nat
    var height: nat
    /** What the live rows were last drawn as, first to last. */
    var drawn: seq<seq<Token>>
    /** The cursor's row, counted from the first live row. */
    var cursorRow: nat
    var cursorVisible: bool
    var synchronized: bool
    /** Everything sent so far. */
    var out: seq<Op>

    /** The terminal as it was taken over. */
    ghost const begin: Screen
    /** What it shows now; the rows above the live region, of which `printed` are ours; the live
        rows. */
    ghost var screen: Screen
    ghost var prior: seq<Row>
    ghost var printed: seq<Row>
    ghost var live: seq<Row>

    ghost function Above(): seq<Row>
      reads this
    {
      prior + printed
    }

    ghost predicate Valid()
      reads this
    {
      && width >= 2 && height >= 2 && Wf(screen) && screen.w == width && screen.h == height
      && |drawn| <= height - 1 && cursorRow < Max(1, |drawn|)
      && AllDraw(drawn, live, width)
      && Showing(screen, Above(), live, |Above()| + cursorRow, |screen.tape|)
      && screen.shown == cursorVisible
      && Sent()
    }

    /** The screen is what executing everything sent makes of the terminal taken over. */
    ghost predicate Sent()
      reads this
    {
      Wf(begin) && screen == Run(begin, out)
    }

    /** A terminal whose cursor is at the start of a blank row with nothing below it. */
    constructor (width: nat, height: nat, ghost start: Screen)
      requires Wf(start) && start.w == Max(width, 2) && start.h == Max(height, 2)
      requires start.pen == PLAIN && !start.wrapped && start.x == 0 && start.shown
      requires forall r :: start.y <= r < |start.tape| ==> start.tape[r] == Erased(start.w, Default)
      ensures Valid() && begin == screen == start && out == []
      ensures prior == start.tape[..start.y] && printed == [] && live == []
    {
      begin := start;
      this.width := if width < 2 then 2 else width;
      this.height := if height < 2 then 2 else height;
      drawn, cursorRow, cursorVisible, synchronized := [], 0, true, true;
      out := [];
      screen, prior, printed, live := start, start.tape[..start.y], [], [];
      new;
      RunNone(start);
      assert start.tape == TapeOf(Above(), [], start.w, |start.tape|);
    }

    function ContentWidth(): nat
      requires width >= 2
      reads this
    {
      width - 1
    }

    function MaxLiveRows(): nat
      requires height >= 2
      reads this
    {
      height - 1
    }

    /** What the frame is to show. */
    ghost function Target(frame: LiveFrame): seq<Row>
      requires width >= 2 && height >= 2 && MeasuredLines(frame.lines)
      reads this
    {
      LineRows(Bottom(frame.lines, height - 1), width)
    }

    /** The cursor is parked where the frame asks for it, or hidden. */
    ghost predicate Parked(frame: LiveFrame)
      requires height >= 2
      reads this
    {
      var skip := |frame.lines| - |Bottom(frame.lines, height - 1)|;
      match frame.cursor
      case Some((r, c)) =>
        if skip <= r < |frame.lines| then
          cursorVisible && screen.y == |Above()| + r - skip && screen.x == Min(c, width - 1)
        else !cursorVisible && screen.x == 0
      case None => !cursorVisible && screen.x == 0
    }

    /** Show a frame: rows drawn the same are skipped. */
    method Draw(frame: LiveFrame)
      requires Valid() && MeasuredLines(frame.lines)
      modifies this
      ensures Valid() && old(out) <= out && prior == old(prior) && printed == old(printed)
      ensures width == old(width) && height == old(height) && synchronized == old(synchronized)
      ensures live == Target(frame) && Parked(frame)
      ensures |screen.tape| == LenAfter(old(|screen.tape|), |Above()|, |live|, old(|live|))
      // The tape is that of repainting everything, but for an empty frame over one bottom row.
      ensures screen.tape == Run(old(screen), Repaint(old(cursorRow), drawn)).tape <==>
              !(live == [] && old(|live|) == 1 && old(|screen.tape|) == |Above()| + 1)
    {
      hide Showing, Run, Repaint, Exec, TapeOf, Wf, LineRow, Read, RowOf, LineCells, Draws, Clip;
      ghost var len, from, row, olds := |screen.tape|, screen, cursorRow, live;
      var buf := Begin();
      HiddenShows(screen, Above(), live, |Above()| + cursorRow, len);
      buf := MoveToTop(buf, len);
      SendRows(frame, buf, live, len);
      DrawIsRepaint(from, screen, row, |Above()| + cursorRow, drawn, Above(), olds, live, len);
    }

    /** Draw the rows and send everything. */
    method SendRows(frame: LiveFrame, buf0: seq<Op>, ghost olds: seq<Row>, ghost len: nat)
      requires Wf(screen) && screen.w == width >= 2 && screen.h == height >= 2 && MeasuredLines(frame.lines) && Sent()
      requires |drawn| <= height - 1 && AllDraw(drawn, olds, width)
      requires var s := Run(screen, buf0); Showing(s, Above(), olds, |Above()|, len) && s.x == 0 && !s.shown
      modifies `drawn, `cursorRow, `cursorVisible, `live, `out, `screen
      ensures Valid() && old(out) <= out && live == Target(frame) && Parked(frame)
      ensures |screen.tape| == LenAfter(len, |Above()|, |live|, |olds|)
    {
      hide Showing, Run, Exec, TapeOf, Wf, LineRow, Read, RowOf, LineCells, Draws, Clip, AllDraw, Repaint;
      var buf := DrawRows(frame, buf0, olds, len);
      ShowingFacts(Run(screen, buf), Above(), live, |Above()| + cursorRow, LenAfter(len, |Above()|, |live|, |olds|));
      buf := End(buf);
      Flush(buf);
    }

    /** Put lines above the live region for good, and show a frame under them. */
    method Print(history: seq<Line>, frame: LiveFrame)
      requires Valid() && MeasuredLines(frame.lines) && MeasuredLines(history)
      modifies this
      ensures Valid() && old(out) <= out && prior == old(prior) && printed == old(printed) + LineRows(history, width)
      ensures width == old(width) && height == old(height) && synchronized == old(synchronized)
      ensures live == Target(frame) && Parked(frame)
      ensures |screen.tape| == Max(old(|screen.tape|), |Above()| + Max(1, |live|))
    {
      hide Showing, Run, Exec, TapeOf, Wf, LineRow, Read, RowOf, LineCells, Draws, Clip, AllDraw, Repaint, MeasuredLine;
      ghost var len := |screen.tape|;
      var buf := Begin();
      HiddenShows(screen, Above(), live, |Above()| + cursorRow, len);
      buf := MoveToTop(buf, len);
      buf := PrintHistory(history, buf, len);
      NothingDrawn(width);
      SendRows(frame, buf, [], Max(len, |Above()| + 1));
    }

    /** The history lines, then everything below them erased. */
    method PrintHistory(history: seq<Line>, buf0: seq<Op>, ghost len: nat) returns (buf: seq<Op>)
      requires Wf(screen) && screen.w == width >= 2 && screen.h == height >= 2 && MeasuredLines(history)
      requires var s := Run(screen, buf0); Showing(s, Above(), live, |Above()|, len) && s.x == 0 && !s.shown
      modifies `drawn, `live, `printed, `cursorRow
      ensures drawn == [] && live == [] && cursorRow == 0 && printed == old(printed) + LineRows(history, width)
      ensures var s := Run(screen, buf); Showing(s, Above(), [], |Above()|, Max(len, |Above()| + 1)) && s.x == 0 && !s.shown
    {
      hide Showing, Run, Exec, TapeOf, Wf, LineRow;
      ghost var rest;
      buf, rest := PrintLines(history, buf0, live, len);
      // No old live row is left above the cursor.
      ghost var s, above, len2 := Run(screen, buf), Above() + LineRows(history, width), Max(len, |Above()| + |history| + 1);
      ShowingFacts(s, above, rest, |above|, len2);
      EraseFrom(s, above, rest, |above|, len2, 0);
      assert rest[..0] == [];
      RunAppend(screen, buf, [EraseBelow]);
      RunOne(s, EraseBelow);
      EraseKeeps(s);
      buf := buf + [EraseBelow];
      printed := printed + LineRows(history, width);
      drawn, live, cursorRow := [], [], 0;
      assert Above() == above;
    }

    method PrintLines(history: seq<Line>, buf0: seq<Op>, ghost olds: seq<Row>, ghost len: nat)
      returns (buf: seq<Op>, ghost rest: seq<Row>)
      requires Wf(screen) && screen.w == width >= 2 && screen.h == height >= 2 && MeasuredLines(history)
      requires var s := Run(screen, buf0); Showing(s, Above(), olds, |Above()|, len) && s.x == 0 && !s.shown
      ensures var s := Run(screen, buf);
              Showing(s, Above() + LineRows(history, width), rest, |Above()| + |history|, Max(len, |Above()| + |history| + 1)) &&
              s.x == 0 && !s.shown
    {
      hide Showing, Run, Exec, TapeOf, Wf, LineRow, Puts, Read, LineCells, RowOf, CellsWidth, Quiet;
      buf, rest := buf0, olds;
      ghost var base, rows: seq<Row> := Above(), [];
      assert base + rows == base;
      ShowingFacts(Run(screen, buf), base, rest, |base|, len);
      for k := 0 to |history|
        invariant |rows| == k && forall i :: 0 <= i < k ==> rows[i] == LineRow(history[i], width)
        invariant var s := Run(screen, buf);
                  Showing(s, base + rows, rest, |base| + k, Max(len, |base| + k + 1)) && s.x == 0 && !s.shown
      {
        var row := EncodeRow(history[k], ContentWidth());
        ghost var s, now, ops := Run(screen, buf), LineRow(history[k], width), (Puts(row) + [EraseRight]) + [Cr, Lf];
        LineDraws(row, history[k], width);
        PrintOne(s, row, LineCells(history[k], width), base + rows, rest, now, Max(len, |base| + k + 1));
        RunAppend(screen, buf, ops);
        PutsAreQuiet(row);
        ShownKept(s, ops);
        buf := buf + ((Puts(row) + [EraseRight]) + [Cr, Lf]);
        RowsAssoc(base, rows, [now]);
        rows := rows + [now];
        rest := if rest == [] then [] else rest[1..];
      }
      assert rows == LineRows(history, width);
    }

    /** The live rows stay as history and the cursor goes under them. */
    method Finish()
      requires Valid()
      modifies this
      ensures Valid() && old(out) <= out && prior == old(prior) && printed == old(printed) + old(live)
      ensures width == old(width) && height == old(height) && synchronized == old(synchronized)
      ensures live == [] && cursorVisible
    {
      hide Showing, Run, Exec, TapeOf, LenAfter, Wf, Apply, StyleNums;
      ghost var base, len2 := Above(), Max(|screen.tape|, |Above()| + |live| + 1);
      var buf := DownPastEnd();
      ghost var t := Run(screen, buf);
      Settle(t, base, live, len2);
      RunAppend(screen, buf, [Put(Pen(PLAIN)), ShowCursor]);
      buf := buf + [Put(Pen(PLAIN)), ShowCursor];
      RowsAssoc(prior, printed, live);
      ShowingFacts(Run(screen, buf), base + live, [], |base + live|, len2);
      printed, live := printed + live, [];
      drawn := [];
      cursorRow := 0;
      cursorVisible := true;
      Flush(buf);
    }

    method DownPastEnd() returns (buf: seq<Op>)
      requires Valid()
      ensures Showing(Run(screen, buf), Above(), live, |Above()| + |live|, Max(|screen.tape|, |Above()| + |live| + 1))
    {
      hide Showing, Run, Exec, TapeOf, LenAfter, Wf, Read, RowOf;
      ghost var base, len := Above(), |screen.tape|;
      buf := [];
      var last := if |drawn| == 0 then 0 else |drawn| - 1;
      RunNone(screen);
      ShowingFacts(screen, base, live, |base| + cursorRow, len);
      if cursorRow < last {
        StepDown(screen, base, live, |base| + cursorRow, len, last - cursorRow);
        RunOne(screen, Down(last - cursorRow));
        buf := [Down(last - cursorRow)];
      }
      ghost var s := Run(screen, buf);
      if drawn != [] {
        RunAppend(screen, buf, [Cr, Lf]);
        RunTwo(s, Cr, Lf);
        StepCr(s, base, live, |base| + last, len);
        StepLf(Exec(s, Cr), base, live, |base| + last, len);
        buf := buf + [Cr, Lf];
      }
    }

    /** Nothing stays live; the cursor is where the first live row was. */
    method ClearLive()
      requires Valid()
      modifies this
      ensures Valid() && old(out) <= out && prior == old(prior) && printed == old(printed) && live == []
      ensures width == old(width) && height == old(height) && synchronized == old(synchronized)
      ensures |screen.tape| == old(|screen.tape|) && cursorVisible == old(cursorVisible)
    {
      hide Showing, Run;
      ghost var len := |screen.tape|;
      RunNone(screen);
      var buf := MoveToTop([], len);
      ghost var s := Run(screen, buf);
      EraseFrom(s, Above(), live, |Above()|, len, 0);
      assert live[..0] == [];
      ShowingFacts(Exec(s, EraseBelow), Above(), [], |Above()|, len);
      RunAppend(screen, buf, [EraseBelow]);
      RunOne(s, EraseBelow);
      buf := buf + [EraseBelow];
      drawn, live := [], [];
      cursorRow := 0;
      Flush(buf);
    }

    /** Hand the terminal over: nothing live, plain pen, cursor visible. */
    method Suspend()
      requires Valid()
      modifies this
      ensures Valid() && old(out) <= out && prior == old(prior) && printed == old(printed) && live == [] && cursorVisible
      ensures width == old(width) && height == old(height) && synchronized == old(synchronized)
      ensures |screen.tape| == old(|screen.tape|)
    {
      hide Showing, Run;
      ClearLive();
      cursorVisible := true;
      PlainShown(screen, Above(), |screen.tape|);
      Flush([Put(Pen(PLAIN)), ShowCursor]);
    }

    // ----- helpers -----------------------------------------------------------------

    method Begin() returns (buf: seq<Op>)
      requires Wf(screen) && screen.shown == cursorVisible
      ensures Run(screen, buf) == screen.(shown := false)
    {
      buf := [];
      if synchronized {
        RunOne(screen, SyncBegin);
        buf := [SyncBegin];
      }
      if cursorVisible {
        RunAppend(screen, buf, [HideCursor]);
        RunOne(Run(screen, buf), HideCursor);
        buf := buf + [HideCursor];
      }
    }

    method End(buf0: seq<Op>) returns (buf: seq<Op>)
      requires Wf(screen)
      ensures Run(screen, buf) == Run(screen, buf0)
    {
      buf := buf0;
      if synchronized {
        RunAppend(screen, buf, [SyncEnd]);
        RunOne(Run(screen, buf), SyncEnd);
        buf := buf + [SyncEnd];
      }
    }

    method Flush(buf: seq<Op>)
      requires Wf(screen)
      modifies `out, `screen
      ensures out == old(out) + buf && screen == Run(old(screen), buf)
      ensures old(Sent()) ==> Sent()
    {
      if Wf(begin) { RunAppend(begin, out, buf); }
      out := out + buf;
      screen := Run(screen, buf);
    }

    method MoveToTop(buf0: seq<Op>, ghost len: nat) returns (buf: seq<Op>)
      requires Wf(screen) && Showing(Run(screen, buf0), Above(), live, |Above()| + cursorRow, len)
      modifies `cursorRow
      ensures cursorRow == 0
      ensures var s := Run(screen, buf);
              Showing(s, Above(), live, |Above()|, len) && s.x == 0 && s.shown == Run(screen, buf0).shown
    {
      hide Showing, Run;
      ghost var s := Run(screen, buf0);
      RunAppend(screen, buf0, [Cr]);
      RunOne(s, Cr);
      StepCr(s, Above(), live, |Above()| + cursorRow, len);
      buf := buf0 + [Cr];
      if cursorRow > 0 {
        RunAppend(screen, buf, [Up(cursorRow)]);
        RunOne(Exec(s, Cr), Up(cursorRow));
        StepUp(Exec(s, Cr), Above(), live, |Above()| + cursorRow, len, cursorRow);
        buf := buf + [Up(cursorRow)];
      }
      cursorRow := 0;
    }

    /** Encode the rows of the frame that fit. */
    method EncodeRows(frame: LiveFrame) returns (rows: seq<seq<Token>>, skip: nat)
      requires width >= 2 && height >= 2 && MeasuredLines(frame.lines)
      ensures AllDraw(rows, Target(frame), width) && skip + |rows| == |frame.lines|
      ensures |rows| == |Bottom(frame.lines, height - 1)| <= height - 1
    {
      var max := MaxLiveRows();
      skip := if |frame.lines| < max then 0 else |frame.lines| - max;
      var kept := frame.lines[skip..];
      assert kept == Bottom(frame.lines, height - 1);
      rows := EncodeAll(kept, width);
    }

    /** Called with the cursor at the start of the first live row. */
    method DrawRows(frame: LiveFrame, buf0: seq<Op>, ghost olds: seq<Row>, ghost len: nat) returns (buf: seq<Op>)
      requires Wf(screen) && screen.w == width >= 2 && screen.h == height >= 2 && MeasuredLines(frame.lines)
      requires |drawn| <= height - 1 && AllDraw(drawn, olds, width)
      requires var s := Run(screen, buf0); Showing(s, Above(), olds, |Above()|, len) && s.x == 0 && !s.shown
      modifies `drawn, `cursorRow, `cursorVisible, `live
      ensures |drawn| <= height - 1 && cursorRow < Max(1, |drawn|) && AllDraw(drawn, live, width)
      ensures live == Target(frame)
      ensures var s := Run(screen, buf);
              var skip := |frame.lines| - |live|;
              Showing(s, Above(), live, |Above()| + cursorRow, LenAfter(len, |Above()|, |live|, |olds|)) &&
              s.shown == cursorVisible &&
              (if frame.cursor.Some? && skip <= frame.cursor.value.0 < |frame.lines|
               then cursorVisible && s.y == |Above()| + frame.cursor.value.0 - skip && s.x == Min(frame.cursor.value.1, width - 1)
               else !cursorVisible && s.x == 0)
    {
      hide Showing, Run, Exec, TapeOf, LineRow, Read, RowOf, LineCells, Draws, Clip;
      var rows, skip := EncodeRows(frame);
      ghost var news := Target(frame);
      ShowingFacts(Run(screen, buf0), Above(), olds, |Above()|, len);
      buf := WriteRows(rows, buf0, news, olds, len);
      buf := DropRest(|rows|, buf, news, olds, len);
      drawn := rows;
      live := news;
      cursorRow := if |rows| == 0 then 0 else |rows| - 1;
      buf := Park(frame, skip, buf, LenAfter(len, |Above()|, |live|, |olds|));
    }

    /** Rewrite the rows that changed. */
    method WriteRows(rows: seq<seq<Token>>, buf0: seq<Op>, ghost news: seq<Row>, ghost olds: seq<Row>, ghost len: nat)
      returns (buf: seq<Op>)
      requires Wf(screen) && screen.w == width >= 2 && screen.h == height >= 2
      requires |rows| <= height - 1 && AllDraw(rows, news, width) && AllDraw(drawn, olds, width)
      requires var s := Run(screen, buf0); Showing(s, Above(), olds, |Above()|, len) && s.x == 0 && !s.shown
      ensures var s := Run(screen, buf);
              var n := |rows|;
              Showing(s, Above(), Mixed(news, olds, n), |Above()| + (if n == 0 then 0 else n - 1), Max(len, |Above()| + n)) && !s.shown
    {
      hide Showing, Run;
      buf := buf0;
      MixedEnds(news, olds);
      ShowingFacts(Run(screen, buf), Above(), olds, |Above()|, len);
      for i := 0 to |rows|
        invariant var s := Run(screen, buf);
                  Showing(s, Above(), Mixed(news, olds, i), |Above()| + (if i == 0 then 0 else i - 1), Max(len, |Above()| + i)) && !s.shown
      {
        buf := WriteRow(rows, i, buf, news, olds, len);
      }
    }

    /** One turn of the loop over the rows. */
    method WriteRow(rows: seq<seq<Token>>, i: nat, buf0: seq<Op>, ghost news: seq<Row>, ghost olds: seq<Row>, ghost len: nat)
      returns (buf: seq<Op>)
      requires Wf(screen) && screen.w == width >= 2 && screen.h == height >= 2 && i < |rows|
      requires |rows| == |news| <= height - 1 && |drawn| == |olds|
      requires AllDraw(rows, news, width) && AllDraw(drawn, olds, width)
      requires |Above()| + |olds| <= len && |Above()| < len
      requires var s := Run(screen, buf0);
               Showing(s, Above(), Mixed(news, olds, i), |Above()| + (if i == 0 then 0 else i - 1), Max(len, |Above()| + i)) && !s.shown
      ensures var s := Run(screen, buf);
              Showing(s, Above(), Mixed(news, olds, i + 1), |Above()| + i, Max(len, |Above()| + i + 1)) && !s.shown
    {
      hide Showing, Run, AllDraw, Mixed, Exec, TapeOf, RowOf, Quiet, Apply, StyleNums, Wf;
      ghost var live, len1 := Mixed(news, olds, i), Max(len, |Above()| + i + 1);
      buf := buf0;
      if i > 0 {
        var ops := if i < |drawn| then [Down(1)] else [Cr, Lf];
        MoveNext(Run(screen, buf), Above(), live, i, Max(len, |Above()| + i), |drawn|);
        RunAppend(screen, buf, ops);
        ShownKept(Run(screen, buf), ops);
        buf := buf + ops;
      }
      ghost var s := Run(screen, buf);
      if i >= |drawn| || drawn[i] != rows[i] {
        ghost var ops := [Cr] + (Puts(rows[i]) + [EraseRight]);
        DrawAt(rows, news, width, i);
        PaintNext(s, rows[i], Read(PLAIN, rows[i]).0, Above(), news, olds, i, len1);
        RunAppend(screen, buf, ops);
        ShownKept(s, ops);
        buf := buf + ([Cr] + (Puts(rows[i]) + [EraseRight]));
      } else {
        SameTokens(rows, news, drawn, olds, width, i);
      }
    }

    /** Clear the rows that no longer exist. */
    method DropRest(n: nat, buf0: seq<Op>, ghost news: seq<Row>, ghost olds: seq<Row>, ghost len: nat) returns (buf: seq<Op>)
      requires Wf(screen) && |news| == n && |olds| == |drawn| && |Above()| + |olds| <= len && |Above()| < len
      requires var s := Run(screen, buf0);
               Showing(s, Above(), Mixed(news, olds, n), |Above()| + (if n == 0 then 0 else n - 1), Max(len, |Above()| + n)) && !s.shown
      ensures var s := Run(screen, buf);
              Showing(s, Above(), news, |Above()| + (if n == 0 then 0 else n - 1), LenAfter(len, |Above()|, n, |olds|)) && !s.shown
    {
      hide Showing, Run;
      buf := buf0;
      ghost var live := Mixed(news, olds, n);
      MixedEnds(news, olds);
      ghost var s := Run(screen, buf);
      if n < |drawn| {
        var ops := [Cr, Lf, EraseBelow, Up(1)];
        ClearRest(s, Above(), live, n, Max(len, |Above()| + n));
        RunAppend(screen, buf, ops);
        ShownKept(s, ops);
        buf := buf + ops;
        live := live[..if n == 0 then 1 else n];
        s := Run(screen, buf);
      }
      if n == 0 {
        var ops := [Cr, EraseRight];
        ClearFirst(s, Above(), live, LenAfter(len, |Above()|, n, |olds|));
        RunAppend(screen, buf, ops);
        ShownKept(s, ops);
        buf := buf + ops;
        assert news == [];
      } else {
        assert live == news;
      }
    }

    /** Park the cursor. */
    method Park(frame: LiveFrame, skip: nat, buf0: seq<Op>, ghost len: nat) returns (buf: seq<Op>)
      requires Wf(screen) && screen.w == width >= 2 && |live| == |drawn| && skip + |drawn| == |frame.lines|
      requires cursorRow == if |drawn| == 0 then 0 else |drawn| - 1
      requires var s := Run(screen, buf0); Showing(s, Above(), live, |Above()| + cursorRow, len) && !s.shown
      modifies `cursorRow, `cursorVisible
      ensures cursorRow < Max(1, |drawn|)
      ensures var s := Run(screen, buf);
              Showing(s, Above(), live, |Above()| + cursorRow, len) && s.shown == cursorVisible &&
              (if frame.cursor.Some? && skip <= frame.cursor.value.0 < |frame.lines|
               then cursorVisible && s.y == |Above()| + frame.cursor.value.0 - skip && s.x == Min(frame.cursor.value.1, width - 1)
               else !cursorVisible && s.x == 0)
    {
      hide Showing, Run, Exec, TapeOf, AllDraw, Wf;
      if frame.cursor.Some? && frame.cursor.value.0 >= skip && frame.cursor.value.0 - skip < |drawn| {
        buf := ParkAt(frame.cursor.value.0 - skip, frame.cursor.value.1, buf0, len);
      } else {
        ghost var s := Run(screen, buf0);
        StepCr(s, Above(), live, |Above()| + cursorRow, len);
        RunAppend(screen, buf0, [Cr]);
        RunOne(s, Cr);
        buf := buf0 + [Cr];
        cursorVisible := false;
      }
    }

    /** Up from the last row to row `r`, then right to column `c`. */
    method ParkAt(r: nat, c: nat, buf0: seq<Op>, ghost len: nat) returns (buf: seq<Op>)
      requires Wf(screen) && screen.w == width >= 2 && r <= cursorRow < |live|
      requires var s := Run(screen, buf0); Showing(s, Above(), live, |Above()| + cursorRow, len) && !s.shown
      modifies `cursorRow, `cursorVisible
      ensures cursorRow == r && cursorVisible
      ensures var s := Run(screen, buf);
              Showing(s, Above(), live, |Above()| + r, len) && s.shown && s.y == |Above()| + r && s.x == Min(c, width - 1)
    {
      hide Showing, Run, Exec, TapeOf, AllDraw, Wf;
      buf := buf0;
      ghost var s := Run(screen, buf);
      var last := cursorRow;
      if r < last {
        StepUp(s, Above(), live, |Above()| + last, len, last - r);
        RunAppend(screen, buf, [Up(last - r)]);
        RunOne(s, Up(last - r));
        buf := buf + [Up(last - r)];
      }
      ghost var t := Run(screen, buf);
      StepCr(t, Above(), live, |Above()| + r, len);
      RunAppend(screen, buf, [Cr]);
      RunOne(t, Cr);
      buf := buf + [Cr];
      ghost var u := Exec(t, Cr);
      if c > 0 {
        var n := if c < ContentWidth() then c else ContentWidth();
        StepRight(u, Above(), live, |Above()| + r, len, n);
        RunAppend(screen, buf, [Right(n)]);
        RunOne(u, Right(n));
        buf := buf + [Right(n)];
      }
      StepShow(Run(screen, buf), Above(), live, |Above()| + r, len);
      cursorRow := r;
      RunAppend(screen, buf, [ShowCursor]);
      RunOne(Run(screen, buf), ShowCursor);
      buf := buf + [ShowCursor];
      cursorVisible := true;
    }
  }

  /** Resetting the pen and showing the cursor after the live rows, which become history. */
  lemma Settle(s: Screen, above: seq<Row>, live: seq<Row>, len: nat)
    requires Showing(s, above, live, |above| + |live|, len) && |above| + |live| < len
    ensures var t := Run(s, [Put(Pen(PLAIN)), ShowCursor]);
            Showing(t, above + live, [], |above + live|, len) && t.shown
  {
    RunTwo(s, Put(Pen(PLAIN)), ShowCursor);
    SgrRoundTrip(PLAIN, PLAIN);
    assert TapeOf(above + live, [], s.w, len) == TapeOf(above, live, s.w, len);
  }

  // ----- the reference: erase everything and paint it again ------------------------------------

  function RepaintFrom(rows: seq<seq<Token>>, k: nat): seq<Op>
    requires k <= |rows|
    decreases |rows| - k
  {
    if k == |rows| then []
    else (if k > 0 then [Cr, Lf] else []) + (([Cr] + (Puts(rows[k]) + [EraseRight])) + RepaintFrom(rows, k + 1))
  }

  /** Go to the top of the region, erase all of it, paint every row. */
  function Repaint(cursorRow: nat, rows: seq<seq<Token>>): seq<Op> {
    [Cr, Up(cursorRow), EraseBelow] + RepaintFrom(rows, 0)
  }

  lemma {:induction false} RepaintRows(s: Screen, rows: seq<seq<Token>>, k: nat, above: seq<Row>, news: seq<Row>, len: nat)
    requires k <= |rows| && Wf(s) && |rows| < s.h && AllDraw(rows, news, s.w)
    requires Showing(s, above, news[..k], |above| + (if k == 0 then 0 else k - 1), Max(len, |above| + k)) && |above| < len
    ensures Showing(Run(s, RepaintFrom(rows, k)), above, news,
                    |above| + (if |rows| == 0 then 0 else |rows| - 1), Max(len, |above| + |rows|))
    decreases |rows| - k
  {
    hide Showing, Run, Exec, TapeOf, Draws, Puts;
    if k == |rows| {
      RunNone(s);
      assert news[..k] == news;
      return;
    }
    var move: seq<Op> := if k > 0 then [Cr, Lf] else [];
    var paint := [Cr] + (Puts(rows[k]) + [EraseRight]);
    var len1 := Max(len, |above| + k + 1);
    RunNone(s);
    if k > 0 { MoveNext(s, above, news[..k], k, Max(len, |above| + k), 0); }
    var t := Run(s, move);
    assert Mixed(news, [], k) == news[..k] && Mixed(news, [], k + 1) == news[..k + 1];
    PaintRowAt(t, rows, news, above, k, len1);
    var u := Run(t, paint);
    RepaintRows(u, rows, k + 1, above, news, len);
    RunAppend(s, move, paint + RepaintFrom(rows, k + 1));
    RunAppend(t, paint, RepaintFrom(rows, k + 1));
  }

  lemma PaintRowAt(t: Screen, rows: seq<seq<Token>>, news: seq<Row>, above: seq<Row>, k: nat, len: nat)
    requires k < |rows| && Wf(t) && AllDraw(rows, news, t.w)
    requires Showing(t, above, Mixed(news, [], k), |above| + k, len)
    ensures Showing(Run(t, [Cr] + (Puts(rows[k]) + [EraseRight])), above, Mixed(news, [], k + 1), |above| + k, len)
  {
    DrawAt(rows, news, t.w, k);
    PaintNext(t, rows[k], Read(PLAIN, rows[k]).0, above, news, [], k, len);
  }

  /** Repainting everything shows the rows above untouched, then exactly the new rows. */
  lemma RepaintShows(s: Screen, cursorRow: nat, rows: seq<seq<Token>>, above: seq<Row>, live: seq<Row>, news: seq<Row>, len: nat)
    requires Showing(s, above, live, |above| + cursorRow, len) && |rows| < s.h && AllDraw(rows, news, s.w)
    ensures Wf(s) && Run(s, Repaint(cursorRow, rows)).tape == TapeOf(above, news, s.w, Max(len, |above| + |rows|))
  {
    ShowingFacts(s, above, live, |above| + cursorRow, len);
    var go := [Cr, Up(cursorRow)];
    assert [Cr, Up(cursorRow), EraseBelow] == go + [EraseBelow];
    var t1 := Exec(s, Cr);
    StepCr(s, above, live, |above| + cursorRow, len);
    var t2 := Exec(t1, Up(cursorRow));
    StepUp(t1, above, live, |above| + cursorRow, len, cursorRow);
    RunTwo(s, Cr, Up(cursorRow));
    EraseFrom(t2, above, live, |above|, len, 0);
    RunOne(t2, EraseBelow);
    RunAppend(s, go, [EraseBelow]);
    var t3 := Exec(t2, EraseBelow);
    assert live[..0] == news[..0];
    RepaintRows(t3, rows, 0, above, news, len);
    RunAppend(s, go + [EraseBelow], RepaintFrom(rows, 0));
  }

  /** The incremental writer refines the reference: from any consistent state, the tape after a
      redraw (`Showing` with `LenAfter`, as `InlineTerminal.Draw` ensures) is the tape after
      repainting everything, except that an empty frame drawn over a single row on the bottom
      line of the screen has scrolled once more. */
  lemma DrawIsRepaint(s: Screen, t: Screen, cursorRow: nat, y: nat, rows: seq<seq<Token>>,
                      above: seq<Row>, live: seq<Row>, news: seq<Row>, len: nat)
    requires Showing(s, above, live, |above| + cursorRow, len) && |rows| < s.h && AllDraw(rows, news, s.w)
    requires t.w == s.w && Showing(t, above, news, y, LenAfter(len, |above|, |news|, |live|))
    ensures Wf(s) && (t.tape == Run(s, Repaint(cursorRow, rows)).tape <==>
                      !(|news| == 0 && |live| == 1 && len == |above| + 1))
  {
    RepaintShows(s, cursorRow, rows, above, live, news, len);
    assert |rows| == |news|;
    assert |Run(s, Repaint(cursorRow, rows)).tape| == Max(len, |above| + |news|);
  }

  /** A run that reaches the exception: one line drawn on the bottom row, then nothing. */
  method EmptyFrameScrolls() returns (t: InlineTerminal, ghost before: Screen, ghost row: nat)
    ensures fresh(t) && t.Valid() && Wf(before) && |before.tape| < |t.screen.tape|
    ensures t.screen.tape != Run(before, Repaint(row, t.drawn)).tape
  {
    hide Showing, Run, Repaint, AllDraw, LineRow;
    ghost var blank := Erased(2, Default);
    ghost var start := Screen(2, 2, [blank, blank], 1, 0, PLAIN, true, false);
    t := new InlineTerminal(2, 2, start);
    var line := Line([], None);
    t.Draw(LiveFrame([line], None));
    assert |t.live| == 1 && |t.screen.tape| == 2;
    before, row := t.screen, t.cursorRow;
    t.Draw(LiveFrame([], None));
  }
}
