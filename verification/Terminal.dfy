/** A small terminal: scrollback and screen as one tape of rows, a cursor, a pen.
    It follows ECMA-48 sections 8.3.22 (CUU), 8.3.19 (CUD), 8.3.20 (CUF), 8.3.39 (ED),
    8.3.41 (EL) and 8.3.117 (SGR); the screen is the last `h` rows of the tape. */
module Terminal {
  import opened Styles
  import opened Sgr
  import opened Ansi

  /** One column of a row: erased, the start of a grapheme, or the rest of a wide one. */
  datatype Slot = Empty(bg: Color) | Full(text: string, style: Style) | Rest

  type Row = seq<Slot>

  /** `x == w` is the pending-wrap state; `wrapped` records that a row ever auto-wrapped. */
  datatype Screen = Screen(w: nat, h: nat, tape: seq<Row>, y: nat, x: nat, pen: Style, shown: bool, wrapped: bool)

  datatype Op =
    | Cr | Lf
    | Up(n: nat) | Down(n: nat) | Right(n: nat)
    | EraseBelow | EraseRight
    | Put(t: Token)
    | ShowCursor | HideCursor | SyncBegin | SyncEnd

  predicate Wf(s: Screen) {
    && s.w >= 2 && s.h >= 2 && |s.tape| >= s.h
    && (forall r :: 0 <= r < |s.tape| ==> |s.tape[r]| == s.w)
    && |s.tape| - s.h <= s.y < |s.tape| && s.x <= s.w
  }

  function Erased(n: nat, bg: Color): Row { seq(n, _ => Empty(bg)) }

  function Min(x: int, y: int): int { if x < y then x else y }
  function Max(x: int, y: int): int { if x > y then x else y }

  function LineFeed(s: Screen): Screen
    requires Wf(s)
    ensures Wf(LineFeed(s))
  {
    if s.y + 1 < |s.tape| then s.(y := s.y + 1)
    else s.(tape := s.tape + [Erased(s.w, s.pen.bg)], y := s.y + 1)
  }

  /** A grapheme's slots. */
  function SlotsOf(g: Grapheme, style: Style): Row {
    if g.width == 0 then [] else [Full(g.text, style)] + seq(g.width - 1, _ => Rest)
  }

  /** A grapheme without width joins the one before it. */
  function Joined(row: Row, x: nat, text: string): Row
    requires x <= |row|
    ensures |Joined(row, x, text)| == |row|
  {
    if x > 0 && row[x - 1].Full? then row[x - 1 := row[x - 1].(text := row[x - 1].text + text)] else row
  }

  function PutGlyph(s: Screen, g: Grapheme): Screen
    requires Wf(s)
    ensures Wf(PutGlyph(s, g))
  {
    var row := s.tape[s.y];
    if g.width == 0 then s.(tape := s.tape[s.y := Joined(row, s.x, g.text)])
    else if s.x + g.width <= s.w then
      s.(tape := s.tape[s.y := row[..s.x] + SlotsOf(g, s.pen) + row[s.x + g.width..]], x := s.x + g.width)
    else LineFeed(s).(x := Min(g.width, s.w), wrapped := true)
  }

  function Exec(s: Screen, op: Op): Screen
    requires Wf(s)
    ensures Wf(Exec(s, op)) && Exec(s, op).w == s.w && Exec(s, op).h == s.h
  {
    match op
    case Cr => s.(x := 0)
    case Lf => LineFeed(s)
    case Up(n) => s.(y := Max(s.y - n, |s.tape| - s.h))
    case Down(n) => s.(y := Min(s.y + n, |s.tape| - 1))
    case Right(n) => s.(x := Min(s.x + n, s.w - 1))
    case EraseRight => s.(tape := s.tape[s.y := s.tape[s.y][..s.x] + Erased(s.w - s.x, s.pen.bg)])
    case EraseBelow =>
      s.(tape := s.tape[..s.y] + [s.tape[s.y][..s.x] + Erased(s.w - s.x, s.pen.bg)] +
                 seq(|s.tape| - s.y - 1, _ => Erased(s.w, s.pen.bg)))
    case Put(t) =>
      (match t
       case Pen(style) => s.(pen := Apply(s.pen, StyleNums(style)))
       case Glyph(g) => PutGlyph(s, g))
    case ShowCursor => s.(shown := true)
    case HideCursor => s.(shown := false)
    case SyncBegin => s
    case SyncEnd => s
  }

  function Run(s: Screen, ops: seq<Op>): Screen
    requires Wf(s)
    ensures Wf(Run(s, ops)) && Run(s, ops).w == s.w && Run(s, ops).h == s.h
    decreases |ops|
  {
    if ops == [] then s else Run(Exec(s, ops[0]), ops[1..])
  }

  lemma {:induction false} RunAppend(s: Screen, x: seq<Op>, y: seq<Op>)
    requires Wf(s)
    ensures Run(s, x + y) == Run(Run(s, x), y)
    decreases |x|
  {
    if x == [] {
      assert x + y == y;
    } else {
      assert (x + y)[1..] == x[1..] + y && (x + y)[0] == x[0];
      RunAppend(Exec(s, x[0]), x[1..], y);
    }
  }

  lemma RunOne(s: Screen, op: Op)
    requires Wf(s)
    ensures Run(s, [op]) == Exec(s, op)
  {
    assert [op][1..] == [];
  }

  lemma RunNone(s: Screen)
    requires Wf(s)
    ensures Run(s, []) == s
  {
  }

  lemma RunTwo(s: Screen, a: Op, b: Op)
    requires Wf(s)
    ensures Run(s, [a, b]) == Exec(Exec(s, a), b)
  {
    assert [a, b][1..] == [b];
    RunOne(Exec(s, a), b);
  }

  // ----- painting a row -----------------------------------------------------------

  /** The columns taken by painted graphemes. */
  function Slots(cells: seq<Painted>): Row
    ensures |Slots(cells)| == CellsWidth(cells)
  {
    if cells == [] then []
    else
      var before, c := Slots(cells[..|cells| - 1]), cells[|cells| - 1];
      if c.g.width == 0 then Joined(before, |before|, c.g.text) else before + SlotsOf(c.g, c.style)
  }

  /** A row that shows `cells` and nothing else. */
  function RowOf(cells: seq<Painted>, w: nat): Row
    requires CellsWidth(cells) <= w
  {
    Slots(cells) + Erased(w - CellsWidth(cells), Default)
  }

  function Puts(tokens: seq<Token>): seq<Op> { seq(|tokens|, k requires 0 <= k < |tokens| => Put(tokens[k])) }

  lemma JoinPrefix(before: Row, rest: Row, text: string)
    ensures Joined(before + rest, |before|, text) == Joined(before, |before|, text) + rest
  {
  }

  /** Ready to paint a row: at its start, with the plain pen. */
  predicate AtStart(s: Screen) { Wf(s) && s.x == 0 && s.pen == PLAIN }

  /** The cursor's row replaced. */
  function WithRow(s: Screen, row: Row, x: nat, pen: Style): Screen
    requires Wf(s) && |row| == s.w && x <= s.w
    ensures Wf(WithRow(s, row, x, pen))
  {
    s.(tape := s.tape[s.y := row], x := x, pen := pen)
  }

  /** `cells` painted over `row` from its start. */
  function Over(row: Row, cells: seq<Painted>): Row
    requires CellsWidth(cells) <= |row|
    ensures |Over(row, cells)| == |row|
  {
    Slots(cells) + row[CellsWidth(cells)..]
  }

  lemma {:induction false} PaintTokens(s: Screen, tokens: seq<Token>)
    requires AtStart(s) && CellsWidth(Read(PLAIN, tokens).0) < s.w
    ensures var (cells, pen) := Read(PLAIN, tokens);
            Run(s, Puts(tokens)) == WithRow(s, Over(s.tape[s.y], cells), CellsWidth(cells), pen)
  {
    if tokens == [] {
      var row := s.tape[s.y];
      assert Over(row, []) == row;
      assert s.tape[s.y := row] == s.tape;
    } else {
      var init, last := tokens[..|tokens| - 1], tokens[|tokens| - 1];
      var cells, pen := Read(PLAIN, init).0, Read(PLAIN, init).1;
      if last.Glyph? { assert Read(PLAIN, tokens).0[..|cells|] == cells; }
      PaintTokens(s, init);
      PutsSnoc(init, last);
      assert init + [last] == tokens;
      RunAppend(s, Puts(init), [Put(last)]);
      RunOne(Run(s, Puts(init)), Put(last));
      PaintStep(s, init, last);
    }
  }

  lemma PaintStep(s: Screen, init: seq<Token>, last: Token)
    requires AtStart(s) && CellsWidth(Read(PLAIN, init + [last]).0) < s.w
    requires CellsWidth(Read(PLAIN, init).0) < s.w
    ensures var (cells, pen) := Read(PLAIN, init);
            var (more, pen2) := Read(PLAIN, init + [last]);
            Exec(WithRow(s, Over(s.tape[s.y], cells), CellsWidth(cells), pen), Put(last)) ==
            WithRow(s, Over(s.tape[s.y], more), CellsWidth(more), pen2)
  {
    assert (init + [last])[..|init|] == init;
    var cells, pen := Read(PLAIN, init).0, Read(PLAIN, init).1;
    if last.Glyph? {
      assert Read(PLAIN, init + [last]) == (cells + [Painted(last.g, pen)], pen);
      hide Read, Over, PutGlyph, CellsWidth;
      PaintOne(s, cells, last.g, pen);
    } else {
      hide Over, PutGlyph, CellsWidth;
    }
  }

  lemma PutsSnoc(init: seq<Token>, last: Token)
    ensures Puts(init + [last]) == Puts(init) + [Put(last)]
  {
  }

  lemma PaintOne(s: Screen, cells: seq<Painted>, g: Grapheme, pen: Style)
    requires Wf(s) && CellsWidth(cells) + g.width < s.w
    ensures var more := cells + [Painted(g, pen)];
            CellsWidth(more) == CellsWidth(cells) + g.width &&
            PutGlyph(WithRow(s, Over(s.tape[s.y], cells), CellsWidth(cells), pen), g) ==
            WithRow(s, Over(s.tape[s.y], more), CellsWidth(more), pen)
  {
    var more, row := cells + [Painted(g, pen)], s.tape[s.y];
    assert more[..|more| - 1] == cells;
    var before, rest := Slots(cells), row[CellsWidth(cells)..];
    if g.width == 0 {
      JoinPrefix(before, rest, g.text);
    } else {
      assert (before + rest)[..|before|] == before;
      assert (before + rest)[|before| + g.width..] == row[CellsWidth(more)..];
    }
  }

  lemma EraseOn(s: Screen, cells: seq<Painted>)
    requires Wf(s) && CellsWidth(cells) <= s.w
    ensures Exec(WithRow(s, Over(s.tape[s.y], cells), CellsWidth(cells), PLAIN), EraseRight) ==
            WithRow(s, RowOf(cells, s.w), CellsWidth(cells), PLAIN)
  {
    hide Slots, CellsWidth;
    var row := Over(s.tape[s.y], cells);
    assert row[..CellsWidth(cells)] == Slots(cells);
    var t := WithRow(s, row, CellsWidth(cells), PLAIN);
    assert t.tape[t.y] == row;
    assert t.tape[t.y := RowOf(cells, s.w)] == s.tape[s.y := RowOf(cells, s.w)];
  }

  /** Tokens and an erase to the right leave exactly the painted cells in the row, whatever it
      held before; the terminal does not wrap and the pen is plain again. */
  lemma PaintRow(s: Screen, tokens: seq<Token>, cells: seq<Painted>)
    requires AtStart(s) && Read(PLAIN, tokens) == (cells, PLAIN) && CellsWidth(cells) < s.w
    ensures Run(s, Puts(tokens) + [EraseRight]) == WithRow(s, RowOf(cells, s.w), CellsWidth(cells), PLAIN)
  {
    PaintTokens(s, tokens);
    RunAppend(s, Puts(tokens), [EraseRight]);
    RunOne(Run(s, Puts(tokens)), EraseRight);
    EraseOn(s, cells);
  }
}
