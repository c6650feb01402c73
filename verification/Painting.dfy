/** What a line looks like once it is sent (`Line::encode`, crates/inline/src/style.rs:191-234) and
    drawn (crates/inline/src/term.rs), said of its own characters, graphemes and columns. */
module Painting {
  import opened Styles
  import opened Ansi
  import opened Terminal
  import opened Term
  import Width

  /** How a span shows: in its style, over the fill of the line unless it has a background. */
  function ShownStyle(style: Style, fill: Option<Color>): Style {
    Style(style.fg, if fill.Some? && style.bg.Default? then fill.value else style.bg,
          style.bold, style.dim, style.italic, style.underline, style.strike, style.reverse)
  }

  // ----- character by character ------------------------------------------------------------

  /** Control characters and the characters that change the direction of text. */
  predicate NeverSent(c: char) {
    '\U{0000}' <= c <= '\U{001F}' || '\U{007F}' <= c <= '\U{009F}' ||
    c in {'\U{061C}', '\U{200E}', '\U{200F}', '\U{202A}', '\U{202B}', '\U{202C}', '\U{202D}', '\U{202E}',
          '\U{2066}', '\U{2067}', '\U{2068}', '\U{2069}'}
  }

  /** What is sent for a character. */
  function Sent(c: char, style: Style): seq<Item> {
    if c == '\t' then [Ch(' ', style), Ch(' ', style), Ch(' ', style), Ch(' ', style)]
    else if NeverSent(c) then []
    else [Ch(c, style)]
  }

  /** `to` is what is sent for each of `from`, one after the other, cut at `cuts`. */
  ghost predicate Sends(from: seq<Item>, to: seq<Item>, cuts: seq<nat>) {
    |cuts| == |from| + 1 && cuts[0] == 0 && cuts[|from|] == |to| &&
    forall k :: 0 <= k < |from| ==> SentAt(from, to, cuts, k)
  }

  ghost predicate SentAt(from: seq<Item>, to: seq<Item>, cuts: seq<nat>, k: nat)
    requires k < |from| < |cuts|
  {
    cuts[k] <= cuts[k + 1] <= |to| && from[k].Ch? && to[cuts[k]..cuts[k + 1]] == Sent(from[k].c, from[k].style)
  }

  function Letters(text: seq<Grapheme>): string {
    if text == [] then "" else Letters(text[..|text| - 1]) + text[|text| - 1].text
  }

  /** The characters of a line, each in the style it shows in. */
  function LineChars(spans: seq<Span>, fill: Option<Color>): seq<Item> {
    if spans == [] then []
    else
      var last := spans[|spans| - 1];
      LineChars(spans[..|spans| - 1], fill) + CharsOf(Letters(last.text), ShownStyle(last.style, fill))
  }

  lemma SendsOne(from: seq<Item>, to: seq<Item>, cuts: seq<nat>, c: char, style: Style)
    requires Sends(from, to, cuts)
    ensures var more := to + Sent(c, style); Sends(from + [Ch(c, style)], more, cuts + [|more|])
  {
    var more, cuts2 := to + Sent(c, style), cuts + [|to + Sent(c, style)|];
    forall k | 0 <= k < |from| ensures SentAt(from + [Ch(c, style)], more, cuts2, k) {
      assert SentAt(from, to, cuts, k);
      assert more[cuts2[k]..cuts2[k + 1]] == to[cuts[k]..cuts[k + 1]];
    }
    assert more[|to|..|more|] == Sent(c, style);
    assert SentAt(from + [Ch(c, style)], more, cuts2, |from|);
  }

  lemma EmitMore(text: string, c: char, style: Style)
    ensures CharsOf(Emit(text + [c]), style) == CharsOf(Emit(text), style) + Sent(c, style)
    ensures CharsOf(text + [c], style) == CharsOf(text, style) + [Ch(c, style)]
  {
    assert (text + [c])[..|text|] == text;
  }

  lemma {:induction false} EmitSends(from: seq<Item>, to: seq<Item>, cuts: seq<nat>, text: string, style: Style)
    returns (more: seq<nat>)
    requires Sends(from, to, cuts)
    ensures Sends(from + CharsOf(text, style), to + CharsOf(Emit(text), style), more)
  {
    if text == "" {
      assert from + CharsOf(text, style) == from && to + CharsOf(Emit(text), style) == to;
      more := cuts;
    } else {
      var init, c := text[..|text| - 1], text[|text| - 1];
      var cuts1 := EmitSends(from, to, cuts, init, style);
      SendsOne(from + CharsOf(init, style), to + CharsOf(Emit(init), style), cuts1, c, style);
      assert init + [c] == text;
      hide Sends, Emit, CharsOf, Sent;
      EmitMore(init, c, style);
      ItemsAssoc(from, CharsOf(init, style), [Ch(c, style)]);
      ItemsAssoc(to, CharsOf(Emit(init), style), Sent(c, style));
      more := cuts1 + [|to + CharsOf(Emit(init), style) + Sent(c, style)|];
    }
  }

  lemma ItemsAssoc(x: seq<Item>, y: seq<Item>, z: seq<Item>)
    ensures (x + y) + z == x + (y + z)
  {
  }

  lemma {:induction false} PaintedAppend(x: seq<Painted>, y: seq<Painted>)
    ensures PaintedChars(x + y) == PaintedChars(x) + PaintedChars(y)
  {
    if y == [] {
      assert x + y == x && PaintedChars(x) + PaintedChars(y) == PaintedChars(x);
    } else {
      PaintedAppend(x, y[..|y| - 1]);
      assert (x + y)[..|x + y| - 1] == x + y[..|y| - 1];
    }
  }

  lemma VisibleChars(g: Grapheme, style: Style)
    ensures PaintedChars(PaintAll(Visible(g), style)) == CharsOf(Emit(g.text), style)
  {
    var cells := PaintAll(Visible(g), style);
    if g.text == "\t" {
      FourSpaces(style);
      assert cells == [Painted(SPACE, style), Painted(SPACE, style), Painted(SPACE, style), Painted(SPACE, style)];
      assert "\t"[..0] == "" && Emit("\t") == "    ";
      assert CharsOf("    ", style) == Sent('\t', style);
    } else if Emit(g.text) != "" {
      assert cells == [Painted(Grapheme(Emit(g.text), g.width), style)] && cells[..0] == [];
      assert [] + CharsOf(Emit(g.text), style) == CharsOf(Emit(g.text), style);
    }
  }

  lemma FourSpaces(style: Style)
    ensures var p := Painted(SPACE, style); PaintedChars([p, p, p, p]) == Sent('\t', style)
  {
    var p := Painted(SPACE, style);
    assert CharsOf(" ", style) == [Ch(' ', style)];
    hide CharsOf, PaintedChars;
    NothingPainted();
    PaintedMore([], p);
    assert [] + [p] == [p];
    PaintedMore([p], p);
    assert [p] + [p] == [p, p];
    PaintedMore([p, p], p);
    assert [p, p] + [p] == [p, p, p];
    PaintedMore([p, p, p], p);
    assert [p, p, p] + [p] == [p, p, p, p];
  }

  lemma {:induction false} TextSends(from: seq<Item>, to: seq<Item>, cuts: seq<nat>, text: seq<Grapheme>, style: Style)
    returns (more: seq<nat>)
    requires Sends(from, to, cuts)
    ensures Sends(from + CharsOf(Letters(text), style), to + PaintedChars(PaintText(text, style)), more)
  {
    hide Sends, Emit, PaintedChars, Visible, PaintAll;
    if text == [] {
      NothingPainted();
      assert from + CharsOf(Letters(text), style) == from && to + PaintedChars(PaintText(text, style)) == to;
      more := cuts;
    } else {
      var init, g := text[..|text| - 1], text[|text| - 1];
      var from1, to1 := CharsOf(Letters(init), style), PaintedChars(PaintText(init, style));
      var cuts1 := TextSends(from, to, cuts, init, style);
      more := EmitSends(from + from1, to + to1, cuts1, g.text, style);
      VisibleChars(g, style);
      PaintedAppend(PaintText(init, style), PaintAll(Visible(g), style));
      CharsAppend(Letters(init), g.text, style);
      ItemsAssoc(from, from1, CharsOf(g.text, style));
      ItemsAssoc(to, to1, CharsOf(Emit(g.text), style));
    }
  }

  lemma NothingPainted()
    ensures PaintedChars([]) == []
  {
  }

  lemma CharsAppend(x: string, y: string, style: Style)
    ensures CharsOf(x + y, style) == CharsOf(x, style) + CharsOf(y, style)
  {
  }

  lemma {:induction false} SpansSend(spans: seq<Span>, fill: Option<Color>) returns (cuts: seq<nat>)
    ensures Sends(LineChars(spans, fill), PaintedChars(PaintSpans(spans, fill)), cuts)
  {
    if spans == [] {
      cuts := [0];
    } else {
      var init, last := spans[..|spans| - 1], spans[|spans| - 1];
      cuts := SpansSend(init, fill);
      cuts := TextSends(LineChars(init, fill), PaintedChars(PaintSpans(init, fill)), cuts, last.text, Banded(last.style, fill));
      PaintedAppend(PaintSpans(init, fill), PaintText(last.text, Banded(last.style, fill)));
    }
  }

  /** The cells of a line are those of its text and then, with a fill, one space of it for every
      column up to the width that the text does not take. */
  ghost predicate Filled(line: Line, width: nat, text: seq<Painted>, cells: seq<Painted>) {
    text <= cells && |cells| == |text| + (if line.fill.Some? && LineWidth(line) < width then width - LineWidth(line) else 0) &&
    forall k :: |text| <= k < |cells| ==>
      line.fill.Some? && cells[k] == Painted(Grapheme(" ", 1), Style(Default, line.fill.value, false, false, false, false, false, false))
  }

  /** A line is sent character by character: a tab as four spaces, control characters and those that
      change the direction left out, every other as it is, each in the style of its span; then comes
      the fill. */
  lemma LineIsSent(line: Line, width: nat) returns (text: seq<Painted>, cuts: seq<nat>)
    ensures Sends(LineChars(line.spans, line.fill), PaintedChars(text), cuts)
    ensures Filled(line, width, text, PaintLine(line, width))
  {
    text := PaintSpans(line.spans, line.fill);
    cuts := SpansSend(line.spans, line.fill);
  }

  // ----- grapheme by grapheme --------------------------------------------------------------

  /** Text, every character of which is sent as it is. */
  predicate IsOrdinary(g: Grapheme) { g.text != "" && forall k :: 0 <= k < |g.text| ==> !NeverSent(g.text[k]) }

  predicate AllOrdinary(text: seq<Grapheme>) { forall k :: 0 <= k < |text| ==> IsOrdinary(text[k]) }

  predicate OrdinarySpans(spans: seq<Span>) { forall i :: 0 <= i < |spans| ==> AllOrdinary(spans[i].text) }

  /** How many graphemes the first `i` spans hold. */
  function Before(spans: seq<Span>, i: nat): nat
    requires i <= |spans|
  {
    if i == 0 then 0 else Before(spans, i - 1) + |spans[i - 1].text|
  }

  lemma {:induction false} EmitAll(text: string)
    requires forall k :: 0 <= k < |text| ==> !NeverSent(text[k])
    ensures Emit(text) == text
  {
    if text != "" {
      EmitAll(text[..|text| - 1]);
      assert !NeverSent(text[|text| - 1]);
    }
  }

  lemma OrdinaryVisible(g: Grapheme)
    requires IsOrdinary(g)
    ensures Visible(g) == [g]
  {
    EmitAll(g.text);
    assert !NeverSent(g.text[0]);
  }

  lemma {:induction false} OrdinaryText(text: seq<Grapheme>, style: Style)
    requires AllOrdinary(text)
    ensures var cells := PaintText(text, style);
            |cells| == |text| && forall j :: 0 <= j < |text| ==> cells[j] == Painted(text[j], style)
  {
    if text != [] {
      OrdinaryText(text[..|text| - 1], style);
      OrdinaryVisible(text[|text| - 1]);
    }
  }

  /** Span `i` shows from cell `at` on: its graphemes, in order, in its style. */
  ghost predicate SpanShows(span: Span, fill: Option<Color>, cells: seq<Painted>, at: nat) {
    at + |span.text| <= |cells| &&
    forall j :: 0 <= j < |span.text| ==> cells[at + j] == Painted(span.text[j], ShownStyle(span.style, fill))
  }

  lemma {:induction false} BeforeInit(spans: seq<Span>, n: nat, i: nat)
    requires i <= n <= |spans|
    ensures Before(spans[..n], i) == Before(spans, i)
  {
    if i > 0 { BeforeInit(spans, n, i - 1); }
  }

  lemma LastShows(front: seq<Painted>, text: seq<Painted>, span: Span, fill: Option<Color>)
    requires |text| == |span.text| && forall j :: 0 <= j < |text| ==> text[j] == Painted(span.text[j], Banded(span.style, fill))
    ensures SpanShows(span, fill, front + text, |front|)
  {
  }

  lemma StillShows(front: seq<Painted>, text: seq<Painted>, span: Span, fill: Option<Color>, at: nat)
    requires SpanShows(span, fill, front, at)
    ensures SpanShows(span, fill, front + text, at)
  {
  }

  /** The spans show one behind the other, and nothing else does. */
  ghost predicate SpansShow(spans: seq<Span>, fill: Option<Color>, cells: seq<Painted>) {
    |cells| == Before(spans, |spans|) && forall i :: 0 <= i < |spans| ==> SpanShows(spans[i], fill, cells, Before(spans, i))
  }

  lemma {:induction false} OrdinarySpansShow(spans: seq<Span>, fill: Option<Color>)
    requires OrdinarySpans(spans)
    ensures SpansShow(spans, fill, PaintSpans(spans, fill))
  {
    if spans != [] {
      var n := |spans| - 1;
      var last := spans[n];
      var text := PaintText(last.text, Banded(last.style, fill));
      OrdinarySpansShow(spans[..n], fill);
      OrdinaryText(last.text, Banded(last.style, fill));
      hide PaintText, SpansShow, Before;
      OneMoreShows(spans, fill, PaintSpans(spans[..n], fill), text);
    }
  }

  lemma OneMoreShows(spans: seq<Span>, fill: Option<Color>, front: seq<Painted>, text: seq<Painted>)
    requires spans != [] && SpansShow(spans[..|spans| - 1], fill, front)
    requires var last := spans[|spans| - 1];
             |text| == |last.text| && forall j :: 0 <= j < |text| ==> text[j] == Painted(last.text[j], Banded(last.style, fill))
    ensures SpansShow(spans, fill, front + text)
  {
    hide SpanShows, Before;
    var n := |spans| - 1;
    var init, cells := spans[..n], front + text;
    BeforeInit(spans, n, n);
    BeforeStep(spans, n);
    LastShows(front, text, spans[n], fill);
    forall i | 0 <= i < n ensures SpanShows(spans[i], fill, cells, Before(spans, i)) {
      BeforeInit(spans, n, i);
      assert init[i] == spans[i];
      StillShows(front, text, init[i], fill, Before(init, i));
    }
  }

  lemma BeforeStep(spans: seq<Span>, i: nat)
    requires i < |spans|
    ensures Before(spans, i + 1) == Before(spans, i) + |spans[i].text|
  {
  }

  lemma SpanAt(spans: seq<Span>, fill: Option<Color>, cells: seq<Painted>, i: nat)
    requires SpansShow(spans, fill, cells) && i < |spans|
    ensures SpanShows(spans[i], fill, cells, Before(spans, i)) && Before(spans, i + 1) == Before(spans, i) + |spans[i].text| <= |cells|
  {
    BeforeStep(spans, i);
    hide Before;
  }

  /** A line of ordinary text shows exactly its graphemes, in order, each in the style of its span;
      then comes the fill. */
  lemma OrdinaryLineShows(line: Line, width: nat) returns (text: seq<Painted>)
    requires OrdinarySpans(line.spans)
    ensures Filled(line, width, text, PaintLine(line, width)) && SpansShow(line.spans, line.fill, text)
  {
    text := PaintSpans(line.spans, line.fill);
    OrdinarySpansShow(line.spans, line.fill);
  }

  // ----- column by column ------------------------------------------------------------------

  ghost predicate AllWide(cells: seq<Painted>) { forall k :: 0 <= k < |cells| ==> cells[k].g.width > 0 }

  /** Column `x` starts a cell and the columns behind it belong to it. */
  ghost predicate CellAt(row: Row, x: nat, c: Painted) {
    x + c.g.width <= |row| && c.g.width > 0 && row[x] == Full(c.g.text, c.style) &&
    forall k :: x < k < x + c.g.width ==> row[k] == Rest
  }

  lemma {:induction false} SlotsShow(cells: seq<Painted>, k: nat)
    requires AllWide(cells) && k < |cells|
    ensures CellAt(Slots(cells), CellsWidth(cells[..k]), cells[k])
  {
    hide CellAt, SlotsOf;
    var n := |cells| - 1;
    LastSlots(cells);
    NewestAt(Slots(cells[..n]), cells[n]);
    hide Slots;
    if k < n {
      SlotsShow(cells[..n], k);
      assert cells[..n][..k] == cells[..k];
      StaysAt(Slots(cells[..n]), SlotsOf(cells[n].g, cells[n].style), CellsWidth(cells[..k]), cells[k]);
    }
  }

  lemma LastSlots(cells: seq<Painted>)
    requires AllWide(cells) && cells != []
    ensures var n := |cells| - 1;
            Slots(cells) == Slots(cells[..n]) + SlotsOf(cells[n].g, cells[n].style) && cells[n].g.width > 0
  {
  }

  lemma NewestAt(row: Row, c: Painted)
    requires c.g.width > 0
    ensures CellAt(row + SlotsOf(c.g, c.style), |row|, c)
  {
    var rest := seq(c.g.width - 1, _ => Rest);
    assert SlotsOf(c.g, c.style) == [Full(c.g.text, c.style)] + rest;
    var all := row + ([Full(c.g.text, c.style)] + rest);
    forall k | |row| < k < |row| + c.g.width ensures all[k] == Rest { assert all[k] == rest[k - |row| - 1]; }
  }

  lemma StaysAt(row: Row, more: Row, x: nat, c: Painted)
    requires CellAt(row, x, c)
    ensures CellAt(row + more, x, c)
  {
  }

  /** Where grapheme `j` of span `i` starts. */
  function Column(spans: seq<Span>, i: nat, j: nat): nat
    requires i < |spans| && j <= |spans[i].text|
  {
    SpansWidth(spans[..i]) + Sum(spans[i].text, 0, j)
  }

  lemma {:induction false} TextColumns(cells: seq<Painted>, at: nat, span: Span, fill: Option<Color>, j: nat)
    requires SpanShows(span, fill, cells, at) && j <= |span.text|
    ensures CellsWidth(cells[..at + j]) == CellsWidth(cells[..at]) + Sum(span.text, 0, j)
  {
    if j > 0 {
      TextColumns(cells, at, span, fill, j - 1);
      assert cells[..at + j][..at + j - 1] == cells[..at + j - 1];
    }
  }

  lemma SpansWidthStep(spans: seq<Span>, i: nat)
    requires i < |spans|
    ensures SpansWidth(spans[..i + 1]) == SpansWidth(spans[..i]) + TextWidth(spans[i].text)
  {
    assert spans[..i + 1][..i] == spans[..i];
  }

  lemma WidthIs(text: seq<Grapheme>)
    ensures TextWidth(text) == Sum(text, 0, |text|)
  {
  }

  lemma {:induction false} SpanColumns(spans: seq<Span>, fill: Option<Color>, cells: seq<Painted>, i: nat)
    requires i <= |spans| && SpansShow(spans, fill, cells)
    ensures Before(spans, i) <= |cells| && CellsWidth(cells[..Before(spans, i)]) == SpansWidth(spans[..i])
  {
    hide SpansShow, SpanShows, TextWidth;
    if i == 0 {
      assert spans[..0] == [] && cells[..0] == [];
    } else {
      hide CellsWidth, SpansWidth, Before;
      SpanAt(spans, fill, cells, i - 1);
      SpansWidthStep(spans, i - 1);
      SpanColumns(spans, fill, cells, i - 1);
      TextColumns(cells, Before(spans, i - 1), spans[i - 1], fill, |spans[i - 1].text|);
      WidthIs(spans[i - 1].text);
    }
  }

  /** No grapheme without a column of its own. */
  predicate WideSpans(spans: seq<Span>) {
    forall i, j :: 0 <= i < |spans| && 0 <= j < |spans[i].text| ==> spans[i].text[j].width > 0
  }

  ghost predicate FitsOrdinary(line: Line, w: nat) {
    w >= 2 && OrdinarySpans(line.spans) && WideSpans(line.spans) && LineWidth(line) <= w - 1
  }

  lemma OrdinaryIsNoTab(g: Grapheme)
    requires IsOrdinary(g)
    ensures g.text != "\t"
  {
    assert !NeverSent(g.text[0]);
  }

  lemma OrdinaryIsMeasured(line: Line)
    requires OrdinarySpans(line.spans)
    ensures MeasuredLine(line)
  {
    forall i, j | 0 <= i < |line.spans| && 0 <= j < |line.spans[i].text| ensures line.spans[i].text[j].text != "\t" {
      assert AllOrdinary(line.spans[i].text) && IsOrdinary(line.spans[i].text[j]);
      OrdinaryIsNoTab(line.spans[i].text[j]);
    }
  }

  lemma {:induction false} TextIsWide(spans: seq<Span>, fill: Option<Color>)
    requires OrdinarySpans(spans) && WideSpans(spans)
    ensures AllWide(PaintSpans(spans, fill))
  {
    if spans != [] {
      var n := |spans| - 1;
      TextIsWide(spans[..n], fill);
      OrdinaryText(spans[n].text, Banded(spans[n].style, fill));
    }
  }

  lemma RowHasCell(cells: seq<Painted>, w: nat, k: nat)
    requires CellsWidth(cells) <= w && AllWide(cells) && k < |cells|
    ensures |RowOf(cells, w)| == w && CellAt(RowOf(cells, w), CellsWidth(cells[..k]), cells[k])
  {
    SlotsShow(cells, k);
  }

  /** The cells of a fitting line: all in columns of their own, those of the text first. */
  lemma FittingCells(line: Line, w: nat) returns (text: seq<Painted>)
    requires FitsOrdinary(line, w)
    ensures MeasuredLine(line)
    ensures var cells := LineCells(line, w);
            CellsWidth(cells) < w && LineRow(line, w) == RowOf(cells, w) && AllWide(cells) &&
            Filled(line, w - 1, text, cells) && SpansShow(line.spans, line.fill, text)
  {
    OrdinaryIsMeasured(line);
    assert Clip(line, w - 1) == line;
    text := PaintSpans(line.spans, line.fill);
    OrdinarySpansShow(line.spans, line.fill);
    TextIsWide(line.spans, line.fill);
    hide PaintSpans, SpansShow, OrdinarySpans, WideSpans, LineWidth, MeasuredLine, RowOf;
  }

  /** A line of ordinary text that fits its row is seen there grapheme by grapheme, each in the
      column where those before it end. */
  lemma RowShowsText(line: Line, w: nat, i: nat, j: nat)
    requires FitsOrdinary(line, w) && i < |line.spans| && j < |line.spans[i].text|
    ensures MeasuredLine(line) && |LineRow(line, w)| == w
    ensures CellAt(LineRow(line, w), Column(line.spans, i, j), Painted(line.spans[i].text[j], ShownStyle(line.spans[i].style, line.fill)))
  {
    hide CellAt, CellsWidth, LineRow, LineCells, RowOf, OrdinarySpans, WideSpans, Sum, MeasuredLine, AllWide, Before, SpansWidth;
    var text := FittingCells(line, w);
    var cells, at := LineCells(line, w), Before(line.spans, i);
    SpanAt(line.spans, line.fill, text, i);
    SpanColumns(line.spans, line.fill, text, i);
    TextColumns(text, at, line.spans[i], line.fill, j);
    assert cells[..at + j] == text[..at + j];
    RowHasCell(cells, w, at + j);
  }

  /** Behind the text of such a line its fill goes on to the last column but one; the rest is erased. */
  lemma RowShowsFill(line: Line, w: nat, x: nat)
    requires FitsOrdinary(line, w) && LineWidth(line) <= x < w
    ensures MeasuredLine(line) && |LineRow(line, w)| == w
    ensures LineRow(line, w)[x] ==
            if line.fill.Some? && x < w - 1
            then Full(" ", Style(Default, line.fill.value, false, false, false, false, false, false))
            else Empty(Default)
  {
    hide CellsWidth, LineRow, LineCells, RowOf, OrdinarySpans, WideSpans, Sum, MeasuredLine, AllWide, Before, SpansWidth, SpanShows;
    var text := FittingCells(line, w);
    var cells, n := LineCells(line, w), |line.spans|;
    SpanColumns(line.spans, line.fill, text, n);
    assert line.spans[..n] == line.spans && cells[..|text|] == text && text[..|text|] == text;
    FillColumns(cells, |text|, |cells| - |text|);
    assert cells[..|cells|] == cells;
    if line.fill.Some? && x < w - 1 {
      var k := |text| + x - LineWidth(line);
      FillColumns(cells, |text|, x - LineWidth(line));
      RowHasCell(cells, w, k);
    } else {
      RowEnds(cells, w, x);
    }
  }

  lemma RowEnds(cells: seq<Painted>, w: nat, x: nat)
    requires CellsWidth(cells) <= x < w
    ensures |RowOf(cells, w)| == w && RowOf(cells, w)[x] == Empty(Default)
  {
  }

  lemma {:induction false} FillColumns(cells: seq<Painted>, at: nat, n: nat)
    requires at + n <= |cells| && forall k :: at <= k < |cells| ==> cells[k].g == SPACE
    ensures CellsWidth(cells[..at + n]) == CellsWidth(cells[..at]) + n
  {
    if n > 0 {
      FillColumns(cells, at, n - 1);
      assert cells[..at + n][..at + n - 1] == cells[..at + n - 1];
    }
  }

  // ----- what is drawn of a line and of a frame ---------------------------------------------

  /** A text cut to `room` cells: its longest start that leaves a cell for the ellipsis. */
  ghost predicate IsCut(text: seq<Grapheme>, room: nat, out: seq<Grapheme>) {
    if TextWidth(text) <= room then out == text
    else
      out != [] && out[|out| - 1] == Grapheme("…", 1) &&
      var n := |out| - 1;
      n <= |text| && out[..n] == text[..n] && (room > 0 ==> TextWidth(text[..n]) + 1 <= room) &&
      (n < |text| ==> TextWidth(text[..n + 1]) + 1 > room)
  }

  lemma TruncatedIsCut(text: seq<Grapheme>, room: nat)
    requires room > 0
    ensures IsCut(text, room, Width.Truncated(text, room))
  {
    if TextWidth(text) > room {
      var out := Width.Truncated(text, room);
      var n := |out| - 1;
      Width.FitCountIs(text, room - 1);
      assert out[..n] == text[..n];
      Width.PrefixWidth(text, n);
      if n < |text| { Width.PrefixWidth(text, n + 1); }
    }
  }

  lemma OneInFront(spans: seq<Span>, rest: seq<Span>, k: nat, n: nat)
    requires k < n < |spans| && |rest| == n - k && rest[..n - k - 1] == spans[k + 1..n]
    ensures var out := [spans[k]] + rest; out[..n - k] == spans[k..n] && out[n - k] == rest[n - k - 1]
  {
    var out := [spans[k]] + rest;
    assert out[..n - k] == [spans[k]] + rest[..n - k - 1];
    assert spans[k..n] == [spans[k]] + spans[k + 1..n];
  }

  /** A line too wide for its row keeps the spans in front of the first that leaves no free cell in
      it, and that span is cut to the room left; the fill stays. */
  lemma {:induction false} ClipCuts(spans: seq<Span>, k: nat, width: nat) returns (n: nat)
    requires k <= |spans| && width > 0 && SpansWidth(spans[..k]) <= width - 1 < SpansWidth(spans)
    ensures var out := ClipFrom(spans, k, SpansWidth(spans[..k]), width);
            k <= n < |spans| && SpansWidth(spans[..n]) <= width - 1 < SpansWidth(spans[..n + 1]) &&
            |out| == n - k + 1 && out[..n - k] == spans[k..n] && out[n - k].style == spans[n].style &&
            IsCut(spans[n].text, width - SpansWidth(spans[..n]), out[n - k].text)
    decreases |spans| - k
  {
    hide SpansWidth, TextWidth, Width.Truncated, IsCut, ClipFrom;
    assert spans[..|spans|] == spans;
    var used, out := SpansWidth(spans[..k]), ClipFrom(spans, k, SpansWidth(spans[..k]), width);
    SpansWidthStep(spans, k);
    ClipStep(spans, k, used, width);
    if used + TextWidth(spans[k].text) <= width - 1 {
      n := ClipCuts(spans, k + 1, width);
      OneInFront(spans, ClipFrom(spans, k + 1, SpansWidth(spans[..k + 1]), width), k, n);
    } else {
      n := k;
      TruncatedIsCut(spans[k].text, width - used);
    }
  }

  lemma ClipKeeps(line: Line, width: nat) returns (n: nat)
    requires width > 0
    ensures var out := Clip(line, width);
            if LineWidth(line) <= width then out == line
            else
              n < |line.spans| && SpansWidth(line.spans[..n]) <= width - 1 < SpansWidth(line.spans[..n + 1]) &&
              out.fill == line.fill && |out.spans| == n + 1 && out.spans[..n] == line.spans[..n] &&
              out.spans[n].style == line.spans[n].style &&
              IsCut(line.spans[n].text, width - SpansWidth(line.spans[..n]), out.spans[n].text)
  {
    if LineWidth(line) > width {
      assert line.spans[..0] == [];
      n := ClipCuts(line.spans, 0, width);
    } else {
      n := 0;
    }
  }

  /** The rows drawn for a frame are those of its last lines, as many as fit above the bottom row of
      the screen, in order. */
  lemma FrameShows(t: InlineTerminal, frame: LiveFrame, k: nat)
    requires t.width >= 2 && t.height >= 2 && MeasuredLines(frame.lines)
    ensures var rows, n := t.Target(frame), |frame.lines|;
            |rows| == (if n < t.height then n else t.height - 1) &&
            (k < |rows| ==> rows[k] == LineRow(frame.lines[n - |rows| + k], t.width))
  {
    hide LineRow, MeasuredLine;
  }
}
