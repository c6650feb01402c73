/** Character classes the renderer tests, as Rust's `char` methods define them. */
module Chars {

  predicate IsWhitespace(c: char) {
    '\t' <= c <= '\r' || c == ' ' || c == '\U{0085}' || c == '\U{00A0}' || c == '\U{1680}' ||
    '\U{2000}' <= c <= '\U{200A}' || c == '\U{2028}' || c == '\U{2029}' || c == '\U{202F}' ||
    c == '\U{205F}' || c == '\U{3000}'
  }

  /** The 25 characters of the Unicode property White_Space, by code point. */
  lemma WhitespaceIs(c: char)
    ensures IsWhitespace(c) <==>
            c as int in {9, 10, 11, 12, 13, 32, 133, 160, 5760, 8192, 8193, 8194, 8195, 8196, 8197, 8198, 8199, 8200, 8201, 8202,
                         8232, 8233, 8239, 8287, 12288}
  {
  }

  predicate AllWhitespace(s: string) { s == [] || (IsWhitespace(s[0]) && AllWhitespace(s[1..])) }

  ghost predicate BlankText(text: string) { forall k :: 0 <= k < |text| ==> IsWhitespace(text[k]) }

  lemma {:induction false} BlankIs(text: string)
    ensures AllWhitespace(text) <==> BlankText(text)
  {
    if text != [] {
      BlankIs(text[1..]);
      if IsWhitespace(text[0]) && BlankText(text[1..]) {
        forall k | 0 <= k < |text| ensures IsWhitespace(text[k]) { assert k > 0 ==> text[k] == text[1..][k - 1]; }
      }
      if BlankText(text) {
        forall k | 0 <= k < |text| - 1 ensures IsWhitespace(text[1..][k]) { assert text[1..][k] == text[k + 1]; }
      }
    }
  }

  predicate IsControl(c: char) { c <= '\U{001F}' || '\U{007F}' <= c <= '\U{009F}' }

  /** The bidirectional format characters (crates/inline/src/style.rs). */
  predicate IsBidiControl(c: char) {
    c == '\U{061C}' || c == '\U{200E}' || c == '\U{200F}' ||
    '\U{202A}' <= c <= '\U{202E}' || '\U{2066}' <= c <= '\U{2069}'
  }
}

module Nats {
  function Max(x: nat, y: nat): nat { if x < y then y else x }
  function Min(x: nat, y: nat): nat { if x < y then x else y }

  /** Subtraction that stops at 0. */
  function Less(x: nat, y: nat): nat { if x < y then 0 else x - y }

  lemma Grows(q: int, k: int, n: nat)
    ensures q >= k ==> q * n >= k * n
    ensures q <= k ==> q * n <= k * n
  {
  }

  /** The remainder is known once the quotient is. */
  lemma Remainder(x: nat, k: nat, n: nat)
    requires n > 0 && k * n <= x < (k + 1) * n
    ensures x % n == x - k * n
  {
    var q := x / n;
    Grows(q, k + 1, n);
    Grows(q, k - 1, n);
    assert x == q * n + x % n;
  }

  /** A place one round further is the same place. */
  lemma OneRound(r: nat, n: nat)
    requires r < n
    ensures (n + r) % n == r
  {
    Remainder(n + r, 1, n);
  }
}

/** Styled text (crates/inline/src/style.rs).
    A grapheme is atomic: its characters and the number of cells it occupies. */
module Styles {
  datatype Color =
    | Default
    | Black | Red | Green | Yellow | Blue | Magenta | Cyan | White
    | BrightBlack | BrightRed | BrightGreen | BrightYellow
    | BrightBlue | BrightMagenta | BrightCyan | BrightWhite
    | Indexed(n: Byte)
    | Rgb(r: Byte, g: Byte, b: Byte)

  type Byte = n: int | 0 <= n < 256 witness 0

  datatype Style = Style(fg: Color, bg: Color, bold: bool, dim: bool, italic: bool,
                         underline: bool, strike: bool, reverse: bool)

  const PLAIN := Style(Default, Default, false, false, false, false, false, false)

  datatype Option<+T> = None | Some(value: T)

  datatype Grapheme = Grapheme(text: string, width: nat)

  const SPACE := Grapheme(" ", 1)

  datatype Span = Span(text: seq<Grapheme>, style: Style)

  /** A line with a `fill` is padded in that color up to the width it is drawn at. */
  datatype Line = Line(spans: seq<Span>, fill: Option<Color>)

  // ----- widths ------------------------------------------------------------------

  /** Cells taken by graphemes `i` up to `j`. */
  function Sum(t: seq<Grapheme>, i: nat, j: nat): nat
    requires i <= j <= |t|
    decreases j
  {
    if i == j then 0 else Sum(t, i, j - 1) + t[j - 1].width
  }

  function TextWidth(t: seq<Grapheme>): nat { Sum(t, 0, |t|) }

  function SpansWidth(spans: seq<Span>): nat {
    if spans == [] then 0 else SpansWidth(spans[..|spans| - 1]) + TextWidth(spans[|spans| - 1].text)
  }

  function LineWidth(line: Line): nat { SpansWidth(line.spans) }

  lemma {:induction false} SumSplit(t: seq<Grapheme>, i: nat, j: nat, k: nat)
    requires i <= j <= k <= |t|
    ensures Sum(t, i, k) == Sum(t, i, j) + Sum(t, j, k)
    decreases k
  {
    if j < k { SumSplit(t, i, j, k - 1); }
  }

  lemma {:induction false} SumPrefix(x: seq<Grapheme>, y: seq<Grapheme>, j: nat)
    requires j <= |x|
    ensures Sum(x + y, 0, j) == Sum(x, 0, j)
  {
    if j > 0 { SumPrefix(x, y, j - 1); }
  }

  lemma {:induction false} SumSuffix(x: seq<Grapheme>, y: seq<Grapheme>, j: nat)
    requires j <= |y|
    ensures Sum(x + y, |x|, |x| + j) == Sum(y, 0, j)
  {
    if j > 0 { SumSuffix(x, y, j - 1); }
  }

  lemma TextWidthAppend(x: seq<Grapheme>, y: seq<Grapheme>)
    ensures TextWidth(x + y) == TextWidth(x) + TextWidth(y)
    ensures Sum(x + y, 0, |x|) == TextWidth(x) && Sum(x + y, |x|, |x + y|) == TextWidth(y)
  {
    SumPrefix(x, y, |x|);
    SumSuffix(x, y, |y|);
    SumSplit(x + y, 0, |x|, |x + y|);
  }

  lemma {:induction false} SpansWidthAppend(x: seq<Span>, y: seq<Span>)
    ensures SpansWidth(x + y) == SpansWidth(x) + SpansWidth(y)
  {
    if y == [] {
      assert x + y == x;
    } else {
      SpansWidthAppend(x, y[..|y| - 1]);
      assert (x + y)[..|x + y| - 1] == x + y[..|y| - 1];
    }
  }
}
