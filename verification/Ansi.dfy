/** SGR sequences: writing them (crates/inline/src/style.rs) and reading them back
    (crates/inline/src/ansi.rs), by ECMA-48 section 8.3.117. */
module Sgr {
  import opened Styles

  // ----- numbers ---------------------------------------------------------------

  function Digit(d: nat): char
    requires d < 10
  {
    '0' + d as char
  }

  predicate IsDigit(c: char) { '0' <= c <= '9' }

  function Decimal(n: nat): string {
    if n < 10 then [Digit(n)] else Decimal(n / 10) + [Digit(n % 10)]
  }

  /** The value of a run of digits, or nothing. */
  function DigitsValue(s: string): Option<nat> {
    if s == [] then None
    else
      var c := s[|s| - 1];
      if !IsDigit(c) then None
      else if |s| == 1 then Some((c - '0') as nat)
      else match DigitsValue(s[..|s| - 1])
        case None => None
        case Some(v) => Some(10 * v + (c - '0') as nat)
  }

  /** Rust's `parse::<u16>().unwrap_or(0)`: an optional plus sign, digits, at most 65535. */
  function ParseU16(s: string): nat {
    var digits := if s != [] && s[0] == '+' then s[1..] else s;
    match DigitsValue(digits)
    case None => 0
    case Some(v) => if v <= 0xFFFF then v else 0
  }

  predicate IsSeparator(c: char) { c == ';' || c == ':' }

  /** The numbers between separators, from `i` on, `piece` being what is read since the last one. */
  function NumsFrom(s: string, i: nat, piece: string): seq<nat>
    requires i <= |s|
    decreases |s| - i
  {
    if i == |s| then [ParseU16(piece)]
    else if IsSeparator(s[i]) then [ParseU16(piece)] + NumsFrom(s, i + 1, "")
    else NumsFrom(s, i + 1, piece + [s[i]])
  }

  function Nums(params: string): seq<nat> {
    if params == "" then [0] else NumsFrom(params, 0, "")
  }

  // ----- writing ---------------------------------------------------------------------

  /** The numbers that select a color. */
  function ColorNums(c: Color, background: bool): seq<nat> {
    var base, bright := if background then 40 else 30, if background then 100 else 90;
    match c
    case Default => [if background then 49 else 39]
    case Black => [base] case Red => [base + 1] case Green => [base + 2] case Yellow => [base + 3]
    case Blue => [base + 4] case Magenta => [base + 5] case Cyan => [base + 6] case White => [base + 7]
    case BrightBlack => [bright] case BrightRed => [bright + 1] case BrightGreen => [bright + 2]
    case BrightYellow => [bright + 3] case BrightBlue => [bright + 4] case BrightMagenta => [bright + 5]
    case BrightCyan => [bright + 6] case BrightWhite => [bright + 7]
    case Indexed(n) => [base + 8, 5, n]
    case Rgb(r, g, b) => [base + 8, 2, r, g, b]
  }

  function Flag(on: bool, n: nat): seq<nat> { if on then [n] else [] }

  function ColorOf(c: Color, background: bool): seq<nat> {
    if c == Default then [] else ColorNums(c, background)
  }

  /** The parameters of the sequence that switches to `s` from a reset state. */
  function StyleNums(s: Style): seq<nat> { [0] + AfterReset(s) }

  function AfterReset(s: Style): seq<nat> {
    Flag(s.bold, 1) + (Flag(s.dim, 2) + (Flag(s.italic, 3) + (Flag(s.underline, 4) +
    (Flag(s.reverse, 7) + (Flag(s.strike, 9) + (ColorOf(s.fg, false) + ColorOf(s.bg, true)))))))
  }

  /** Each number after the first is written with a semicolon before it. */
  function Tail(nums: seq<nat>): string {
    if nums == [] then "" else (";" + Decimal(nums[0])) + Tail(nums[1..])
  }

  const ESC: char := '\U{001B}'

  method WriteColor(c: Color, background: bool) returns (out: string)
    ensures out == Tail(ColorNums(c, background))
  {
    var base, bright := if background then 40 else 30, if background then 100 else 90;
    match c {
      case Default => out := Numbers([if background then 49 else 39]);
      case Black => out := Numbers([base]);
      case Red => out := Numbers([base + 1]);
      case Green => out := Numbers([base + 2]);
      case Yellow => out := Numbers([base + 3]);
      case Blue => out := Numbers([base + 4]);
      case Magenta => out := Numbers([base + 5]);
      case Cyan => out := Numbers([base + 6]);
      case White => out := Numbers([base + 7]);
      case BrightBlack => out := Numbers([bright]);
      case BrightRed => out := Numbers([bright + 1]);
      case BrightGreen => out := Numbers([bright + 2]);
      case BrightYellow => out := Numbers([bright + 3]);
      case BrightBlue => out := Numbers([bright + 4]);
      case BrightMagenta => out := Numbers([bright + 5]);
      case BrightCyan => out := Numbers([bright + 6]);
      case BrightWhite => out := Numbers([bright + 7]);
      case Indexed(n) => out := Numbers([if background then 48 else 38, 5, n]);
      case Rgb(r, g, b) => out := Numbers([if background then 48 else 38, 2, r, g, b]);
    }
  }

  method Numbers(nums: seq<nat>) returns (out: string)
    ensures out == Tail(nums)
  {
    out := "";
    for k := 0 to |nums|
      invariant out + Tail(nums[k..]) == Tail(nums)
    {
      assert nums[k..][1..] == nums[k + 1..];
      Associates(out, ";" + Decimal(nums[k]), Tail(nums[k + 1..]));
      out := out + (";" + Decimal(nums[k]));
    }
    assert out + Tail(nums[|nums|..]) == out;
  }

  /** The bytes of the sequence. */
  function SgrText(s: Style): string { [ESC, '['] + SgrParams(s) + ['m'] }

  function SgrParams(s: Style): string { "0" + Tail(AfterReset(s)) }

  lemma Associates(x: string, y: string, z: string)
    ensures x + (y + z) == (x + y) + z
  {
  }

  lemma {:induction false} TailAppend(x: seq<nat>, y: seq<nat>)
    ensures Tail(x + y) == Tail(x) + Tail(y)
  {
    if x == [] {
      assert x + y == y && Tail(x) + Tail(y) == Tail(y);
    } else {
      var first := ";" + Decimal(x[0]);
      TailAppend(x[1..], y);
      assert (x + y)[1..] == x[1..] + y;
      Associates(first, Tail(x[1..]), Tail(y));
    }
  }

  function FlagText(on: bool, n: nat): string
    requires n < 10
  {
    if on then [';', Digit(n)] else ""
  }

  lemma FlagTail(on: bool, n: nat, rest: seq<nat>)
    requires n < 10
    ensures Tail(Flag(on, n) + rest) == FlagText(on, n) + Tail(rest)
  {
    if on {
      assert ([n] + rest)[1..] == rest;
      assert ";" + Decimal(n) == FlagText(on, n);
    } else {
      assert [] + rest == rest && "" + Tail(rest) == Tail(rest);
    }
  }

  lemma AfterResetText(s: Style)
    ensures Tail(AfterReset(s)) ==
            FlagText(s.bold, 1) + (FlagText(s.dim, 2) + (FlagText(s.italic, 3) + (FlagText(s.underline, 4) +
            (FlagText(s.reverse, 7) + (FlagText(s.strike, 9) + (Tail(ColorOf(s.fg, false)) + Tail(ColorOf(s.bg, true))))))))
  {
    var r := ColorOf(s.fg, false) + ColorOf(s.bg, true);
    TailAppend(ColorOf(s.fg, false), ColorOf(s.bg, true));
    FlagTail(s.strike, 9, r);     r := Flag(s.strike, 9) + r;
    FlagTail(s.reverse, 7, r);    r := Flag(s.reverse, 7) + r;
    FlagTail(s.underline, 4, r);  r := Flag(s.underline, 4) + r;
    FlagTail(s.italic, 3, r);     r := Flag(s.italic, 3) + r;
    FlagTail(s.dim, 2, r);        r := Flag(s.dim, 2) + r;
    FlagTail(s.bold, 1, r);
  }

  /** Append the sequence that switches to `s` from a reset state. */
  method WriteSgr(s: Style) returns (out: string)
    ensures out == SgrText(s)
  {
    var fg := WriteColorOf(s.fg, false);
    var bg := WriteColorOf(s.bg, true);
    AfterResetText(s);
    out := [ESC, '['] + ("0" + (FlagText(s.bold, 1) + (FlagText(s.dim, 2) + (FlagText(s.italic, 3) +
      (FlagText(s.underline, 4) + (FlagText(s.reverse, 7) + (FlagText(s.strike, 9) + (fg + bg)))))))) + ['m'];
  }

  method WriteColorOf(c: Color, background: bool) returns (out: string)
    ensures out == Tail(ColorOf(c, background))
  {
    out := "";
    if c != Default { out := WriteColor(c, background); }
  }

  // ----- reading ---------------------------------------------------------------------

  function Basic(n: nat): Color {
    match n
    case 0 => Black case 1 => Red case 2 => Green case 3 => Yellow
    case 4 => Blue case 5 => Magenta case 6 => Cyan case _ => White
  }

  function Bright(n: nat): Color {
    match n
    case 0 => BrightBlack case 1 => BrightRed case 2 => BrightGreen case 3 => BrightYellow
    case 4 => BrightBlue case 5 => BrightMagenta case 6 => BrightCyan case _ => BrightWhite
  }

  /** A parameter that stands alone. */
  function One(s: Style, n: nat): Style {
    if n == 0 then PLAIN
    else if n == 1 then s.(bold := true)
    else if n == 2 then s.(dim := true)
    else if n == 3 then s.(italic := true)
    else if n == 4 then s.(underline := true)
    else if n == 7 then s.(reverse := true)
    else if n == 9 then s.(strike := true)
    else if n == 22 then s.(bold := false, dim := false)
    else if n == 23 then s.(italic := false)
    else if n == 24 then s.(underline := false)
    else if n == 27 then s.(reverse := false)
    else if n == 29 then s.(strike := false)
    else if 30 <= n <= 37 then s.(fg := Basic(n - 30))
    else if n == 39 then s.(fg := Default)
    else if 40 <= n <= 47 then s.(bg := Basic(n - 40))
    else if n == 49 then s.(bg := Default)
    else if 90 <= n <= 97 then s.(fg := Bright(n - 90))
    else if 100 <= n <= 107 then s.(bg := Bright(n - 100))
    else s
  }

  /** A parameter past the end reads as 0; only the low byte counts. */
  function ByteAt(nums: seq<nat>, k: nat): Byte { if k < |nums| then nums[k] % 256 else 0 }

  /** The color after 38 or 48, and how many parameters it takes. */
  function Extended(nums: seq<nat>): (Color, nat)
    requires nums != []
  {
    if |nums| > 1 && nums[1] == 5 then (Indexed(ByteAt(nums, 2)), 3)
    else if |nums| > 1 && nums[1] == 2 then (Rgb(ByteAt(nums, 2), ByteAt(nums, 3), ByteAt(nums, 4)), 5)
    else (Default, 1)
  }

  function Apply(s: Style, nums: seq<nat>): Style
    decreases |nums|
  {
    if nums == [] then s
    else if nums[0] == 38 || nums[0] == 48 then
      var (color, used) := Extended(nums);
      Apply(if nums[0] == 38 then s.(fg := color) else s.(bg := color), if used <= |nums| then nums[used..] else [])
    else Apply(One(s, nums[0]), nums[1..])
  }

  method ApplySgr(style: Style, params: string) returns (s: Style)
    ensures s == Apply(style, Nums(params))
  {
    s := style;
    var nums := Nums(params);
    var i := 0;
    while i < |nums|
      invariant 0 <= i
      invariant Apply(s, if i <= |nums| then nums[i..] else []) == Apply(style, nums)
      decreases |nums| - i
    {
      var n, rest := nums[i], nums[i..];
      if n == 38 || n == 48 {
        var color := Default;
        if i + 1 < |nums| && nums[i + 1] == 5 {
          color := Indexed(if i + 2 < |nums| then nums[i + 2] % 256 else 0);
          i := i + 2;
        } else if i + 1 < |nums| && nums[i + 1] == 2 {
          var r, g, b := ByteAt(nums, i + 2), ByteAt(nums, i + 3), ByteAt(nums, i + 4);
          color := Rgb(r, g, b);
          i := i + 4;
        }
        if n == 38 { s := s.(fg := color); } else { s := s.(bg := color); }
        var used := Extended(rest).1;
        assert used <= |rest| ==> rest[used..] == nums[i + 1..];
      } else {
        s := One(s, n);
        assert rest[1..] == nums[i + 1..];
      }
      i := i + 1;
    }
  }

  // ----- reading back what was written ------------------------------------------------------

  lemma {:induction false} DecimalValue(n: nat)
    ensures DigitsValue(Decimal(n)) == Some(n)
    ensures forall k :: 0 <= k < |Decimal(n)| ==> IsDigit(Decimal(n)[k])
  {
    if n >= 10 {
      DecimalValue(n / 10);
      var d := Decimal(n);
      assert d[..|d| - 1] == Decimal(n / 10);
    }
  }

  lemma DecimalParses(n: nat)
    requires n <= 0xFFFF
    ensures ParseU16(Decimal(n)) == n
  {
    DecimalValue(n);
    assert IsDigit(Decimal(n)[0]);
  }

  lemma {:induction false} ReadDigits(s: string, i: nat, piece: string, digits: string)
    requires i + |digits| <= |s| && s[i..i + |digits|] == digits
    requires forall k :: 0 <= k < |digits| ==> IsDigit(digits[k])
    ensures NumsFrom(s, i, piece) == NumsFrom(s, i + |digits|, piece + digits)
    decreases |digits|
  {
    if digits == [] {
      assert piece + digits == piece;
    } else {
      assert s[i] == digits[0];
      assert s[i + 1..i + 1 + |digits[1..]|] == digits[1..];
      ReadDigits(s, i + 1, piece + [s[i]], digits[1..]);
      assert piece + [digits[0]] + digits[1..] == piece + digits;
    }
  }

  lemma SeparatorReads(s: string, i: nat, piece: string)
    requires i < |s| && s[i] == ';'
    ensures NumsFrom(s, i, piece) == [ParseU16(piece)] + NumsFrom(s, i + 1, "")
  {
    hide ParseU16;
  }

  /** A semicolon and a number after it. */
  lemma ReadNum(s: string, i: nat, piece: string, n: nat, rest: string)
    requires i <= |s| && s[i..] == (";" + Decimal(n)) + rest
    ensures var next := i + 1 + |Decimal(n)|;
            next <= |s| && s[next..] == rest &&
            NumsFrom(s, i, piece) == [ParseU16(piece)] + NumsFrom(s, next, Decimal(n))
  {
    hide NumsFrom, ParseU16, Decimal, IsSeparator;
    SplitTail(s, i, Decimal(n), rest);
    DecimalValue(n);
    SeparatorReads(s, i, piece);
    ReadDigits(s, i + 1, "", Decimal(n));
    assert "" + Decimal(n) == Decimal(n);
  }

  lemma {:induction false} ReadTail(s: string, i: nat, piece: string, nums: seq<nat>)
    requires i <= |s| && s[i..] == Tail(nums) && Small(nums)
    ensures NumsFrom(s, i, piece) == [ParseU16(piece)] + nums
    decreases |nums|
  {
    if nums == [] {
      assert i == |s|;
    } else {
      ReadNum(s, i, piece, nums[0], Tail(nums[1..]));
      ReadTail(s, i + 1 + |Decimal(nums[0])|, Decimal(nums[0]), nums[1..]);
      DecimalParses(nums[0]);
    }
  }

  lemma SplitTail(s: string, i: nat, d: string, rest: string)
    requires i <= |s| && s[i..] == (";" + d) + rest
    ensures i + 1 + |d| <= |s| && s[i] == ';' && s[i + 1..i + 1 + |d|] == d && s[i + 1 + |d|..] == rest
  {
    var t := s[i..];
    assert t[0] == ';' && t[1..1 + |d|] == d && t[1 + |d|..] == rest;
    assert s[i + 1..i + 1 + |d|] == t[1..1 + |d|] && s[i + 1 + |d|..] == t[1 + |d|..];
  }

  /** What the writer puts between `[` and `m` reads back as the same numbers. */
  lemma ParamsReadBack(s: Style)
    ensures Nums(SgrParams(s)) == StyleNums(s)
  {
    var p := SgrParams(s);
    SmallNums(s);
    assert p[0] == '0' && p[1..] == Tail(AfterReset(s));
    assert NumsFrom(p, 0, "") == NumsFrom(p, 1, "" + ['0']);
    assert "" + ['0'] == "0" == Decimal(0);
    DecimalParses(0);
    ReadTail(p, 1, "0", AfterReset(s));
  }

  ghost predicate Small(nums: seq<nat>) { nums == [] || (nums[0] <= 0xFFFF && Small(nums[1..])) }

  lemma {:induction false} SmallAppend(x: seq<nat>, y: seq<nat>)
    requires Small(x) && Small(y)
    ensures Small(x + y)
  {
    if x == [] {
      assert x + y == y;
    } else {
      SmallAppend(x[1..], y);
      assert (x + y)[1..] == x[1..] + y;
    }
  }

  lemma SmallNums(s: Style)
    ensures Small(AfterReset(s))
  {
    var r := ColorOf(s.fg, false) + ColorOf(s.bg, true);
    SmallColor(s.fg, false);
    SmallColor(s.bg, true);
    SmallAppend(ColorOf(s.fg, false), ColorOf(s.bg, true));
    SmallFlag(s.strike, 9, r);     r := Flag(s.strike, 9) + r;
    SmallFlag(s.reverse, 7, r);    r := Flag(s.reverse, 7) + r;
    SmallFlag(s.underline, 4, r);  r := Flag(s.underline, 4) + r;
    SmallFlag(s.italic, 3, r);     r := Flag(s.italic, 3) + r;
    SmallFlag(s.dim, 2, r);        r := Flag(s.dim, 2) + r;
    SmallFlag(s.bold, 1, r);
  }

  lemma SmallFlag(on: bool, n: nat, rest: seq<nat>)
    requires n < 10 && Small(rest)
    ensures Small(Flag(on, n) + rest)
  {
    SmallAppend(Flag(on, n), rest);
  }

  lemma SmallColor(c: Color, background: bool)
    ensures Small(ColorOf(c, background))
  {
    if c.Rgb? || c.Indexed? {
      var base: nat := if background then 48 else 38;
      var bytes := if c.Rgb? then [c.r, c.g, c.b] else [c.n];
      SmallBytes(bytes);
      SmallBytes([if c.Rgb? then 2 else 5]);
      SmallBytes([base]);
      SmallAppend([if c.Rgb? then 2 else 5], bytes);
      SmallAppend([base], [if c.Rgb? then 2 else 5] + bytes);
      assert ColorNums(c, background) == [base] + ([if c.Rgb? then 2 else 5] + bytes);
    }
  }

  lemma {:induction false} SmallBytes(nums: seq<nat>)
    requires forall k :: 0 <= k < |nums| ==> nums[k] < 256
    ensures Small(nums)
  {
    if nums != [] { SmallBytes(nums[1..]); }
  }

  /** The number of a named color, and the color it is read as. */
  lemma NamedNums(c: Color, background: bool)
    requires c != Default && !c.Indexed? && !c.Rgb?
    ensures var nums, low, high := ColorNums(c, background), if background then 40 else 30, if background then 100 else 90;
            |nums| == 1 &&
            ((low <= nums[0] <= low + 7 && Basic(nums[0] - low) == c) || (high <= nums[0] <= high + 7 && Bright(nums[0] - high) == c))
  {
  }

  lemma FlagStep(s: Style, on: bool, n: nat, rest: seq<nat>)
    requires n != 38 && n != 48
    ensures Apply(s, Flag(on, n) + rest) == Apply(if on then One(s, n) else s, rest)
  {
    if on {
      assert ([n] + rest)[1..] == rest;
    } else {
      assert [] + rest == rest;
    }
  }

  lemma NamedColor(s: Style, c: Color, background: bool)
    requires c != Default && !c.Indexed? && !c.Rgb?
    ensures var nums := ColorNums(c, background);
            |nums| == 1 && nums[0] != 38 && nums[0] != 48 &&
            One(s, nums[0]) == if background then s.(bg := c) else s.(fg := c)
  {
    var nums := ColorNums(c, background);
    NamedNums(c, background);
    hide ColorNums, Basic, Bright;
  }

  lemma ApplyExtended(s: Style, nums: seq<nat>)
    requires nums != [] && (nums[0] == 38 || nums[0] == 48)
    ensures var (color, used) := Extended(nums);
            Apply(s, nums) == Apply(if nums[0] == 38 then s.(fg := color) else s.(bg := color), if used <= |nums| then nums[used..] else [])
  {
    hide Extended;
  }

  lemma ExtendedNums(c: Color, background: bool)
    requires c.Indexed? || c.Rgb?
    ensures var nums, first := ColorNums(c, background), if background then 48 else 38;
            nums == if c.Indexed? then [first, 5, c.n] else [first, 2, c.r, c.g, c.b]
  {
  }

  lemma ColorStep(s: Style, c: Color, background: bool, rest: seq<nat>)
    requires if background then s.bg == Default else s.fg == Default
    ensures Apply(s, ColorOf(c, background) + rest) == Apply(if background then s.(bg := c) else s.(fg := c), rest)
  {
    if c == Default {
      assert [] + rest == rest;
    } else if c.Indexed? || c.Rgb? {
      ExtendedStep(s, c, background, rest);
    } else {
      NamedColor(s, c, background);
      assert (ColorNums(c, background) + rest)[1..] == rest;
    }
  }

  lemma ExtendedStep(s: Style, c: Color, background: bool, rest: seq<nat>)
    requires c.Indexed? || c.Rgb?
    ensures Apply(s, ColorNums(c, background) + rest) == Apply(if background then s.(bg := c) else s.(fg := c), rest)
  {
    hide Apply, Extended, ColorNums, One;
    var nums := ColorNums(c, background);
    ExtendedNums(c, background);
    DropFirst(nums, rest);
    if c.Indexed? { IndexedReads(nums, rest, c); } else { RgbReads(nums, rest, c); }
    assert (nums + rest)[0] == nums[0];
    ApplyExtended(s, nums + rest);
  }

  lemma IndexedReads(nums: seq<nat>, rest: seq<nat>, c: Color)
    requires c.Indexed? && |nums| == 3 && nums[1] == 5 && nums[2] == c.n
    ensures Extended(nums + rest) == (c, 3)
  {
  }

  lemma RgbReads(nums: seq<nat>, rest: seq<nat>, c: Color)
    requires c.Rgb? && |nums| == 5 && nums[1] == 2 && nums[2] == c.r && nums[3] == c.g && nums[4] == c.b
    ensures Extended(nums + rest) == (c, 5)
  {
  }

  lemma DropFirst(x: seq<nat>, y: seq<nat>)
    ensures (x + y)[|x|..] == y
  {
  }

  /** SGR round trip: the parameters of `s`, read from any prior style, give `s`. */
  lemma SgrRoundTrip(prior: Style, s: Style)
    ensures Apply(prior, StyleNums(s)) == s
    ensures Apply(prior, Nums(SgrParams(s))) == s
  {
    var colors := ColorOf(s.fg, false) + ColorOf(s.bg, true);
    var r6 := Flag(s.strike, 9) + colors;
    var r5 := Flag(s.reverse, 7) + r6;
    var r4 := Flag(s.underline, 4) + r5;
    var r3 := Flag(s.italic, 3) + r4;
    var r2 := Flag(s.dim, 2) + r3;
    var r1 := Flag(s.bold, 1) + r2;
    FlagStep(prior, true, 0, r1);
    var s1 := if s.bold then PLAIN.(bold := true) else PLAIN;
    FlagStep(PLAIN, s.bold, 1, r2);
    var s2 := if s.dim then s1.(dim := true) else s1;
    FlagStep(s1, s.dim, 2, r3);
    var s3 := if s.italic then s2.(italic := true) else s2;
    FlagStep(s2, s.italic, 3, r4);
    var s4 := if s.underline then s3.(underline := true) else s3;
    FlagStep(s3, s.underline, 4, r5);
    var s5 := if s.reverse then s4.(reverse := true) else s4;
    FlagStep(s4, s.reverse, 7, r6);
    var s6 := if s.strike then s5.(strike := true) else s5;
    FlagStep(s5, s.strike, 9, colors);
    ColorStep(s6, s.fg, false, ColorOf(s.bg, true));
    ColorStep(s6.(fg := s.fg), s.bg, true, []);
    assert ColorOf(s.bg, true) + [] == ColorOf(s.bg, true);
    ParamsReadBack(s);
  }
}

/** Rows as they are sent to the terminal (`Line::encode`, crates/inline/src/style.rs:191-234)
    and colored text read back from a host (crates/inline/src/ansi.rs). */
module Ansi {
  import opened Chars
  import opened Styles
  import opened Sgr

  // ----- encoding a line ---------------------------------------------------------

  /** What a row is made of: switches of the pen and graphemes. */
  datatype Token = Pen(style: Style) | Glyph(g: Grapheme)

  /** A grapheme as it shows: painted in a style. */
  datatype Painted = Painted(g: Grapheme, style: Style)

  /** Tabs become spaces; control and bidi characters are never sent. */
  function Emit(text: string): string {
    if text == "" then ""
    else
      var c := text[|text| - 1];
      Emit(text[..|text| - 1]) +
      (if c == '\t' then "    " else if IsControl(c) || IsBidiControl(c) then "" else [c])
  }

  /** The graphemes that show for one in the text. */
  function Visible(g: Grapheme): seq<Grapheme> {
    if g.text == "\t" then [SPACE, SPACE, SPACE, SPACE]
    else if Emit(g.text) == "" then []
    else [Grapheme(Emit(g.text), g.width)]
  }

  function Banded(style: Style, fill: Option<Color>): Style {
    if fill.Some? && style.bg == Default then style.(bg := fill.value) else style
  }

  function PaintAll(gs: seq<Grapheme>, style: Style): seq<Painted> {
    seq(|gs|, k requires 0 <= k < |gs| => Painted(gs[k], style))
  }

  function PaintText(text: seq<Grapheme>, style: Style): seq<Painted> {
    if text == [] then []
    else PaintText(text[..|text| - 1], style) + PaintAll(Visible(text[|text| - 1]), style)
  }

  function PaintSpans(spans: seq<Span>, fill: Option<Color>): seq<Painted> {
    if spans == [] then []
    else
      var last := spans[|spans| - 1];
      PaintSpans(spans[..|spans| - 1], fill) + PaintText(last.text, Banded(last.style, fill))
  }

  function PaintFill(n: nat, bg: Color): seq<Painted> {
    seq(n, _ => Painted(SPACE, PLAIN.(bg := bg)))
  }

  /** What a line must look like in a row of `width` cells. */
  function PaintLine(line: Line, width: nat): seq<Painted> {
    PaintSpans(line.spans, line.fill) +
    if line.fill.Some? && LineWidth(line) < width then PaintFill(width - LineWidth(line), line.fill.value) else []
  }

  /** What tokens paint with the pen they start with, and the pen they leave. */
  function Read(pen: Style, tokens: seq<Token>): (seq<Painted>, Style) {
    if tokens == [] then ([], pen)
    else
      var (before, p) := Read(pen, tokens[..|tokens| - 1]);
      match tokens[|tokens| - 1]
      case Pen(style) => (before, Apply(p, StyleNums(style)))
      case Glyph(g) => (before + [Painted(g, p)], p)
  }

  lemma ReadPen(pen: Style, tokens: seq<Token>, style: Style)
    ensures Read(pen, tokens + [Pen(style)]) == (Read(pen, tokens).0, style)
  {
    assert (tokens + [Pen(style)])[..|tokens|] == tokens;
    SgrRoundTrip(Read(pen, tokens).1, style);
  }

  lemma ReadGlyph(pen: Style, tokens: seq<Token>, g: Grapheme)
    ensures Read(pen, tokens + [Glyph(g)]) == (Read(pen, tokens).0 + [Painted(g, Read(pen, tokens).1)], Read(pen, tokens).1)
  {
    assert (tokens + [Glyph(g)])[..|tokens|] == tokens;
  }

  lemma PaintNone(pen: Style)
    ensures PaintAll([], pen) == []
  {
  }

  lemma PaintOneMore(gs: seq<Grapheme>, k: nat, pen: Style)
    requires k < |gs|
    ensures PaintAll(gs[..k + 1], pen) == PaintAll(gs[..k], pen) + [Painted(gs[k], pen)]
  {
  }

  method PutGlyphs(tokens: seq<Token>, gs: seq<Grapheme>) returns (out: seq<Token>)
    ensures var (cells, pen) := Read(PLAIN, tokens); Read(PLAIN, out) == (cells + PaintAll(gs, pen), pen)
  {
    ghost var cells, pen := Read(PLAIN, tokens).0, Read(PLAIN, tokens).1;
    hide Read, PaintAll;
    PaintNone(pen);
    out := tokens;
    assert cells + PaintAll(gs[..0], pen) == cells;
    for k := 0 to |gs|
      invariant Read(PLAIN, out) == (cells + PaintAll(gs[..k], pen), pen)
    {
      ReadGlyph(PLAIN, out, gs[k]);
      PaintOneMore(gs, k, pen);
      assert cells + PaintAll(gs[..k + 1], pen) == cells + PaintAll(gs[..k], pen) + [Painted(gs[k], pen)];
      out := out + [Glyph(gs[k])];
    }
    assert gs[..|gs|] == gs;
  }

  lemma Regroup(x: seq<Painted>, y: seq<Painted>, z: seq<Painted>)
    ensures x + (y + z) == (x + y) + z
  {
  }

  method PutText(tokens: seq<Token>, text: seq<Grapheme>) returns (out: seq<Token>)
    ensures var (cells, pen) := Read(PLAIN, tokens); Read(PLAIN, out) == (cells + PaintText(text, pen), pen)
  {
    ghost var cells, pen := Read(PLAIN, tokens).0, Read(PLAIN, tokens).1;
    out := tokens;
    assert cells + PaintText(text[..0], pen) == cells;
    for k := 0 to |text|
      invariant Read(PLAIN, out) == (cells + PaintText(text[..k], pen), pen)
    {
      assert text[..k + 1][..k] == text[..k];
      out := PutGlyphs(out, Visible(text[k]));
      Regroup(cells, PaintText(text[..k], pen), PaintAll(Visible(text[k]), pen));
    }
    assert text[..|text|] == text;
  }

  method PutPen(tokens: seq<Token>, style: Style, current: Style) returns (out: seq<Token>)
    requires Read(PLAIN, tokens).1 == current
    ensures Read(PLAIN, out) == (Read(PLAIN, tokens).0, style)
  {
    out := tokens;
    if style != current {
      ReadPen(PLAIN, tokens, style);
      out := tokens + [Pen(style)];
    }
  }

  method PutSpans(spans: seq<Span>, fill: Option<Color>) returns (out: seq<Token>, current: Style)
    ensures Read(PLAIN, out) == (PaintSpans(spans, fill), current)
  {
    out, current := [], PLAIN;
    for k := 0 to |spans|
      invariant Read(PLAIN, out) == (PaintSpans(spans[..k], fill), current)
    {
      var style := Banded(spans[k].style, fill);
      out := PutPen(out, style, current);
      current := style;
      out := PutText(out, spans[k].text);
      assert spans[..k + 1][..k] == spans[..k];
    }
    assert spans[..|spans|] == spans;
  }

  method PutFill(tokens: seq<Token>, current: Style, n: nat, bg: Color) returns (out: seq<Token>)
    requires Read(PLAIN, tokens).1 == current
    ensures Read(PLAIN, out) == (Read(PLAIN, tokens).0 + PaintFill(n, bg), PLAIN.(bg := bg))
  {
    out := PutPen(tokens, PLAIN.(bg := bg), current);
    var pad := seq(n, _ => SPACE);
    assert PaintAll(pad, PLAIN.(bg := bg)) == PaintFill(n, bg);
    out := PutGlyphs(out, pad);
  }

  /** Sends the spans, pads with the fill, and leaves the pen plain. */
  method Encode(line: Line, width: nat) returns (out: seq<Token>)
    ensures Read(PLAIN, out) == (PaintLine(line, width), PLAIN)
  {
    hide PaintSpans, PaintFill, Read;
    var current;
    out, current := PutSpans(line.spans, line.fill);
    ghost var cells := PaintSpans(line.spans, line.fill);
    assert cells + [] == cells;
    var used := LineWidth(line);
    if line.fill.Some? && used < width {
      out := PutFill(out, current, width - used, line.fill.value);
      current := PLAIN.(bg := line.fill.value);
    }
    out := PutPen(out, PLAIN, current);
  }

  // ----- tokens as text --------------------------------------------------------------

  /** The characters sent for tokens. */
  function Text(tokens: seq<Token>): string {
    if tokens == [] then "" else TokenText(tokens[0]) + Text(tokens[1..])
  }

  function TokenText(t: Token): string { if t.Pen? then SgrText(t.style) else t.g.text }

  // ----- reading colored text --------------------------------------------------------------

  /** What colored text says: styled characters and line ends. */
  datatype Item = Ch(c: char, style: Style) | LineEnd

  /** Where the final byte of a control sequence is, or the end. */
  function FinalAt(text: string, i: nat): (j: nat)
    requires i <= |text|
    ensures i <= j <= |text|
    decreases |text| - i
  {
    if i < |text| && !('\U{0040}' <= text[i] <= '\U{007E}') then FinalAt(text, i + 1) else i
  }

  /** Where an operating system command (ECMA-48 section 8.3.89) ends: after BEL or ST. */
  function AfterOsc(text: string, i: nat): (j: nat)
    requires i <= |text|
    ensures i <= j <= |text|
    decreases |text| - i
  {
    if i == |text| then i
    else if text[i] == '\U{0007}' then i + 1
    else if text[i] == ESC && i + 1 < |text| && text[i + 1] == '\\' then i + 2
    else AfterOsc(text, i + 1)
  }

  function Spaces(n: nat, style: Style): seq<Item> { seq(n, _ => Ch(' ', style)) }

  function Items(text: string, i: nat, style: Style): seq<Item>
    requires i <= |text|
    decreases |text| - i
  {
    if i == |text| then []
    else if text[i] == ESC then
      if i + 1 == |text| then []
      else if text[i + 1] == '[' then
        var j := FinalAt(text, i + 2);
        if j == |text| then []
        else Items(text, j + 1, if text[j] == 'm' then Apply(style, Nums(text[i + 2..j])) else style)
      else if text[i + 1] == ']' then Items(text, AfterOsc(text, i + 2), style)
      else Items(text, i + 2, style)
    else if text[i] == '\n' then [LineEnd] + Items(text, i + 1, style)
    else if text[i] == '\t' then Spaces(4, style) + Items(text, i + 1, style)
    else if IsControl(text[i]) then Items(text, i + 1, style)
    else [Ch(text[i], style)] + Items(text, i + 1, style)
  }

  datatype TextSpan = TextSpan(text: string, style: Style)

  function CharsOf(text: string, style: Style): seq<Item> {
    seq(|text|, k requires 0 <= k < |text| => Ch(text[k], style))
  }

  function LineItems(line: seq<TextSpan>): seq<Item> {
    if line == [] then []
    else LineItems(line[..|line| - 1]) + CharsOf(line[|line| - 1].text, line[|line| - 1].style)
  }

  /** Finished lines, each with the line end that finished it. */
  function DoneItems(lines: seq<seq<TextSpan>>): seq<Item> {
    if lines == [] then []
    else DoneItems(lines[..|lines| - 1]) + LineItems(lines[|lines| - 1]) + [LineEnd]
  }

  /** What a list of lines says: line ends only between lines. */
  function LinesItems(lines: seq<seq<TextSpan>>): seq<Item>
    requires lines != []
  {
    DoneItems(lines[..|lines| - 1]) + LineItems(lines[|lines| - 1])
  }

  /** A final line end adds no empty line. */
  function DropFinalEnd(items: seq<Item>): seq<Item> {
    if items != [] && items[|items| - 1] == LineEnd then items[..|items| - 1] else items
  }

  /** The pending text becomes a span. */
  function Flushed(line: seq<TextSpan>, buf: string, style: Style): seq<TextSpan> {
    if buf == "" then line else line + [TextSpan(buf, style)]
  }

  lemma FlushedItems(line: seq<TextSpan>, buf: string, style: Style)
    ensures LineItems(Flushed(line, buf, style)) == LineItems(line) + CharsOf(buf, style)
  {
    if buf == "" {
      assert LineItems(line) + CharsOf(buf, style) == LineItems(line);
    } else {
      assert (line + [TextSpan(buf, style)])[..|line|] == line;
    }
  }

  /** Everything said so far: finished lines, the current one, the pending text. */
  function SoFar(lines: seq<seq<TextSpan>>, line: seq<TextSpan>, buf: string, style: Style): seq<Item> {
    DoneItems(lines) + (LineItems(line) + CharsOf(buf, style))
  }

  lemma EndLine(lines: seq<seq<TextSpan>>, line: seq<TextSpan>, buf: string, style: Style)
    ensures SoFar(lines + [Flushed(line, buf, style)], [], "", style) == SoFar(lines, line, buf, style) + [LineEnd]
  {
    FlushedItems(line, buf, style);
    var l := Flushed(line, buf, style);
    assert (lines + [l])[..|lines|] == lines;
    assert LineItems([]) + CharsOf("", style) == [];
    assert DoneItems(lines + [l]) + [] == DoneItems(lines) + LineItems(l) + [LineEnd];
  }

  lemma TypeMore(lines: seq<seq<TextSpan>>, line: seq<TextSpan>, buf: string, style: Style, more: string)
    ensures SoFar(lines, line, buf + more, style) == SoFar(lines, line, buf, style) + CharsOf(more, style)
  {
    assert CharsOf(buf + more, style) == CharsOf(buf, style) + CharsOf(more, style);
  }

  lemma ChangePen(lines: seq<seq<TextSpan>>, line: seq<TextSpan>, buf: string, style: Style, other: Style)
    ensures SoFar(lines, Flushed(line, buf, style), "", other) == SoFar(lines, line, buf, style)
  {
    FlushedItems(line, buf, style);
    assert LineItems(Flushed(line, buf, style)) + CharsOf("", other) == LineItems(Flushed(line, buf, style));
  }

  /** What has been read of `text` up to `i`, and what is left, is all it says. */
  ghost predicate At(text: string, i: nat, lines: seq<seq<TextSpan>>, line: seq<TextSpan>, buf: string, style: Style) {
    i <= |text| && SoFar(lines, line, buf, style) + Items(text, i, style) == Items(text, 0, PLAIN) &&
    (line != [] ==> line[|line| - 1].text != "")
  }

  lemma Prepend(x: seq<Item>, y: seq<Item>, z: seq<Item>)
    ensures (x + y) + z == x + (y + z)
  {
  }

  lemma StepPen(text: string, i: nat, j: nat, lines: seq<seq<TextSpan>>, line: seq<TextSpan>, buf: string, style: Style, other: Style)
    requires At(text, i, lines, line, buf, style) && j <= |text| && Items(text, i, style) == Items(text, j, other)
    ensures At(text, j, lines, Flushed(line, buf, style), "", other)
  {
    ChangePen(lines, line, buf, style, other);
  }

  lemma StepEnd(text: string, i: nat, lines: seq<seq<TextSpan>>, line: seq<TextSpan>, buf: string, style: Style)
    requires At(text, i, lines, line, buf, style) && i < |text| && text[i] == '\n'
    ensures At(text, i + 1, lines + [Flushed(line, buf, style)], [], "", style)
  {
    EndLine(lines, line, buf, style);
    Prepend(SoFar(lines, line, buf, style), [LineEnd], Items(text, i + 1, style));
  }

  lemma StepType(text: string, i: nat, lines: seq<seq<TextSpan>>, line: seq<TextSpan>, buf: string, style: Style, more: string)
    requires At(text, i, lines, line, buf, style) && i < |text|
    requires Items(text, i, style) == CharsOf(more, style) + Items(text, i + 1, style)
    ensures At(text, i + 1, lines, line, buf + more, style)
  {
    TypeMore(lines, line, buf, style, more);
    Prepend(SoFar(lines, line, buf, style), CharsOf(more, style), Items(text, i + 1, style));
  }

  lemma LastItem(lines: seq<seq<TextSpan>>, l: seq<TextSpan>)
    requires l != [] && l[|l| - 1].text != ""
    ensures LinesItems(lines + [l]) == DropFinalEnd(DoneItems(lines) + LineItems(l))
  {
    assert (lines + [l])[..|lines|] == lines;
    var all := DoneItems(lines) + LineItems(l);
    var last := CharsOf(l[|l| - 1].text, l[|l| - 1].style);
    hide DoneItems;
    assert all[|all| - 1] == last[|last| - 1];
  }

  lemma Finished(text: string, lines: seq<seq<TextSpan>>, line: seq<TextSpan>, buf: string, style: Style)
    requires At(text, |text|, lines, line, buf, style)
    ensures var l := Flushed(line, buf, style);
            LinesItems(if l != [] || lines == [] then lines + [l] else lines) == DropFinalEnd(Items(text, 0, PLAIN))
  {
    FlushedItems(line, buf, style);
    NothingLeft(text, style);
    hide LinesItems, DropFinalEnd, DoneItems, LineItems, CharsOf, Items;
    var l := Flushed(line, buf, style);
    var all := DoneItems(lines) + LineItems(l);
    assert SoFar(lines, line, buf, style) + [] == all;
    NoFinalEnd(lines, l);
  }

  lemma NoFinalEnd(lines: seq<seq<TextSpan>>, l: seq<TextSpan>)
    requires l != [] ==> l[|l| - 1].text != ""
    ensures LinesItems(if l != [] || lines == [] then lines + [l] else lines) == DropFinalEnd(DoneItems(lines) + LineItems(l))
  {
    if l != [] {
      LastItem(lines, l);
    } else if lines == [] {
      assert ([] + [l])[..0] == [];
      assert DoneItems(lines) + LineItems(l) == [];
    } else {
      assert DoneItems(lines) + LineItems(l) == LinesItems(lines) + [LineEnd];
    }
  }

  /** What one character, or one escape sequence, reads as. */
  lemma ItemsAt(text: string, i: nat, style: Style)
    requires i < |text|
    ensures Items(text, i, style) ==
            if text[i] == ESC then
              if i + 1 == |text| then []
              else if text[i + 1] == '[' then
                var j := FinalAt(text, i + 2);
                if j == |text| then []
                else Items(text, j + 1, if text[j] == 'm' then Apply(style, Nums(text[i + 2..j])) else style)
              else if text[i + 1] == ']' then Items(text, AfterOsc(text, i + 2), style)
              else Items(text, i + 2, style)
            else if text[i] == '\n' then [LineEnd] + Items(text, i + 1, style)
            else if text[i] == '\t' then Spaces(4, style) + Items(text, i + 1, style)
            else if IsControl(text[i]) then Items(text, i + 1, style)
            else [Ch(text[i], style)] + Items(text, i + 1, style)
  {
  }

  lemma Nothing()
    ensures SoFar([], [], "", PLAIN) == []
  {
  }

  /** The lines of a text, with the styles its escape sequences select. */
  method ParseAnsi(text: string) returns (lines: seq<seq<TextSpan>>)
    ensures lines != [] && LinesItems(lines) == DropFinalEnd(Items(text, 0, PLAIN))
  {
    hide Items, Apply, Nums, FinalAt, AfterOsc, LinesItems, LineItems, DropFinalEnd;
    Nothing();
    lines := [];
    var line: seq<TextSpan>, style, buf: string, i: nat := [], PLAIN, "", 0;
    assert [] + Items(text, 0, PLAIN) == Items(text, 0, PLAIN);
    while i < |text|
      invariant At(text, i, lines, line, buf, style)
    {
      var c := text[i];
      ItemsAt(text, i, style);
      if c == ESC {
        if i + 1 == |text| {
          NothingLeft(text, style);
          i := |text|;
        } else if text[i + 1] == '[' {
          var j := FinalAt(text, i + 2);
          NothingLeft(text, style);
          if j < |text| && text[j] == 'm' {
            StepPen(text, i, j + 1, lines, line, buf, style, Apply(style, Nums(text[i + 2..j])));
            line, buf := Flushed(line, buf, style), "";
            style := ApplySgr(style, text[i + 2..j]);
          }
          i := if j < |text| then j + 1 else j;
        } else if text[i + 1] == ']' {
          i := AfterOsc(text, i + 2);
        } else {
          i := i + 2;
        }
      } else if c == '\n' {
        StepEnd(text, i, lines, line, buf, style);
        lines, line, buf := lines + [Flushed(line, buf, style)], [], "";
        i := i + 1;
      } else if c == '\t' {
        assert CharsOf("    ", style) == Spaces(4, style);
        StepType(text, i, lines, line, buf, style, "    ");
        buf := buf + "    ";
        i := i + 1;
      } else if IsControl(c) {
        i := i + 1;
      } else {
        assert CharsOf([c], style) == [Ch(c, style)];
        StepType(text, i, lines, line, buf, style, [c]);
        buf := buf + [c];
        i := i + 1;
      }
    }
    Finished(text, lines, line, buf, style);
    line := Flushed(line, buf, style);
    if line != [] || lines == [] {
      lines := lines + [line];
    }
  }

  // ----- plain text ---------------------------------------------------------------------------

  function Plain(items: seq<Item>): string {
    if items == [] then ""
    else
      var last := items[|items| - 1];
      Plain(items[..|items| - 1]) + [if last.Ch? then last.c else '\n']
  }

  /** A text without its escapes: what it says, less a final line end. */
  function Stripped(text: string): string { Plain(DropFinalEnd(Items(text, 0, PLAIN))) }

  lemma {:induction false} PlainAppend(x: seq<Item>, y: seq<Item>)
    ensures Plain(x + y) == Plain(x) + Plain(y)
  {
    if y == [] {
      assert x + y == x;
    } else {
      assert (x + y)[..|x + y| - 1] == x + y[..|y| - 1];
      PlainAppend(x, y[..|y| - 1]);
    }
  }

  lemma {:induction false} PlainChars(text: string, style: Style)
    ensures Plain(CharsOf(text, style)) == text
  {
    if text != "" {
      var init := text[..|text| - 1];
      assert CharsOf(text, style) == CharsOf(init, style) + [Ch(text[|text| - 1], style)];
      assert CharsOf(text, style)[..|text| - 1] == CharsOf(init, style);
      PlainChars(init, style);
    }
  }

  method PlainLine(line: seq<TextSpan>) returns (out: string)
    ensures out == Plain(LineItems(line))
  {
    out := "";
    for k := 0 to |line|
      invariant out == Plain(LineItems(line[..k]))
    {
      assert line[..k + 1][..k] == line[..k];
      PlainAppend(LineItems(line[..k]), CharsOf(line[k].text, line[k].style));
      PlainChars(line[k].text, line[k].style);
      out := out + line[k].text;
    }
    assert line[..|line|] == line;
  }

  /** Parsed lines joined with newlines. */
  method StripAnsi(text: string) returns (out: string)
    ensures out == Stripped(text)
  {
    var lines := ParseAnsi(text);
    hide Items, LineItems, Plain;
    out := PlainLine(lines[0]);
    assert lines[..0] == [];
    assert [] + LineItems(lines[0]) == LineItems(lines[0]);
    for k := 1 to |lines|
      invariant out == Plain(DoneItems(lines[..k - 1]) + LineItems(lines[k - 1]))
    {
      var more := PlainLine(lines[k]);
      OneMoreLine(lines, k);
      out := out + "\n" + more;
    }
  }

  lemma OneMoreLine(lines: seq<seq<TextSpan>>, k: nat)
    requires 1 <= k < |lines|
    ensures Plain(DoneItems(lines[..k]) + LineItems(lines[k])) ==
            Plain(DoneItems(lines[..k - 1]) + LineItems(lines[k - 1])) + "\n" + Plain(LineItems(lines[k]))
  {
    assert lines[..k][..k - 1] == lines[..k - 1];
    var before := DoneItems(lines[..k - 1]) + LineItems(lines[k - 1]);
    PlainAppend(DoneItems(lines[..k]), LineItems(lines[k]));
    PlainAppend(before, [LineEnd]);
    assert [LineEnd][..0] == [];
  }

  predicate NoEsc(text: string) { ESC !in text }

  /** A line without escapes, tabs expanded and controls dropped. */
  function Printable(text: string): string {
    if text == "" then ""
    else
      var c := text[|text| - 1];
      Printable(text[..|text| - 1]) + if c == '\t' then "    " else if IsControl(c) then "" else [c]
  }

  lemma {:induction false} PrintableAppend(x: string, y: string)
    ensures Printable(x + y) == Printable(x) + Printable(y)
  {
    if y == "" {
      assert x + y == x;
    } else {
      assert (x + y)[..|x + y| - 1] == x + y[..|y| - 1];
      PrintableAppend(x, y[..|y| - 1]);
    }
  }

  /** What reading from `i` says, styles aside. */
  function Says(text: string, i: nat): string
    requires i <= |text|
    decreases |text| - i
  {
    if i == |text| then ""
    else if text[i] != ESC then Shown(text[i]) + Says(text, i + 1)
    else if i + 1 == |text| then ""
    else Says(text, SeqEnd(text, i))
  }

  /** Where the escape sequence at `i` ends, or the end of the text. */
  function SeqEnd(text: string, i: nat): (j: nat)
    requires i + 1 < |text|
    ensures i < j <= |text|
  {
    if text[i + 1] == '[' then Past(text, FinalAt(text, i + 2))
    else if text[i + 1] == ']' then AfterOsc(text, i + 2)
    else i + 2
  }

  /** The place after `j`, or the end. */
  function Past(text: string, j: nat): (k: nat)
    requires j <= |text|
    ensures j <= k <= |text| && (j < |text| ==> k == j + 1)
  {
    if j == |text| then j else j + 1
  }

  function Shown(c: char): string {
    if c == '\n' then "\n" else if c == '\t' then "    " else if IsControl(c) then "" else [c]
  }

  lemma ShownIs(c: char, style: Style, rest: seq<Item>)
    ensures Plain((if c == '\n' then [LineEnd] else if c == '\t' then Spaces(4, style) else if IsControl(c) then [] else [Ch(c, style)]) + rest)
            == Shown(c) + Plain(rest)
  {
    var first: seq<Item> :=
      if c == '\n' then [LineEnd] else if c == '\t' then Spaces(4, style) else if IsControl(c) then [] else [Ch(c, style)];
    PlainAppend(first, rest);
    if c == '\t' {
      PlainChars("    ", style);
      assert CharsOf("    ", style) == first;
    } else if first != [] {
      assert first[..0] == [];
    }
  }

  lemma {:induction false} SaysPlain(text: string, i: nat, style: Style)
    requires i <= |text|
    ensures Plain(Items(text, i, style)) == Says(text, i)
    decreases |text| - i
  {
    hide Shown, Plain, IsControl, Spaces, Apply, Nums, FinalAt, AfterOsc;
    if i == |text| {
      NothingPlain();
    } else if text[i] != ESC {
      SaysPlain(text, i + 1, style);
      ShownIs(text[i], style, Items(text, i + 1, style));
      OneItem(text, i, style);
      hide Items;
    } else if i + 1 == |text| {
      NothingPlain();
    } else if text[i + 1] == '[' {
      var j := FinalAt(text, i + 2);
      if j == |text| {
        NothingPlain();
      } else {
        SaysPlain(text, j + 1, if text[j] == 'm' then Apply(style, Nums(text[i + 2..j])) else style);
      }
    } else if text[i + 1] == ']' {
      SaysPlain(text, AfterOsc(text, i + 2), style);
    } else {
      SaysPlain(text, i + 2, style);
    }
  }

  lemma OneItem(text: string, i: nat, style: Style)
    requires i < |text| && text[i] != ESC
    ensures Items(text, i, style) ==
            (if text[i] == '\n' then [LineEnd] else if text[i] == '\t' then Spaces(4, style)
             else if IsControl(text[i]) then [] else [Ch(text[i], style)]) + Items(text, i + 1, style)
  {
    hide Apply, Nums, FinalAt, AfterOsc, Spaces;
  }

  lemma NothingPlain()
    ensures Plain([]) == ""
  {
  }

  lemma {:induction false} OnlyChars(text: string, i: nat, style: Style)
    requires i <= |text| && '\n' !in text
    ensures forall k :: 0 <= k < |Items(text, i, style)| ==> Items(text, i, style)[k].Ch?
    decreases |text| - i
  {
    hide Apply, Nums, FinalAt, AfterOsc;
    if i < |text| {
      if text[i] != ESC {
        OnlyChars(text, i + 1, style);
        OneItem(text, i, style);
        hide Items, IsControl;
      } else if i + 1 < |text| {
        if text[i + 1] == '[' {
          var j := FinalAt(text, i + 2);
          if j < |text| { OnlyChars(text, j + 1, if text[j] == 'm' then Apply(style, Nums(text[i + 2..j])) else style); }
        } else {
          OnlyChars(text, if text[i + 1] == ']' then AfterOsc(text, i + 2) else i + 2, style);
        }
      }
    }
  }

  /** A line without its escapes. */
  lemma StrippedSays(text: string)
    requires '\n' !in text
    ensures Stripped(text) == Says(text, 0)
  {
    SaysPlain(text, 0, PLAIN);
    OnlyChars(text, 0, PLAIN);
    hide Items, Says, Plain;
  }

  lemma OnePrintable(c: char)
    ensures Printable("") == "" && (c != '\n' ==> Printable([c]) == Shown(c))
  {
    assert [c][..0] == "";
  }

  lemma {:induction false} SaysPrintable(text: string, i: nat)
    requires i <= |text| && NoEsc(text) && '\n' !in text
    ensures Says(text, i) == Printable(text[i..])
    decreases |text| - i
  {
    OnePrintable('\t');
    hide Printable, Shown;
    if i < |text| {
      SaysPrintable(text, i + 1);
      OnePrintable(text[i]);
      PrintableAppend([text[i]], text[i + 1..]);
      assert text[i..] == [text[i]] + text[i + 1..];
    } else {
      assert text[i..] == "";
    }
  }

  /** Without escapes, stripping a line goes character by character. */
  lemma StrippedIsPrintable(text: string)
    requires NoEsc(text) && '\n' !in text
    ensures Stripped(text) == Printable(text)
  {
    StrippedSays(text);
    SaysPrintable(text, 0);
    assert text[0..] == text;
  }

  // ----- a text cut in two ------------------------------------------------------------------------

  /** What the end of a text is inside of. */
  datatype Reading = Ground | InEscape | InCsi | InOsc | InOscEscape

  /** Reading from `i`, after the start of an operating system command. */
  predicate OscEnds(text: string, i: nat)
    requires i <= |text|
    decreases |text| - i
  {
    i < |text| &&
    (text[i] == '\U{0007}' || (text[i] == ESC && i + 1 < |text| && text[i + 1] == '\\') || OscEnds(text, i + 1))
  }

  /** Does the escape sequence at `i` end in the text? */
  predicate SeqEnds(text: string, i: nat)
    requires i + 1 < |text|
  {
    if text[i + 1] == '[' then FinalAt(text, i + 2) < |text|
    else text[i + 1] == ']' ==> OscEnds(text, i + 2)
  }

  function LeftOpen(text: string, i: nat): Reading
    requires i + 1 < |text|
  {
    if text[i + 1] == '[' then InCsi
    else if i + 2 < |text| && text[|text| - 1] == ESC then InOscEscape
    else InOsc
  }

  function Inside(text: string, i: nat): Reading
    requires i <= |text|
    decreases |text| - i
  {
    if i == |text| then Ground
    else if text[i] != ESC then Inside(text, i + 1)
    else if i + 1 == |text| then InEscape
    else if SeqEnds(text, i) then Inside(text, SeqEnd(text, i))
    else LeftOpen(text, i)
  }

  /** Where, in the text that follows, the sequence ends that a text left open. */
  function Resume(r: Reading, y: string): (k: nat)
    ensures k <= |y|
  {
    match r
    case Ground => 0
    case InEscape =>
      if y == "" then 0
      else if y[0] == '[' then Past(y, FinalAt(y, 1))
      else if y[0] == ']' then AfterOsc(y, 1)
      else 1
    case InCsi => Past(y, FinalAt(y, 0))
    case InOsc => AfterOsc(y, 0)
    case InOscEscape => if y != "" && y[0] == '\\' then 1 else AfterOsc(y, 0)
  }

  lemma {:induction false} FinalShift(x: string, y: string, k: nat)
    requires k <= |y|
    ensures FinalAt(x + y, |x| + k) == |x| + FinalAt(y, k)
    decreases |y| - k
  {
    if k < |y| { FinalShift(x, y, k + 1); }
  }

  lemma {:induction false} OscShift(x: string, y: string, k: nat)
    requires k <= |y|
    ensures AfterOsc(x + y, |x| + k) == |x| + AfterOsc(y, k)
    decreases |y| - k
  {
    if k < |y| {
      assert (x + y)[|x| + k] == y[k] && (k + 1 < |y| ==> (x + y)[|x| + k + 1] == y[k + 1]);
      OscShift(x, y, k + 1);
    }
  }

  lemma {:induction false} OscEndsShift(x: string, y: string, k: nat)
    requires k <= |y|
    ensures OscEnds(x + y, |x| + k) == OscEnds(y, k)
    decreases |y| - k
  {
    if k < |y| {
      assert (x + y)[|x| + k] == y[k] && (k + 1 < |y| ==> (x + y)[|x| + k + 1] == y[k + 1]);
      OscEndsShift(x, y, k + 1);
    }
  }

  lemma SeqShift(x: string, y: string, k: nat)
    requires k + 1 < |y|
    ensures SeqEnd(x + y, |x| + k) == |x| + SeqEnd(y, k) && SeqEnds(x + y, |x| + k) == SeqEnds(y, k)
    ensures LeftOpen(x + y, |x| + k) == LeftOpen(y, k)
  {
    assert (x + y)[|x| + k + 1] == y[k + 1] && (x + y)[|x + y| - 1] == y[|y| - 1];
    FinalShift(x, y, k + 2);
    OscShift(x, y, k + 2);
    OscEndsShift(x, y, k + 2);
    hide FinalAt, AfterOsc, OscEnds;
  }

  lemma {:induction false} SaysShift(x: string, y: string, k: nat)
    requires k <= |y|
    ensures Says(x + y, |x| + k) == Says(y, k)
    decreases |y| - k
  {
    hide Shown, SeqEnd;
    if k < |y| {
      assert (x + y)[|x| + k] == y[k];
      if y[k] != ESC {
        SaysShift(x, y, k + 1);
      } else if k + 1 < |y| {
        SeqShift(x, y, k);
        SaysShift(x, y, SeqEnd(y, k));
      }
    }
  }

  lemma {:induction false} FinalOver(x: string, y: string, i: nat)
    requires i <= |x|
    ensures FinalAt(x + y, i) == if FinalAt(x, i) < |x| then FinalAt(x, i) else |x| + FinalAt(y, 0)
    decreases |x| - i
  {
    if i < |x| {
      assert (x + y)[i] == x[i];
      FinalOver(x, y, i + 1);
    } else {
      FinalShift(x, y, 0);
    }
  }

  lemma {:induction false} OscOver(x: string, y: string, i: nat)
    requires i <= |x|
    ensures AfterOsc(x + y, i) ==
            if OscEnds(x, i) then AfterOsc(x, i)
            else |x| + Resume(if i < |x| && x[|x| - 1] == ESC then InOscEscape else InOsc, y)
    decreases |x| - i
  {
    if i < |x| {
      assert (x + y)[i] == x[i] && (i + 1 < |x| ==> (x + y)[i + 1] == x[i + 1]);
      OscOver(x, y, i + 1);
      if i + 1 == |x| { assert y != "" ==> (x + y)[i + 1] == y[0]; }
    } else {
      OscShift(x, y, 0);
    }
  }

  lemma {:induction false} OscStaysEnded(x: string, y: string, i: nat)
    requires i <= |x| && OscEnds(x, i)
    ensures OscEnds(x + y, i)
    decreases |x| - i
  {
    assert (x + y)[i] == x[i] && (i + 1 < |x| ==> (x + y)[i + 1] == x[i + 1]);
    if OscEnds(x, i + 1) { OscStaysEnded(x, y, i + 1); }
  }

  lemma SeqOver(x: string, y: string, i: nat)
    requires i + 1 < |x|
    ensures SeqEnds(x, i) ==> SeqEnds(x + y, i) && SeqEnd(x + y, i) == SeqEnd(x, i)
    ensures !SeqEnds(x, i) ==> SeqEnd(x + y, i) == |x| + Resume(LeftOpen(x, i), y)
  {
    assert (x + y)[i + 1] == x[i + 1];
    FinalOver(x, y, i + 2);
    OscOver(x, y, i + 2);
    if OscEnds(x, i + 2) { OscStaysEnded(x, y, i + 2); }
    hide FinalAt, AfterOsc, OscEnds;
  }

  lemma SaysEnd(t: string)
    ensures Says(t, |t|) == "" && Inside(t, |t|) == Ground
  {
  }

  lemma SaysOne(t: string, i: nat)
    requires i < |t| && t[i] != ESC
    ensures Says(t, i) == Shown(t[i]) + Says(t, i + 1) && Inside(t, i) == Inside(t, i + 1)
  {
    hide Shown;
  }

  lemma SaysSeq(t: string, i: nat)
    requires i + 1 < |t| && t[i] == ESC
    ensures Says(t, i) == Says(t, SeqEnd(t, i)) && (SeqEnds(t, i) ==> Inside(t, i) == Inside(t, SeqEnd(t, i)))
  {
    hide SeqEnd, SeqEnds;
  }

  /** A text cut in two says what its parts say, the second read from where the sequence ends that
      the first left open. */
  lemma {:induction false} SaysOver(x: string, y: string, i: nat)
    requires i <= |x|
    ensures Says(x + y, i) == Says(x, i) + Says(y, Resume(Inside(x, i), y))
    decreases |x| - i
  {
    hide Says, Inside, Shown, SeqEnd, SeqEnds, LeftOpen, Resume;
    var k := Resume(Inside(x, i), y);
    if i == |x| {
      FromStart(y);
      SaysShift(x, y, 0);
      SaysEnd(x);
    } else {
      assert (x + y)[i] == x[i];
      if x[i] != ESC {
        SaysOver(x, y, i + 1);
        SaysOne(x, i);
        SaysOne(x + y, i);
        assert Shown(x[i]) + (Says(x, i + 1) + Says(y, k)) == (Shown(x[i]) + Says(x, i + 1)) + Says(y, k);
      } else if i + 1 == |x| {
        OpenedAtEnd(x, y, i);
      } else {
        SeqOver(x, y, i);
        SaysSeq(x, i);
        SaysSeq(x + y, i);
        if SeqEnds(x, i) {
          SaysOver(x, y, SeqEnd(x, i));
        } else {
          LeftSays(x, i);
          SaysShift(x, y, k);
        }
      }
    }
  }

  lemma FromStart(y: string)
    ensures Resume(Ground, y) == 0
  {
  }

  lemma LeftSays(x: string, i: nat)
    requires i + 1 < |x| && x[i] == ESC && !SeqEnds(x, i)
    ensures Says(x, i) == "" && Inside(x, i) == LeftOpen(x, i)
  {
    if x[i + 1] == ']' { OscOpen(x, i + 2); }
  }

  lemma {:induction false} OscOpen(x: string, i: nat)
    requires i <= |x| && !OscEnds(x, i)
    ensures AfterOsc(x, i) == |x|
    decreases |x| - i
  {
    if i < |x| { OscOpen(x, i + 1); }
  }

  lemma EscapeOver(x: string, y: string)
    requires x != "" && y != ""
    ensures SeqEnd(x + y, |x| - 1) == |x| + Resume(InEscape, y)
  {
    assert (x + y)[|x|] == y[0];
    FinalShift(x, y, 1);
    OscShift(x, y, 1);
    hide FinalAt, AfterOsc;
  }

  lemma OpenedAtEnd(x: string, y: string, i: nat)
    requires i + 1 == |x| && x[i] == ESC
    ensures Says(x + y, i) == Says(y, Resume(InEscape, y)) && Says(x, i) == "" && Inside(x, i) == InEscape
  {
    assert (x + y)[i] == ESC;
    if y != "" {
      EscapeOver(x, y);
      hide SeqEnd, Resume, Shown;
      SaysShift(x, y, Resume(InEscape, y));
    }
  }

  lemma {:induction false} InsideShift(x: string, y: string, k: nat)
    requires k <= |y|
    ensures Inside(x + y, |x| + k) == Inside(y, k)
    decreases |y| - k
  {
    hide SeqEnd, SeqEnds, LeftOpen;
    if k < |y| {
      assert (x + y)[|x| + k] == y[k];
      if y[k] != ESC {
        InsideShift(x, y, k + 1);
      } else if k + 1 < |y| {
        SeqShift(x, y, k);
        if SeqEnds(y, k) { InsideShift(x, y, SeqEnd(y, k)); }
      }
    }
  }

  /** After a text that leaves no sequence open, another ends inside of what it ends inside of. */
  lemma {:induction false} InsideOver(x: string, y: string, i: nat)
    requires i <= |x| && Inside(x, i) == Ground
    ensures Inside(x + y, i) == Inside(y, 0)
    decreases |x| - i
  {
    hide SeqEnd, SeqEnds;
    if i == |x| {
      InsideShift(x, y, 0);
    } else {
      assert (x + y)[i] == x[i];
      if x[i] != ESC {
        InsideOver(x, y, i + 1);
      } else {
        SeqOver(x, y, i);
        InsideOver(x, y, SeqEnd(x, i));
      }
    }
  }

  // ----- what reading can and cannot say --------------------------------------------------------

  ghost predicate Clean(items: seq<Item>) { forall k :: 0 <= k < |items| ==> items[k].Ch? ==> !IsControl(items[k].c) }

  /** Whatever a host sends, no character that could move the cursor gets through. */
  lemma {:induction false} ItemsAreClean(text: string, i: nat, style: Style)
    requires i <= |text|
    ensures Clean(Items(text, i, style))
    decreases |text| - i
  {
    if i < |text| {
      if text[i] != ESC {
        ItemsAreClean(text, i + 1, style);
      } else if i + 1 < |text| {
        if text[i + 1] == '[' {
          var j := FinalAt(text, i + 2);
          if j < |text| {
            ItemsAreClean(text, j + 1, if text[j] == 'm' then Apply(style, Nums(text[i + 2..j])) else style);
          }
        } else {
          ItemsAreClean(text, if text[i + 1] == ']' then AfterOsc(text, i + 2) else i + 2, style);
        }
      }
    }
  }

  // ----- encoding and reading undo each other ------------------------------------------------------

  /** Painted graphemes, character by character. */
  function PaintedChars(cells: seq<Painted>): seq<Item> {
    if cells == [] then []
    else PaintedChars(cells[..|cells| - 1]) + CharsOf(cells[|cells| - 1].g.text, cells[|cells| - 1].style)
  }

  predicate CleanText(text: string) { forall k :: 0 <= k < |text| ==> !IsControl(text[k]) }

  predicate CleanTokens(tokens: seq<Token>) {
    forall k :: 0 <= k < |tokens| ==> tokens[k].Glyph? ==> CleanText(tokens[k].g.text)
  }

  /** `text` has `run` at `i`. */
  predicate HasAt(text: string, i: nat, run: string) { i + |run| <= |text| && text[i..i + |run|] == run }

  lemma SplitAt(text: string, i: nat, x: string, y: string)
    requires i <= |text| && text[i..] == x + y
    ensures HasAt(text, i, x) && text[i + |x|..] == y
  {
    assert text[i..][..|x|] == x && text[i..][|x|..] == y;
    assert text[i..i + |x|] == text[i..][..|x|] && text[i + |x|..] == text[i..][|x|..];
  }

  lemma HasParts(text: string, i: nat, x: string, y: string)
    requires HasAt(text, i, x + y)
    ensures HasAt(text, i, x) && HasAt(text, i + |x|, y)
  {
    var run := text[i..i + |x + y|];
    assert run[..|x|] == x && run[|x|..] == y;
    assert text[i..i + |x|] == run[..|x|] && text[i + |x|..i + |x| + |y|] == run[|x|..];
  }

  lemma OneClean(text: string, i: nat, style: Style)
    requires i < |text| && !IsControl(text[i])
    ensures Items(text, i, style) == [Ch(text[i], style)] + Items(text, i + 1, style)
  {
    hide Apply, Nums, FinalAt, AfterOsc, Spaces;
  }

  lemma CleanParts(c: char, more: string)
    requires CleanText([c] + more)
    ensures !IsControl(c) && CleanText(more)
  {
    var run := [c] + more;
    assert run[0] == c && run[1..] == more;
    forall k | 0 <= k < |more| ensures run[k + 1] == more[k] {}
    hide IsControl;
  }

  /** Reading clean characters at `i` gives those characters. */
  lemma {:induction false} ReadClean(text: string, i: nat, run: string, style: Style)
    requires HasAt(text, i, run) && CleanText(run)
    ensures Items(text, i, style) == CharsOf(run, style) + Items(text, i + |run|, style)
    decreases |run|
  {
    hide Items, IsControl;
    if run == "" {
      assert CharsOf(run, style) + Items(text, i, style) == Items(text, i, style);
    } else {
      var c, more := run[0], run[1..];
      assert run == [c] + more;
      HasParts(text, i, [c], more);
      CleanParts(c, more);
      assert text[i] == text[i..i + 1][0] == c;
      OneClean(text, i, style);
      ReadClean(text, i + 1, more, style);
      assert CharsOf(run, style) == [Ch(c, style)] + CharsOf(more, style);
      Prepend([Ch(c, style)], CharsOf(more, style), Items(text, i + |run|, style));
    }
  }

  lemma SgrAt(text: string, i: nat, s: Style)
    requires HasAt(text, i, SgrText(s))
    ensures var p := SgrParams(s);
            var j := i + 2 + |p|;
            j + 1 == i + |SgrText(s)| <= |text| && text[i] == ESC && text[i + 1] == '[' && text[j] == 'm' &&
            text[i + 2..j] == p && FinalAt(text, i + 2) == j
  {
    hide Tail, AfterReset;
    var p := SgrParams(s);
    HasParts(text, i, [ESC, '['] + p, ['m']);
    HasParts(text, i, [ESC, '['], p);
    assert text[i] == text[i..i + 2][0] == ESC && text[i + 1] == text[i..i + 2][1] == '[';
    assert text[i + 2 + |p|] == text[i + 2 + |p|..i + 2 + |p| + 1][0] == 'm';
    ParamsHaveNoFinal(s);
    hide SgrParams, NoFinal;
    FinalAfter(text, i + 2, p);
  }

  /** An SGR sequence is read by its parameters. */
  lemma ReadSequence(text: string, i: nat, prior: Style, j: nat)
    requires i + 2 <= j < |text| && text[i] == ESC && text[i + 1] == '[' && text[j] == 'm' && FinalAt(text, i + 2) == j
    ensures Items(text, i, prior) == Items(text, j + 1, Apply(prior, Nums(text[i + 2..j])))
  {
    hide Apply, Nums, FinalAt, AfterOsc;
  }

  /** A pen switch reads as the style it was written for. */
  lemma ReadSgr(text: string, i: nat, s: Style, prior: Style)
    requires HasAt(text, i, SgrText(s))
    ensures Items(text, i, prior) == Items(text, i + |SgrText(s)|, s)
  {
    hide Items, Apply, SgrParams, FinalAt, Nums;
    var j := i + 2 + |SgrParams(s)|;
    SgrAt(text, i, s);
    ReadSequence(text, i, prior, j);
    SgrRoundTrip(prior, s);
  }

  predicate NoFinal(p: string) { forall k :: 0 <= k < |p| ==> !('\U{0040}' <= p[k] <= '\U{007E}') }

  lemma {:induction false} FinalAfter(text: string, i: nat, p: string)
    requires HasAt(text, i, p) && i + |p| < |text| && NoFinal(p) && text[i + |p|] == 'm'
    ensures FinalAt(text, i) == i + |p|
    decreases |p|
  {
    if p != "" {
      assert p == [p[0]] + p[1..];
      HasParts(text, i, [p[0]], p[1..]);
      assert text[i] == text[i..i + 1][0] == p[0];
      FinalAfter(text, i + 1, p[1..]);
    }
  }

  lemma {:induction false} TailHasNoFinal(nums: seq<nat>)
    ensures NoFinal(Tail(nums))
  {
    if nums != [] {
      TailHasNoFinal(nums[1..]);
      DecimalValue(nums[0]);
    }
  }

  lemma ParamsHaveNoFinal(s: Style)
    ensures NoFinal(SgrParams(s))
  {
    TailHasNoFinal(AfterReset(s));
  }

  function NextPen(pen: Style, t: Token): Style { if t.Pen? then t.style else pen }

  function TokenItems(pen: Style, t: Token): seq<Item> { if t.Pen? then [] else CharsOf(t.g.text, pen) }

  /** Tokens read left to right; `Read` peels them from the right. */
  function ReadOn(pen: Style, tokens: seq<Token>): seq<Item>
    decreases |tokens|
  {
    if tokens == [] then []
    else TokenItems(pen, tokens[0]) + ReadOn(NextPen(pen, tokens[0]), tokens[1..])
  }

  lemma ReadToken(text: string, i: nat, t: Token, pen: Style)
    requires HasAt(text, i, TokenText(t)) && (t.Glyph? ==> CleanText(t.g.text))
    ensures Items(text, i, pen) == TokenItems(pen, t) + Items(text, i + |TokenText(t)|, NextPen(pen, t))
  {
    hide Items, CharsOf, SgrText, StyleNums;
    if t.Pen? {
      ReadSgr(text, i, t.style, pen);
      assert [] + Items(text, i + |TokenText(t)|, t.style) == Items(text, i + |TokenText(t)|, t.style);
    } else {
      ReadClean(text, i, t.g.text, pen);
    }
  }

  lemma NothingLeft(text: string, style: Style)
    ensures Items(text, |text|, style) == []
  {
  }

  lemma {:induction false} TextReads(text: string, i: nat, tokens: seq<Token>, pen: Style)
    requires i <= |text| && text[i..] == Text(tokens) && CleanTokens(tokens)
    ensures Items(text, i, pen) == ReadOn(pen, tokens)
    decreases |tokens|
  {
    hide Items, CharsOf, SgrText, TokenItems, NextPen;
    if tokens == [] {
      NothingLeft(text, pen);
    } else {
      var t := tokens[0];
      SplitAt(text, i, TokenText(t), Text(tokens[1..]));
      ReadToken(text, i, t, pen);
      TextReads(text, i + |TokenText(t)|, tokens[1..], NextPen(pen, t));
    }
  }

  lemma {:induction false} ReadOnAppend(pen: Style, tokens: seq<Token>, last: Token)
    ensures ReadOn(pen, tokens + [last]) ==
            ReadOn(pen, tokens) + if last.Glyph? then CharsOf(last.g.text, Read(pen, tokens).1) else []
    ensures Read(pen, tokens).1 == PenAfter(pen, tokens)
  {
    PenIsPenAfter(pen, tokens);
    ReadOnSnoc(pen, tokens, last);
  }

  function PenAfter(pen: Style, tokens: seq<Token>): Style
    decreases |tokens|
  {
    if tokens == [] then pen
    else PenAfter(NextPen(pen, tokens[0]), tokens[1..])
  }

  lemma {:induction false} PenAfterSnoc(pen: Style, tokens: seq<Token>, last: Token)
    ensures PenAfter(pen, tokens + [last]) == if last.Pen? then last.style else PenAfter(pen, tokens)
    decreases |tokens|
  {
    if tokens == [] {
      assert [] + [last] == [last] && [last][1..] == [];
    } else {
      PenAfterSnoc(NextPen(pen, tokens[0]), tokens[1..], last);
      assert (tokens + [last])[1..] == tokens[1..] + [last];
    }
  }

  lemma {:induction false} PenIsPenAfter(pen: Style, tokens: seq<Token>)
    ensures Read(pen, tokens).1 == PenAfter(pen, tokens)
  {
    if tokens != [] {
      var init, last := tokens[..|tokens| - 1], tokens[|tokens| - 1];
      PenIsPenAfter(pen, init);
      PenAfterSnoc(pen, init, last);
      assert init + [last] == tokens;
      if last.Pen? { SgrRoundTrip(Read(pen, init).1, last.style); }
    }
  }

  lemma {:induction false} ReadOnSnoc(pen: Style, tokens: seq<Token>, last: Token)
    ensures ReadOn(pen, tokens + [last]) ==
            ReadOn(pen, tokens) + if last.Glyph? then CharsOf(last.g.text, PenAfter(pen, tokens)) else []
    decreases |tokens|
  {
    var more := tokens + [last];
    if tokens == [] {
      assert more == [last] && [last][1..] == [];
      assert ReadOn(pen, [last]) == TokenItems(pen, last) + ReadOn(NextPen(pen, last), []);
    } else {
      assert more[1..] == tokens[1..] + [last];
      ReadOnSnoc(NextPen(pen, tokens[0]), tokens[1..], last);
    }
  }

  lemma PaintedMore(cells: seq<Painted>, p: Painted)
    ensures PaintedChars(cells + [p]) == PaintedChars(cells) + CharsOf(p.g.text, p.style)
  {
    assert (cells + [p])[..|cells|] == cells;
  }

  lemma {:induction false} ReadOnIsRead(pen: Style, tokens: seq<Token>)
    ensures ReadOn(pen, tokens) == PaintedChars(Read(pen, tokens).0)
  {
    hide Apply, StyleNums, PenAfter;
    if tokens != [] {
      var init, last := tokens[..|tokens| - 1], tokens[|tokens| - 1];
      ReadOnIsRead(pen, init);
      ReadOnAppend(pen, init, last);
      assert init + [last] == tokens;
      if last.Glyph? {
        hide ReadOn, CharsOf;
        PaintedMore(Read(pen, init).0, Painted(last.g, Read(pen, init).1));
      }
    }
  }

  /** Parsing the characters sent for any row gives back exactly what the row paints. */
  lemma ParseUndoesText(tokens: seq<Token>)
    requires CleanTokens(tokens)
    ensures Items(Text(tokens), 0, PLAIN) == PaintedChars(Read(PLAIN, tokens).0)
  {
    assert Text(tokens)[0..] == Text(tokens);
    TextReads(Text(tokens), 0, tokens, PLAIN);
    ReadOnIsRead(PLAIN, tokens);
  }

  // ----- what is painted ------------------------------------------------------------------

  /** Neither control nor bidi characters. */
  predicate SafeText(text: string) {
    forall k :: 0 <= k < |text| ==> !IsControl(text[k]) && !IsBidiControl(text[k])
  }

  predicate SafeCells(cells: seq<Painted>) { forall k :: 0 <= k < |cells| ==> SafeText(cells[k].g.text) }

  lemma {:induction false} EmitIsSafe(text: string)
    ensures SafeText(Emit(text))
  {
    if text != "" { EmitIsSafe(text[..|text| - 1]); }
  }

  lemma {:induction false} PaintTextIsSafe(text: seq<Grapheme>, style: Style)
    ensures SafeCells(PaintText(text, style))
  {
    if text != [] {
      PaintTextIsSafe(text[..|text| - 1], style);
      EmitIsSafe(text[|text| - 1].text);
    }
  }

  lemma {:induction false} PaintSpansIsSafe(spans: seq<Span>, fill: Option<Color>)
    ensures SafeCells(PaintSpans(spans, fill))
  {
    if spans != [] {
      PaintSpansIsSafe(spans[..|spans| - 1], fill);
      PaintTextIsSafe(spans[|spans| - 1].text, Banded(spans[|spans| - 1].style, fill));
    }
  }

  lemma PaintLineIsSafe(line: Line, width: nat)
    ensures SafeCells(PaintLine(line, width))
  {
    PaintSpansIsSafe(line.spans, line.fill);
  }

  lemma {:induction false} SafeCellsSafeTokens(pen: Style, tokens: seq<Token>)
    requires SafeCells(Read(pen, tokens).0)
    ensures CleanTokens(tokens)
  {
    if tokens != [] {
      var init, last, all := tokens[..|tokens| - 1], tokens[|tokens| - 1], Read(pen, tokens).0;
      var before := Read(pen, init).0;
      assert forall k :: 0 <= k < |before| ==> before[k] == all[k];
      SafeCellsSafeTokens(pen, init);
      if last.Glyph? { assert all[|before|].g == last.g; }
      forall k | 0 <= k < |tokens| && tokens[k].Glyph? ensures CleanText(tokens[k].g.text) {
        if k < |init| { assert init[k] == tokens[k]; }
      }
    }
  }

  /** Round trip for whole rows: whatever a line holds, parsing the characters its encoding
      sends gives exactly the cells it paints, and none of them is a control or bidi
      character. */
  lemma EncodeRoundTrip(line: Line, width: nat, tokens: seq<Token>)
    requires Read(PLAIN, tokens) == (PaintLine(line, width), PLAIN)
    ensures Items(Text(tokens), 0, PLAIN) == PaintedChars(PaintLine(line, width))
    ensures SafeCells(PaintLine(line, width))
  {
    PaintLineIsSafe(line, width);
    SafeCellsSafeTokens(PLAIN, tokens);
    ParseUndoesText(tokens);
  }

  // ----- how wide it is ---------------------------------------------------------------------

  function CellsWidth(cells: seq<Painted>): nat {
    if cells == [] then 0 else CellsWidth(cells[..|cells| - 1]) + cells[|cells| - 1].g.width
  }

  lemma {:induction false} CellsWidthAppend(x: seq<Painted>, y: seq<Painted>)
    ensures CellsWidth(x + y) == CellsWidth(x) + CellsWidth(y)
  {
    if y == [] {
      assert x + y == x;
    } else {
      CellsWidthAppend(x, y[..|y| - 1]);
      assert (x + y)[..|x + y| - 1] == x + y[..|y| - 1];
    }
  }

  /** The renderer measures a tab as the four cells it paints. */
  predicate Measured(text: seq<Grapheme>) { forall k :: 0 <= k < |text| ==> text[k].text == "\t" ==> text[k].width == 4 }

  predicate MeasuredLine(line: Line) { forall k :: 0 <= k < |line.spans| ==> Measured(line.spans[k].text) }

  lemma VisibleWidth(g: Grapheme, style: Style)
    requires g.text == "\t" ==> g.width == 4
    ensures CellsWidth(PaintAll(Visible(g), style)) <= g.width
  {
    var cells := PaintAll(Visible(g), style);
    if g.text == "\t" {
      SpacesWidth(4, style);
      assert cells == seq(4, _ => Painted(SPACE, style));
    } else if cells != [] {
      assert cells[..0] == [];
    }
  }

  lemma {:induction false} SpacesWidth(n: nat, style: Style)
    ensures CellsWidth(seq(n, _ => Painted(SPACE, style))) == n
  {
    if n > 0 {
      var s := seq(n, _ => Painted(SPACE, style));
      SpacesWidth(n - 1, style);
      assert s[..n - 1] == seq(n - 1, _ => Painted(SPACE, style));
    }
  }

  lemma {:induction false} PaintTextWidth(text: seq<Grapheme>, k: nat, style: Style)
    requires k <= |text| && Measured(text)
    ensures CellsWidth(PaintText(text[..k], style)) <= Sum(text, 0, k)
  {
    if k > 0 {
      assert text[..k][..k - 1] == text[..k - 1];
      PaintTextWidth(text, k - 1, style);
      VisibleWidth(text[k - 1], style);
      CellsWidthAppend(PaintText(text[..k - 1], style), PaintAll(Visible(text[k - 1]), style));
    }
  }

  lemma {:induction false} PaintSpansWidth(spans: seq<Span>, fill: Option<Color>)
    requires forall k :: 0 <= k < |spans| ==> Measured(spans[k].text)
    ensures CellsWidth(PaintSpans(spans, fill)) <= SpansWidth(spans)
  {
    if spans != [] {
      var init, last := spans[..|spans| - 1], spans[|spans| - 1];
      PaintSpansWidth(init, fill);
      PaintTextWidth(last.text, |last.text|, Banded(last.style, fill));
      assert last.text[..|last.text|] == last.text;
      CellsWidthAppend(PaintSpans(init, fill), PaintText(last.text, Banded(last.style, fill)));
    }
  }

  lemma FillWidth(n: nat, color: Color)
    ensures CellsWidth(PaintFill(n, color)) == n
  {
    var style := PLAIN.(bg := color);
    SpacesWidth(n, style);
    assert PaintFill(n, color) == seq(n, _ => Painted(SPACE, style));
  }

  /** A line no wider than the row paints no wider than the row, fill included. */
  lemma PaintLineWidth(line: Line, width: nat)
    requires MeasuredLine(line) && LineWidth(line) <= width
    ensures CellsWidth(PaintLine(line, width)) <= width
  {
    hide PaintSpans, CellsWidth, PaintFill;
    PaintSpansWidth(line.spans, line.fill);
    var cells := PaintSpans(line.spans, line.fill);
    assert cells + [] == cells;
    if line.fill.Some? && LineWidth(line) < width {
      FillWidth(width - LineWidth(line), line.fill.value);
      CellsWidthAppend(cells, PaintFill(width - LineWidth(line), line.fill.value));
    }
  }
}
