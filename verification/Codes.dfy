/** Which sequences are sent for styles and what those read mean, number by number, as in ECMA-48
    section 8.3.117 (crates/inline/src/style.rs:34-132, crates/inline/src/ansi.rs:76-158). */
module Codes {
  import opened Styles
  import opened Sgr

  const PALETTE := [Black, Red, Green, Yellow, Blue, Magenta, Cyan, White]
  const BRIGHTS := [BrightBlack, BrightRed, BrightGreen, BrightYellow, BrightBlue, BrightMagenta, BrightCyan, BrightWhite]

  // ----- numbers -----------------------------------------------------------------------------

  predicate AllDigits(s: string) { forall k :: 0 <= k < |s| ==> '0' <= s[k] <= '9' }

  /** The number that digits spell. */
  function Value(s: string): nat
    requires AllDigits(s)
  {
    if s == "" then 0 else 10 * Value(s[..|s| - 1]) + (s[|s| - 1] as int - '0' as int)
  }

  /** A number is written in decimal digits, without leading zeros. */
  lemma {:induction false} DecimalMeans(n: nat)
    ensures var s := Decimal(n); AllDigits(s) && Value(s) == n && s != "" && (s[0] == '0' ==> n == 0 && |s| == 1)
  {
    var s := Decimal(n);
    if n < 10 {
      assert s[..0] == "";
    } else {
      DecimalMeans(n / 10);
      assert s[..|s| - 1] == Decimal(n / 10);
    }
  }

  /** A parameter is read as the number its digits spell, behind a plus sign or not; what is no number
      up to 65535 reads as 0. */
  lemma ParameterMeans(s: string)
    ensures s != "" && AllDigits(s) ==> ParseU16(s) == (if Value(s) <= 65535 then Value(s) else 0) && ParseU16("+" + s) == ParseU16(s)
    ensures !AllDigits(s) && !("+" <= s && AllDigits(s[1..])) ==> ParseU16(s) == 0
    ensures ParseU16("") == 0 && ParseU16("+") == 0
  {
    DigitsAre(s);
    if s != "" {
      DigitsAre(s[1..]);
      assert ("+" + s)[1..] == s;
      assert s[0] == '+' ==> "+" <= s;
    }
    assert "+"[1..] == "";
  }

  lemma {:induction false} DigitsAre(s: string)
    ensures s != "" && AllDigits(s) ==> DigitsValue(s) == Some(Value(s))
    ensures !AllDigits(s) || s == "" ==> DigitsValue(s) == None
  {
    if |s| == 1 {
      assert s[..0] == "";
    } else if s != "" {
      var init := s[..|s| - 1];
      DigitsAre(init);
      assert AllDigits(s) <==> AllDigits(init) && '0' <= s[|s| - 1] <= '9' by {
        if AllDigits(init) && '0' <= s[|s| - 1] <= '9' {
          forall k | 0 <= k < |s| ensures '0' <= s[k] <= '9' { assert k < |init| ==> s[k] == init[k]; }
        }
      }
    }
  }

  predicate NoSeparator(s: string) { forall k :: 0 <= k < |s| ==> s[k] != ';' && s[k] != ':' }

  /** Parameters are separated by semicolons or colons, and none of them may be left out. */
  lemma ParametersMean(a: string, c: char, b: string)
    requires NoSeparator(a)
    ensures Nums(a) == [ParseU16(a)]
    ensures c == ';' || c == ':' ==> Nums(a + [c] + b) == [ParseU16(a)] + Nums(b)
  {
    PieceRead(a, 0, a, "");
    assert a + "" == a && "" + a == a;
    if c == ';' || c == ':' {
      var s := a + [c] + b;
      assert s == a + ([c] + b);
      PieceRead(s, 0, a, [c] + b);
      RestRead(s, |a| + 1, b, 0, "");
      assert s[|a|] == c;
    }
  }

  /** Reading a piece without separators. */
  lemma {:induction false} PieceRead(s: string, i: nat, a: string, b: string)
    requires i <= |a| && s == a + b && NoSeparator(a)
    ensures NumsFrom(s, i, a[..i]) == NumsFrom(s, |a|, a)
    decreases |a| - i
  {
    if i == |a| {
      assert a[..i] == a;
    } else {
      PieceRead(s, i + 1, a, b);
      assert s[i] == a[i] && a[..i] + [s[i]] == a[..i + 1];
    }
  }

  /** Reading on depends on what is left alone. */
  lemma {:induction false} RestRead(s: string, i: nat, b: string, j: nat, piece: string)
    requires i <= |s| && j <= |b| && s[i..] == b[j..]
    ensures NumsFrom(s, i, piece) == NumsFrom(b, j, piece)
    decreases |b| - j
  {
    assert |s[i..]| == |b[j..]|;
    if j < |b| {
      assert s[i] == s[i..][0] == b[j..][0] == b[j];
      assert s[i + 1..] == s[i..][1..] == b[j..][1..] == b[j + 1..];
      RestRead(s, i + 1, b, j + 1, if IsSeparator(b[j]) then "" else piece + [b[j]]);
    }
  }

  // ----- what is read ----------------------------------------------------------------------------

  /** The style after the number `n`: 0 resets it, 1, 2, 3, 4, 7 and 9 switch an attribute on, 22, 23,
      24, 27 and 29 switch them off, 30 to 39, 40 to 49, 90 to 97 and 100 to 107 are colors, and every
      other number does nothing. */
  ghost predicate Switches(s: Style, n: nat, t: Style) { SwitchesAttributes(s, n, t) && SwitchesColors(s, n, t) }

  ghost predicate SwitchesAttributes(s: Style, n: nat, t: Style) {
    (t.bold <==> n == 1 || (s.bold && n != 0 && n != 22)) &&
    (t.dim <==> n == 2 || (s.dim && n != 0 && n != 22)) &&
    (t.italic <==> n == 3 || (s.italic && n != 0 && n != 23)) &&
    (t.underline <==> n == 4 || (s.underline && n != 0 && n != 24)) &&
    (t.reverse <==> n == 7 || (s.reverse && n != 0 && n != 27)) &&
    (t.strike <==> n == 9 || (s.strike && n != 0 && n != 29))
  }

  ghost predicate SwitchesColors(s: Style, n: nat, t: Style) {
    t.fg == (if n == 0 || n == 39 then Default else if 30 <= n <= 37 then PALETTE[n - 30] else if 90 <= n <= 97 then BRIGHTS[n - 90] else s.fg) &&
    t.bg == (if n == 0 || n == 49 then Default else if 40 <= n <= 47 then PALETTE[n - 40] else if 100 <= n <= 107 then BRIGHTS[n - 100] else s.bg)
  }

  lemma NumberMeans(s: Style, n: nat, rest: seq<nat>) returns (t: Style)
    requires n != 38 && n != 48
    ensures Switches(s, n, t) && Apply(s, [n] + rest) == Apply(t, rest) && Apply(s, []) == s
  {
    t := One(s, n);
    assert ([n] + rest)[1..] == rest;
    hide Apply;
    NumberSwitches(s, n);
    ApplyOne(s, n, rest);
  }

  lemma NumberSwitches(s: Style, n: nat)
    ensures Switches(s, n, One(s, n))
  {
    hide One, SwitchesAttributes, SwitchesColors;
    if n < 30 { LowNumber(s, n); } else { HighNumber(s, n); }
  }

  lemma LowNumber(s: Style, n: nat)
    requires n < 30
    ensures Switches(s, n, One(s, n))
  {
    hide Basic, Bright;
  }

  lemma HighNumber(s: Style, n: nat)
    requires n >= 30
    ensures Switches(s, n, One(s, n))
  {
    HighColors(s, n);
    NamesAre();
    hide One, Basic, Bright;
  }

  lemma HighColors(s: Style, n: nat)
    requires n >= 30
    ensures One(s, n) ==
            if 30 <= n <= 37 then s.(fg := Basic(n - 30)) else if n == 39 then s.(fg := Default)
            else if 40 <= n <= 47 then s.(bg := Basic(n - 40)) else if n == 49 then s.(bg := Default)
            else if 90 <= n <= 97 then s.(fg := Bright(n - 90)) else if 100 <= n <= 107 then s.(bg := Bright(n - 100)) else s
  {
    hide Basic, Bright;
  }

  lemma NamesAre()
    ensures forall k: nat :: k < 8 ==> Basic(k) == PALETTE[k] && Bright(k) == BRIGHTS[k]
  {
  }

  lemma ApplyOne(s: Style, n: nat, rest: seq<nat>)
    requires n != 38 && n != 48
    ensures Apply(s, [n] + rest) == Apply(One(s, n), rest) && Apply(s, []) == s
  {
    hide One;
    assert ([n] + rest)[1..] == rest;
  }

  /** 38 and 48 choose a color of the table with a 5 and its number behind, and any color with a 2 and
      three numbers; what is missing reads as 0 and only the low byte of a number counts.  With nothing
      else behind they choose the default color. */
  lemma ExtendedMeans(s: Style, nums: seq<nat>)
    requires nums != [] && (nums[0] == 38 || nums[0] == 48)
    ensures var n, at := |nums|, k => if 0 <= k < |nums| then nums[k] % 256 else 0;
            var color := if n > 1 && nums[1] == 5 then Indexed(at(2)) else if n > 1 && nums[1] == 2 then Rgb(at(2), at(3), at(4)) else Default;
            var used := if n > 1 && nums[1] == 5 then 3 else if n > 1 && nums[1] == 2 then 5 else 1;
            Apply(s, nums) == Apply(if nums[0] == 38 then s.(fg := color) else s.(bg := color), if used < n then nums[used..] else [])
  {
  }

  // ----- what is sent ------------------------------------------------------------------------------

  lemma TwoDigits(n: nat)
    requires 30 <= n < 50 || 90 <= n < 98
    ensures Decimal(n) == [Digit(n / 10), Digit(n % 10)]
  {
    assert Decimal(n / 10) == [Digit(n / 10)];
  }

  lemma ThreeDigits(n: nat)
    requires 100 <= n < 108
    ensures Decimal(n) == ['1', '0', Digit(n - 100)]
  {
    assert Decimal(n / 10) == Decimal(1) + [Digit(0)] == ['1', '0'];
  }

  lemma OneNumber(n: nat)
    ensures Tail([n]) == ";" + Decimal(n)
  {
    hide Decimal;
    assert [n][1..] == [] && Tail([]) == "";
  }

  lemma MoreNumbers(n: nat, nums: seq<nat>)
    ensures Tail([n] + nums) == ";" + Decimal(n) + Tail(nums)
  {
    hide Decimal;
    assert ([n] + nums)[1..] == nums;
  }

  /** What is sent for a color: a number of the palette, or 38 or 48 with the color behind. */
  lemma ColorMeans(c: Color, background: bool, k: nat)
    ensures var text := Tail(ColorOf(c, background));
            (c == Default ==> text == "" && ColorNums(c, background) == [if background then 49 else 39]) &&
            (k < 8 && c == PALETTE[k] ==> text == (if background then ";4" else ";3") + [['0', '1', '2', '3', '4', '5', '6', '7'][k]]) &&
            (k < 8 && c == BRIGHTS[k] ==> text == (if background then ";10" else ";9") + [['0', '1', '2', '3', '4', '5', '6', '7'][k]]) &&
            (c.Indexed? ==> text == (if background then ";48" else ";38") + (";5" + (";" + Decimal(c.n)))) &&
            (c.Rgb? ==> text == (if background then ";48" else ";38") + (";2" + (";" + Decimal(c.r) + (";" + Decimal(c.g) + (";" + Decimal(c.b))))))
  {
    hide Tail, Decimal;
    if c == Default {
      NoNumbers();
    } else if c.Indexed? || c.Rgb? {
      LongColor(c, background);
    } else {
      ShortColor(c, background);
    }
  }

  lemma NoNumbers()
    ensures Tail([]) == ""
  {
  }

  lemma ShortColor(c: Color, background: bool)
    requires c in PALETTE || c in BRIGHTS
    ensures forall k :: 0 <= k < 8 && c == PALETTE[k] ==>
              Tail(ColorOf(c, background)) == (if background then ";4" else ";3") + [['0', '1', '2', '3', '4', '5', '6', '7'][k]]
    ensures forall k :: 0 <= k < 8 && c == BRIGHTS[k] ==>
              Tail(ColorOf(c, background)) == (if background then ";10" else ";9") + [['0', '1', '2', '3', '4', '5', '6', '7'][k]]
  {
    hide Tail, ColorOf;
    forall k: nat | k < 8 && c == PALETTE[k]
      ensures Tail(ColorOf(c, background)) == (if background then ";4" else ";3") + [['0', '1', '2', '3', '4', '5', '6', '7'][k]]
    {
      PaletteText(k, background);
    }
    forall k: nat | k < 8 && c == BRIGHTS[k]
      ensures Tail(ColorOf(c, background)) == (if background then ";10" else ";9") + [['0', '1', '2', '3', '4', '5', '6', '7'][k]]
    {
      BrightText(k, background);
    }
  }

  lemma PaletteText(k: nat, background: bool)
    requires k < 8
    ensures Tail(ColorOf(PALETTE[k], background)) == (if background then ";4" else ";3") + [['0', '1', '2', '3', '4', '5', '6', '7'][k]]
  {
    var n: nat := k + if background then 40 else 30;
    PlaceInPalette(k, background);
    hide Tail, Decimal, ColorOf;
    OneNumber(n);
    TwoDigits(n);
    Digits();
    assert n % 10 == k && n / 10 == if background then 4 else 3;
  }

  lemma BrightText(k: nat, background: bool)
    requires k < 8
    ensures Tail(ColorOf(BRIGHTS[k], background)) == (if background then ";10" else ";9") + [['0', '1', '2', '3', '4', '5', '6', '7'][k]]
  {
    var n: nat := k + if background then 100 else 90;
    PlaceInPalette(k, background);
    hide Tail, Decimal, ColorOf;
    OneNumber(n);
    Digits();
    if background {
      ThreeDigits(n);
    } else {
      TwoDigits(n);
      assert n % 10 == k && n / 10 == 9;
    }
  }

  lemma Digits()
    ensures forall k: nat :: k < 8 ==> Digit(k) == ['0', '1', '2', '3', '4', '5', '6', '7'][k]
    ensures Digit(3) == '3' && Digit(4) == '4' && Digit(9) == '9'
  {
  }

  lemma PlaceInPalette(k: nat, background: bool)
    requires k < 8
    ensures ColorOf(PALETTE[k], background) == [k + if background then 40 else 30]
    ensures ColorOf(BRIGHTS[k], background) == [k + if background then 100 else 90]
  {
  }

  lemma LongColor(c: Color, background: bool)
    requires c.Indexed? || c.Rgb?
    ensures var text := Tail(ColorOf(c, background));
            (c.Indexed? ==> text == (if background then ";48" else ";38") + (";5" + (";" + Decimal(c.n)))) &&
            (c.Rgb? ==> text == (if background then ";48" else ";38") + (";2" + (";" + Decimal(c.r) + (";" + Decimal(c.g) + (";" + Decimal(c.b))))))
  {
    hide Tail, Decimal;
    var first: nat := if background then 48 else 38;
    if c.Indexed? {
      assert ColorOf(c, background) == [first] + ([5] + [c.n]);
      IndexedText(first, c.n);
    } else {
      assert ColorOf(c, background) == [first] + ([2] + ([c.r] + ([c.g] + [c.b])));
      RgbText(first, c.r, c.g, c.b);
    }
  }

  lemma FirstDigits(background: bool)
    ensures ";" + Decimal(if background then 48 else 38) == (if background then ";48" else ";38")
    ensures ";" + Decimal(5) == ";5" && ";" + Decimal(2) == ";2"
  {
    TwoDigits(if background then 48 else 38);
  }

  lemma IndexedText(first: nat, n: nat)
    requires first == 38 || first == 48
    ensures Tail([first] + ([5] + [n])) == (if first == 48 then ";48" else ";38") + (";5" + (";" + Decimal(n)))
  {
    FirstDigits(first == 48);
    hide Tail, Decimal;
    MoreNumbers(first, [5] + [n]);
    MoreNumbers(5, [n]);
    OneNumber(n);
  }

  lemma RgbText(first: nat, r: nat, g: nat, b: nat)
    requires first == 38 || first == 48
    ensures Tail([first] + ([2] + ([r] + ([g] + [b])))) ==
            (if first == 48 then ";48" else ";38") + (";2" + (";" + Decimal(r) + (";" + Decimal(g) + (";" + Decimal(b)))))
  {
    FirstDigits(first == 48);
    hide Tail, Decimal;
    RgbNumbers(first, r, g, b);
  }

  lemma RgbNumbers(first: nat, r: nat, g: nat, b: nat)
    ensures Tail([first] + ([2] + ([r] + ([g] + [b])))) ==
            ";" + Decimal(first) + (";" + Decimal(2) + (";" + Decimal(r) + (";" + Decimal(g) + (";" + Decimal(b)))))
  {
    hide Tail, Decimal;
    MoreNumbers(first, [2] + ([r] + ([g] + [b])));
    MoreNumbers(2, [r] + ([g] + [b]));
    MoreNumbers(r, [g] + [b]);
    MoreNumbers(g, [b]);
    OneNumber(b);
  }

  /** What is sent for a style: a reset, its attributes, and its colors. */
  lemma StyleMeans(s: Style)
    ensures SgrText(s) ==
            "\U{001B}[0" +
            ((if s.bold then ";1" else "") + ((if s.dim then ";2" else "") + ((if s.italic then ";3" else "") +
            ((if s.underline then ";4" else "") + ((if s.reverse then ";7" else "") + ((if s.strike then ";9" else "") +
            (Tail(ColorOf(s.fg, false)) + Tail(ColorOf(s.bg, true))))))))) + "m"
  {
    AfterResetText(s);
    Marks();
    hide Tail, ColorOf, FlagText, AfterReset;
    assert [ESC, '['] + ("0" + Tail(AfterReset(s))) == "\U{001B}[0" + Tail(AfterReset(s));
  }

  lemma Marks()
    ensures forall n: nat :: n < 10 ==> FlagText(false, n) == ""
    ensures FlagText(true, 1) == ";1" && FlagText(true, 2) == ";2" && FlagText(true, 3) == ";3"
    ensures FlagText(true, 4) == ";4" && FlagText(true, 7) == ";7" && FlagText(true, 9) == ";9"
  {
  }
}
