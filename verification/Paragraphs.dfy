/** Splitting a streaming reply into finished paragraphs (`paragraph_split` and
    `split_streaming_paragraphs`, crates/inline/src/session.rs). */
module Paragraphs {
  import opened Chars
  import opened Styles

  // ----- trimming ------------------------------------------------------------------

  function TrimStart(s: string): string { if s != "" && IsWhitespace(s[0]) then TrimStart(s[1..]) else s }

  function TrimEnd(s: string): (r: string)
    ensures r <= s
  {
    if s != "" && IsWhitespace(s[|s| - 1]) then TrimEnd(s[..|s| - 1]) else s
  }

  function NewlinesBefore(s: string): (n: nat)
    ensures n <= |s| && (forall k :: 0 <= k < n ==> s[k] == '\n') && (n < |s| ==> s[n] != '\n')
  {
    if s != "" && s[0] == '\n' then 1 + NewlinesBefore(s[1..]) else 0
  }

  function Newlines(n: nat): string { seq(n, k => '\n') }

  lemma {:induction false} TrimEndDropsSpace(s: string)
    ensures forall k :: |TrimEnd(s)| <= k < |s| ==> IsWhitespace(s[k])
    ensures TrimEnd(s) != "" ==> !IsWhitespace(TrimEnd(s)[|TrimEnd(s)| - 1])
  {
    if s != "" && IsWhitespace(s[|s| - 1]) { TrimEndDropsSpace(s[..|s| - 1]); }
  }

  // ----- lines and fences --------------------------------------------------------------

  /** Length of the first line, its newline included. */
  function LineLen(s: string): (n: nat)
    requires s != ""
    ensures 0 < n <= |s| && (forall k :: 0 <= k < n - 1 ==> s[k] != '\n') && (n < |s| ==> s[n - 1] == '\n')
  {
    if s[0] == '\n' || |s| == 1 then 1 else 1 + LineLen(s[1..])
  }

  predicate IsFence(line: string) { "```" <= TrimStart(line) || "~~~" <= TrimStart(line) }

  predicate IsBlank(line: string) { AllWhitespace(line) }

  /** The source's toggle over the lines of `s`: every line that starts like a fence flips it.
      What that says of fences is `ToggleIsRightIff`. */
  predicate Fenced(s: string, inside: bool) {
    if s == "" then inside else Fenced(s[LineLen(s)..], inside != IsFence(s[..LineLen(s)]))
  }

  predicate EndsLine(s: string) { s == "" || s[|s| - 1] == '\n' }

  /** Where the last line of `s` starts, when `s` is a run of whole lines. */
  function LastStart(s: string): (n: nat)
    requires s != ""
    ensures n < |s| && (n > 0 ==> s[n - 1] == '\n') && (forall k :: n <= k < |s| - 1 ==> s[k] != '\n')
  {
    if |s| == 1 || s[|s| - 2] == '\n' then |s| - 1 else LastStart(s[..|s| - 1])
  }

  /** A blank-line boundary: `s` is a run of whole lines, the last of them blank, after which the
      toggle is off. */
  predicate Boundary(s: string) {
    s != "" && EndsLine(s) && IsBlank(s[LastStart(s)..]) && !Fenced(s, false)
  }

  /** A reply may be split at `at`. */
  predicate CanSplit(md: string, at: nat) { at < |md| && Boundary(md[..at]) }

  lemma {:induction false} FencedAppend(a: string, b: string, inside: bool)
    requires EndsLine(a)
    ensures Fenced(a + b, inside) == Fenced(b, Fenced(a, inside))
    decreases |a|
  {
    if a == "" {
      assert a + b == b;
    } else {
      var n := LineLen(a);
      FirstLineStays(a, b);
      assert (a + b)[n..] == a[n..] + b;
      assert (a + b)[..n] == a[..n];
      FencedAppend(a[n..], b, inside != IsFence(a[..n]));
    }
  }

  lemma FirstLineStays(a: string, b: string)
    requires a != "" && EndsLine(a)
    ensures LineLen(a + b) == LineLen(a)
  {
    assert a[LineLen(a) - 1] == '\n';
    assert (a + b)[..|a|] == a;
  }

  lemma LastStartIs(s: string, n: nat)
    requires n < |s| && (n > 0 ==> s[n - 1] == '\n') && forall k :: n <= k < |s| - 1 ==> s[k] != '\n'
    ensures LastStart(s) == n
  {
  }

  lemma LineEnds(md: string, at: nat, n: nat)
    requires at < |md| && n == LineLen(md[at..]) && at + n < |md|
    ensures md[..at + n][|md[..at + n]| - 1] == '\n'
  {
    assert md[at..][n - 1] == '\n' && md[..at + n][at + n - 1] == md[at + n - 1];
  }

  lemma LastLineIs(md: string, at: nat, n: nat)
    requires at < |md| && EndsLine(md[..at]) && n == LineLen(md[at..]) && at + n < |md|
    ensures Boundary(md[..at + n]) <==> IsBlank(md[at..at + n]) && !Fenced(md[..at + n], false)
  {
    hide Fenced, IsFence, AllWhitespace, LastStart, LineLen;
    var upto := md[..at + n];
    LineEnds(md, at, n);
    forall k | at <= k < |upto| - 1 ensures upto[k] != '\n' { assert md[at..][k - at] == upto[k]; }
    assert at > 0 ==> md[..at][at - 1] == upto[at - 1];
    LastStartIs(upto, at);
    assert upto[at..] == md[at..at + n];
  }

  /** Between line ends there is no place to split. */
  lemma OnlyAtLineEnds(md: string, at: nat, n: nat, p: nat)
    requires at < |md| && n == LineLen(md[at..]) && at < p < at + n
    ensures !CanSplit(md, p)
  {
    assert md[at..][p - 1 - at] == md[p - 1];
    assert md[..p][|md[..p]| - 1] == md[p - 1];
  }

  lemma LineEndSplits(md: string, at: nat, n: nat)
    requires at < |md| && EndsLine(md[..at]) && n == LineLen(md[at..])
    ensures Fenced(md[..at + n], false) == (Fenced(md[..at], false) != IsFence(md[at..at + n]))
    ensures at + n < |md| ==> (Boundary(md[..at + n]) <==> IsBlank(md[at..at + n]) && !Fenced(md[..at + n], false))
    ensures at + n < |md| ==> EndsLine(md[..at + n])
  {
    hide Fenced, IsFence, AllWhitespace, LastStart, LineLen, Boundary;
    var line, upto := md[at..at + n], md[..at + n];
    assert md[at..][..n] == line;
    assert upto == md[..at] + line;
    FencedAppend(md[..at], line, false);
    OneLine(line, md[at..], n, Fenced(md[..at], false));
    if at + n < |md| {
      LineEnds(md, at, n);
      LastLineIs(md, at, n);
    }
  }

  lemma OneLine(line: string, s: string, n: nat, inside: bool)
    requires s != "" && n == LineLen(s) && line == s[..n]
    ensures Fenced(line, inside) == (inside != IsFence(line))
  {
    assert forall k :: 0 <= k < n ==> line[k] == s[k];
    assert LineLen(line) == n;
    assert line[n..] == "" && line[..n] == line;
  }

  // ----- the split ---------------------------------------------------------------------

  predicate IsLastSplit(md: string, best: Option<nat>, upto: nat) {
    (best.None? ==> forall p :: 0 <= p < upto ==> !CanSplit(md, p)) &&
    (best.Some? ==> best.value < upto && CanSplit(md, best.value) &&
                    forall p :: best.value < p < upto ==> !CanSplit(md, p))
  }

  lemma NothingToSplit(md: string)
    ensures !CanSplit(md, 0) && !Fenced(md[..0], false)
  {
  }

  /** The offset found is the last blank-line boundary. */
  method ParagraphSplit(md: string) returns (best: Option<nat>)
    ensures IsLastSplit(md, best, |md|)
  {
    hide Boundary, Fenced, IsFence, AllWhitespace;
    var inFence := false;
    best := None;
    NothingToSplit(md);
    var off := 0;
    while off < |md|
      invariant off <= |md| && inFence == Fenced(md[..off], false)
      invariant off < |md| ==> EndsLine(md[..off])
      invariant IsLastSplit(md, best, if off < |md| then off + 1 else |md|)
    {
      ghost var was := off;
      var n := LineLen(md[off..]);
      var line := md[off..off + n];
      LineEndSplits(md, off, n);
      forall p | off < p < off + n ensures !CanSplit(md, p) { OnlyAtLineEnds(md, off, n, p); }
      if IsFence(line) { inFence := !inFence; }
      off := off + n;
      if !inFence && IsBlank(line) && off < |md| { best := Some(off); }
    }
  }

  /** The last place to split before `upto`. */
  function LastSplit(md: string, upto: nat): (best: Option<nat>)
    requires upto <= |md|
    ensures best.Some? ==> best.value < upto
  {
    if upto == 0 then None
    else if CanSplit(md, upto - 1) then Some(upto - 1)
    else LastSplit(md, upto - 1)
  }

  lemma {:induction false} LastSplitIs(md: string, upto: nat)
    requires upto <= |md|
    ensures IsLastSplit(md, LastSplit(md, upto), upto)
  {
    hide CanSplit;
    if upto > 0 { LastSplitIs(md, upto - 1); }
  }

  /** What a split prints, what it consumes of the reply and what stays live. */
  datatype Cut = Cut(head: string, consumed: string, tail: string)

  function CutOf(md: string): Option<Cut> {
    match LastSplit(md, |md|)
    case None => None
    case Some(at) =>
      var head := TrimEnd(md[..at]);
      var k := at + NewlinesBefore(md[at..]);
      if head == "" then None else Some(Cut(head, md[..k], md[k..]))
  }

  lemma {:induction false} BlankIsNoFence(line: string)
    requires IsBlank(line)
    ensures !IsFence(line)
  {
    if line != "" { BlankIsNoFence(line[1..]); }
  }

  lemma NewlineIsBoundary()
    ensures Boundary("\n")
  {
    var s := "\n";
    assert s[1..] == "" && s[..1] == s && s[0..] == s;
    assert AllWhitespace(s);
    BlankIsNoFence(s);
    LastStartIs(s, 0);
    assert LineLen(s) == 1;
  }

  /** More newlines after a boundary reach another one. */
  lemma {:induction false} NewlinesKeepBoundary(s: string, n: nat)
    requires Boundary(s)
    ensures Boundary(s + Newlines(n))
    decreases n
  {
    if n == 0 {
      assert s + Newlines(n) == s;
    } else {
      NewlinesKeepBoundary(s, n - 1);
      NewlineIsBoundary();
      BoundaryAppend(s + Newlines(n - 1), "\n");
      assert s + Newlines(n) == s + Newlines(n - 1) + "\n";
    }
  }

  /** A boundary of the text after a boundary is a boundary of the whole. */
  lemma BoundaryAppend(a: string, b: string)
    requires Boundary(a) && Boundary(b)
    ensures Boundary(a + b)
  {
    hide Fenced, AllWhitespace, LastStart;
    var n := LastStart(b);
    FencedAppend(a, b, false);
    assert (a + b)[|a + b| - 1] == b[|b| - 1];
    forall k | |a| + n <= k < |a + b| - 1 ensures (a + b)[k] != '\n' { assert (a + b)[k] == b[k - |a|]; }
    assert n > 0 ==> (a + b)[|a| + n - 1] == b[n - 1];
    LastStartIs(a + b, |a| + n);
    assert (a + b)[|a| + n..] == b[n..];
  }

  lemma CutAfter(md: string, at: nat, n: nat)
    requires at <= |md| && n == NewlinesBefore(md[at..])
    ensures at + n <= |md| && md[..at + n] == md[..at] + Newlines(n) && (at + n < |md| ==> md[at + n] != '\n')
    ensures forall i :: at <= i < at + n ==> md[i] == '\n'
  {
    forall i | at <= i < at + n ensures md[i] == '\n' { assert md[at..][i - at] == md[i]; }
    assert at + n < |md| ==> md[at..][n] == md[at + n];
  }

  /** Splitting loses nothing: what is consumed and what stays are the reply; the consumed part
      is the printed paragraphs and white space, and ends at a boundary. */
  lemma CutKeepsText(md: string)
    requires CutOf(md).Some?
    ensures var c := CutOf(md).value;
            c.consumed + c.tail == md && c.head <= c.consumed && c.head != "" && Boundary(c.consumed) &&
            (forall k :: |c.head| <= k < |c.consumed| ==> IsWhitespace(c.consumed[k])) &&
            (c.tail != "" ==> c.tail[0] != '\n')
  {
    hide Boundary, NewlinesBefore, TrimEnd;
    LastSplitIs(md, |md|);
    var at := LastSplit(md, |md|).value;
    var n := NewlinesBefore(md[at..]);
    hide LastSplit;
    TrimEndDropsSpace(md[..at]);
    CutAfter(md, at, n);
    NewlinesKeepBoundary(md[..at], n);
    assert md[..at + n] + md[at + n..] == md;
    assert forall i :: |TrimEnd(md[..at])| <= i < at ==> md[..at + n][i] == md[..at][i];
    var spent := md[..at + n];
    forall i | at <= i < |spent| ensures IsWhitespace(spent[i]) { assert md[i] == '\n'; }
  }

  lemma {:induction false} SpaceIsSpace(s: string)
    ensures AllWhitespace(s) ==> forall k :: 0 <= k < |s| ==> IsWhitespace(s[k])
  {
    if s != "" { SpaceIsSpace(s[1..]); }
  }

  /** What a split prints has something to show. */
  lemma HeadShows(md: string)
    requires CutOf(md).Some?
    ensures !AllWhitespace(CutOf(md).value.head)
  {
    TrimEndDropsSpace(md[..LastSplit(md, |md|).value]);
    SpaceIsSpace(CutOf(md).value.head);
  }

  /** Text printed so far: nothing, or a boundary of the whole reply. */
  predicate PrintedOk(printed: string) { printed == "" || Boundary(printed) }

  /** However the reply is cut, each place where printing stopped is a boundary of the whole
      text received: the toggle is not started anew at a cut. */
  lemma CutsAreBoundaries(printed: string, md: string)
    requires PrintedOk(printed) && CutOf(md).Some?
    ensures Boundary(printed + CutOf(md).value.consumed)
    ensures printed + CutOf(md).value.consumed + CutOf(md).value.tail == printed + md
  {
    hide Boundary, CutOf, TrimEnd;
    CutKeepsText(md);
    var c := CutOf(md).value;
    if printed == "" {
      assert printed + c.consumed == c.consumed;
    } else {
      BoundaryAppend(printed, c.consumed);
    }
    assert printed + c.consumed + c.tail == printed + (c.consumed + c.tail);
  }

  // ----- fences by their marks -----------------------------------------------------------

  /** Length of the run of `c` that `s` starts with. */
  function RunOf(s: string, c: char): (n: nat)
    ensures n <= |s| && (forall k :: 0 <= k < n ==> s[k] == c) && (n < |s| ==> s[n] != c)
  {
    if s != "" && s[0] == c then 1 + RunOf(s[1..], c) else 0
  }

  /** A fence as Markdown reads it: its character and the length of the run that opened it. */
  datatype Fence = Fence(mark: char, len: nat)

  ghost predicate FenceOk(open: Option<Fence>) {
    open.Some? ==> open.value.len >= 3 && (open.value.mark == '`' || open.value.mark == '~')
  }

  function OpenedBy(line: string): (f: Option<Fence>)
    ensures FenceOk(f) && (f.Some? <==> IsFence(line))
  {
    var t := TrimStart(line);
    if IsFence(line) then
      assert t[..3] == "```" || t[..3] == "~~~";
      assert t[0] == t[..3][0] && t[1] == t[..3][1] && t[2] == t[..3][2];
      Some(Fence(t[0], RunOf(t, t[0])))
    else None
  }

  /** A fence ends at a run of its own character at least as long, with nothing after it. */
  predicate Closes(line: string, f: Fence) {
    var t := TrimStart(line);
    RunOf(t, f.mark) >= f.len && IsBlank(t[RunOf(t, f.mark)..])
  }

  function LineAfter(line: string, open: Option<Fence>): Option<Fence> {
    if open.None? then OpenedBy(line) else if Closes(line, open.value) then None else open
  }

  /** The fence that the lines of `s` leave open. */
  function FenceAfter(s: string, open: Option<Fence>): Option<Fence> {
    if s == "" then open else FenceAfter(s[LineLen(s)..], LineAfter(s[..LineLen(s)], open))
  }

  /** A line that starts like a fence inside an open one that it does not end. */
  predicate IsStray(line: string, open: Option<Fence>) { open.Some? && IsFence(line) && !Closes(line, open.value) }

  function Strays(s: string, open: Option<Fence>): nat {
    if s == "" then 0
    else (if IsStray(s[..LineLen(s)], open) then 1 else 0) + Strays(s[LineLen(s)..], LineAfter(s[..LineLen(s)], open))
  }

  /** One line: the toggle goes wrong, or right again, exactly at a stray. */
  lemma LineToggles(line: string, open: Option<Fence>)
    requires FenceOk(open)
    ensures FenceOk(LineAfter(line, open))
    ensures (open.Some? != IsFence(line)) == LineAfter(line, open).Some? <==> !IsStray(line, open)
  {
    if open.Some? && Closes(line, open.value) { CloserIsFence(line, open.value); }
  }

  lemma CloserIsFence(line: string, f: Fence)
    requires FenceOk(Some(f)) && Closes(line, f)
    ensures IsFence(line)
  {
    var t := TrimStart(line);
    assert t[..3] == [f.mark, f.mark, f.mark];
    assert "```" == ['`', '`', '`'] && "~~~" == ['~', '~', '~'];
  }

  lemma {:induction false} ToggleOff(s: string, inside: bool, open: Option<Fence>)
    requires FenceOk(open)
    ensures Fenced(s, inside) == FenceAfter(s, open).Some? <==>
            (inside == open.Some? <==> Strays(s, open) % 2 == 0)
    decreases |s|
  {
    hide IsFence, Closes, IsBlank, TrimStart, OpenedBy, LineLen;
    if s != "" {
      var line, rest := s[..LineLen(s)], s[LineLen(s)..];
      LineToggles(line, open);
      hide LineAfter, IsStray, FenceOk;
      ToggleOff(rest, inside != IsFence(line), LineAfter(line, open));
    }
  }

  /** The toggle over lines that start like a fence is right about a text exactly when an even
      number of them were strays inside a fence of another kind. */
  lemma ToggleIsRightIff(s: string)
    ensures Fenced(s, false) == FenceAfter(s, None).Some? <==> Strays(s, None) % 2 == 0
  {
    ToggleOff(s, false, None);
  }

  /** A place where the reply may be split is outside every fence exactly when the strays before it
      are even in number. */
  lemma BoundaryIsOutsideIff(s: string)
    requires Boundary(s)
    ensures FenceAfter(s, None).None? <==> Strays(s, None) % 2 == 0
  {
    ToggleIsRightIff(s);
  }

  lemma LineIs(line: string, rest: string)
    requires line != "" && line[|line| - 1] == '\n' && forall k :: 0 <= k < |line| - 1 ==> line[k] != '\n'
    ensures LineLen(line + rest) == |line| && (line + rest)[..|line|] == line && (line + rest)[|line|..] == rest
  {
  }

  lemma LineRead(line: string, rest: string, open: Option<Fence>, inside: bool)
    requires line != "" && line[|line| - 1] == '\n' && forall k :: 0 <= k < |line| - 1 ==> line[k] != '\n'
    ensures FenceAfter(line + rest, open) == FenceAfter(rest, LineAfter(line, open))
    ensures Fenced(line + rest, inside) == Fenced(rest, inside != IsFence(line))
    ensures Strays(line + rest, open) == (if IsStray(line, open) then 1 else 0) + Strays(rest, LineAfter(line, open))
  {
    LineIs(line, rest);
    hide LineLen, IsFence, Closes, OpenedBy;
  }

  lemma NothingRead(open: Option<Fence>, inside: bool)
    ensures FenceAfter("", open) == open && Fenced("", inside) == inside && Strays("", open) == 0
  {
  }

  /** A blank line inside a fence of tildes counts as outside once a line of backticks came. */
  lemma StrayMarkSplits()
    ensures var s := "~~~\n" + ("```\n" + ("\n" + ""));
            Boundary(s) && FenceAfter(s, None) == Some(Fence('~', 3)) && Strays(s, None) == 1
  {
    hide LineLen, IsFence, Closes, OpenedBy, TrimStart, AllWhitespace, LastStart, Fenced, FenceAfter, Strays;
    var a, b, c := "~~~\n", "```\n", "\n";
    var s1 := c + "";
    var s2 := b + s1;
    var s := a + s2;
    MarksAre();
    LineRead(a, s2, None, false);
    LineRead(b, s1, Some(Fence('~', 3)), true);
    LineRead(c, "", Some(Fence('~', 3)), false);
    NothingRead(Some(Fence('~', 3)), false);
    assert s[|s| - 1] == '\n' && s[|s| - 2] == '\n';
    LastStartIs(s, |s| - 1);
    assert s[|s| - 1..] == c;
  }

  lemma MarksAre()
    ensures OpenedBy("~~~\n") == Some(Fence('~', 3)) && IsFence("~~~\n") && IsFence("```\n") && !IsFence("\n")
    ensures !Closes("```\n", Fence('~', 3)) && !Closes("\n", Fence('~', 3)) && AllWhitespace("\n")
  {
    var a, b, c := "~~~\n", "```\n", "\n";
    assert TrimStart(a) == a && TrimStart(b) == b;
    assert a[..3] == "~~~" && b[..3] == "```";
    assert RunOf(a, '~') == 3 && RunOf(b, '~') == 0;
    assert c[1..] == "" && AllWhitespace(c) && TrimStart(c) == "";
    assert RunOf("", '~') == 0;
  }

  // ----- completion ------------------------------------------------------------------------

  /** What is left to print when the reply completes with an optional final text. */
  function Completed(printed: string, md: string, text: Option<string>): string {
    if text.Some? && printed <= text.value then
      var rest := text.value[|printed|..];
      rest[NewlinesBefore(rest)..]
    else md
  }

  /** A final text that extends what was printed is the printed part, newlines, and what is left;
      one that rewrote the printed part leaves what was streamed. */
  lemma CompletionKeepsText(printed: string, md: string, text: string)
    ensures printed <= text ==>
              exists n: nat :: text == printed + Newlines(n) + Completed(printed, md, Some(text))
    ensures !(printed <= text) ==> Completed(printed, md, Some(text)) == md
  {
    if printed <= text {
      var rest := text[|printed|..];
      var n := NewlinesBefore(rest);
      assert rest == Newlines(n) + rest[n..];
      assert text == printed + Newlines(n) + Completed(printed, md, Some(text));
    }
  }
}
