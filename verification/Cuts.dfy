/** Where a streaming reply is split (`paragraph_split` and `split_streaming_paragraphs`,
    crates/inline/src/session.rs:1904-1948 and 2538-2555), said of the characters of the reply. */
module Cuts {
  import opened Chars
  import opened Styles
  import opened Paragraphs

  predicate LineStart(md: string, p: nat) { p < |md| && (p == 0 || md[p - 1] == '\n') }

  /** The line that starts at `p` has white space and then three backticks or three tildes. */
  ghost predicate FenceAt(md: string, p: nat) { exists j: nat :: FenceFrom(md, p, j) }

  ghost predicate FenceFrom(md: string, p: nat, j: nat) {
    p <= j && j + 3 <= |md| && (forall k :: p <= k < j ==> IsWhitespace(md[k]) && md[k] != '\n') &&
    ((md[j] == '`' && md[j + 1] == '`' && md[j + 2] == '`') || (md[j] == '~' && md[j + 1] == '~' && md[j + 2] == '~'))
  }

  /** The lines from `p` up to `at` that start like a fence. */
  ghost function Fences(md: string, p: nat, at: nat): set<nat> { set q: nat | p <= q < at && LineStart(md, q) && FenceAt(md, q) }

  /** Behind a blank line, with an even number of lines before it that start like a fence. */
  ghost predicate SplitPlace(md: string, at: nat) {
    0 < at < |md| && md[at - 1] == '\n' && |Fences(md, 0, at)| % 2 == 0 &&
    exists q: nat :: q < at && LineStart(md, q) && OneLine(md, q, at) && BlankText(md[q..at])
  }

  /** From `q` up to `at` there is no line end but perhaps at the end. */
  ghost predicate OneLine(md: string, q: nat, at: nat) { at <= |md| && forall k :: q <= k < at - 1 ==> md[k] != '\n' }

  /** What trimming at the start leaves. */
  lemma {:induction false} TrimmedAt(s: string) returns (j: nat)
    ensures j <= |s| && TrimStart(s) == s[j..] && BlankText(s[..j]) && (j < |s| ==> !IsWhitespace(s[j]))
  {
    if s != "" && IsWhitespace(s[0]) {
      j := TrimmedAt(s[1..]);
      j := j + 1;
      assert s[1..][j - 1..] == s[j..];
      forall k | 0 <= k < j ensures IsWhitespace(s[..j][k]) { assert k > 0 ==> s[..j][k] == s[1..][..j - 1][k - 1]; }
    } else {
      j := 0;
    }
  }

  lemma StartsWith(mark: string, s: string)
    requires |mark| == 3
    ensures mark <= s <==> |s| >= 3 && s[0] == mark[0] && s[1] == mark[1] && s[2] == mark[2]
  {
  }

  /** The line from `p` of length `n` starts like a fence. */
  lemma FenceLine(md: string, p: nat, n: nat)
    requires p + n <= |md| && n > 0 && (forall k :: p <= k < p + n - 1 ==> md[k] != '\n') && (p + n < |md| ==> md[p + n - 1] == '\n')
    ensures IsFence(md[p..p + n]) <==> FenceAt(md, p)
  {
    var line := md[p..p + n];
    var j := TrimmedAt(line);
    StartsWith("```", line[j..]);
    StartsWith("~~~", line[j..]);
    hide TrimStart, FenceFrom;
    if IsFence(line) {
      FoundFence(md, p, n, j);
    }
    if FenceAt(md, p) {
      var i: nat :| FenceFrom(md, p, i);
      SameFence(md, p, n, j, i);
    }
  }

  lemma FoundFence(md: string, p: nat, n: nat, j: nat)
    requires p + n <= |md| && (forall k :: p <= k < p + n - 1 ==> md[k] != '\n')
    requires j + 3 <= n && var t := md[p..p + n][j..]; ((t[0] == '`' && t[1] == '`' && t[2] == '`') || (t[0] == '~' && t[1] == '~' && t[2] == '~'))
    requires BlankText(md[p..p + n][..j])
    ensures FenceFrom(md, p, p + j)
  {
    forall k | p <= k < p + j ensures IsWhitespace(md[k]) { assert md[p..p + n][..j][k - p] == md[k]; }
  }

  lemma SameFence(md: string, p: nat, n: nat, j: nat, i: nat)
    requires p + n <= |md| && n > 0 && (p + n < |md| ==> md[p + n - 1] == '\n')
    requires FenceFrom(md, p, i) && j <= n && BlankText(md[p..p + n][..j]) && (j < n ==> !IsWhitespace(md[p + j]))
    ensures i == p + j && j + 3 <= n && var t := md[p..p + n][j..];
            (t[0] == '`' && t[1] == '`' && t[2] == '`') || (t[0] == '~' && t[1] == '~' && t[2] == '~')
  {
    forall k | p <= k < p + j ensures IsWhitespace(md[k]) { assert md[p..p + n][..j][k - p] == md[k]; }
    assert i >= p + j;
    assert forall k :: p <= k < i + 3 ==> md[k] != '\n';
    assert i + 3 <= p + n;
    assert i <= p + j;
  }

  /** The toggle counts them. */
  lemma {:induction false} ToggleCounts(md: string, p: nat, at: nat, inside: bool)
    requires p <= at <= |md| && (p < |md| ==> LineStart(md, p)) && (at < |md| ==> at == 0 || md[at - 1] == '\n')
    ensures Fenced(md[p..at], inside) <==> (inside != (|Fences(md, p, at)| % 2 == 1))
    decreases at - p
  {
    hide FenceAt, IsFence, Fences, Fenced;
    if p == at {
      NoFences(md, p, inside);
    } else {
      var n := LineLen(md[p..at]);
      LineOf(md, p, at, n);
      FenceLine(md, p, n);
      FirstLine(md, p, n, at, inside);
      ToggleCounts(md, p + n, at, inside != IsFence(md[p..p + n]));
      FencesMore(md, p, n, at);
    }
  }

  lemma NoFences(md: string, p: nat, inside: bool)
    requires p <= |md|
    ensures Fenced(md[p..p], inside) == inside && |Fences(md, p, p)| == 0
  {
    hide FenceAt;
    assert md[p..p] == "" && Fences(md, p, p) == {};
  }

  lemma FirstLine(md: string, p: nat, n: nat, at: nat, inside: bool)
    requires p < at <= |md| && n == LineLen(md[p..at])
    ensures p + n <= at && Fenced(md[p..at], inside) == Fenced(md[p + n..at], inside != IsFence(md[p..p + n]))
  {
    hide IsFence;
    assert md[p..at][..n] == md[p..p + n] && md[p..at][n..] == md[p + n..at];
  }

  lemma LineOf(md: string, p: nat, at: nat, n: nat)
    requires p < at <= |md| && n == LineLen(md[p..at]) && (at < |md| ==> md[at - 1] == '\n')
    ensures p + n <= at && (forall k :: p <= k < p + n - 1 ==> md[k] != '\n') && (p + n < |md| ==> md[p + n - 1] == '\n')
  {
    var s := md[p..at];
    forall k | p <= k < p + n - 1 ensures md[k] != '\n' { assert s[k - p] == md[k]; }
    assert s[n - 1] == md[p + n - 1];
  }

  lemma FencesMore(md: string, p: nat, n: nat, at: nat)
    requires 0 < n && p + n <= at <= |md| && LineStart(md, p) && forall k :: p <= k < p + n - 1 ==> md[k] != '\n'
    ensures |Fences(md, p, at)| == |Fences(md, p + n, at)| + if FenceAt(md, p) then 1 else 0
  {
    hide FenceAt;
    var rest := Fences(md, p + n, at);
    forall q | p < q < p + n ensures !LineStart(md, q) { assert md[q - 1] != '\n'; }
    assert p !in rest;
    assert Fences(md, p, at) == if FenceAt(md, p) then {p} + rest else rest;
  }

  /** The model splits exactly at these places. */
  lemma PlaceIs(md: string, at: nat)
    ensures CanSplit(md, at) <==> SplitPlace(md, at)
  {
    hide Fenced, FenceAt, Fences, BlankText, AllWhitespace;
    if 0 < at < |md| {
      assert md[..at][at - 1] == md[at - 1];
      if md[at - 1] == '\n' {
        ToggleCounts(md, 0, at, false);
        assert md[0..at] == md[..at];
        LastLine(md, at);
        BlankIs(md[LastStart(md[..at])..at]);
      }
    }
  }

  /** The last line before a line end is the one that starts where `LastStart` says. */
  lemma LastLine(md: string, at: nat)
    requires 0 < at < |md| && md[at - 1] == '\n'
    ensures var q := LastStart(md[..at]);
            q < at && md[..at][q..] == md[q..at] && LineStart(md, q) && OneLine(md, q, at) &&
            forall x: nat :: x < at && LineStart(md, x) && OneLine(md, x, at) ==> x == q
  {
    var q := LastStart(md[..at]);
    hide LastStart;
    assert q > 0 ==> md[..at][q - 1] == md[q - 1];
    forall k | q <= k < at - 1 ensures md[k] != '\n' { assert md[..at][k] == md[k]; }
    forall x: nat | x < at && LineStart(md, x) && OneLine(md, x, at) ensures x == q {
      assert x > 0 ==> md[x - 1] == '\n';
      assert q > 0 ==> md[q - 1] == '\n';
    }
  }

  /** A reply is cut exactly if there is such a place with something to print before it; then at the
      last one, with the white space before it and the newlines behind it dropped. */
  lemma CutMeans(md: string, p: nat) returns (at: nat)
    ensures CutOf(md).None? ==> (SplitPlace(md, p) ==> BlankText(md[..p]))
    ensures CutOf(md).Some? ==>
              var c := CutOf(md).value;
              SplitPlace(md, at) && (SplitPlace(md, p) ==> p <= at) && !BlankText(md[..at]) &&
              |c.head| <= at <= |c.consumed| && c.head == md[..|c.head|] && BlankText(md[|c.head|..at]) &&
              c.head != "" && !IsWhitespace(c.head[|c.head| - 1]) &&
              c.consumed + c.tail == md && (c.tail != "" ==> c.tail[0] != '\n') && forall k :: at <= k < |c.consumed| ==> md[k] == '\n'
  {
    hide SplitPlace, CanSplit, LastSplit, TrimEnd, BlankText, IsWhitespace, CutOf;
    LastSplitIs(md, |md|);
    PlaceIs(md, p);
    PlacesBefore(md, p);
    var best := LastSplit(md, |md|);
    at := if best.Some? then best.value else 0;
    PlaceIs(md, at);
    if best.Some? {
      CutAt(md, at);
      if SplitPlace(md, p) && BlankText(md[..at]) { BlankBefore(md, p, at); }
    } else {
      NoCut(md);
    }
  }

  lemma NoCut(md: string)
    requires LastSplit(md, |md|).None?
    ensures CutOf(md).None?
  {
  }

  lemma BlankBefore(md: string, p: nat, at: nat)
    requires p <= at <= |md| && BlankText(md[..at])
    ensures BlankText(md[..p])
  {
    forall k | 0 <= k < p ensures IsWhitespace(md[..p][k]) { assert md[..at][k] == md[k]; }
  }

  /** The cut at the last place. */
  lemma CutAt(md: string, at: nat)
    requires LastSplit(md, |md|) == Some(at)
    ensures CutOf(md).None? <==> BlankText(md[..at])
    ensures CutOf(md).Some? ==>
              var c := CutOf(md).value;
              |c.head| <= at <= |c.consumed| && c.head == md[..|c.head|] && BlankText(md[|c.head|..at]) &&
              c.head != "" && !IsWhitespace(c.head[|c.head| - 1]) &&
              c.consumed + c.tail == md && (c.tail != "" ==> c.tail[0] != '\n') && forall k :: at <= k < |c.consumed| ==> md[k] == '\n'
  {
    hide TrimEnd, LastSplit, IsWhitespace, NewlinesBefore;
    TrimEndDropsSpace(md[..at]);
    CutAfter(md, at, NewlinesBefore(md[at..]));
    var head := TrimEnd(md[..at]);
    forall k | |head| <= k < at ensures IsWhitespace(md[k]) { assert md[..at][k] == md[k]; }
    assert head != "" ==> md[..at][|head| - 1] == head[|head| - 1];
    assert head == md[..|head|];
  }

  lemma PlacesBefore(md: string, p: nat)
    ensures SplitPlace(md, p) ==> p < |md|
  {
  }
}
