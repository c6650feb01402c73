/** Bounded output kept line by line (`append_output`, crates/inline/src/session.rs, and
    `Activity::log`, crates/inline/src/activity.rs). */
module Output {
  import opened Ansi
  import opened Sgr
  import opened Chars

  /** Lines of an activity's log kept. */
  const LOG_LINES: nat := 2000

  /** Carriage-return line ends become line ends. */
  function DropCrLf(s: string): string {
    if |s| < 2 then s
    else if s[0] == '\r' && s[1] == '\n' then ['\n'] + DropCrLf(s[2..])
    else [s[0]] + DropCrLf(s[1..])
  }

  /** What a progress bar leaves: the text after the last carriage return. */
  function AfterCr(s: string): string {
    if s == "" then "" else if s[|s| - 1] == '\r' then "" else AfterCr(s[..|s| - 1]) + [s[|s| - 1]]
  }

  /** The pieces between newlines; never empty. */
  function Split(s: string): (r: seq<string>)
    ensures r != []
  {
    if s == "" then [""]
    else
      var before, c := Split(s[..|s| - 1]), s[|s| - 1];
      var n := |before| - 1;
      if c == '\n' then before + [""] else before[n := before[n] + [c]]
  }

  function Last(lines: seq<string>, cap: nat): seq<string> {
    if |lines| <= cap then lines else lines[|lines| - cap..]
  }

  /** What is kept of a line: the text after the last carriage return, without escapes. */
  function Cleaned(s: string): string { Stripped(AfterCr(s)) }

  function CleanAll(lines: seq<string>): seq<string> {
    seq(|lines|, k requires 0 <= k < |lines| => Cleaned(lines[k]))
  }

  /** The last line goes on with the first of `more`. */
  function Joined(lines: seq<string>, more: seq<string>): seq<string>
    requires more != []
  {
    if lines == [] then more
    else lines[..|lines| - 1] + [lines[|lines| - 1] + more[0]] + more[1..]
  }

  /** One chunk appended. */
  function Appended(lines: seq<string>, chunk: string, cap: nat): seq<string> {
    Last(Joined(lines, CleanAll(Split(DropCrLf(chunk)))), cap)
  }

  /** The source keeps 400 lines of a tool's output (`cap`). */
  method AppendOutput(lines: seq<string>, chunk: string, cap: nat) returns (out: seq<string>)
    ensures out == Appended(lines, chunk, cap)
  {
    hide Stripped, AfterCr, DropCrLf, Split;
    var parts := Split(DropCrLf(chunk));
    ghost var cleaned := CleanAll(parts);
    var first := StripAnsi(AfterCr(parts[0]));
    out := lines;
    if out == [] {
      out := [first];
    } else {
      out := out[|out| - 1 := out[|out| - 1] + first];
    }
    ghost var head := out;
    for k := 1 to |parts|
      invariant out == head + cleaned[1..k]
    {
      var line := StripAnsi(AfterCr(parts[k]));
      out := out + [line];
      assert cleaned[1..k + 1] == cleaned[1..k] + [cleaned[k]];
    }
    assert cleaned[1..|parts|] == cleaned[1..];
    assert out == Joined(lines, cleaned);
    if |out| > cap {
      var drop := |out| - cap;
      out := out[drop..];
    }
  }

  // ----- chunks --------------------------------------------------------------------

  function AppendAll(lines: seq<string>, chunks: seq<string>, cap: nat): seq<string> {
    if chunks == [] then lines
    else Appended(AppendAll(lines, chunks[..|chunks| - 1], cap), chunks[|chunks| - 1], cap)
  }

  function ConcatAll(chunks: seq<string>): string {
    if chunks == [] then "" else ConcatAll(chunks[..|chunks| - 1]) + chunks[|chunks| - 1]
  }

  lemma {:induction false} SplitAppend(x: string, y: string)
    ensures Split(x + y) == Joined(Split(x), Split(y))
  {
    if y == "" {
      assert x + y == x;
      var l := Split(x);
      assert l[|l| - 1] + "" == l[|l| - 1];
      assert Joined(l, [""]) == l;
    } else {
      var init, c := y[..|y| - 1], y[|y| - 1];
      SplitAppend(x, init);
      assert (x + y)[..|x + y| - 1] == x + init;
      JoinGrows(Split(x), Split(init), c);
    }
  }

  function Typed(lines: seq<string>, c: char): seq<string>
    requires lines != []
  {
    if c == '\n' then lines + [""] else lines[|lines| - 1 := lines[|lines| - 1] + [c]]
  }

  lemma JoinGrows(a: seq<string>, b: seq<string>, c: char)
    requires a != [] && b != []
    ensures Typed(Joined(a, b), c) == Joined(a, Typed(b, c))
  {
    if c != '\n' && |b| == 1 {
      assert a[|a| - 1] + (b[0] + [c]) == (a[|a| - 1] + b[0]) + [c];
    }
  }

  /** Dropping the oldest lines before or after joining makes no difference. */
  lemma LastJoined(lines: seq<string>, more: seq<string>, cap: nat)
    requires more != [] && lines != [] && cap >= 1
    ensures Last(Joined(Last(lines, cap), more), cap) == Last(Joined(lines, more), cap)
  {
    var kept, whole := Last(lines, cap), Joined(lines, more);
    if |lines| > cap {
      var d := |lines| - cap;
      assert kept == lines[d..] && kept[cap - 1] == lines[|lines| - 1];
      assert lines[d..][..cap - 1] == lines[..|lines| - 1][d..];
      assert Joined(kept, more) == whole[d..];
      assert Last(whole[d..], cap) == Last(whole, cap);
    }
  }

  // ----- raw lines -----------------------------------------------------------------

  /** One line of the whole text as the chunks cut it, and whether a newline ended it. */
  datatype RawLine = RawLine(pieces: seq<string>, ended: bool)

  function Extended(lines: seq<RawLine>, parts: seq<string>): seq<RawLine>
    requires lines != [] && parts != []
  {
    var n := |lines| - 1;
    lines[..n] + [RawLine(lines[n].pieces + [parts[0]], |parts| > 1)] + NewLines(parts)
  }

  function NewLines(parts: seq<string>): (r: seq<RawLine>)
    requires parts != []
    ensures |r| == |parts| - 1
  {
    seq(|parts| - 1, k requires 0 <= k < |parts| - 1 => RawLine([parts[k + 1]], k + 2 < |parts|))
  }

  function Raw(chunks: seq<string>): (r: seq<RawLine>)
    ensures r != []
  {
    if chunks == [] then [RawLine([], false)]
    else Extended(Raw(chunks[..|chunks| - 1]), Split(chunks[|chunks| - 1]))
  }

  function DropCr(s: string): string { if s != "" && s[|s| - 1] == '\r' then s[..|s| - 1] else s }

  /** A carriage return before the newline goes when both are in one chunk. */
  function Effective(l: RawLine): (ps: seq<string>)
    ensures |ps| == |l.pieces|
  {
    var n := |l.pieces| - 1;
    if l.ended && n >= 0 then l.pieces[n := DropCr(l.pieces[n])] else l.pieces
  }

  function CleanEach(ps: seq<string>): string {
    if ps == [] then "" else CleanEach(ps[..|ps| - 1]) + Cleaned(ps[|ps| - 1])
  }

  /** What the chunks leave of a line, and what the whole text leaves of it. */
  function Chunked(l: RawLine): string { CleanEach(Effective(l)) }
  function WholeText(l: RawLine): string { if l.ended then DropCr(ConcatAll(l.pieces)) else ConcatAll(l.pieces) }
  function Whole(l: RawLine): string { Cleaned(WholeText(l)) }

  function AllChunked(ls: seq<RawLine>): seq<string> { seq(|ls|, k requires 0 <= k < |ls| => Chunked(ls[k])) }
  function AllWhole(ls: seq<RawLine>): seq<string> { seq(|ls|, k requires 0 <= k < |ls| => Whole(ls[k])) }

  /** Only the last line is not ended. */
  ghost predicate EndsOk(ls: seq<RawLine>) { forall k :: 0 <= k < |ls| ==> (ls[k].ended <==> k < |ls| - 1) }

  lemma {:induction false} RawEnds(chunks: seq<string>)
    ensures EndsOk(Raw(chunks))
  {
    if chunks != [] { RawEnds(chunks[..|chunks| - 1]); }
  }

  lemma OneThenOne(s: string, c: char)
    requires |s| == 1
    ensures DropCrLf(s) == s && DropCrLf(s + [c]) == (if c == '\n' then DropCr(s) else s) + [c]
  {
    var t := s + [c];
    assert t[1..] == [c] && t[2..] == "" && s[..0] == "";
    assert DropCrLf([c]) == [c] && DropCrLf("") == "";
    assert s == [s[0]];
  }

  lemma DropShort(s: string)
    requires |s| < 2
    ensures DropCrLf(s) == s
  {
  }

  lemma DropCrOf(s: string)
    requires s == ""
    ensures DropCr(s) == ""
  {
  }

  lemma DropFirst(s: string)
    requires |s| >= 2
    ensures var n := if s[0] == '\r' && s[1] == '\n' then 2 else 1;
            DropCrLf(s) == [if n == 2 then '\n' else s[0]] + DropCrLf(s[n..])
  {
  }

  lemma DropCons(a: char, d: string, c: char)
    requires d == "" ==> a != '\r'
    ensures [a] + ((if c == '\n' then DropCr(d) else d) + [c]) == (if c == '\n' then DropCr([a] + d) else [a] + d) + [c]
  {
    var all := [a] + d;
    assert d != "" ==> all[|all| - 1] == d[|d| - 1] && all[..|all| - 1] == [a] + d[..|d| - 1];
  }

  lemma {:induction false} DropSnoc(s: string, c: char)
    ensures DropCrLf(s + [c]) == (if c == '\n' then DropCr(DropCrLf(s)) else DropCrLf(s)) + [c]
    ensures s != "" ==> DropCrLf(s) != "" && DropCrLf(s)[|DropCrLf(s)| - 1] == s[|s| - 1]
    decreases |s|
  {
    hide DropCrLf, DropCr;
    var t := s + [c];
    if s == "" {
      DropShort(t);
      DropShort(s);
      DropCrOf(s);
      assert t == [c];
    } else if |s| == 1 {
      OneThenOne(s, c);
    } else {
      var n := if s[0] == '\r' && s[1] == '\n' then 2 else 1;
      var a := if n == 2 then '\n' else s[0];
      assert t[0] == s[0] && t[1] == s[1] && t[n..] == s[n..] + [c];
      DropFirst(s);
      DropFirst(t);
      DropSnoc(s[n..], c);
      DropShort("");
      assert s[n..] != "" ==> s[n..][|s| - n - 1] == s[|s| - 1];
      DropCons(a, DropCrLf(s[n..]), c);
    }
  }

  /** The pieces of a text before its line ends are made plain: all but the last may lose a
      carriage return. */
  function Trimmed(parts: seq<string>): seq<string> {
    seq(|parts|, k requires 0 <= k < |parts| => if k < |parts| - 1 then DropCr(parts[k]) else parts[k])
  }

  lemma TrimmedTyped(parts: seq<string>, c: char)
    requires parts != []
    ensures var n, t := |parts| - 1, Trimmed(parts);
            Trimmed(Typed(parts, c)) == Typed(if c == '\n' then t[n := DropCr(t[n])] else t, c)
  {
    hide DropCr;
  }

  lemma {:induction false} SplitDrop(s: string)
    ensures Split(DropCrLf(s)) == Trimmed(Split(s))
  {
    if s != "" {
      var init, c := s[..|s| - 1], s[|s| - 1];
      SplitDrop(init);
      assert s == init + [c];
      DropSnoc(init, c);
      SplitSnoc(init, c);
      hide DropCrLf;
      var d := DropCrLf(init);
      SplitDropCr(d);
      SplitSnoc(if c == '\n' then DropCr(d) else d, c);
      hide Split, DropCr;
      TrimmedTyped(Split(init), c);
    }
  }

  lemma SplitNothing()
    ensures Split("") == [""]
  {
  }

  lemma CrTyped(lines: seq<string>)
    requires lines != []
    ensures var ls, n := Typed(lines, '\r'), |lines| - 1; |ls| == n + 1 && ls[n := DropCr(ls[n])] == lines
  {
    var n := |lines| - 1;
    assert (lines[n] + ['\r'])[..|lines[n]|] == lines[n];
    assert lines[n := lines[n] + ['\r']][n := lines[n]] == lines;
  }

  lemma KeptTyped(lines: seq<string>, c: char)
    requires lines != [] && c != '\r'
    ensures var ls := Typed(lines, c); ls != [] && ls[|ls| - 1 := DropCr(ls[|ls| - 1])] == ls
  {
  }

  lemma SplitSnoc(s: string, c: char)
    ensures Split(s + [c]) == Typed(Split(s), c)
  {
    assert (s + [c])[..|s|] == s;
  }

  lemma SplitDropCr(s: string)
    ensures Split(DropCr(s)) == Split(s)[|Split(s)| - 1 := DropCr(Split(s)[|Split(s)| - 1])]
  {
    hide Split;
    if s != "" {
      var u, c := s[..|s| - 1], s[|s| - 1];
      assert s == u + [c];
      SplitSnoc(u, c);
      if c == '\r' {
        CrTyped(Split(u));
      } else {
        KeptTyped(Split(u), c);
      }
    } else {
      SplitNothing();
    }
  }

  lemma ConcatMore(ps: seq<string>, p: string)
    ensures ConcatAll(ps + [p]) == ConcatAll(ps) + p
    ensures CleanEach(ps + [p]) == CleanEach(ps) + Cleaned(p)
  {
    assert (ps + [p])[..|ps|] == ps;
  }

  lemma ConcatOne(p: string)
    ensures ConcatAll([p]) == p && CleanEach([p]) == Cleaned(p)
  {
    ConcatMore([], p);
    assert [] + [p] == [p];
  }

  function Texts(ls: seq<RawLine>): seq<string> { seq(|ls|, k requires 0 <= k < |ls| => ConcatAll(ls[k].pieces)) }

  lemma {:induction false} RawTexts(chunks: seq<string>)
    ensures Texts(Raw(chunks)) == Split(ConcatAll(chunks))
  {
    if chunks != [] {
      var init, y := chunks[..|chunks| - 1], chunks[|chunks| - 1];
      RawTexts(init);
      SplitAppend(ConcatAll(init), y);
      ExtendedTexts(Raw(init), Split(y));
    }
  }

  lemma TextsAppend(a: seq<RawLine>, b: seq<RawLine>)
    ensures Texts(a + b) == Texts(a) + Texts(b)
  {
    hide ConcatAll;
  }

  lemma ExtendedTexts(ls: seq<RawLine>, parts: seq<string>)
    requires ls != [] && parts != []
    ensures Texts(Extended(ls, parts)) == Joined(Texts(ls), parts)
  {
    hide ConcatAll;
    var n, all := |ls| - 1, Texts(ls);
    var first := RawLine(ls[n].pieces + [parts[0]], |parts| > 1);
    ConcatMore(ls[n].pieces, parts[0]);
    assert Texts([first]) == [all[n] + parts[0]] && Texts(ls[..n]) == all[..n];
    forall k | 1 <= k < |parts| ensures ConcatAll([parts[k]]) == parts[k] { ConcatOne(parts[k]); }
    assert Texts(NewLines(parts)) == parts[1..];
    TextsAppend(ls[..n] + [first], NewLines(parts));
    TextsAppend(ls[..n], [first]);
    hide Texts, NewLines;
  }

  /** The whole text, appended at once, line by line. */
  lemma WholeLines(chunks: seq<string>)
    ensures CleanAll(Split(DropCrLf(ConcatAll(chunks)))) == AllWhole(Raw(chunks))
  {
    SplitDrop(ConcatAll(chunks));
    RawTexts(chunks);
    RawEnds(chunks);
    hide Raw, Split, DropCrLf, ConcatAll, Cleaned, DropCr;
    var ls := Raw(chunks);
    assert Trimmed(Texts(ls)) == Split(DropCrLf(ConcatAll(chunks)));
    forall k | 0 <= k < |ls| ensures Trimmed(Texts(ls))[k] == WholeText(ls[k]) {}
  }

  lemma FirstChunked(l: RawLine, part: string, ended: bool)
    requires !l.ended
    ensures Chunked(RawLine(l.pieces + [part], ended)) == Chunked(l) + Cleaned(if ended then DropCr(part) else part)
  {
    var p := if ended then DropCr(part) else part;
    assert Effective(RawLine(l.pieces + [part], ended)) == l.pieces + [p];
    ConcatMore(l.pieces, p);
  }

  lemma OneChunked(part: string, ended: bool)
    ensures Chunked(RawLine([part], ended)) == Cleaned(if ended then DropCr(part) else part)
  {
    var p := if ended then DropCr(part) else part;
    assert Effective(RawLine([part], ended)) == [p];
    ConcatOne(p);
  }

  lemma ChunkedAppend(a: seq<RawLine>, b: seq<RawLine>)
    ensures AllChunked(a + b) == AllChunked(a) + AllChunked(b)
  {
    hide Chunked;
  }

  lemma NewChunked(parts: seq<string>)
    requires parts != []
    ensures AllChunked(NewLines(parts)) == CleanAll(Trimmed(parts))[1..]
  {
    hide Chunked, Cleaned, DropCr;
    var ls, ts := NewLines(parts), Trimmed(parts);
    forall k | 0 <= k < |parts| - 1 ensures Chunked(ls[k]) == Cleaned(ts[k + 1]) {
      OneChunked(parts[k + 1], k + 2 < |parts|);
    }
    assert |AllChunked(ls)| == |CleanAll(ts)[1..]|;
  }

  lemma JoinedLine(ls: seq<RawLine>, parts: seq<string>)
    requires ls != [] && parts != [] && !ls[|ls| - 1].ended
    ensures var n, m, all := |ls| - 1, CleanAll(Trimmed(parts)), AllChunked(ls);
            |all| == |ls| && |m| == |parts| && AllChunked(ls[..n]) == all[..n] &&
            AllChunked([RawLine(ls[n].pieces + [parts[0]], |parts| > 1)]) == [all[n] + m[0]]
  {
    FirstChunked(ls[|ls| - 1], parts[0], |parts| > 1);
    hide Chunked, Cleaned, DropCr;
  }

  lemma ExtendedChunked(ls: seq<RawLine>, parts: seq<string>)
    requires ls != [] && parts != [] && !ls[|ls| - 1].ended
    ensures AllChunked(Extended(ls, parts)) == Joined(AllChunked(ls), CleanAll(Trimmed(parts)))
  {
    hide Chunked, Cleaned, DropCr, AllChunked, Trimmed, NewLines, CleanAll;
    var n, m, all := |ls| - 1, CleanAll(Trimmed(parts)), AllChunked(ls);
    var first := RawLine(ls[n].pieces + [parts[0]], |parts| > 1);
    JoinedLine(ls, parts);
    NewChunked(parts);
    ChunkedAppend(ls[..n] + [first], NewLines(parts));
    ChunkedAppend(ls[..n], [first]);
    assert AllChunked(Extended(ls, parts)) == all[..n] + [all[n] + m[0]] + m[1..];
  }

  /** The chunks, appended one by one, line by line. */
  lemma {:induction false} ChunkedLines(chunks: seq<string>, cap: nat)
    requires chunks != [] && cap >= 1
    ensures AppendAll([], chunks, cap) == Last(AllChunked(Raw(chunks)), cap)
  {
    var init, y := chunks[..|chunks| - 1], chunks[|chunks| - 1];
    var ls, more := Raw(init), CleanAll(Split(DropCrLf(y)));
    SplitDrop(y);
    RawEnds(init);
    ExtendedChunked(ls, Split(y));
    hide Split, DropCrLf, CleanAll;
    if init == [] {
      assert AllChunked(ls) == [""];
      assert "" + more[0] == more[0];
      assert Joined([""], more) == more;
    } else {
      ChunkedLines(init, cap);
      LastJoined(AllChunked(ls), more, cap);
    }
  }

  lemma SameMaps(ls: seq<RawLine>, cap: nat)
    ensures (forall k :: 0 <= k < |ls| && |ls| <= k + cap ==> AllChunked(ls)[k] == AllWhole(ls)[k]) <==>
            forall k :: 0 <= k < |ls| && |ls| <= k + cap ==> Chunked(ls[k]) == Whole(ls[k])
  {
    hide Chunked, Whole;
    assert forall k :: 0 <= k < |ls| ==> AllChunked(ls)[k] == Chunked(ls[k]) && AllWhole(ls)[k] == Whole(ls[k]);
  }

  /** Appending in chunks shows what appending at once shows, exactly when each line kept does. */
  lemma SameIffLines(chunks: seq<string>, cap: nat)
    requires chunks != [] && cap >= 1
    ensures AppendAll([], chunks, cap) == Appended([], ConcatAll(chunks), cap) <==>
            forall k :: 0 <= k < |Raw(chunks)| && |Raw(chunks)| <= k + cap ==>
              Chunked(Raw(chunks)[k]) == Whole(Raw(chunks)[k])
  {
    ChunkedLines(chunks, cap);
    WholeLines(chunks);
    hide Raw, Chunked, Whole, AppendAll, ConcatAll, Split, DropCrLf, CleanAll, Last;
    var ls := Raw(chunks);
    assert Appended([], ConcatAll(chunks), cap) == Last(AllWhole(ls), cap);
    LastSame(AllChunked(ls), AllWhole(ls), cap);
    SameMaps(ls, cap);
  }

  lemma LastSame(a: seq<string>, b: seq<string>, cap: nat)
    requires |a| == |b|
    ensures Last(a, cap) == Last(b, cap) <==> forall k :: 0 <= k < |a| && |a| <= k + cap ==> a[k] == b[k]
  {
    if Last(a, cap) == Last(b, cap) && |a| > cap {
      var d := |a| - cap;
      forall k | d <= k < |a| ensures a[k] == b[k] { assert a[d..][k - d] == b[d..][k - d]; }
    }
  }

  // ----- when a line is the same ---------------------------------------------------------

  predicate HasCr(s: string) { '\r' in s }

  /** No piece with a carriage return comes after something that shows. */
  ghost predicate Quiet(ps: seq<string>) {
    forall i, j :: 0 <= i < j < |ps| && HasCr(ps[j]) ==> Cleaned(ps[i]) == ""
  }

  /** The line's carriage return is the end of one chunk and its newline the start of a later. */
  predicate EndCut(l: RawLine) {
    var n := |l.pieces| - 1;
    l.ended && n >= 0 && l.pieces[n] == "" && ConcatAll(l.pieces) != "" && ConcatAll(l.pieces)[|ConcatAll(l.pieces)| - 1] == '\r'
  }

  /** The last piece that is not empty. */
  function LastPiece(ps: seq<string>): (j: nat)
    requires ConcatAll(ps) != ""
    ensures j < |ps| && ps[j] != "" && forall k :: j < k < |ps| ==> ps[k] == ""
  {
    var n := |ps| - 1;
    if ps[n] != "" then n else LastPiece(ps[..n])
  }

  /** Where the last piece with a carriage return is, if there is one. */
  function LastCr(ps: seq<string>): (m: nat)
    ensures m <= |ps| && (m > 0 ==> m < |ps| && HasCr(ps[m])) && forall k :: m < k < |ps| ==> !HasCr(ps[k])
  {
    if ps == [] then 0
    else if HasCr(ps[|ps| - 1]) then |ps| - 1
    else LastCr(ps[..|ps| - 1])
  }

  /** Moving `u` from the front of `c` to its end makes it `v`: `c` repeats `u`, and `u` and `v`
      are the same two parts in either order. */
  predicate Swaps(u: string, c: string, v: string)
    decreases |c|
  {
    |u| == |v| &&
    (u == "" || if |u| <= |c| then u == c[..|u|] && Swaps(u, c[|u|..], v)
                else u[..|c|] == c && v == u[|c|..] + c)
  }

  /** A line end cut in two makes its carriage return one that replaces: what shows of the line
      itself, `q`, is lost, and what showed before its last carriage return stays.  The two make up
      for each other only when the one turns into the other across what is between. */
  ghost predicate EndKeeps(before: seq<string>, q: string) {
    var m := if HasCr(q) then |before| else LastCr(before);
    Swaps(CleanEach(before[..m]), CleanEach(before[m..]), Cleaned(q))
  }

  /** When a line appended in pieces shows what it shows whole. */
  ghost predicate Keeps(l: RawLine) {
    if EndCut(l) then
      var j := LastPiece(l.pieces);
      EndKeeps(l.pieces[..j], DropCr(l.pieces[j]))
    else Quiet(Effective(l))
  }

  /** What shows of the text ends outside every escape sequence. */
  predicate Settled(s: string) { Inside(AfterCr(s), 0) == Ground }

  ghost predicate OnLine(ps: seq<string>) { forall k :: 0 <= k < |ps| ==> '\n' !in ps[k] }

  /** No cut of the line falls into an escape sequence. */
  ghost predicate CutsOutside(ps: seq<string>) { forall k :: 0 <= k < |ps| - 1 ==> Settled(ps[k]) }

  lemma {:induction false} AfterCrAppend(x: string, y: string)
    ensures AfterCr(x + y) == if HasCr(y) then AfterCr(y) else AfterCr(x) + y
    decreases |y|
  {
    if y == "" {
      assert x + y == x && AfterCr(x) + "" == AfterCr(x);
    } else {
      var init, c := y[..|y| - 1], y[|y| - 1];
      assert x + y == (x + init) + [c] && y == init + [c];
      AfterCrAppend(x, init);
      AfterOne(x + init, c);
      AfterOne(init, c);
      CrMore(init, c);
      hide AfterCr, HasCr;
      assert (AfterCr(x) + init) + [c] == AfterCr(x) + y;
    }
  }

  lemma AfterOne(s: string, c: char)
    ensures AfterCr(s + [c]) == if c == '\r' then "" else AfterCr(s) + [c]
  {
    assert (s + [c])[..|s|] == s;
  }

  lemma CrMore(s: string, c: char)
    ensures HasCr(s + [c]) <==> HasCr(s) || c == '\r'
  {
  }

  lemma {:induction false} AfterCrIn(x: string)
    ensures forall c :: c in AfterCr(x) ==> c in x
  {
    if x != "" { AfterCrIn(x[..|x| - 1]); }
  }

  lemma NoCrAfter(y: string)
    requires !HasCr(y)
    ensures AfterCr(y) == y
  {
    AfterCrAppend("", y);
    assert "" + y == y && AfterCr("") + y == y;
  }

  /** What a line shows that is cut in two. */
  lemma CleanedOver(x: string, y: string)
    requires '\n' !in x && '\n' !in y
    ensures Cleaned(x + y) ==
            if HasCr(y) then Cleaned(y) else Cleaned(x) + Says(y, Resume(Inside(AfterCr(x), 0), y))
    ensures !HasCr(y) ==> Cleaned(y) == Says(y, 0)
  {
    hide Stripped, Says, Resume, Inside, HasCr;
    AfterCrAppend(x, y);
    AfterCrIn(x);
    if !HasCr(y) {
      NoCrAfter(y);
      StrippedSays(y);
      StrippedSays(AfterCr(x));
      StrippedSays(AfterCr(x) + y);
      SaysOver(AfterCr(x), y, 0);
    }
  }

  lemma CleanedAppend(x: string, y: string)
    requires Settled(x) && '\n' !in x && '\n' !in y
    ensures Cleaned(x + y) == if HasCr(y) then Cleaned(y) else Cleaned(x) + Cleaned(y)
  {
    CleanedOver(x, y);
    FromStart(y);
  }

  lemma SettledAppend(x: string, y: string)
    requires Settled(x) && Settled(y)
    ensures Settled(x + y)
  {
    hide Inside;
    AfterCrAppend(x, y);
    if !HasCr(y) {
      NoCrAfter(y);
      InsideOver(AfterCr(x), y, 0);
    }
  }

  lemma {:induction false} GroundWithoutEsc(s: string, i: nat)
    requires i <= |s| && NoEsc(s)
    ensures Inside(s, i) == Ground
    decreases |s| - i
  {
    if i < |s| { GroundWithoutEsc(s, i + 1); }
  }

  lemma NoEscSettled(s: string)
    requires NoEsc(s)
    ensures Settled(s)
  {
    AfterCrIn(s);
    GroundWithoutEsc(AfterCr(s), 0);
  }

  lemma {:induction false} CleanEachEmpty(ps: seq<string>)
    ensures CleanEach(ps) == "" <==> forall i :: 0 <= i < |ps| ==> Cleaned(ps[i]) == ""
  {
    hide Cleaned;
    if ps != [] {
      var init := ps[..|ps| - 1];
      CleanEachEmpty(init);
      assert forall i :: 0 <= i < |ps| - 1 ==> init[i] == ps[i];
    }
  }

  lemma {:induction false} ConcatSettled(ps: seq<string>)
    requires OnLine(ps) && forall k :: 0 <= k < |ps| ==> Settled(ps[k])
    ensures Settled(ConcatAll(ps)) && '\n' !in ConcatAll(ps)
  {
    if ps == [] {
      NoEscSettled("");
    } else {
      ConcatSettled(ps[..|ps| - 1]);
      SettledAppend(ConcatAll(ps[..|ps| - 1]), ps[|ps| - 1]);
      hide Settled;
    }
  }

  lemma SameTail(x: string, y: string, z: string)
    ensures x + z == z <==> x == ""
    ensures x + z == y + z <==> x == y
  {
    if x + z == z { assert |x + z| == |z|; }
    if x + z == y + z {
      assert |x + z| == |y + z|;
      assert (x + z)[..|x|] == x && (y + z)[..|y|] == y;
    }
    if x == "" { assert x + z == z; }
  }

  lemma {:induction false} SameIffQuiet(ps: seq<string>)
    requires OnLine(ps) && CutsOutside(ps)
    ensures CleanEach(ps) == Cleaned(ConcatAll(ps)) <==> Quiet(ps)
  {
    hide Settled;
    if ps == [] {
      NothingCleaned();
    } else {
      var init, p := ps[..|ps| - 1], ps[|ps| - 1];
      assert ps == init + [p];
      SameIffQuiet(init);
      ConcatSettled(init);
      CleanedAppend(ConcatAll(init), p);
      CleanEachEmpty(init);
      ConcatMore(init, p);
      QuietMore(init, p);
      hide CleanEach, Cleaned, ConcatAll, Quiet, HasCr;
      SameTail(CleanEach(init), Cleaned(ConcatAll(init)), Cleaned(p));
    }
  }

  lemma QuietMore(init: seq<string>, p: string)
    ensures Quiet(init + [p]) <==> if HasCr(p) then forall i :: 0 <= i < |init| ==> Cleaned(init[i]) == "" else Quiet(init)
  {
    hide Cleaned, HasCr;
    var ps := init + [p];
    assert ps[|init|] == p;
    assert forall i :: 0 <= i < |init| ==> ps[i] == init[i];
  }

  lemma DropLastCr(x: string, p: string)
    requires p == "" ==> x == "" || x[|x| - 1] != '\r'
    ensures DropCr(x + p) == x + DropCr(p)
  {
    var whole := x + p;
    if p == "" {
      assert whole == x;
    } else {
      assert whole[|whole| - 1] == p[|p| - 1];
      assert whole[..|whole| - 1] == x + p[..|p| - 1];
      assert p == p[..|p| - 1] + [p[|p| - 1]];
    }
  }

  lemma EffectiveText(l: RawLine)
    requires !EndCut(l)
    ensures WholeText(l) == ConcatAll(Effective(l))
  {
    var ps, n := l.pieces, |l.pieces| - 1;
    if l.ended && n >= 0 {
      var init, p := ps[..n], ps[n];
      assert ps == init + [p] && Effective(l) == init + [DropCr(p)];
      ConcatMore(init, p);
      ConcatMore(init, DropCr(p));
      hide ConcatAll;
      DropLastCr(ConcatAll(init), p);
    }
  }

  lemma NothingCleaned()
    ensures Cleaned("") == ""
  {
    StrippedIsPrintable("");
  }

  lemma {:induction false} BlanksAddNothing(ps: seq<string>, j: nat)
    requires j < |ps| && forall k :: j < k < |ps| ==> ps[k] == ""
    ensures ConcatAll(ps) == ConcatAll(ps[..j]) + ps[j] && CleanEach(ps) == CleanEach(ps[..j]) + Cleaned(ps[j])
  {
    var n := |ps| - 1;
    assert ps == ps[..n] + [ps[n]];
    ConcatMore(ps[..n], ps[n]);
    if j < n {
      NothingCleaned();
      hide ConcatAll, CleanEach, Cleaned;
      BlanksAddNothing(ps[..n], j);
      assert ps[..n][..j] == ps[..j];
      assert ConcatAll(ps[..n]) + "" == ConcatAll(ps[..n]) && CleanEach(ps[..n]) + "" == CleanEach(ps[..n]);
    }
  }

  lemma {:induction false} SwapIff(u: string, c: string, v: string)
    ensures u + c == c + v <==> Swaps(u, c, v)
    decreases |c|
  {
    if u + c == c + v { assert |u + c| == |c + v|; }
    if |u| == |v| && u != "" {
      if |u| <= |c| {
        var rest := c[|u|..];
        SwapIff(u, rest, v);
        if u == c[..|u|] {
          assert c == u + rest;
          FrontOff(u, rest, v);
        } else {
          assert (u + c)[..|u|] == u && (c + v)[..|u|] == c[..|u|];
        }
      } else {
        SwapShort(u, c, v);
      }
    } else if u == "" && v == "" {
      assert u + c == c && c + v == c;
    }
  }

  lemma FrontOff(u: string, rest: string, v: string)
    ensures u + (u + rest) == (u + rest) + v <==> u + rest == rest + v
  {
    assert (u + rest) + v == u + (rest + v);
    assert (u + (u + rest))[|u|..] == u + rest && (u + (rest + v))[|u|..] == rest + v;
  }

  lemma AllBefore(ps: seq<string>)
    ensures ps[..|ps|] == ps && CleanEach(ps[|ps|..]) == "" && ConcatAll(ps[|ps|..]) == ""
  {
  }

  lemma EachMore(ps: seq<string>, p: string)
    ensures CleanEach(ps + [p]) == CleanEach(ps) + Cleaned(p)
  {
    assert (ps + [p])[..|ps|] == ps;
    hide Cleaned;
  }

  lemma SwapShort(u: string, c: string, v: string)
    requires |u| == |v| && |c| < |u|
    ensures u + c == c + v <==> u[..|c|] == c && v == u[|c|..] + c
  {
    var x, y := u[..|c|], u[|c|..];
    assert u == x + y;
    assert u + c == x + (y + c);
    assert (x + (y + c))[..|c|] == x && (c + v)[..|c|] == c;
    assert (x + (y + c))[|c|..] == y + c && (c + v)[|c|..] == v;
  }

  lemma {:induction false} CleanEachFrom(ps: seq<string>, m: nat)
    requires m <= |ps|
    ensures CleanEach(ps) == CleanEach(ps[..m]) + CleanEach(ps[m..])
    ensures ConcatAll(ps) == ConcatAll(ps[..m]) + ConcatAll(ps[m..])
    decreases |ps|
  {
    hide Cleaned, CleanEach, ConcatAll;
    if m == |ps| {
      AllBefore(ps);
      assert CleanEach(ps) + "" == CleanEach(ps) && ConcatAll(ps) + "" == ConcatAll(ps);
    } else {
      var init, p := ps[..|ps| - 1], ps[|ps| - 1];
      CleanEachFrom(init, m);
      var front, back := ps[..m], init[m..];
      assert ps == init + [p] && ps[m..] == back + [p] && init[..m] == front;
      EachMore(init, p);
      EachMore(back, p);
      ConcatMore(init, p);
      ConcatMore(back, p);
      assert (CleanEach(front) + CleanEach(back)) + Cleaned(p) == CleanEach(front) + (CleanEach(back) + Cleaned(p));
      assert (ConcatAll(front) + ConcatAll(back)) + p == ConcatAll(front) + (ConcatAll(back) + p);
    }
  }

  lemma BackIsQuiet(ps: seq<string>)
    ensures Quiet(ps[LastCr(ps)..])
  {
    hide Cleaned, HasCr;
    var back := ps[LastCr(ps)..];
    assert forall k :: 1 <= k < |back| ==> back[k] == ps[LastCr(ps) + k];
  }

  lemma {:induction false} BackHasCr(ps: seq<string>)
    requires ps != [] && HasCr(ps[0])
    ensures HasCr(ConcatAll(ps))
  {
    if |ps| > 1 { BackHasCr(ps[..|ps| - 1]); }
  }

  /** From its last carriage return on, a line shows what its pieces show. */
  lemma FromLastCr(ps: seq<string>)
    requires OnLine(ps) && forall k :: 0 <= k < |ps| ==> Settled(ps[k])
    ensures Cleaned(ConcatAll(ps)) == CleanEach(ps[LastCr(ps)..])
  {
    hide Settled, Cleaned, CleanEach, ConcatAll, Quiet, HasCr;
    var m := LastCr(ps);
    var front, back := ps[..m], ps[m..];
    BackIsQuiet(ps);
    SameIffQuiet(back);
    CleanEachFrom(ps, m);
    if m > 0 {
      ConcatSettled(front);
      ConcatSettled(back);
      BackHasCr(back);
      CleanedAppend(ConcatAll(front), ConcatAll(back));
    } else {
      assert back == ps;
    }
  }

  lemma EndKeepsIff(l: RawLine)
    requires OnLine(l.pieces) && CutsOutside(l.pieces) && EndCut(l)
    ensures Chunked(l) == Whole(l) <==> Keeps(l)
  {
    hide Cleaned, ConcatAll, CleanEach, Effective, Settled, WholeText, DropCr, HasCr, Swaps;
    var ps := l.pieces;
    var j := LastPiece(ps);
    var before, q := ps[..j], DropCr(ps[j]);
    EndCutShows(l);
    ConcatSettled(before);
    CleanedAppend(ConcatAll(before), q);
    if HasCr(q) {
      SwapIff(CleanEach(before), "", Cleaned(q));
      AllBefore(before);
      assert CleanEach(before) + "" == CleanEach(before) && "" + Cleaned(q) == Cleaned(q);
    } else {
      var m := LastCr(before);
      CleanEachFrom(before, m);
      FromLastCr(before);
      SwapIff(CleanEach(before[..m]), CleanEach(before[m..]), Cleaned(q));
    }
  }

  /** What a line with its end cut in two shows in pieces, and what it is whole. */
  lemma EndCutShows(l: RawLine)
    requires OnLine(l.pieces) && EndCut(l)
    ensures var ps := l.pieces;
            var j := LastPiece(ps);
            j < |ps| - 1 && Chunked(l) == CleanEach(ps[..j]) && WholeText(l) == ConcatAll(ps[..j]) + DropCr(ps[j]) &&
            '\n' !in DropCr(ps[j])
  {
    hide Cleaned, CleanEach;
    var ps := l.pieces;
    var j := LastPiece(ps);
    var before, p := ps[..j], ps[j];
    BlanksAddNothing(ps, j);
    assert Effective(l) == ps;
    var whole := ConcatAll(ps);
    hide ConcatAll, Effective;
    assert whole[|whole| - 1] == p[|p| - 1];
    NothingAfterCr(p);
    assert CleanEach(before) + "" == CleanEach(before);
    DropLastCr(ConcatAll(before), p);
    assert forall c :: c in DropCr(p) ==> c in p;
  }

  lemma LineKeepsIff(l: RawLine)
    requires OnLine(l.pieces) && CutsOutside(l.pieces)
    ensures Chunked(l) == Whole(l) <==> Keeps(l)
  {
    hide Cleaned, ConcatAll, CleanEach, Quiet, Settled, EndKeeps;
    if EndCut(l) {
      EndKeepsIff(l);
    } else {
      EffectiveText(l);
      EffectiveLine(l);
      SameIffQuiet(Effective(l));
      hide Effective;
    }
  }

  lemma EffectiveLine(l: RawLine)
    requires OnLine(l.pieces) && CutsOutside(l.pieces)
    ensures OnLine(Effective(l)) && CutsOutside(Effective(l))
  {
    hide Settled;
    var n := |l.pieces| - 1;
    if n >= 0 { assert forall c :: c in DropCr(l.pieces[n]) ==> c in l.pieces[n]; }
  }

  lemma {:induction false} SplitLine(s: string)
    ensures OnLine(Split(s))
    ensures NoEsc(s) ==> forall k :: 0 <= k < |Split(s)| ==> NoEsc(Split(s)[k])
  {
    if s != "" { SplitLine(s[..|s| - 1]); }
  }

  ghost predicate AllNoEsc(chunks: seq<string>) { forall k :: 0 <= k < |chunks| ==> NoEsc(chunks[k]) }

  lemma {:induction false} RawLines(chunks: seq<string>)
    ensures forall k :: 0 <= k < |Raw(chunks)| ==> OnLine(Raw(chunks)[k].pieces)
    ensures AllNoEsc(chunks) ==> forall k :: 0 <= k < |Raw(chunks)| ==> AllNoEsc(Raw(chunks)[k].pieces)
  {
    if chunks != [] {
      RawLines(chunks[..|chunks| - 1]);
      SplitLine(chunks[|chunks| - 1]);
      hide Split, NoEsc;
    }
  }

  /** No cut of a line that is kept falls into an escape sequence. */
  ghost predicate CutsOutsideEscapes(chunks: seq<string>, cap: nat) {
    forall k :: 0 <= k < |Raw(chunks)| && |Raw(chunks)| <= k + cap ==> CutsOutside(Raw(chunks)[k].pieces)
  }

  /** With no cut inside an escape sequence, output appended in chunks is what it is appended at
      once exactly when every line that is kept keeps its text over the cuts: no carriage return
      comes in a later piece than something that shows, and no line end is cut in two unless what
      that loses is what it leaves. */
  lemma ChunkingIff(chunks: seq<string>, cap: nat)
    requires chunks != [] && cap >= 1 && CutsOutsideEscapes(chunks, cap)
    ensures AppendAll([], chunks, cap) == Appended([], ConcatAll(chunks), cap) <==>
            forall k :: 0 <= k < |Raw(chunks)| && |Raw(chunks)| <= k + cap ==> Keeps(Raw(chunks)[k])
  {
    SameIffLines(chunks, cap);
    RawLines(chunks);
    hide Raw, AppendAll, Appended, ConcatAll, Keeps, Chunked, Whole, OnLine, CutsOutside;
    var ls := Raw(chunks);
    forall k | 0 <= k < |ls| && |ls| <= k + cap ensures Chunked(ls[k]) == Whole(ls[k]) <==> Keeps(ls[k]) { LineKeepsIff(ls[k]); }
  }

  /** The line that a cut goes through keeps its text: a line end cut in two loses nothing, a carriage
      return after the cut has nothing to replace, and else what comes after the cut shows the same
      from where it leaves an escape sequence that is cut. */
  predicate CutKeeps(before: string, after: string, ended: bool) {
    if ended && after == "" && before != "" && before[|before| - 1] == '\r' then Cleaned(DropCr(before)) == ""
    else
      var more := if ended then DropCr(after) else after;
      if HasCr(more) then Cleaned(before) == ""
      else Says(more, Resume(Inside(AfterCr(before), 0), more)) == Says(more, 0)
  }

  lemma TwoPiecesKeep(a: string, b: string, ended: bool)
    requires '\n' !in a && '\n' !in b
    ensures var l := RawLine([a, b], ended); Chunked(l) == Whole(l) <==> CutKeeps(a, b, ended)
  {
    var l := RawLine([a, b], ended);
    TwoConcat(a, b);
    if ended && b == "" && a != "" && a[|a| - 1] == '\r' {
      assert a + b == a;
      NothingAfterCr(a);
      CleanTwo(a, b);
      assert Effective(l) == [a, b];
    } else {
      var more := if ended then DropCr(b) else b;
      assert !EndCut(l) by { if b == "" { assert a + b == a; } }
      assert Effective(l) == [a, more];
      EffectiveText(l);
      TwoConcat(a, more);
      CleanTwo(a, more);
      CleanedOver(a, more);
      hide Cleaned, HasCr, Says, Resume, Inside, ConcatAll, CleanEach, Effective, WholeText;
      SameTail(Cleaned(a), "", Cleaned(more));
      SameFront(Cleaned(a), Says(more, 0), Says(more, Resume(Inside(AfterCr(a), 0), more)));
    }
  }

  lemma SameFront(x: string, y: string, z: string)
    ensures x + y == x + z <==> y == z
  {
    if x + y == x + z { assert (x + y)[|x|..] == y && (x + z)[|x|..] == z; }
  }

  lemma CleanTwo(a: string, b: string)
    ensures CleanEach([a, b]) == Cleaned(a) + Cleaned(b)
  {
    assert [a, b][..1] == [a] && [a][..0] == [];
    hide Cleaned;
    assert CleanEach([a]) == "" + Cleaned(a) == Cleaned(a);
  }

  lemma OnePieceSame(p: string, ended: bool)
    ensures var l := RawLine([p], ended); Chunked(l) == Whole(l)
  {
    var l, q := RawLine([p], ended), if ended then DropCr(p) else p;
    ConcatOne(p);
    assert Effective(l) == [q];
    assert [q][..0] == [];
    hide Cleaned;
    assert "" + Cleaned(q) == Cleaned(q);
  }

  lemma NothingAfterCr(a: string)
    requires a != "" && a[|a| - 1] == '\r'
    ensures Cleaned(a) == "" && Cleaned("") == ""
  {
    StrippedIsPrintable("");
  }

  /** Whatever the text, cutting it once changes nothing exactly when the line cut is pushed out by
      what follows or keeps its text. */
  lemma OneCutIff(x: string, y: string, cap: nat)
    requires cap >= 1
    ensures var before, more := Split(x)[|Split(x)| - 1], Split(y);
            AppendAll([], [x, y], cap) == Appended([], x + y, cap) <==>
            |more| > cap || CutKeeps(before, more[0], |more| > 1)
  {
    hide Raw, AppendAll, Appended, Chunked, Whole, CutKeeps, Split, ConcatAll;
    var px, py, ls := Split(x), Split(y), Raw([x, y]);
    var n := |px| - 1;
    SameIffLines([x, y], cap);
    TwoConcat(x, y);
    RawTwo(x, y);
    SplitLine(x);
    SplitLine(y);
    TwoPiecesKeep(px[n], py[0], |py| > 1);
    forall k | 0 <= k < |ls| && k != n ensures Chunked(ls[k]) == Whole(ls[k]) { OnePieceSame(ls[k].pieces[0], ls[k].ended); }
  }

  /** A cut outside every escape sequence matters only for carriage returns. */
  lemma CutOutside(before: string, after: string, ended: bool)
    requires Settled(before)
    ensures CutKeeps(before, after, ended) <==>
            if ended && after == "" && before != "" && before[|before| - 1] == '\r' then Cleaned(DropCr(before)) == ""
            else !HasCr(if ended then DropCr(after) else after) || Cleaned(before) == ""
  {
    FromStart(if ended then DropCr(after) else after);
    hide Cleaned, Says, Inside;
  }

  lemma JoinOne(a: string, b: string, cap: nat)
    requires cap >= 1
    ensures Last(Joined([a], [b]), cap) == [a + b]
  {
    assert [a][..0] == [] && [b][1..] == [] && [] + [a + b] + [] == [a + b];
  }

  lemma JoinFirst(a: string, cap: nat)
    requires cap >= 1
    ensures Last(Joined([], [a]), cap) == [a]
  {
  }

  lemma CutShows(a: string, b: string)
    requires IsWord(a) && IsWord(b)
    ensures var x, y := a + [ESC, '['], "1m" + b;
            '\n' !in x && '\n' !in y && Cleaned(x) == a && Cleaned(y) == y && Cleaned(x + y) == a + b
  {
    var x, y := a + [ESC, '['], "1m" + b;
    WordIs(b);
    WordIs(y);
    OpenShows(a);
    NoCrAfter(x);
    RestShows(b);
    hide Split, DropCrLf, Cleaned, Says, Resume, Inside;
    CleanedOver(x, y);
  }

  /** A cut inside one shows what was not to be shown: for all words `a` and `b` a color set between
      them, cut in two, leaves its end in the text. */
  lemma CutInsideEscape(a: string, b: string, cap: nat)
    requires cap >= 1 && IsWord(a) && IsWord(b)
    ensures AppendAll([], [a + [ESC, '['], "1m" + b], cap) == [a + ("1m" + b)]
    ensures Appended([], a + [ESC, '['] + ("1m" + b), cap) == [a + b]
  {
    var x, y := a + [ESC, '['], "1m" + b;
    hide Split, DropCrLf, Cleaned, CleanAll, AppendAll, Says, Resume, Inside, HasCr, IsWord, Joined, Last, NoEsc;
    CutShows(a, b);
    OneLine(x);
    OneLine(y);
    OneLine(x + y);
    AppendMore([], x, cap);
    AppendMore([x], y, cap);
    assert [] + [x] == [x] && [x] + [y] == [x, y];
    JoinOne(a, "1m" + b, cap);
    JoinFirst(Cleaned(x + y), cap);
    JoinFirst(a, cap);
  }

  lemma OpenShows(a: string)
    requires IsWord(a)
    ensures var x := a + [ESC, '[']; '\n' !in x && !HasCr(x) && Cleaned(x) == a && Inside(x, 0) == InCsi
  {
    var e := [ESC, '['];
    var x := a + e;
    WordIs(a);
    GroundWithoutEsc(a, 0);
    InsideOver(a, e, 0);
    assert Inside(e, 0) == InCsi && Says(e, 0) == "";
    NoEscSettled(a);
    assert !HasCr(e) by { assert e[0] != '\r' && e[1] != '\r'; }
    CleanedAppend(a, e);
    CleanedOver("", e);
    assert a + "" == a;
  }

  lemma RestShows(b: string)
    requires IsWord(b)
    ensures var y := "1m" + b; Resume(InCsi, y) == 2 && Says(y, 2) == b
  {
    var y := "1m" + b;
    assert y[0] == '1' && y[1] == 'm';
    assert FinalAt(y, 1) == 1 && FinalAt(y, 0) == 1;
    SaysShift("1m", b, 0);
    SaysPrintable(b, 0);
    PrintableIsKept(b);
    assert b[0..] == b;
  }

  lemma RawNext(chunks: seq<string>, y: string)
    ensures Raw(chunks + [y]) == Extended(Raw(chunks), Split(y))
  {
    assert (chunks + [y])[..|chunks|] == chunks;
    hide Split;
  }

  lemma TwoConcat(x: string, y: string)
    ensures ConcatAll([x, y]) == x + y
  {
    ConcatOne(x);
    ConcatMore([x], y);
    assert [x] + [y] == [x, y];
  }

  lemma RawTwo(x: string, y: string)
    ensures var px, py, ls := Split(x), Split(y), Raw([x, y]);
            var n := |px| - 1;
            |ls| == n + |py| && ls[n] == RawLine([px[n], py[0]], |py| > 1) &&
            forall k :: 0 <= k < |ls| && k != n ==> |ls[k].pieces| == 1 && ls[k] == RawLine([ls[k].pieces[0]], ls[k].ended)
  {
    hide Split, Raw;
    var px, py, r := Split(x), Split(y), Raw([x]);
    RawOne(x);
    RawNext([x], y);
    assert [x] + [y] == [x, y];
    var ls, n := Raw([x, y]), |px| - 1;
    assert r[n].pieces + [py[0]] == [px[n], py[0]];
    forall k | 0 <= k < |ls| && k != n ensures |ls[k].pieces| == 1 && ls[k] == RawLine([ls[k].pieces[0]], ls[k].ended) {
      assert ls[k] == if k < n then r[k] else NewLines(py)[k - n - 1];
    }
  }

  lemma RawOne(x: string)
    ensures var px, ls := Split(x), Raw([x]);
            |ls| == |px| && forall k :: 0 <= k < |px| ==> ls[k] == RawLine([px[k]], k < |px| - 1)
  {
    assert [x][..0] == [];
    hide Split;
    assert Raw([x]) == Extended([RawLine([], false)], Split(x));
    assert [] + [Split(x)[0]] == [Split(x)[0]];
  }

  // ----- texts without carriage returns ----------------------------------------------------

  predicate NoCr(s: string) { !HasCr(s) }

  function PrintAll(lines: seq<string>): seq<string> {
    seq(|lines|, k requires 0 <= k < |lines| => Printable(lines[k]))
  }

  lemma {:induction false} PlainChunk(s: string)
    requires NoCr(s)
    ensures DropCrLf(s) == s
  {
    if |s| >= 2 { PlainChunk(s[1..]); }
  }

  lemma {:induction false} PlainPieces(s: string)
    requires NoCr(s)
    ensures forall k :: 0 <= k < |Split(s)| ==> NoCr(Split(s)[k])
  {
    if s != "" { PlainPieces(s[..|s| - 1]); }
  }

  lemma PlainCleaned(s: string)
    requires NoCr(s) && NoEsc(s) && '\n' !in s
    ensures Cleaned(s) == Printable(s)
  {
    NoCrAfter(s);
    StrippedIsPrintable(s);
  }

  lemma PlainSplit(s: string)
    requires NoCr(s) && NoEsc(s)
    ensures CleanAll(Split(DropCrLf(s))) == PrintAll(Split(s))
  {
    PlainChunk(s);
    PlainPieces(s);
    SplitLine(s);
    hide Split, Cleaned;
    forall k | 0 <= k < |Split(s)| ensures Cleaned(Split(s)[k]) == Printable(Split(s)[k]) { PlainCleaned(Split(s)[k]); }
  }

  ghost predicate AllNoCr(ps: seq<string>) { forall k :: 0 <= k < |ps| ==> NoCr(ps[k]) }

  ghost predicate LinesNoCr(ls: seq<RawLine>) { forall k :: 0 <= k < |ls| ==> AllNoCr(ls[k].pieces) }

  lemma {:induction false} RawNoCr(chunks: seq<string>)
    requires AllNoCr(chunks)
    ensures LinesNoCr(Raw(chunks))
  {
    if chunks != [] {
      var init, y := chunks[..|chunks| - 1], chunks[|chunks| - 1];
      RawNoCr(init);
      PlainPieces(y);
      hide Split, HasCr;
    }
  }

  lemma {:induction false} ConcatNoCr(ps: seq<string>)
    requires AllNoCr(ps)
    ensures NoCr(ConcatAll(ps))
  {
    if ps != [] { ConcatNoCr(ps[..|ps| - 1]); }
  }

  lemma {:induction false} ConcatNoEsc(ps: seq<string>)
    requires AllNoEsc(ps)
    ensures NoEsc(ConcatAll(ps))
  {
    if ps != [] { ConcatNoEsc(ps[..|ps| - 1]); }
  }

  /** For text without carriage returns and escapes, output appended in any chunking is exactly
      the last `cap` lines of the whole text, tabs expanded and other controls dropped. */
  lemma ChunkingDoesNotMatter(chunks: seq<string>, cap: nat)
    requires chunks != [] && cap >= 1 && AllNoCr(chunks) && AllNoEsc(chunks)
    ensures AppendAll([], chunks, cap) == Last(PrintAll(Split(ConcatAll(chunks))), cap)
  {
    RawLines(chunks);
    RawNoCr(chunks);
    ConcatNoCr(chunks);
    ConcatNoEsc(chunks);
    PlainSplit(ConcatAll(chunks));
    hide AppendAll, ConcatAll, Split, DropCrLf, CleanAll, PrintAll, Keeps, Raw, AllNoEsc, CutsOutside;
    var ls := Raw(chunks);
    forall k | 0 <= k < |ls| ensures Keeps(ls[k]) && CutsOutside(ls[k].pieces) { PlainKeeps(ls[k]); }
    ChunkingIff(chunks, cap);
  }

  lemma PlainKeeps(l: RawLine)
    requires AllNoCr(l.pieces) && AllNoEsc(l.pieces)
    ensures Keeps(l) && CutsOutside(l.pieces)
  {
    ConcatNoCr(l.pieces);
    forall k | 0 <= k < |l.pieces| ensures Settled(l.pieces[k]) { NoEscSettled(l.pieces[k]); }
    hide Cleaned, Settled, EndKeeps;
  }

  /** Text of printable characters is kept as it is. */
  lemma {:induction false} PrintableIsKept(s: string)
    requires forall k :: 0 <= k < |s| ==> !IsControl(s[k])
    ensures Printable(s) == s
  {
    if s != "" { PrintableIsKept(s[..|s| - 1]); }
  }

  // ----- the two ways it fails -------------------------------------------------------------

  predicate IsWord(s: string) { forall k :: 0 <= k < |s| ==> !IsControl(s[k]) }

  lemma WordIs(s: string)
    requires IsWord(s)
    ensures NoCr(s) && NoEsc(s) && '\n' !in s && Split(s) == [s] && DropCrLf(s) == s && Cleaned(s) == s
  {
    PlainChunk(s);
    WordSplit(s);
    PlainCleaned(s);
    PrintableIsKept(s);
  }

  lemma {:induction false} WordSplit(s: string)
    requires '\n' !in s
    ensures Split(s) == [s]
  {
    if s != "" {
      WordSplit(s[..|s| - 1]);
      assert s == s[..|s| - 1] + [s[|s| - 1]];
    }
  }

  lemma BarShows(b: string)
    requires IsWord(b)
    ensures Cleaned("\r" + b) == b && Cleaned("\r") == ""
  {
    WordIs(b);
    NothingAfterCr("\r");
    CleanedAppend("\r", b);
  }

  /** A chunk without a newline is one piece. */
  lemma OneLine(x: string)
    requires '\n' !in x
    ensures CleanAll(Split(DropCrLf(x))) == [Cleaned(x)]
  {
    WordSplit(x);
    SplitDrop(x);
    assert Trimmed([x]) == [x];
  }

  lemma AppendMore(chunks: seq<string>, y: string, cap: nat)
    ensures AppendAll([], chunks + [y], cap) == Appended(AppendAll([], chunks, cap), y, cap)
    ensures AppendAll([], [], cap) == []
  {
    assert (chunks + [y])[..|chunks|] == chunks;
    hide Appended;
  }

  lemma TwoShow(x: string, y: string, cap: nat)
    requires cap >= 2 && '\n' !in x
    ensures AppendAll([], [x, y], cap) == Appended([Cleaned(x)], y, cap)
  {
    OneLine(x);
    AppendMore([], x, cap);
    AppendMore([x], y, cap);
    assert [] + [x] == [x] && [x] + [y] == [x, y];
    hide Split, DropCrLf, Cleaned, CleanAll;
  }

  /** A progress bar whose carriage return opens a chunk piles up instead of being replaced, and a
      line whose end is cut in two is lost. */
  lemma ChunkingMattersWithCr(a: string, b: string, cap: nat)
    requires cap >= 2 && IsWord(a) && IsWord(b)
    ensures AppendAll([], [a, "\r" + b], cap) == [a + b] && Appended([], a + ("\r" + b), cap) == [b]
    ensures AppendAll([], [a + "\r", "\n"], cap) == ["", ""] && Appended([], (a + "\r") + "\n", cap) == [a, ""]
  {
    PilesUp(a, b, cap);
    LosesLine(a, cap);
  }

  lemma PilesUp(a: string, b: string, cap: nat)
    requires cap >= 2 && IsWord(a) && IsWord(b)
    ensures AppendAll([], [a, "\r" + b], cap) == [a + b] && Appended([], a + ("\r" + b), cap) == [b]
  {
    var bar := "\r" + b;
    WordIs(a);
    WordIs(b);
    BarShows(b);
    TwoShow(a, bar, cap);
    OneLine(bar);
    NoEscSettled(a);
    CleanedAppend(a, bar);
    OneLine(a + bar);
    hide Split, DropCrLf, Cleaned, CleanAll, AppendAll;
  }

  lemma LosesLine(a: string, cap: nat)
    requires cap >= 2 && IsWord(a)
    ensures AppendAll([], [a + "\r", "\n"], cap) == ["", ""] && Appended([], (a + "\r") + "\n", cap) == [a, ""]
  {
    var left, end := a + "\r", "\n";
    WordIs(a);
    NothingAfterCr(left);
    TwoShow(left, end, cap);
    EndLines(a);
    hide Split, DropCrLf, Cleaned, CleanAll, AppendAll;
    JoinBlank();
  }

  lemma DropCrEnd(a: string)
    ensures DropCr(a + "\r") == a && DropCr("") == ""
  {
    assert (a + "\r")[..|a|] == a;
  }

  /** A line and its end in one chunk. */
  lemma EndLine(left: string)
    requires '\n' !in left
    ensures CleanAll(Split(DropCrLf(left + "\n"))) == [Cleaned(DropCr(left)), Cleaned("")]
  {
    hide Split, DropCrLf, Cleaned, DropCr;
    WordSplit(left);
    SplitSnoc(left, '\n');
    SplitDrop(left + "\n");
    assert left + "\n" == left + ['\n'];
    assert Trimmed([left, ""]) == [DropCr(left), ""];
  }

  lemma JoinBlank()
    ensures Joined([""], ["", ""]) == ["", ""]
  {
    var a: seq<string>, b: seq<string> := [""], ["", ""];
    assert a[..0] == [] && b[1..] == [""] && a[0] + b[0] == "";
    assert [] + [""] + [""] == b;
  }

  lemma EndLines(a: string)
    requires IsWord(a)
    ensures CleanAll(Split(DropCrLf("\n"))) == ["", ""]
    ensures CleanAll(Split(DropCrLf((a + "\r") + "\n"))) == [a, ""]
  {
    hide Split, DropCrLf, Cleaned, DropCr;
    var left := a + "\r";
    WordIs(a);
    assert '\n' !in left;
    EndLine(left);
    EndLine("");
    NothingCleaned();
    assert "" + "\n" == "\n";
    DropCrEnd(a);
  }
}
