/** Line diff of two texts (crates/inline/src/diff.rs).

    `DiffTexts` fills a longest-common-subsequence table bottom-up and walks it greedily,
    as the source does.  Its result is tied to `WithContext(Script(a, b), context)`, and the
    lemmas below say what that means without mentioning the table: the script turns `a` into
    `b`, no script does so with fewer changes, and the context filter loses no change. */
module Diff {
  import opened Nats

  datatype Kind = Context | Add | Del

  datatype DiffLine = DiffLine(lineNo: nat, kind: Kind, text: string)

  /** Above this many table cells the source gives up and shows the new text as added. */
  const TABLE_LIMIT: nat := 16_000_000

  // ----- what a common subsequence is, independently of any table ----------

  /** `c` can be read off `s` by skipping elements. */
  ghost predicate IsSubsequence(c: seq<string>, s: seq<string>) {
    if c == [] then true
    else if s == [] then false
    else if c[0] == s[0] then IsSubsequence(c[1..], s[1..]) || IsSubsequence(c, s[1..])
    else IsSubsequence(c, s[1..])
  }

  ghost predicate IsCommon(c: seq<string>, a: seq<string>, b: seq<string>) {
    IsSubsequence(c, a) && IsSubsequence(c, b)
  }

  // ----- the table's recurrence ------------------------------------------------

  /** What the table holds at (i, j). */
  function Lcs(a: seq<string>, b: seq<string>, i: nat, j: nat): nat
    requires i <= |a| && j <= |b|
    decreases |a| - i + |b| - j
  {
    if i == |a| || j == |b| then 0
    else if a[i] == b[j] then Lcs(a, b, i + 1, j + 1) + 1
    else Max(Lcs(a, b, i + 1, j), Lcs(a, b, i, j + 1))
  }

  /** The greedy walk from (i, j): keep equal lines, else drop from the side that
      leaves the longer common subsequence, removals first on a tie. */
  function ScriptFrom(a: seq<string>, b: seq<string>, i: nat, j: nat): seq<DiffLine>
    requires i <= |a| && j <= |b|
    decreases |a| - i + |b| - j
  {
    if i == |a| && j == |b| then []
    else if i < |a| && j < |b| && a[i] == b[j] then
      [DiffLine(j + 1, Context, b[j])] + ScriptFrom(a, b, i + 1, j + 1)
    else if i < |a| && (j == |b| || Lcs(a, b, i + 1, j) >= Lcs(a, b, i, j + 1)) then
      [DiffLine(i + 1, Del, a[i])] + ScriptFrom(a, b, i + 1, j)
    else
      [DiffLine(j + 1, Add, b[j])] + ScriptFrom(a, b, i, j + 1)
  }

  function Script(a: seq<string>, b: seq<string>): seq<DiffLine> { ScriptFrom(a, b, 0, 0) }

  // ----- reading a script ----------------------------------------------------------

  /** The texts of the lines whose kind is not `dropped`. */
  function Without(dropped: Kind, s: seq<DiffLine>): seq<string> {
    if s == [] then []
    else if s[0].kind == dropped then Without(dropped, s[1..])
    else [s[0].text] + Without(dropped, s[1..])
  }

  function CountKind(k: Kind, s: seq<DiffLine>): nat {
    if s == [] then 0 else (if s[0].kind == k then 1 else 0) + CountKind(k, s[1..])
  }

  /** `s` is an edit script from `a` to `b`: read without additions it is `a`,
      read without removals it is `b`. */
  ghost predicate Transforms(s: seq<DiffLine>, a: seq<string>, b: seq<string>) {
    Without(Add, s) == a && Without(Del, s) == b
  }

  function Changes(s: seq<DiffLine>): nat { CountKind(Add, s) + CountKind(Del, s) }

  /** Number of lines of the script's old (new) side, that is not `dropped`. */
  ghost predicate Numbered(s: seq<DiffLine>, old0: nat, new0: nat) {
    s == [] ||
    match s[0].kind
    case Del => s[0].lineNo == old0 + 1 && Numbered(s[1..], old0 + 1, new0)
    case Add => s[0].lineNo == new0 + 1 && Numbered(s[1..], old0, new0 + 1)
    case Context => s[0].lineNo == new0 + 1 && Numbered(s[1..], old0 + 1, new0 + 1)
  }

  // ----- the context filter --------------------------------------------------------

  function Gap(x: nat, y: nat): nat { if x < y then y - x else x - y }

  /** Line k of the script is shown: it is a change or within `context` lines of one. */
  ghost predicate Shown(s: seq<DiffLine>, k: nat, context: nat)
    requires k < |s|
  {
    s[k].kind != Context || exists c :: 0 <= c < |s| && s[c].kind != Context && Gap(c, k) <= context
  }

  ghost function ShownFrom(s: seq<DiffLine>, k: nat, context: nat): seq<DiffLine>
    requires k <= |s|
    decreases |s| - k
  {
    if k == |s| then []
    else if Shown(s, k, context) then [s[k]] + ShownFrom(s, k + 1, context)
    else ShownFrom(s, k + 1, context)
  }

  ghost function WithContext(s: seq<DiffLine>, context: nat): seq<DiffLine> { ShownFrom(s, 0, context) }

  /** The fallback for inputs too large for the table. */
  function AllAdded(b: seq<string>): seq<DiffLine> {
    seq(|b|, k requires 0 <= k < |b| => DiffLine(k + 1, Add, b[k]))
  }

  ghost function Diff(a: seq<string>, b: seq<string>, context: nat): seq<DiffLine> {
    if |a| * |b| > TABLE_LIMIT then AllAdded(b) else WithContext(Script(a, b), context)
  }

  // ----- the algorithm ----------------------------------------------------------------

  method DiffTexts(a: seq<string>, b: seq<string>, context: nat) returns (out: seq<DiffLine>)
    ensures out == Diff(a, b, context)
  {
    if |a| * |b| > TABLE_LIMIT {
      out := AllAdded(b);
      return;
    }
    var lcs := FillTable(a, b);
    var script := Walk(a, b, lcs);
    out := KeepShown(script, context);
  }

  /** One cell of the table from its neighbours. */
  lemma LcsCell(a: seq<string>, b: seq<string>, r: nat, c: nat)
    requires r <= |a| && c <= |b|
    ensures Lcs(a, b, r, c) ==
            if r == |a| || c == |b| then 0
            else if a[r] == b[c] then Lcs(a, b, r + 1, c + 1) + 1 else Max(Lcs(a, b, r + 1, c), Lcs(a, b, r, c + 1))
  {
  }

  /** The nested loops that fill the table from its bottom right corner. */
  method FillTable(a: seq<string>, b: seq<string>) returns (lcs: array2<nat>)
    ensures IsTable(a, b, lcs)
  {
    hide Lcs;
    var n, m := |a|, |b|;
    forall x | 0 <= x <= n ensures Lcs(a, b, x, m) == 0 { LcsCell(a, b, x, m); }
    forall y | 0 <= y <= m ensures Lcs(a, b, n, y) == 0 { LcsCell(a, b, n, y); }
    lcs := new nat[n + 1, m + 1]((_, _) => 0);
    var r := n;
    while r > 0
      invariant 0 <= r <= n
      invariant forall x, y :: r <= x <= n && 0 <= y <= m ==> lcs[x, y] == Lcs(a, b, x, y)
      invariant forall x :: 0 <= x <= n ==> lcs[x, m] == 0
    {
      r := r - 1;
      var c := m;
      while c > 0
        invariant 0 <= c <= m
        invariant forall x, y :: r < x <= n && 0 <= y <= m ==> lcs[x, y] == Lcs(a, b, x, y)
        invariant forall y :: c <= y <= m ==> lcs[r, y] == Lcs(a, b, r, y)
        invariant forall x :: 0 <= x <= n ==> lcs[x, m] == 0
      {
        c := c - 1;
        LcsCell(a, b, r, c);
        lcs[r, c] := if a[r] == b[c] then lcs[r + 1, c + 1] + 1 else Max(lcs[r + 1, c], lcs[r, c + 1]);
      }
    }
  }

  ghost predicate IsTable(a: seq<string>, b: seq<string>, lcs: array2<nat>)
    reads lcs
  {
    lcs.Length0 == |a| + 1 && lcs.Length1 == |b| + 1 &&
    forall x, y :: 0 <= x <= |a| && 0 <= y <= |b| ==> lcs[x, y] == Lcs(a, b, x, y)
  }

  lemma ScriptStep(a: seq<string>, b: seq<string>, i: nat, j: nat)
    requires i <= |a| && j <= |b| && (i < |a| || j < |b|)
    ensures ScriptFrom(a, b, i, j) ==
            if i < |a| && j < |b| && a[i] == b[j] then [DiffLine(j + 1, Context, b[j])] + ScriptFrom(a, b, i + 1, j + 1)
            else if i < |a| && (j == |b| || Lcs(a, b, i + 1, j) >= Lcs(a, b, i, j + 1)) then
              [DiffLine(i + 1, Del, a[i])] + ScriptFrom(a, b, i + 1, j)
            else [DiffLine(j + 1, Add, b[j])] + ScriptFrom(a, b, i, j + 1)
  {
    hide Lcs;
  }

  lemma ScriptEnds(a: seq<string>, b: seq<string>)
    ensures ScriptFrom(a, b, |a|, |b|) == []
  {
  }

  /** The walk over the table that pushes the edit script. */
  method Walk(a: seq<string>, b: seq<string>, lcs: array2<nat>) returns (script: seq<DiffLine>)
    requires IsTable(a, b, lcs)
    ensures script == Script(a, b)
  {
    hide Lcs, ScriptFrom;
    var n, m := |a|, |b|;
    script := [];
    var i, j := 0, 0;
    ScriptEnds(a, b);
    while i < n || j < m
      invariant 0 <= i <= n && 0 <= j <= m
      invariant script + ScriptFrom(a, b, i, j) == Script(a, b)
      decreases n - i + m - j
    {
      ghost var done := script;
      var d: DiffLine;
      ScriptStep(a, b, i, j);
      if i < n && j < m && a[i] == b[j] {
        d := DiffLine(j + 1, Context, b[j]);
        i, j := i + 1, j + 1;
      } else if i < n && (j == m || lcs[i + 1, j] >= lcs[i, j + 1]) {
        d := DiffLine(i + 1, Del, a[i]);
        i := i + 1;
      } else {
        d := DiffLine(j + 1, Add, b[j]);
        j := j + 1;
      }
      script := script + [d];
      assert done + ([d] + ScriptFrom(a, b, i, j)) == Script(a, b);
      assert script + ScriptFrom(a, b, i, j) == done + ([d] + ScriptFrom(a, b, i, j));
    }
  }

  lemma NearIs(script: seq<DiffLine>, changed: seq<nat>, k: nat, context: nat)
    requires k < |script| && forall c :: c in changed <==> 0 <= c < |script| && script[c].kind != Context
    ensures Shown(script, k, context) <==> script[k].kind != Context || exists q | q in changed :: Gap(q, k) <= context
  {
    hide Gap;
  }

  lemma ShownStep(script: seq<DiffLine>, k: nat, context: nat)
    requires k < |script|
    ensures ShownFrom(script, k, context) ==
            (if Shown(script, k, context) then [script[k]] else []) + ShownFrom(script, k + 1, context)
  {
    hide Shown;
  }

  lemma ShownEnds(script: seq<DiffLine>, context: nat)
    ensures ShownFrom(script, |script|, context) == []
  {
  }

  /** The two filter passes at the end of the source's `diff_texts`. */
  method KeepShown(script: seq<DiffLine>, context: nat) returns (out: seq<DiffLine>)
    ensures out == WithContext(script, context)
  {
    hide Shown, ShownFrom, Gap;
    var changed: seq<nat> := [];
    for k := 0 to |script|
      invariant forall c :: c in changed <==> 0 <= c < k && script[c].kind != Context
    {
      if script[k].kind != Context { changed := changed + [k]; }
    }
    out := [];
    ShownEnds(script, context);
    for k := 0 to |script|
      invariant out + ShownFrom(script, k, context) == WithContext(script, context)
    {
      var near := script[k].kind != Context || exists q | q in changed :: Gap(q, k) <= context;
      NearIs(script, changed, k, context);
      ShownStep(script, k, context);
      assert (out + [script[k]]) + ShownFrom(script, k + 1, context) == out + ([script[k]] + ShownFrom(script, k + 1, context));
      if near { out := out + [script[k]]; }
    }
  }

  // ----- the script turns `a` into `b`, with the right line numbers ---------------------

  lemma NothingReads()
    ensures Without(Add, []) == [] && Without(Del, []) == [] && CountKind(Context, []) == 0
  {
  }

  lemma ConsReads(d: DiffLine, s: seq<DiffLine>)
    ensures Without(Add, [d] + s) == if d.kind == Add then Without(Add, s) else [d.text] + Without(Add, s)
    ensures Without(Del, [d] + s) == if d.kind == Del then Without(Del, s) else [d.text] + Without(Del, s)
    ensures forall k :: CountKind(k, [d] + s) == CountKind(k, s) + if d.kind == k then 1 else 0
  {
    assert ([d] + s)[1..] == s;
  }

  lemma {:induction false} ScriptTransformsFrom(a: seq<string>, b: seq<string>, i: nat, j: nat)
    requires i <= |a| && j <= |b|
    ensures Transforms(ScriptFrom(a, b, i, j), a[i..], b[j..])
    ensures CountKind(Context, ScriptFrom(a, b, i, j)) == Lcs(a, b, i, j)
    decreases |a| - i + |b| - j
  {
    hide ScriptFrom, Lcs, Without, CountKind;
    if i == |a| && j == |b| {
      ScriptEnds(a, b);
      NothingReads();
      LcsCell(a, b, i, j);
      return;
    }
    ScriptStep(a, b, i, j);
    LcsCell(a, b, i, j);
    var s := ScriptFrom(a, b, i, j);
    var x, y := if s[0].kind == Add then i else i + 1, if s[0].kind == Del then j else j + 1;
    ScriptTransformsFrom(a, b, x, y);
    ConsReads(s[0], ScriptFrom(a, b, x, y));
    assert s == [s[0]] + ScriptFrom(a, b, x, y);
    if i < |a| && x == i + 1 { assert a[i..] == [a[i]] + a[x..]; }
    if j < |b| && y == j + 1 { assert b[j..] == [b[j]] + b[y..]; }
    LcsCell(a, b, x, y);
  }

  lemma {:induction false} ScriptIsNumbered(a: seq<string>, b: seq<string>, i: nat, j: nat)
    requires i <= |a| && j <= |b|
    ensures Numbered(ScriptFrom(a, b, i, j), i, j)
    decreases |a| - i + |b| - j
  {
    var s := ScriptFrom(a, b, i, j);
    if s == [] { return; }
    var x, y := if s[0].kind == Add then i else i + 1, if s[0].kind == Del then j else j + 1;
    ScriptIsNumbered(a, b, x, y);
    assert s[1..] == ScriptFrom(a, b, x, y);
  }

  /** Dropping additions gives `a`, dropping removals gives `b`, every line carries its
      position in the text it belongs to. */
  lemma ScriptIsCorrect(a: seq<string>, b: seq<string>)
    ensures Transforms(Script(a, b), a, b)
    ensures Numbered(Script(a, b), 0, 0)
  {
    ScriptTransformsFrom(a, b, 0, 0);
    ScriptIsNumbered(a, b, 0, 0);
  }

  /** What `Numbered` is for: within each side, line numbers strictly increase. */
  lemma {:induction false} NumbersIncrease(s: seq<DiffLine>, old0: nat, new0: nat, p: nat, q: nat)
    requires Numbered(s, old0, new0) && p < q < |s|
    requires s[p].kind == Del <==> s[q].kind == Del
    ensures s[p].lineNo < s[q].lineNo
  {
    var o, n := if s[0].kind == Add then old0 else old0 + 1, if s[0].kind == Del then new0 else new0 + 1;
    if p > 0 {
      NumbersIncrease(s[1..], o, n, p - 1, q - 1);
    } else {
      NumbersAbove(s[1..], o, n, q - 1);
    }
  }

  lemma {:induction false} NumbersAbove(s: seq<DiffLine>, old0: nat, new0: nat, q: nat)
    requires Numbered(s, old0, new0) && q < |s|
    ensures s[q].lineNo > if s[q].kind == Del then old0 else new0
  {
    if q > 0 {
      var o, n := if s[0].kind == Add then old0 else old0 + 1, if s[0].kind == Del then new0 else new0 + 1;
      NumbersAbove(s[1..], o, n, q - 1);
    }
  }

  // ----- the table is the longest common subsequence --------------------------------------

  lemma {:induction false} DropFirst(c: seq<string>, s: seq<string>)
    requires c != [] && IsSubsequence(c, s)
    ensures IsSubsequence(c[1..], s)
    ensures s != [] ==> IsSubsequence(c[1..], s[1..])
    decreases |s|
  {
    if s != [] && IsSubsequence(c, s[1..]) {
      DropFirst(c, s[1..]);
    }
    if s != [] && c[0] == s[0] && IsSubsequence(c[1..], s[1..]) && c[1..] != [] {
      Skip(c[1..], s);
    }
  }

  lemma Skip(c: seq<string>, s: seq<string>)
    requires s != [] && IsSubsequence(c, s[1..])
    ensures IsSubsequence(c, s)
  {
  }

  /** No common subsequence is longer than the table says. */
  lemma {:induction false} LcsIsUpperBound(a: seq<string>, b: seq<string>, i: nat, j: nat, c: seq<string>)
    requires i <= |a| && j <= |b|
    requires IsCommon(c, a[i..], b[j..])
    ensures |c| <= Lcs(a, b, i, j)
    decreases |a| - i + |b| - j
  {
    if i == |a| || j == |b| || c == [] { return; }
    assert a[i..][1..] == a[i + 1..] && b[j..][1..] == b[j + 1..];
    if a[i] == b[j] {
      DropFirst(c, a[i..]);
      DropFirst(c, b[j..]);
      LcsIsUpperBound(a, b, i + 1, j + 1, c[1..]);
    } else if c[0] != a[i] {
      LcsIsUpperBound(a, b, i + 1, j, c);
    } else {
      LcsIsUpperBound(a, b, i, j + 1, c);
    }
  }

  function Unchanged(s: seq<DiffLine>): seq<string> {
    if s == [] then []
    else if s[0].kind == Context then [s[0].text] + Unchanged(s[1..])
    else Unchanged(s[1..])
  }

  /** The unchanged lines of any script are a common subsequence of its two sides. */
  lemma {:induction false} UnchangedIsCommon(s: seq<DiffLine>)
    ensures IsCommon(Unchanged(s), Without(Add, s), Without(Del, s))
    ensures |Unchanged(s)| == CountKind(Context, s)
  {
    if s != [] {
      UnchangedIsCommon(s[1..]);
      var u, x, y, t := Unchanged(s[1..]), Without(Add, s[1..]), Without(Del, s[1..]), s[0].text;
      match s[0].kind
      case Context =>
        assert ([t] + u)[1..] == u && ([t] + x)[1..] == x && ([t] + y)[1..] == y;
      case Add =>
        assert ([t] + y)[1..] == y;
        Skip(u, [t] + y);
      case Del =>
        assert ([t] + x)[1..] == x;
        Skip(u, [t] + x);
    }
  }

  lemma {:induction false} SidesCount(s: seq<DiffLine>)
    ensures |Without(Add, s)| == CountKind(Context, s) + CountKind(Del, s)
    ensures |Without(Del, s)| == CountKind(Context, s) + CountKind(Add, s)
  {
    if s != [] { SidesCount(s[1..]); }
  }

  /** The unchanged lines of the script are a longest common subsequence of the two texts. */
  lemma ScriptKeepsLongest(a: seq<string>, b: seq<string>, c: seq<string>)
    ensures IsCommon(Unchanged(Script(a, b)), a, b)
    ensures IsCommon(c, a, b) ==> |c| <= |Unchanged(Script(a, b))|
  {
    ScriptTransformsFrom(a, b, 0, 0);
    assert a[0..] == a && b[0..] == b;
    UnchangedIsCommon(Script(a, b));
    if IsCommon(c, a, b) {
      LcsIsUpperBound(a, b, 0, 0, c);
    }
  }

  /** No edit script from `a` to `b` has fewer changes than the one the walk produces. */
  lemma ScriptIsMinimal(a: seq<string>, b: seq<string>, other: seq<DiffLine>)
    requires Transforms(other, a, b)
    ensures Changes(Script(a, b)) <= Changes(other)
  {
    ScriptIsCorrect(a, b);
    SidesCount(Script(a, b));
    SidesCount(other);
    UnchangedIsCommon(other);
    UnchangedIsCommon(Script(a, b));
    ScriptKeepsLongest(a, b, Unchanged(other));
  }

  // ----- the context filter loses no change ----------------------------------------------

  ghost function ChangesOnly(s: seq<DiffLine>): seq<DiffLine> {
    if s == [] then []
    else if s[0].kind == Context then ChangesOnly(s[1..])
    else [s[0]] + ChangesOnly(s[1..])
  }

  lemma {:induction false} FilterKeepsChangesFrom(s: seq<DiffLine>, k: nat, context: nat)
    requires k <= |s|
    ensures ChangesOnly(ShownFrom(s, k, context)) == ChangesOnly(s[k..])
    decreases |s| - k
  {
    if k < |s| {
      FilterKeepsChangesFrom(s, k + 1, context);
      assert s[k..][1..] == s[k + 1..];
      var rest := ShownFrom(s, k + 1, context);
      assert ([s[k]] + rest)[1..] == rest;
    }
  }

  /** The filter removes no change and invents none. */
  lemma FilterKeepsChanges(s: seq<DiffLine>, context: nat)
    ensures ChangesOnly(WithContext(s, context)) == ChangesOnly(s)
  {
    FilterKeepsChangesFrom(s, 0, context);
    assert s[0..] == s;
  }

  lemma {:induction false} NoChangesMeansEqual(s: seq<DiffLine>)
    ensures ChangesOnly(s) == [] <==> Changes(s) == 0
    ensures Changes(s) == 0 ==> Without(Add, s) == Without(Del, s)
  {
    if s != [] {
      NoChangesMeansEqual(s[1..]);
    }
  }

  lemma {:induction false} EmptyFrom(s: seq<DiffLine>, k: nat, context: nat)
    requires k <= |s|
    requires forall c :: 0 <= c < |s| ==> s[c].kind == Context
    ensures ShownFrom(s, k, context) == []
    decreases |s| - k
  {
    if k < |s| { EmptyFrom(s, k + 1, context); }
  }

  lemma {:induction false} NoneChanged(s: seq<DiffLine>)
    requires Changes(s) == 0
    ensures forall c :: 0 <= c < |s| ==> s[c].kind == Context
  {
    if s != [] {
      NoneChanged(s[1..]);
      forall c | 0 <= c < |s| ensures s[c].kind == Context {
        if c > 0 { assert s[c] == s[1..][c - 1]; }
      }
    }
  }

  lemma {:induction false} ScriptOfEqual(a: seq<string>, i: nat)
    requires i <= |a|
    ensures Changes(ScriptFrom(a, a, i, i)) == 0
    decreases |a| - i
  {
    if i < |a| {
      ScriptOfEqual(a, i + 1);
      assert ScriptFrom(a, a, i, i)[1..] == ScriptFrom(a, a, i + 1, i + 1);
    }
  }

  /** The shown diff is empty exactly when the two texts are the same lines. */
  lemma EmptyDiffIffEqual(a: seq<string>, b: seq<string>, context: nat)
    ensures WithContext(Script(a, b), context) == [] <==> a == b
  {
    var s := Script(a, b);
    ScriptIsCorrect(a, b);
    FilterKeepsChanges(s, context);
    NoChangesMeansEqual(s);
    if a == b {
      ScriptOfEqual(a, 0);
      NoneChanged(s);
      EmptyFrom(s, 0, context);
    }
  }

  /** With enough context nothing is hidden: if there is any change and the context spans
      the script, the filter is the identity. */
  lemma {:induction false} WideContextShowsAll(s: seq<DiffLine>, k: nat, context: nat, c: nat)
    requires k <= |s| && c < |s| && s[c].kind != Context && context >= |s|
    ensures ShownFrom(s, k, context) == s[k..]
    decreases |s| - k
  {
    if k < |s| {
      WideContextShowsAll(s, k + 1, context, c);
      assert Gap(c, k) <= context;
      assert s[k..] == [s[k]] + s[k + 1..];
    }
  }

  lemma {:induction false} AllAddedReads(s: seq<DiffLine>)
    requires forall k :: 0 <= k < |s| ==> s[k].kind == Add
    ensures Without(Add, s) == []
  {
    if s != [] { AllAddedReads(s[1..]); }
  }

  /** Read as an edit script, the diff of two different texts (with nothing hidden) is one
      exactly when the table was built: past the limit the removals are missing. */
  lemma DiffIsScriptIff(a: seq<string>, b: seq<string>, context: nat)
    requires a != b && context >= |Script(a, b)|
    ensures Transforms(Diff(a, b, context), a, b) <==> |a| * |b| <= 16_000_000
  {
    if |a| * |b| > TABLE_LIMIT {
      AllAddedReads(AllAdded(b));
      assert a != [];
    } else {
      var s := Script(a, b);
      ScriptIsCorrect(a, b);
      NoChangesMeansEqual(s);
      SomeChange(s);
      var c :| 0 <= c < |s| && s[c].kind != Context;
      WideContextShowsAll(s, 0, context, c);
      assert s[0..] == s;
    }
  }

  lemma {:induction false} SomeChange(s: seq<DiffLine>)
    requires Changes(s) > 0
    ensures exists c :: 0 <= c < |s| && s[c].kind != Context
  {
    if s[0].kind == Context {
      SomeChange(s[1..]);
      var c :| 0 <= c < |s[1..]| && s[1..][c].kind != Context;
      assert s[c + 1].kind != Context;
    } else {
      assert 0 < |s|;
    }
  }

  // ----- counting ---------------------------------------------------------------------------

  function CountChanges(s: seq<DiffLine>): (int, int) { (CountKind(Add, s), CountKind(Del, s)) }

  /** The "+a -r" summary counted on what is shown: the sizes of the two texts less what
      they share, whatever the context. */
  lemma SummaryCounts(a: seq<string>, b: seq<string>, context: nat)
    ensures CountChanges(WithContext(Script(a, b), context)) == (|b| - Lcs(a, b, 0, 0), |a| - Lcs(a, b, 0, 0))
  {
    var s := Script(a, b);
    ScriptTransformsFrom(a, b, 0, 0);
    assert a[0..] == a && b[0..] == b;
    SidesCount(s);
    FilterKeepsChanges(s, context);
    CountsOfChanges(s);
    CountsOfChanges(WithContext(s, context));
  }

  lemma {:induction false} CountsOfChanges(s: seq<DiffLine>)
    ensures CountKind(Add, s) == CountKind(Add, ChangesOnly(s))
    ensures CountKind(Del, s) == CountKind(Del, ChangesOnly(s))
  {
    if s != [] {
      CountsOfChanges(s[1..]);
      ConsReads(s[0], ChangesOnly(s[1..]));
    }
  }
}
