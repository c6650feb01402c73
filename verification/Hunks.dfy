/** What a diff shows (crates/inline/src/diff.rs:8-50): which lines the context leaves, what is shown
    of texts too large for the table, and in which order changes come. */
module Hunks {
  import opened Nats
  import opened Diff
  import opened Filters

  /** Line `k` is a change or no further than `context` lines from one. */
  ghost predicate NearChange(s: seq<DiffLine>, k: nat, context: nat)
    requires k < |s|
  {
    s[k].kind != Context || exists c :: 0 <= c < |s| && s[c].kind != Context && c - context <= k <= c + context
  }

  /** Of a script exactly the lines near a change are shown, in order. */
  lemma ContextMeans(s: seq<DiffLine>, context: nat) returns (at: seq<nat>)
    ensures var out := WithContext(s, context);
            |at| == |out| && Rising(at, |s|) && (forall i :: 0 <= i < |out| ==> out[i] == s[at[i]]) &&
            forall k :: 0 <= k < |s| ==> (k in at <==> NearChange(s, k, context))
  {
    at := ShownAt(s, 0, context);
    hide NearChange, Rising;
  }

  /** `at` is where the lines shown from `k` on are. */
  ghost predicate ShowsFrom(s: seq<DiffLine>, k: nat, context: nat, out: seq<DiffLine>, at: seq<nat>) {
    |at| == |out| && Rising(at, |s|) && (forall i :: 0 <= i < |out| ==> at[i] >= k && out[i] == s[at[i]]) &&
    forall j :: k <= j < |s| ==> (j in at <==> NearChange(s, j, context))
  }

  lemma {:induction false} ShownAt(s: seq<DiffLine>, k: nat, context: nat) returns (at: seq<nat>)
    requires k <= |s|
    ensures ShowsFrom(s, k, context, ShownFrom(s, k, context), at)
    decreases |s| - k
  {
    hide Shown;
    if k == |s| {
      at := [];
    } else {
      var rest := ShownFrom(s, k + 1, context);
      at := ShownAt(s, k + 1, context);
      NearIsShown(s, k, context);
      ShownMore(s, k, context, rest, at);
      hide ShowsFrom;
      if Shown(s, k, context) { at := [k] + at; }
    }
  }

  lemma ShownMore(s: seq<DiffLine>, k: nat, context: nat, rest: seq<DiffLine>, at: seq<nat>)
    requires k < |s| && ShowsFrom(s, k + 1, context, rest, at)
    ensures if NearChange(s, k, context) then ShowsFrom(s, k, context, [s[k]] + rest, [k] + at) else ShowsFrom(s, k, context, rest, at)
  {
    hide NearChange;
    var more := [k] + at;
    forall i, j | 0 <= i < j < |more| ensures more[i] < more[j] {}
    forall j | k <= j < |s| ensures j in more <==> j == k || j in at {}
    forall j | k <= j < |s| && j in at ensures j > k {}
  }

  lemma NearIsShown(s: seq<DiffLine>, k: nat, context: nat)
    requires k < |s|
    ensures NearChange(s, k, context) <==> Shown(s, k, context)
  {
    if s[k].kind == Context {
      if NearChange(s, k, context) {
        var c :| 0 <= c < |s| && s[c].kind != Context && c - context <= k <= c + context;
        assert Gap(c, k) <= context;
      }
    }
  }

  /** Of texts with more than sixteen million pairs of lines every new line is shown as added, with its
      number. */
  lemma PastLimitMeans(a: seq<string>, b: seq<string>, context: nat, k: nat)
    requires |a| * |b| > 16_000_000
    ensures var out := Diff.Diff(a, b, context); |out| == |b| && (k < |b| ==> out[k] == DiffLine(k + 1, Add, b[k]))
  {
  }

  lemma {:induction false} LcsFalls(a: seq<string>, b: seq<string>, i: nat, j: nat)
    requires i <= |a| && j <= |b|
    ensures j < |b| ==> Lcs(a, b, i, j) >= Lcs(a, b, i, j + 1)
    ensures i < |a| ==> Lcs(a, b, i, j) <= Lcs(a, b, i + 1, j) + 1
    decreases |a| - i + |b| - j
  {
    if i < |a| { LcsFalls(a, b, i + 1, j); }
    if j < |b| { LcsFalls(a, b, i, j + 1); }
  }

  /** After an addition comes no removal. */
  lemma AddedLast(a: seq<string>, b: seq<string>, i: nat, j: nat)
    requires i <= |a| && j <= |b| && |ScriptFrom(a, b, i, j)| > 1 && ScriptFrom(a, b, i, j)[0].kind == Add
    ensures ScriptFrom(a, b, i, j)[1].kind != Del
  {
    assert ScriptFrom(a, b, i, j)[1] == ScriptFrom(a, b, i, j + 1)[0];
    if i < |a| { LcsFalls(a, b, i + 1, j); }
  }

  /** Among changes that follow each other the removals come first. */
  lemma RemovalsFirst(a: seq<string>, b: seq<string>, k: nat)
    requires k + 1 < |Script(a, b)|
    ensures Script(a, b)[k].kind == Add ==> Script(a, b)[k + 1].kind != Del
  {
    RemovalsFirstFrom(a, b, 0, 0, k);
  }

  lemma {:induction false} RemovalsFirstFrom(a: seq<string>, b: seq<string>, i: nat, j: nat, k: nat)
    requires i <= |a| && j <= |b| && k + 1 < |ScriptFrom(a, b, i, j)|
    ensures var s := ScriptFrom(a, b, i, j); s[k].kind == Add ==> s[k + 1].kind != Del
    decreases k
  {
    var s := ScriptFrom(a, b, i, j);
    if k == 0 {
      if s[0].kind == Add { AddedLast(a, b, i, j); }
    } else {
      var i2, j2 := if s[0].kind == Add then i else i + 1, if s[0].kind == Del then j else j + 1;
      assert s == [s[0]] + ScriptFrom(a, b, i2, j2);
      hide ScriptFrom;
      RemovalsFirstFrom(a, b, i2, j2, k - 1);
    }
  }
}
