/** What keys and frames do to the open prompt, said literally (crates/inline/src/session.rs). */
module Answers {
  import opened Styles
  import opened Prompts
  import opened Filters
  import Nats

  /** The open prompt is gone and the first of the queue, if any, is open. */
  ghost predicate MovesOn(d: Desk, n: Desk) {
    n.form == d.form &&
    if d.queue == [] then n.prompt == None && n.queue == []
    else n.prompt == Some(d.queue[0]) && n.queue == d.queue[1..]
  }

  /** The digit a text starts with, if it names one of `n` options. */
  ghost predicate PicksBy(t: string, n: nat, k: nat) { t != "" && k < n && k < 9 && t[0] == '1' + k as char }

  /** On a confirmation "y" and "Y", a leading 1, and Enter on option 0 say yes; "n" and "N", any other
      leading digit of an option, and Enter on another option say no.  It then gives way to the next
      prompt. */
  lemma ConfirmKeys(d: Desk, key: Key, ranking: seq<nat>, after: seq<nat>, now: int, id: string, k: nat)
    requires !d.form && d.prompt.Some? && d.prompt.value.kind.Confirm? && d.prompt.value.kind.id == id
    ensures var p, r, n := d.prompt.value, Reply(d, key, ranking, now), KeyPressed(d, key, ranking, after, now);
            (key in {Key.Text("y"), Key.Text("Y")} ==> r == Some(Confirmed(id, true))) &&
            (key in {Key.Text("n"), Key.Text("N")} ==> r == Some(Confirmed(id, false))) &&
            (key.Text? && PicksBy(key.text, p.options, k) ==> r == Some(Confirmed(id, k == 0))) &&
            (key.Text? && key.text !in {"y", "Y", "n", "N"} && (forall j: nat :: !PicksBy(key.text, p.options, j)) ==> r == None) &&
            (key.Enter? && p.filter == "" && p.selected < p.options ==> r == Some(Confirmed(id, p.selected == 0))) &&
            (r.Some? ==> MovesOn(d, n))
  {
    var p := d.prompt.value;
    if key.Text? && key.text != "" && '1' <= key.text[0] <= '9' && (key.text[0] - '0') as int <= p.options {
      assert PicksBy(key.text, p.options, (key.text[0] - '0') as int - 1);
    }
    if p.selected < p.options { assert AllOptions(p)[p.selected] == p.selected; }
    EmptyQueue(d);
  }

  lemma EmptyQueue(d: Desk)
    ensures MovesOn(d, ShowQueued(d.(prompt := None)))
  {
  }

  /** On a list Enter sends the value of the option selected, if it is shown, and the leading digit of
      a text that of its option, while typing does not filter.  It then gives way to the next prompt. */
  lemma ListKeys(d: Desk, key: Key, ranking: seq<nat>, after: seq<nat>, now: int, k: nat)
    requires !d.form && d.prompt.Some? && d.prompt.value.kind.Select?
    ensures var p, r, n := d.prompt.value, Reply(d, key, ranking, now), KeyPressed(d, key, ranking, after, now);
            var shown := if p.filter == "" then p.selected < p.options else p.selected in ranking;
            var kind := p.kind;
            (key.Enter? && !shown ==> r == None && n == d) &&
            (key.Enter? && shown && p.selected < |kind.values| ==> r == Some(Selected(kind.id, kind.values[p.selected]))) &&
            (key.Text? && !kind.filterable && PicksBy(key.text, p.options, k) && k < |kind.values| ==>
               r == Some(Selected(kind.id, kind.values[k]))) &&
            (key.Text? && !kind.filterable && (forall j: nat :: !PicksBy(key.text, p.options, j)) ==> r == None && n == d) &&
            (key.Text? && kind.filterable ==> r == None) &&
            (key in {Up, Down, Backspace, Other} ==> r == None) &&
            (r.Some? ==> MovesOn(d, n))
  {
    var p := d.prompt.value;
    if key.Text? && key.text != "" && '1' <= key.text[0] <= '9' && (key.text[0] - '0') as int <= p.options {
      assert PicksBy(key.text, p.options, (key.text[0] - '0') as int - 1);
    }
    if p.selected < p.options { assert AllOptions(p)[p.selected] == p.selected; }
    EmptyQueue(d);
  }

  /** Cancelling a list or a confirmation sends that it was dismissed exactly when it may be cancelled;
      otherwise nothing is sent and it stays open, a list from now on filtered by typing. */
  lemma CancelIff(d: Desk, ranking: seq<nat>, after: seq<nat>, now: int)
    requires !d.form && d.prompt.Some? && !d.prompt.value.kind.Permission?
    ensures var p, r, n := d.prompt.value, Reply(d, Cancel, ranking, now), KeyPressed(d, Cancel, ranking, after, now);
            if p.kind.allowCancel then r == Some(Dismissed(p.kind.id)) && MovesOn(d, n)
            else r == None && n == d.(prompt := Some(if p.kind.Select? then p.(kind := p.kind.(filterable := true)) else p))
  {
    EmptyQueue(d);
  }

  /** An armed permission answered moves on; cancelled, it takes every queued permission with it. */
  lemma PermissionMovesOn(d: Desk, key: Key, ranking: seq<nat>, after: seq<nat>, now: int)
    requires !d.form && d.prompt.Some? && d.prompt.value.kind.Permission? && Reply(d, key, ranking, now).Some?
    ensures var n := KeyPressed(d, key, ranking, after, now);
            if key.Cancel? then MovesOn(d.(queue := NoPermissions(d.queue)), n) else MovesOn(d, n)
  {
    KeyDecides(d, key, ranking, after, now);
    EmptyQueue(d);
    EmptyQueue(d.(queue := NoPermissions(d.queue)));
    NoneIn(d.queue);
    hide NoPermissions, MovesOn, ShowQueued, Edited;
  }

  /** Filtering twice is filtering once. */
  lemma {:induction false} NoneIn(q: seq<Prompt>)
    ensures NoPermissions(NoPermissions(q)) == NoPermissions(q)
  {
    if q != [] {
      var init := NoPermissions(q[..|q| - 1]);
      NoneIn(q[..|q| - 1]);
      assert (init + [q[|q| - 1]])[..|init|] == init;
    }
  }

  /** The prompts that stay when a turn ends are all but the permissions, in their order. */
  lemma {:induction false} StayingPrompts(q: seq<Prompt>) returns (at: seq<nat>)
    ensures IsFilter(q, NoPermissions(q), (p: Prompt) => !p.kind.Permission?, at)
  {
    hide IsFilter;
    var keep := (p: Prompt) => !p.kind.Permission?;
    if q == [] {
      FilterNone(keep);
      at := [];
    } else {
      var init, p := q[..|q| - 1], q[|q| - 1];
      at := StayingPrompts(init);
      FilterLast(init, NoPermissions(init), keep, at, p);
      assert init + [p] == q;
      at := if p.kind.Permission? then at else at + [|init|];
    }
  }

  /** When a turn ends the open prompt stays unless it is a permission, and permissions leave the queue. */
  lemma SettledDesk(d: Desk)
    ensures if d.prompt.Some? && !d.prompt.value.kind.Permission?
            then Settle(d) == d.(queue := NoPermissions(d.queue))
            else MovesOn(d.(queue := NoPermissions(d.queue)), Settle(d))
  {
    EmptyQueue(d.(queue := NoPermissions(d.queue)));
  }

  /** The place of the selected option among those shown; 0 if it is not. */
  ghost predicate SelectedAt(v: seq<nat>, x: nat, i: nat) {
    i < |v| && if x in v then v[i] == x && x !in v[..i] else i == 0
  }

  lemma {:induction false} IndexIs(v: seq<nat>, x: nat)
    requires v != []
    ensures SelectedAt(v, x, IndexOf(v, x))
  {
    if x in v && v[0] != x {
      IndexIs(v[1..], x);
      assert v == [v[0]] + v[1..];
      var i := IndexOf(v[1..], x);
      assert v[..i + 1] == [v[0]] + v[1..][..i];
    }
  }

  lemma SelectedOnce(v: seq<nat>, x: nat, i: nat, j: nat)
    requires SelectedAt(v, x, i) && SelectedAt(v, x, j)
    ensures i == j
  {
    assert forall k :: 0 <= k < i ==> v[..i][k] == v[k];
    assert forall k :: 0 <= k < j ==> v[..j][k] == v[k];
  }

  /** On an armed prompt up and down select the option shown before or after, around the ends. */
  lemma ArrowsSelect(d: Desk, up: bool, ranking: seq<nat>, after: seq<nat>, now: int, i: nat)
    requires !d.form && d.prompt.Some? && Armed(d.prompt.value, now)
    requires var p := d.prompt.value;
             var v := if p.filter == "" then seq(p.options, k => k) else ranking;
             v != [] ==> SelectedAt(v, p.selected, i)
    ensures var p, n := d.prompt.value, KeyPressed(d, if up then Up else Down, ranking, after, now);
            var v: seq<nat> := if p.filter == "" then seq(p.options, k => k) else ranking;
            if v == [] then n == d
            else n == d.(prompt := Some(p.(selected := v[if up then (if i == 0 then |v| - 1 else i - 1)
                                                              else (if i + 1 == |v| then 0 else i + 1)])))
  {
    var p := d.prompt.value;
    var v: seq<nat> := if p.filter == "" then seq(p.options, k => k) else ranking;
    assert VisibleOf(p, ranking) == v;
    if v != [] {
      IndexIs(v, p.selected);
      SelectedOnce(v, p.selected, i, IndexOf(v, p.selected));
      Around(i, |v|);
    }
  }

  lemma Around(i: nat, n: nat)
    requires i < n
    ensures (i + n - 1) % n == (if i == 0 then n - 1 else i - 1) && (i + n + 1) % n == (if i + 1 == n then 0 else i + 1)
  {
    if i > 0 { Nats.OneRound(i - 1, n); }
    if i + 1 == n { Nats.Remainder(n + n, 2, n); } else { Nats.OneRound(i + 1, n); }
  }

  /** A list filtered by typing takes the text and selects the first option it leaves; Backspace takes
      back a character. */
  lemma TypingFilters(d: Desk, t: string, ranking: seq<nat>, after: seq<nat>, now: int)
    requires !d.form && d.prompt.Some? && d.prompt.value.kind.Select? && d.prompt.value.kind.filterable
    ensures var p, n := d.prompt.value, KeyPressed(d, Key.Text(t), ranking, after, now);
            var left: seq<nat> := if p.filter + t == "" then seq(p.options, k => k) else after;
            n == d.(prompt := Some(p.(filter := p.filter + t, selected := if left != [] then left[0] else p.selected)))
    ensures var p, n := d.prompt.value, KeyPressed(d, Backspace, ranking, after, now);
            n == d.(prompt := Some(p.(filter := if p.filter == "" then "" else p.filter[..|p.filter| - 1])))
  {
    var q := d.prompt.value.(filter := d.prompt.value.filter + t);
    assert VisibleOf(q, after) == if q.filter == "" then seq(q.options, k => k) else after;
  }

  /** The first frame drawn with the prompt and no form is when it was shown; a permission reacts to
      keys 400 ms later, any other prompt at once. */
  lemma FramesArm(d: Desk, now: int, later: int)
    requires d.prompt.Some?
    ensures var n := FrameDrawn(d, now);
            n == (if !d.form && d.prompt.value.shownAt.None? then d.(prompt := Some(d.prompt.value.(shownAt := Some(now)))) else d)
    ensures !d.form && d.prompt.value.kind.Permission? && d.prompt.value.shownAt.None? ==>
              (Armed(FrameDrawn(d, now).prompt.value, later) <==> later >= now + 400)
    ensures !d.prompt.value.kind.Permission? ==> Armed(d.prompt.value, later)
  {
  }

  /** A prompt asked for while another is open waits at the end of the queue when either is a
      permission. */
  lemma AskedPromptWaits(d: Desk, p: Prompt)
    ensures var n := Open(d, p);
            n.form == d.form &&
            if d.prompt.Some? && (d.prompt.value.kind.Permission? || p.kind.Permission?)
            then n.prompt == d.prompt && |n.queue| == |d.queue| + 1 && n.queue[..|d.queue|] == d.queue && n.queue[|d.queue|] == p
            else n.prompt == Some(p) && n.queue == d.queue
  {
  }
}
