/** What the host's reports do to the items and keys to the browser over them
    (crates/inline/src/activity.rs), said item by item and key by key. */
module Browsing {
  import opened Styles
  import opened Activity
  import opened Filters
  import Nats
  import Output

  // ----- reports -----------------------------------------------------------------------------

  /** Item `k` is the one the id names. */
  ghost predicate Names(items: seq<Item>, id: string, k: nat) {
    k < |items| && items[k].id == id && forall j :: 0 <= j < k ==> items[j].id != id
  }

  ghost predicate Unknown(items: seq<Item>, id: string) { forall j :: 0 <= j < |items| ==> items[j].id != id }

  /** Given fields replace the old values and absent ones keep them; an empty summary is none, and
      progress stays between 0 and 1. */
  ghost predicate DetailsFollow(d: Details, n: Details, u: Update) {
    n.summary == (if u.summary == None then d.summary
                  else if u.summary == Some(None) || u.summary == Some(Some("")) then None
                  else Some(u.summary.value.value)) &&
    (u.progress == None ==> n.progress == d.progress) &&
    (u.progress == Some(None) ==> n.progress == None) &&
    (u.progress.Some? && u.progress.value.Some? ==>
       var p := u.progress.value.value;
       n.progress == Some(if p <= 0.0 then 0.0 else if p >= 1.0 then 1.0 else p)) &&
    n.startedAt == (if u.startedAt == None then d.startedAt else u.startedAt) &&
    n.updatedAt == (if u.updatedAt == None then d.updatedAt else u.updatedAt) &&
    n.steps == (if u.steps == None then d.steps else u.steps.value)
  }

  /** The output stays; a stop asked for is forgotten once another status is given. */
  ghost predicate ItemFollows(i: Item, n: Item, u: Update) {
    n.id == i.id && n.log == i.log && DetailsFollow(i.details, n.details, u) &&
    n.kind == (if u.kind == None then i.kind else u.kind.value) &&
    n.title == (if u.title == None then i.title else u.title.value) &&
    n.status == (if u.status == None then i.status else u.status.value) &&
    n.stoppable == (if u.stoppable == None then i.stoppable else u.stoppable.value) &&
    n.stopRequested == (i.stopRequested && (u.status == None || u.status.value == i.status))
  }

  lemma FoundIs(items: seq<Item>, id: string)
    ensures var p := Position(items, id); if p.Some? then Names(items, id, p.value) else Unknown(items, id)
  {
    if items != [] && items[0].id != id { FoundIs(items[1..], id); }
  }

  /** A report changes the item it names alone; an unknown one becomes the last, as a running job under
      its id but for what the report says. */
  lemma ReportMeans(items: seq<Item>, u: Update, k: nat)
    requires u.id.Some?
    ensures var n := Upserted(items, u);
            (Names(items, u.id.value, k) ==> |n| == |items| && n == items[k := n[k]] && ItemFollows(items[k], n[k], u)) &&
            (Unknown(items, u.id.value) ==>
               |n| == |items| + 1 && n[..|items|] == items &&
               var id := u.id.value;
               ItemFollows(Item(id, Job, id, Running, false, [], false, Details(None, None, None, None, [])), n[|items|], u))
    ensures Upserted(items, u.(id := None)) == items
  {
    FoundIs(items, u.id.value);
  }

  ghost predicate IsActive(s: Status) { s in {Running, Waiting, NeedsAttention} }

  /** What of a report is told: that an active item is new, if new ones are told; that an active one is
      done, failed or stopped; that one needs attention that did not. */
  lemma ChangeMeans(items: seq<Item>, u: Update, announceNew: bool, k: nat)
    requires u.id.Some?
    ensures var c, now := ChangeOf(items, u, announceNew), u.status;
            (Unknown(items, u.id.value) ==>
               c == if announceNew && (now == None || IsActive(now.value)) then Some(Started) else None) &&
            (Names(items, u.id.value, k) ==>
               var was := items[k].status;
               var s := if now == None then was else now.value;
               c == if IsActive(was) && s == Done then Some(Finished)
                    else if IsActive(was) && s == Failed then Some(Failing)
                    else if IsActive(was) && s == Stopped then Some(Stopping)
                    else if was != NeedsAttention && s == NeedsAttention then Some(Attention)
                    else None)
    ensures ChangeOf(items, u.(id := None), announceNew) == None
  {
    var id := u.id.value;
    FoundIs(items, id);
    FoundIs(Upserted(items, u), id);
    ReportMeans(items, u, k);
    if Unknown(items, id) {
      Found(Upserted(items, u), id, |items|);
    } else if Names(items, id, k) {
      Found(items, id, k);
      Found(Upserted(items, u), id, k);
    }
  }

  lemma Found(items: seq<Item>, id: string, k: nat)
    requires Names(items, id, k)
    ensures Get(items, id) == Some(items[k]) && Position(items, id) == Some(k)
  {
    FoundIs(items, id);
  }

  /** Output goes to the item it names; it is kept as Output.dfy says. */
  lemma LogMeans(items: seq<Item>, id: string, chunk: string, k: nat)
    ensures Unknown(items, id) ==> Logged(items, id, chunk) == items
    ensures Names(items, id, k) ==>
              Logged(items, id, chunk) == items[k := items[k].(log := Output.Appended(items[k].log, chunk, 2000))]
  {
    FoundIs(items, id);
    if Names(items, id, k) { Found(items, id, k); }
    hide Output.Appended;
  }

  /** An item removed is gone, and no other. */
  lemma {:induction false} RemovedIs(items: seq<Item>, id: string) returns (at: seq<nat>)
    ensures IsFilter(items, Without(items, id), (i: Item) => i.id != id, at)
  {
    hide IsFilter;
    var keep := (i: Item) => i.id != id;
    if items == [] {
      FilterNone(keep);
      at := [];
    } else {
      var init, i := items[..|items| - 1], items[|items| - 1];
      at := RemovedIs(init, id);
      FilterLast(init, Without(init, id), keep, at, i);
      assert init + [i] == items;
      at := if keep(i) then at + [|init|] else at;
    }
  }

  /** Some report of a snapshot is of the item. */
  ghost predicate Reports(us: seq<Update>, i: Item) { exists k :: 0 <= k < |us| && us[k].id == Some(i.id) }

  lemma {:induction false} RetainedIs(items: seq<Item>, us: seq<Update>) returns (at: seq<nat>)
    ensures IsFilter(items, Retained(items, IdsOf(us)), (i: Item) => Reports(us, i), at)
  {
    hide IsFilter;
    var keep := (i: Item) => Reports(us, i);
    if items == [] {
      FilterNone(keep);
      at := [];
    } else {
      var init, i := items[..|items| - 1], items[|items| - 1];
      at := RetainedIs(init, us);
      FilterLast(init, Retained(init, IdsOf(us)), keep, at, i);
      assert init + [i] == items;
      assert i.id in IdsOf(us) <==> Reports(us, i);
      at := if keep(i) then at + [|init|] else at;
    }
  }

  /** A snapshot drops exactly the items it does not report, and then is a report after the other. */
  lemma {:induction false} SnapshotMeans(items: seq<Item>, us: seq<Update>) returns (kept: seq<Item>, at: seq<nat>, after: seq<seq<Item>>)
    ensures IsFilter(items, kept, (i: Item) => Reports(us, i), at)
    ensures |after| == |us| + 1 && after[0] == kept && after[|us|] == UpsertAll(Retained(items, IdsOf(us)), us)
    ensures forall k :: 0 <= k < |us| ==> after[k + 1] == Upserted(after[k], us[k])
  {
    at := RetainedIs(items, us);
    kept := Retained(items, IdsOf(us));
    hide IsFilter, Retained, Upserted;
    after := InTurn(kept, us);
  }

  lemma {:induction false} InTurn(kept: seq<Item>, us: seq<Update>) returns (after: seq<seq<Item>>)
    ensures |after| == |us| + 1 && after[0] == kept && after[|us|] == UpsertAll(kept, us)
    ensures forall k :: 0 <= k < |us| ==> after[k + 1] == Upserted(after[k], us[k])
  {
    if us == [] {
      after := [kept];
    } else {
      var n := |us| - 1;
      after := InTurn(kept, us[..n]);
      after := after + [UpsertAll(kept, us)];
    }
  }

  /** Details or a confirmation of an item that is gone give way to the list, which the host is told. */
  lemma FixedMeans(s: State)
    ensures var gone := s.view.Some? && !s.view.value.List? && Unknown(s.items, s.view.value.id);
            Fixed(s) == if gone then s.(view := Some(List(0)), sent := s.sent + [ViewChanged(Listed)]) else s
  {
    if s.view.Some? && !s.view.value.List? { FoundIs(s.items, s.view.value.id); }
  }

  /** The browser opens with the list, which the host is told, unless it is open. */
  lemma OpenedMeans(s: State)
    ensures Step(s, BrowserOpened) ==
            if s.view == None then State(s.items, Some(List(0)), s.sent + [ViewChanged(Listed)]) else s
  {
  }

  // ----- the order of the list -----------------------------------------------------------------

  /** Agents go before jobs; of a kind, those that need attention, then others that are active. */
  ghost predicate GoesBefore(a: Item, b: Item) {
    (a.kind == Agent && b.kind == Job) ||
    (a.kind == b.kind &&
     ((a.status == NeedsAttention && b.status != NeedsAttention) ||
      (a.status in {Running, Waiting} && b.status in {Done, Failed, Stopped})))
  }

  /** The list shows each item once, at `at` where each is; two of which neither goes before the other
      stay in their order. */
  ghost predicate IsListOf(items: seq<Item>, shown: seq<Item>, at: seq<nat>) {
    |shown| == |at| == |items| && (forall k :: 0 <= k < |items| ==> k in at) &&
    (forall i :: 0 <= i < |at| ==> at[i] < |items| && shown[i] == items[at[i]]) &&
    forall i, j :: 0 <= i < j < |at| ==>
      GoesBefore(shown[i], shown[j]) || (!GoesBefore(shown[j], shown[i]) && at[i] < at[j])
  }

  lemma RankIs(a: Item, b: Item)
    ensures GoesBefore(a, b) <==> Rank(a) < Rank(b)
  {
  }

  lemma {:induction false} OfRankKeeps(items: seq<Item>, rank: nat) returns (at: seq<nat>)
    ensures IsFilter(items, OfRank(items, rank), (i: Item) => Rank(i) == rank, at)
  {
    hide IsFilter, Rank;
    var keep := (i: Item) => Rank(i) == rank;
    if items == [] {
      FilterNone(keep);
      at := [];
    } else {
      var init, i := items[..|items| - 1], items[|items| - 1];
      at := OfRankKeeps(init, rank);
      FilterLast(init, OfRank(init, rank), keep, at, i);
      assert init + [i] == items;
      at := if keep(i) then at + [|init|] else at;
    }
  }

  /** The items of rank up to `r`, sorted. */
  ghost predicate SortedTo(items: seq<Item>, shown: seq<Item>, at: seq<nat>, r: int) {
    |shown| == |at| && (forall k :: 0 <= k < |items| && Rank(items[k]) <= r ==> k in at) &&
    (forall i :: 0 <= i < |at| ==> at[i] < |items| && shown[i] == items[at[i]] && Rank(shown[i]) <= r) &&
    forall i, j :: 0 <= i < j < |at| ==> Rank(shown[i]) < Rank(shown[j]) || (Rank(shown[i]) == Rank(shown[j]) && at[i] < at[j])
  }

  lemma SortMore(items: seq<Item>, shown: seq<Item>, at: seq<nat>, r: int) returns (at2: seq<nat>)
    requires r >= -1 && SortedTo(items, shown, at, r)
    ensures SortedTo(items, shown + OfRank(items, r + 1), at2, r + 1)
  {
    hide Rank, OfRank, SortedTo, IsFilter;
    var at1 := OfRankKeeps(items, r + 1);
    at2 := at + at1;
    SortBehind(items, shown, at, r, OfRank(items, r + 1), at1);
  }

  lemma SortBehind(items: seq<Item>, shown: seq<Item>, at: seq<nat>, r: int, more: seq<Item>, at1: seq<nat>)
    requires SortedTo(items, shown, at, r) && IsFilter(items, more, (i: Item) => Rank(i) == r + 1, at1)
    ensures SortedTo(items, shown + more, at + at1, r + 1)
  {
    hide Rank;
    var all, at2 := shown + more, at + at1;
    forall k | 0 <= k < |items| && Rank(items[k]) <= r + 1 ensures k in at2 {
      assert Rank(items[k]) == r + 1 ==> k in at1;
    }
    forall i | 0 <= i < |at2|
      ensures at2[i] < |items| && all[i] == items[at2[i]] && (if i < |at| then Rank(all[i]) <= r else Rank(all[i]) == r + 1)
    {
      if i >= |at| { assert all[i] == more[i - |at|] && at2[i] == at1[i - |at|]; }
    }
    forall i, j | 0 <= i < j < |at2| ensures Rank(all[i]) < Rank(all[j]) || (Rank(all[i]) == Rank(all[j]) && at2[i] < at2[j]) {
      if i >= |at| { assert at1[i - |at|] < at1[j - |at|]; }
    }
  }

  lemma DistinctAt(items: seq<Item>, shown: seq<Item>, at: seq<nat>)
    requires SortedTo(items, shown, at, 5) && |shown| == |items|
    ensures IsListOf(items, shown, at)
  {
    forall k | 0 <= k < |items| ensures k in at { OneRank(items[k]); }
    forall i, j | 0 <= i < j < |at|
      ensures GoesBefore(shown[i], shown[j]) || (!GoesBefore(shown[j], shown[i]) && at[i] < at[j])
    {
      RankIs(shown[i], shown[j]);
      RankIs(shown[j], shown[i]);
    }
  }

  lemma ListOrder(items: seq<Item>) returns (at: seq<nat>)
    ensures IsListOf(items, Ordered(items), at)
  {
    OrderedIsSorted(items);
    assert |Ordered(items)| == |multiset(Ordered(items))| == |multiset(items)| == |items|;
    hide OfRank, SortedTo;
    assert [] + OfRank(items, 0) == OfRank(items, 0);
    NothingSorted(items);
    at := SortMore(items, [], [], -1);
    at := SortMore(items, OfRank(items, 0), at, 0);
    at := SortMore(items, OfRank(items, 0) + OfRank(items, 1), at, 1);
    at := SortMore(items, OfRank(items, 0) + OfRank(items, 1) + OfRank(items, 2), at, 2);
    at := SortMore(items, OfRank(items, 0) + OfRank(items, 1) + OfRank(items, 2) + OfRank(items, 3), at, 3);
    at := SortMore(items, OfRank(items, 0) + OfRank(items, 1) + OfRank(items, 2) + OfRank(items, 3) + OfRank(items, 4), at, 4);
    DistinctAt(items, Ordered(items), at);
  }

  lemma NothingSorted(items: seq<Item>)
    ensures SortedTo(items, [], [], -1)
  {
  }

  // ----- keys ------------------------------------------------------------------------------------

  /** On the list: the arrows go round it, Enter shows the item, "s" and "x" ask whether to stop one
      that can be; Escape, Ctrl-C and Ctrl-B close it; no other key does anything. */
  lemma ListKeys(items: seq<Item>, sel: nat, key: Key, page: nat)
    ensures var shown, r := Ordered(items), ViewKey(items, List(sel), key, page);
            var n := |shown|;
            var at := if sel < n then sel else if n > 0 then n - 1 else 0;
            if key in {Esc, CtrlC, CtrlB} then r == (List(sel), [Tell(Closed), Close])
            else if n == 0 then r == (List(sel), [])
            else if key == Up then r == (List(if at == 0 then n - 1 else at - 1), [])
            else if key in {Down, Tab} then r == (List(if at == n - 1 then 0 else at + 1), [])
            else if key in {Enter, Right} then r == (Detail(shown[at].id, at, 0, true), [Tell(Detailed(shown[at].id))])
            else if key in {Text("s"), Text("x")} && shown[at].stoppable && IsActive(shown[at].status) then
              r == (Confirm(shown[at].id, at, false), [])
            else r == (List(sel), [])
  {
    hide Ordered;
    var n := |Ordered(items)|;
    if n > 0 {
      var at := if sel < n then sel else n - 1;
      RoundTo(at, n);
    }
  }

  lemma RoundTo(at: nat, n: nat)
    requires at < n
    ensures (at + n - 1) % n == if at == 0 then n - 1 else at - 1
    ensures (at + 1) % n == if at == n - 1 then 0 else at + 1
  {
    if at > 0 { Nats.OneRound(at - 1, n); }
  }

  /** How far up from its end the output of an item is shown. */
  function ScrollOf(v: View): nat
    requires v.Detail?
  {
    if v.follow then 0 else v.scroll
  }

  /** The view scrolled by a number of lines, up or down, no further than the first line is on top. */
  ghost predicate ScrollsBy(v: View, w: View, up: int, top: nat)
    requires v.Detail?
  {
    w.Detail? && w.id == v.id && w.backSel == v.backSel &&
    var to := ScrollOf(v) + up;
    w.scroll == (if to <= 0 then 0 else if to >= top then top else to) && (w.follow <==> to <= 0)
  }

  /** In the details of an item: Escape, Left and Backspace go back to the list, Ctrl-C and Ctrl-B
      close it, the other keys scroll its output by a line, a page or all the way, and "s" and "x" ask
      whether to stop it if it can be. */
  lemma DetailKeys(items: seq<Item>, v: View, key: Key, page: nat, k: nat)
    requires v.Detail? && Names(items, v.id, k)
    ensures var (w, os) := ViewKey(items, v, key, page);
            var lines, rows := |items[k].log|, if page == 0 then 1 else page;
            var top: nat := if rows < lines then lines - rows else 0;
            if key in {Esc, Left, Backspace} then w == List(v.backSel) && os == [Tell(Listed)]
            else if key in {CtrlC, CtrlB} then w == v && os == [Tell(Closed), Close]
            else
              os == [] &&
              if key == Up then ScrollsBy(v, w, 1, top)
              else if key == Down then ScrollsBy(v, w, -1, top)
              else if key == PageUp then ScrollsBy(v, w, rows, top)
              else if key == PageDown then ScrollsBy(v, w, -rows, top)
              else if key == Home then w == v.(scroll := top, follow := top == 0)
              else if key == End then w == v.(scroll := 0, follow := true)
              else if key in {Text("s"), Text("x")} && items[k].stoppable && IsActive(items[k].status) then w == Confirm(v.id, v.backSel, true)
              else w == v
  {
    Found(items, v.id, k);
    hide Get;
  }

  /** A confirmation: "y", "Y" and Enter stop the item, "n", "N", Escape and Ctrl-C do not; either way it
      gives way to what was under it.  No other key does anything. */
  lemma ConfirmKeys(items: seq<Item>, v: View, key: Key, page: nat)
    requires v.Confirm?
    ensures var r := ViewKey(items, v, key, page);
            var under := if v.detail then Detail(v.id, v.backSel, 0, true) else List(v.backSel);
            r == if key in {Text("y"), Text("Y"), Enter} then (under, [Outcome.Stop(v.id)])
                 else if key in {Text("n"), Text("N"), Esc, CtrlC} then (under, [])
                 else (v, [])
  {
  }

  /** What a key leads to is done: the host is told a view, or to stop an item, which is marked; or the
      browser closes. */
  lemma PressMeans(s: State, key: Key, page: nat, k: nat)
    ensures s.view == None ==> Step(s, KeyPressed(key, page)) == s
    ensures s.view.Some? ==>
              var (v, os) := ViewKey(s.items, s.view.value, key, page);
              var n, a := Step(s, KeyPressed(key, page)), s.(view := Some(v));
              (os == [] ==> n == a) &&
              (os == [Tell(Closed), Close] ==> n == a.(view := None, sent := s.sent + [ViewChanged(Closed)])) &&
              (|os| == 1 && os[0].Tell? ==> n == a.(sent := s.sent + [ViewChanged(os[0].shown)])) &&
              (|os| == 1 && os[0].Stop? ==>
                 n.view == a.view && n.sent == s.sent + [StopRequested(os[0].id)] &&
                 (Names(s.items, os[0].id, k) ==> n.items == s.items[k := s.items[k].(stopRequested := true)]))
  {
    if s.view.Some? {
      var (v, os) := ViewKey(s.items, s.view.value, key, page);
      var a := s.(view := Some(v));
      hide ViewKey;
      if |os| == 1 {
        assert os == [os[0]];
        OneOutcome(a, os[0]);
        if os[0].Stop? {
          FoundIs(s.items, os[0].id);
          if Names(s.items, os[0].id, k) { Found(s.items, os[0].id, k); }
        }
      } else if os == [Tell(Closed), Close] {
        TwoOutcomes(a, Tell(Closed), Close);
      }
    }
  }
}
