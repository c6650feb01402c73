/** Reasoning over whole runs (crates/inline/src/session.rs:413-446): every block of reasoning, held
    or printed, holds the tokens that went to it, whole and in order. */
module Thoughts {
  import opened Chars
  import opened Styles
  import opened Transcript
  import opened History
  import opened Effects
  import opened Filters
  import Paragraphs

  /** A block is held under the id. */
  ghost predicate Held(es: seq<Entry>, id: nat) { exists k :: 0 <= k < |es| && es[k].id == id }

  /** What reasoning each block was sent, once the event is done: a token goes to the block its stream
      has, while that is held, or begins one under the next id. */
  ghost function Told(s: State, e: Event, told: map<nat, string>): map<nat, string> {
    if e.ReasoningDelta? && e.sid in s.reasoning then
      var id := s.reasoning[e.sid];
      if Held(s.entries, id) then told[id := TextOf(told, id) + e.token] else told
    else if e.ReasoningDelta? then told[s.nextId := e.token]
    else if e.BlockShown? && e.block.Reasoning? then told[s.nextId := e.block.text]
    else told
  }

  ghost function ToldIn(events: seq<Timed>): map<nat, string> {
    if events == [] then map[]
    else
      var init := events[..|events| - 1];
      Told(RunFrom(BEGIN, init).s, events[|events| - 1].event, ToldIn(init))
  }

  ghost predicate AllTold(es: seq<Entry>, told: map<nat, string>) {
    forall k :: 0 <= k < |es| && es[k].block.Reasoning? ==> es[k].id in told && told[es[k].id] == es[k].block.text
  }

  ghost predicate Has(es: seq<Entry>, id: nat, b: Block) { exists k :: 0 <= k < |es| && es[k].id == id && es[k].block == b }

  /** No reasoning changes and none comes. */
  ghost predicate SameThoughts(es: seq<Entry>, fs: seq<Entry>) {
    forall k :: 0 <= k < |fs| && fs[k].block.Reasoning? ==> Has(es, fs[k].id, fs[k].block)
  }

  lemma SameTold(es: seq<Entry>, fs: seq<Entry>, told: map<nat, string>)
    requires AllTold(es, told) && SameThoughts(es, fs)
    ensures AllTold(fs, told)
  {
    forall k | 0 <= k < |fs| && fs[k].block.Reasoning? ensures fs[k].id in told && told[fs[k].id] == fs[k].block.text {
      assert Has(es, fs[k].id, fs[k].block);
    }
  }

  lemma PlacesSame(es: seq<Entry>, fs: seq<Entry>)
    requires |fs| >= |es|
    requires forall k :: 0 <= k < |es| ==> fs[k].block.Reasoning? ==> fs[k].id == es[k].id && fs[k].block == es[k].block
    requires forall k :: |es| <= k < |fs| ==> !fs[k].block.Reasoning?
    ensures SameThoughts(es, fs)
  {
    forall k | 0 <= k < |fs| && fs[k].block.Reasoning? ensures Has(es, fs[k].id, fs[k].block) {
      assert es[k].id == fs[k].id;
    }
  }

  lemma PartSame(es: seq<Entry>, fs: seq<Entry>)
    requires forall k :: 0 <= k < |fs| ==> fs[k] in es
    ensures SameThoughts(es, fs)
  {
    forall k | 0 <= k < |fs| && fs[k].block.Reasoning? ensures Has(es, fs[k].id, fs[k].block) {
      var j :| 0 <= j < |es| && es[j] == fs[k];
      assert es[j].id == fs[k].id;
    }
  }

  lemma EndedSame(s: State, es: seq<Entry>, e: Entry)
    requires AllGroupsEnded(s, es) && !e.block.Reasoning?
    ensures SameThoughts(s.entries, es) && SameThoughts(s.entries, es + [e])
  {
    hide HasRunning;
    PlacesSame(s.entries, es);
    PlacesSame(s.entries, es + [e]);
  }

  lemma ToolStartSame(s: State, tid: string, name: string, showing: Showing, now: int)
    requires Good(s)
    ensures SameThoughts(s.entries, Step(s, ToolStarted(tid, name, showing), now).entries)
  {
    hide Good, Step, SameThoughts, AllGroupsEnded;
    var t, id := Tool(name, Running), s.nextId;
    match showing {
      case PlanUpdate =>
        PlanUpdateStarts(s, tid, name, now);
        PlacesSame(s.entries, s.entries + [Entry(id, ToolRow(t), false)]);
      case Single =>
        var es := RowStarts(s, tid, name, now);
        EndedSame(s, es, Entry(id, ToolRow(t), false));
      case Run(title) =>
        var es, k := GroupedToolStarts(s, tid, name, title, now);
        if k < |s.entries| {
          PlacesSame(s.entries, Step(s, ToolStarted(tid, name, showing), now).entries);
        } else {
          EndedSame(s, es, Entry(id, Group([t], false, title), false));
        }
    }
  }

  lemma ToolFinishSame(s: State, tid: string, status: Outcome, now: int)
    requires Good(s)
    ensures SameThoughts(s.entries, Step(s, ToolFinished(tid, status), now).entries)
  {
    hide Good, Step, SameThoughts, HasRunning;
    var k := ToolFinishedMeans(s, tid, status, now);
    var es, fs := s.entries, Step(s, ToolFinished(tid, status), now).entries;
    if tid !in s.tools {
      PartSame(es, fs);
    } else if |fs| < |es| {
      PartSame(es, es[..k] + es[k + 1..]);
    } else {
      PlacesSame(es, fs);
    }
  }

  lemma SettleSame(s: State, interrupted: bool)
    requires Good(s)
    ensures SameThoughts(s.entries, Settle(s, interrupted).entries)
  {
    hide Good, Settle, ToolStops;
    var kept, at, added := SettleMeans(s, interrupted);
    var fs := Settle(s, interrupted).entries;
    assert forall k :: |kept| <= k < |fs| ==> fs[k] == fs[|kept|..][k - |kept|];
    forall k | 0 <= k < |kept| && fs[k].block.Reasoning? ensures Has(s.entries, fs[k].id, fs[k].block) {
      assert BlockStops(kept[k], fs[k]) && s.entries[at[k]] == kept[k];
      assert s.entries[at[k]].id == fs[k].id;
    }
  }

  lemma TokenSame(s: State, sid: string, token: string, now: int)
    requires Good(s)
    ensures SameThoughts(s.entries, Step(s, TokenDelta(sid, token), now).entries)
  {
    TokenMeans(s, sid, token, now);
    hide Good, Step, SameThoughts, HasRunning;
    PlacesSame(s.entries, Step(s, TokenDelta(sid, token), now).entries);
  }

  lemma CompleteSame(s: State, sid: string, text: Option<string>, now: int)
    requires Good(s)
    ensures SameThoughts(s.entries, Step(s, MessageCompleted(sid, text), now).entries)
  {
    MessageCompletedMeans(s, sid, text, now);
    hide Good, Step, SameThoughts, LeftToShow;
    PlacesSame(s.entries, Step(s, MessageCompleted(sid, text), now).entries);
  }

  lemma ClearSame(s: State, now: int)
    ensures SameThoughts(s.entries, Step(s, Cleared, now).entries)
  {
    var at := ClearedMeans(s, now);
    hide Step, SameThoughts;
    PartSame(s.entries, Step(s, Cleared, now).entries);
  }

  /** Every event but a piece of reasoning, a shown block and printing. */
  lemma OthersSame(s: State, e: Event, now: int)
    requires Good(s) && !e.ReasoningDelta? && !e.HistoryTaken? && !e.BlockShown?
    ensures SameThoughts(s.entries, Step(s, e, now).entries)
  {
    hide Good, SameThoughts, Settle, Step;
    match e {
      case StreamStarted(sid) =>
        StreamStartedMeans(s, sid, now);
        PlacesSame(s.entries, s.entries + [Entry(s.nextId, Assistant(""), false)]);
      case TokenDelta(sid, token) => TokenSame(s, sid, token, now);
      case MessageCompleted(sid, text) => CompleteSame(s, sid, text, now);
      case ToolStarted(tid, name, showing) => ToolStartSame(s, tid, name, showing, now);
      case ToolFinished(tid, status) => ToolFinishSame(s, tid, status, now);
      case TodoList(items) =>
        TodoListMeans(s, items, now);
        PartSame(s.entries, s.entries);
      case Phase(busy) =>
        PhaseMeans(s, now);
        PartSame(s.entries, s.entries);
        if !busy && s.phaseBusy {
          FlagsGood(s, None, false, false);
          SettleSame(s.(phaseBusy := false), false);
        }
      case Cleared => ClearSame(s, now);
      case Cancelled =>
        PhaseMeans(s, now);
        SettleSame(s, true);
      case _ =>
    }
  }

  // ----- the events that add reasoning ----------------------------------------------------------

  /** One block of reasoning is told more. */
  lemma ToldMore(taken: seq<Entry>, es: seq<Entry>, k: nat, token: string, told: map<nat, string>)
    requires k < |es| && es[k].block.Reasoning? && Unique(taken + es) && AllTold(taken + es, told)
    ensures AllTold(taken + es[k := Entry(es[k].id, Reasoning(es[k].block.text + token), es[k].done)],
                    told[es[k].id := TextOf(told, es[k].id) + token])
  {
    var all, fs, x := taken + es, es[k := Entry(es[k].id, Reasoning(es[k].block.text + token), es[k].done)], |taken| + k;
    assert all[x] == es[k];
    forall j | 0 <= j < |taken + fs| && j != x ensures (taken + fs)[j] == all[j] && all[j].id != es[k].id {
      assert if j < x then all[j].id != all[x].id else all[x].id != all[j].id;
    }
  }

  /** A block comes in under a new id. */
  lemma ToldNew(taken: seq<Entry>, es: seq<Entry>, pos: nat, e: Entry, text: string, told: map<nat, string>)
    requires pos <= |es| && AllTold(taken + es, told) && (e.block.Reasoning? ==> e.block.text == text)
    requires forall k :: 0 <= k < |taken + es| ==> (taken + es)[k].id != e.id
    ensures AllTold(taken + (es[..pos] + [e] + es[pos..]), told[e.id := text])
  {
    var all, fs, x := taken + es, taken + (es[..pos] + [e] + es[pos..]), |taken| + pos;
    forall k | 0 <= k < |fs| && k != x ensures fs[k] == all[if k < x then k else k - 1] {}
  }

  lemma ToldUnused(all: seq<Entry>, id: nat, text: string, told: map<nat, string>)
    requires AllTold(all, told) && forall k :: 0 <= k < |all| ==> all[k].id != id
    ensures AllTold(all, told[id := text])
  {
  }

  /** Nothing held or printed has the next id, and all ids differ. */
  lemma IdsDiffer(r: Trace)
    requires Once(r)
    ensures Unique(r.taken + r.s.entries)
    ensures forall k :: 0 <= k < |r.taken + r.s.entries| ==> (r.taken + r.s.entries)[k].id != r.s.nextId
  {
    var all, l := r.taken + r.s.entries, All(r);
    forall i, j | 0 <= i < j < |all| ensures all[i].id != all[j].id { assert l[i] != l[j]; }
    forall k | 0 <= k < |all| ensures all[k].id != r.s.nextId { assert l[k] < r.s.nextId; }
  }

  lemma ReasoningTold(r: Trace, sid: string, token: string, now: int, told: map<nat, string>)
    requires Good(r.s) && Once(r) && AllTold(r.taken + r.s.entries, told)
    ensures AllTold(r.taken + Step(r.s, ReasoningDelta(sid, token), now).entries, Told(r.s, ReasoningDelta(sid, token), told))
  {
    hide Good, Once, AllTold, Step, Held, Unique;
    IdsDiffer(r);
    GoodIds(r.s);
    var es, id := r.s.entries, r.s.nextId;
    if sid in r.s.reasoning {
      PieceTold(r, sid, token, now, told);
    } else {
      BegunTold(r, sid, token, now, told);
    }
  }

  /** A token of reasoning that has a block. */
  lemma PieceTold(r: Trace, sid: string, token: string, now: int, told: map<nat, string>)
    requires Good(r.s) && Unique(r.taken + r.s.entries) && AllTold(r.taken + r.s.entries, told) && sid in r.s.reasoning
    ensures AllTold(r.taken + Step(r.s, ReasoningDelta(sid, token), now).entries, Told(r.s, ReasoningDelta(sid, token), told))
  {
    hide AllTold, Step;
    var es := r.s.entries;
    GoodIds(r.s);
    ReasoningIsNoGroup(r.s, sid);
    if k: nat :| k < |es| && es[k].id == r.s.reasoning[sid] {
      ReasoningMeans(r.s, sid, token, now, k);
      assert Held(es, r.s.reasoning[sid]);
      ToldMore(r.taken, es, k, token, told);
    } else {
      NoBlock(r.s, sid, token, now);
    }
  }

  lemma NoBlock(s: State, sid: string, token: string, now: int)
    requires sid in s.reasoning && forall k :: 0 <= k < |s.entries| ==> s.entries[k].id != s.reasoning[sid]
    ensures Step(s, ReasoningDelta(sid, token), now) == s && !Held(s.entries, s.reasoning[sid])
  {
  }

  /** A token of a stream without reasoning. */
  lemma BegunTold(r: Trace, sid: string, token: string, now: int, told: map<nat, string>)
    requires Good(r.s) && AllTold(r.taken + r.s.entries, told) && sid !in r.s.reasoning
    requires forall k :: 0 <= k < |r.taken + r.s.entries| ==> (r.taken + r.s.entries)[k].id != r.s.nextId
    ensures AllTold(r.taken + Step(r.s, ReasoningDelta(sid, token), now).entries, told[r.s.nextId := token])
  {
    hide AllTold, Good, Unique, ReasoningPlace;
    var place, e := ReasoningPlace(r.s, sid), Entry(r.s.nextId, Reasoning(token), false);
    if place.None? {
      ToldUnused(r.taken + r.s.entries, r.s.nextId, token, told);
    } else {
      PlaceFits(r.s, sid);
      ToldNew(r.taken, r.s.entries, place.value, e, token, told);
    }
  }

  lemma PlaceFits(s: State, sid: string)
    ensures ReasoningPlace(s, sid).Some? ==> ReasoningPlace(s, sid).value <= |s.entries|
  {
  }

  lemma ShownTold(r: Trace, b: Block, now: int, told: map<nat, string>)
    requires Good(r.s) && Once(r) && AllTold(r.taken + r.s.entries, told)
    ensures AllTold(r.taken + Step(r.s, BlockShown(b), now).entries, Told(r.s, BlockShown(b), told))
  {
    hide Good, Once, AllTold, Step, SameThoughts, AllGroupsEnded;
    IdsDiffer(r);
    var es := BlockShownMeans(r.s, b, now);
    var e, n := Entry(r.s.nextId, b, true), |r.s.entries|;
    if b.Assistant? || b.Reasoning? || b.Group? {
      assert r.s.entries[..n] + [e] + r.s.entries[n..] == r.s.entries + [e];
      if b.Reasoning? {
        ToldNew(r.taken, r.s.entries, n, e, b.text, told);
      } else {
        PlacesSame(r.s.entries, r.s.entries + [e]);
        SameBehind(r.taken, r.s.entries, r.s.entries + [e]);
        SameTold(r.taken + r.s.entries, r.taken + (r.s.entries + [e]), told);
      }
    } else {
      EndedSame(r.s, es, e);
      SameBehind(r.taken, r.s.entries, es + [e]);
      SameTold(r.taken + r.s.entries, r.taken + (es + [e]), told);
    }
  }

  lemma SameBehind(taken: seq<Entry>, es: seq<Entry>, fs: seq<Entry>)
    requires SameThoughts(es, fs)
    ensures SameThoughts(taken + es, taken + fs)
  {
    var all, now := taken + es, taken + fs;
    forall k | 0 <= k < |now| && now[k].block.Reasoning? ensures Has(all, now[k].id, now[k].block) {
      if k < |taken| {
        assert all[k].id == now[k].id;
      } else {
        assert now[k] == fs[k - |taken|] && Has(es, now[k].id, now[k].block);
        var j :| 0 <= j < |es| && es[j].id == now[k].id && es[j].block == now[k].block;
        assert all[|taken| + j].id == now[k].id;
      }
    }
  }

  /** Printing takes reasoning as it is. */
  lemma TakenTold(r: Trace, now: int, told: map<nat, string>)
    requires AllTold(r.taken + r.s.entries, told)
    ensures AllTold(r.taken + Taken(r.s) + Step(r.s, HistoryTaken, now).entries, told)
  {
    StepTakes(r.s, now);
    SplitSame(r.s);
    hide AllTold, Step, SameThoughts, Taken, SplitLeading;
    SameBehind(r.taken, r.s.entries, SplitLeading(r.s).entries);
    assert r.taken + Taken(r.s) + Step(r.s, HistoryTaken, now).entries == r.taken + (Taken(r.s) + Step(r.s, HistoryTaken, now).entries);
    SameTold(r.taken + r.s.entries, r.taken + SplitLeading(r.s).entries, told);
  }

  lemma SplitSame(s: State)
    ensures SameThoughts(s.entries, SplitLeading(s).entries)
  {
    hide Paragraphs.CutOf;
    var es, fs := s.entries, SplitLeading(s).entries;
    if fs == es {
      PartSame(es, fs);
    } else {
      forall k | 0 <= k < |fs| && fs[k].block.Reasoning? ensures fs[k] in es { assert fs[k] == es[k - 1]; }
      hide SplitLeading;
      forall k | 0 <= k < |fs| && fs[k].block.Reasoning? ensures Has(es, fs[k].id, fs[k].block) {
        var j :| 0 <= j < |es| && es[j] == fs[k];
        assert es[j].id == fs[k].id;
      }
    }
  }

  lemma NextTold(r: Trace, e: Event, now: int, told: map<nat, string>)
    requires Good(r.s) && Once(r) && AllTold(r.taken + r.s.entries, told)
    ensures var n := Next(r, e, now); AllTold(n.taken + n.s.entries, Told(r.s, e, told))
  {
    hide Good, Once, AllTold, Step, Taken, SameThoughts, Held;
    if e.ReasoningDelta? {
      ReasoningTold(r, e.sid, e.token, now, told);
    } else if e.BlockShown? {
      ShownTold(r, e.block, now, told);
    } else if e.HistoryTaken? {
      TakenTold(r, now, told);
    } else {
      OthersSame(r.s, e, now);
      SameBehind(r.taken, r.s.entries, Step(r.s, e, now).entries);
      SameTold(r.taken + r.s.entries, r.taken + Step(r.s, e, now).entries, told);
    }
  }

  /** On every run each block of reasoning, held or printed, is the tokens it was sent, in order. */
  lemma {:induction false} EveryThoughtIsTold(events: seq<Timed>)
    requires Legal(events)
    ensures var r := RunFrom(BEGIN, events); AllTold(r.taken + r.s.entries, ToldIn(events))
  {
    if events != [] {
      var init, e := events[..|events| - 1], events[|events| - 1];
      EveryThoughtIsTold(init);
      EveryRunIsSound(init);
      hide Good, Once, AllTold, Next, Told;
      NextTold(RunFrom(BEGIN, init), e.event, e.now, ToldIn(init));
    }
  }
}
