/** Whole runs of the transcript (crates/inline/src/session.rs): blocks reach scrollback once and in
    order, and of an unfinished reply what was taken off and what is held are the tokens received,
    whatever the chunks and the moments of printing.  Scrollback.dfy says what the printed blocks
    spell. */
module History {
  import opened Chars
  import opened Styles
  import opened Transcript
  import Paragraphs

  /** A state with two traces: the blocks taken for printing and, by block id, the tokens received. */
  datatype Trace = Trace(s: State, taken: seq<Entry>, received: map<nat, string>)

  const BEGIN := Trace(START, [], map[])

  function TextOf(received: map<nat, string>, id: nat): string { if id in received then received[id] else "" }

  function Received(r: Trace, e: Event, now: int): map<nat, string> {
    match e
    case StreamStarted(_) => r.received[r.s.nextId := ""]
    case TokenDelta(sid, token) =>
      var b := BeforeToken(r.s, sid, token, now);
      if sid in b.streams then r.received[b.streams[sid] := TextOf(r.received, b.streams[sid]) + token] else r.received
    case _ => r.received
  }

  function Next(r: Trace, e: Event, now: int): Trace {
    Trace(Step(r.s, e, now), if e.HistoryTaken? then r.taken + Taken(r.s) else r.taken, Received(r, e, now))
  }

  datatype Timed = Timed(event: Event, now: int)

  function RunFrom(r: Trace, events: seq<Timed>): Trace {
    if events == [] then r
    else Next(RunFrom(r, events[..|events| - 1]), events[|events| - 1].event, events[|events| - 1].now)
  }

  /** The host shows finished blocks only. */
  ghost predicate Legal(events: seq<Timed>) {
    forall k :: 0 <= k < |events| ==> events[k].event.BlockShown? ==> Quiet(events[k].event.block)
  }

  // ----- order and identity -----------------------------------------------------------------

  function IdList(es: seq<Entry>): (l: seq<nat>)
    ensures |l| == |es| && forall k :: 0 <= k < |es| ==> l[k] == es[k].id
  {
    seq(|es|, k requires 0 <= k < |es| => es[k].id)
  }

  ghost predicate Distinct(l: seq<nat>) { forall i, j :: 0 <= i < j < |l| ==> l[i] != l[j] }

  /** Everything already printed, then everything held. */
  function All(r: Trace): seq<nat> { IdList(r.taken + r.s.entries) }

  /** `to` holds ids of `from` and new ones, and swaps none. */
  ghost predicate Evolves(from: seq<nat>, n: nat, to: seq<nat>, m: nat) {
    n <= m && Distinct(to) &&
    (forall k :: 0 <= k < |to| ==> to[k] < m && (to[k] in from || n <= to[k])) &&
    forall p, q, i, j :: 0 <= p < q < |from| && 0 <= i < j < |to| ==> !(from[p] == to[j] && from[q] == to[i])
  }

  ghost predicate Fits(l: seq<nat>, n: nat) { Distinct(l) && forall k :: 0 <= k < |l| ==> l[k] < n }

  lemma SameEvolves(l: seq<nat>, n: nat)
    requires Fits(l, n)
    ensures Evolves(l, n, l, n)
  {
  }

  lemma EvolvesFits(from: seq<nat>, n: nat, to: seq<nat>, m: nat)
    requires Evolves(from, n, to, m)
    ensures Fits(to, m)
  {
  }

  lemma EvolvesTransitive(a: seq<nat>, n: nat, b: seq<nat>, m: nat, c: seq<nat>, k: nat)
    requires Fits(a, n) && Evolves(a, n, b, m) && Evolves(b, m, c, k)
    ensures Evolves(a, n, c, k)
  {
  }

  lemma NoSwap(l: seq<nat>, n: nat, pos: nat, p: nat, q: nat, i: nat, j: nat)
    requires Fits(l, n) && pos <= |l| && p < q < |l| && i < j <= |l|
    ensures var to := l[..pos] + [n] + l[pos..]; !(l[p] == to[j] && l[q] == to[i])
  {
    var to := l[..pos] + [n] + l[pos..];
    assert to[i] == if i < pos then l[i] else if i == pos then n else l[i - 1];
    assert to[j] == if j < pos then l[j] else if j == pos then n else l[j - 1];
  }

  /** A new id put in anywhere. */
  lemma InsertEvolves(l: seq<nat>, n: nat, pos: nat)
    requires Fits(l, n) && pos <= |l|
    ensures Evolves(l, n, l[..pos] + [n] + l[pos..], n + 1)
  {
    var to := l[..pos] + [n] + l[pos..];
    assert forall k :: 0 <= k < |to| ==> to[k] == if k < pos then l[k] else if k == pos then n else l[k - 1];
    forall i, j | 0 <= i < j < |to| ensures to[i] != to[j] {}
    forall k | 0 <= k < |to| ensures to[k] < n + 1 && (to[k] in l || n <= to[k]) {}
    hide Fits;
    forall p, q, i, j | 0 <= p < q < |l| && 0 <= i < j < |to| ensures !(l[p] == to[j] && l[q] == to[i]) {
      NoSwap(l, n, pos, p, q, i, j);
    }
  }

  lemma PushEvolves(l: seq<nat>, n: nat)
    requires Fits(l, n)
    ensures Evolves(l, n, l + [n], n + 1)
  {
    InsertEvolves(l, n, |l|);
    assert l[..|l|] + [n] + l[|l|..] == l + [n];
  }

  lemma InitFits(l: seq<nat>, id: nat, n: nat)
    requires Fits(l + [id], n)
    ensures Fits(l, n) && id !in l
  {
    var m := l + [id];
    forall k | 0 <= k < |l| ensures l[k] < n && l[k] != id { assert m[k] == l[k] && m[|l|] == id; }
    forall i, j | 0 <= i < j < |l| ensures l[i] != l[j] { assert m[i] == l[i] && m[j] == l[j]; }
  }

  lemma WithLastEvolves(l: seq<nat>, to: seq<nat>, id: nat, n: nat)
    requires Fits(l + [id], n) && Fits(l, n) && id !in l && Evolves(l, n, to, n)
    ensures Evolves(l + [id], n, to + [id], n)
  {
    var m, w := l + [id], to + [id];
    assert m[|l|] == id;
    forall k | 0 <= k < |to| ensures to[k] in l && w[k] == to[k] {}
    assert forall k :: 0 <= k < |l| ==> m[k] == l[k];
    forall p, q, i, j | 0 <= p < q < |m| && 0 <= i < j < |w| ensures !(m[p] == w[j] && m[q] == w[i]) {
      assert w[i] == to[i] && to[i] in l;
      assert j < |to| ==> to[j] in l;
    }
  }

  /** A last id, kept or not. */
  lemma LastEvolves(l: seq<nat>, to: seq<nat>, id: nat, n: nat)
    requires Fits(l + [id], n) && Fits(l, n) && id !in l && Evolves(l, n, to, n)
    ensures Evolves(l + [id], n, to, n) && Evolves(l + [id], n, to + [id], n)
  {
    var m := l + [id];
    assert m[|l|] == id;
    assert forall k :: 0 <= k < |l| ==> m[k] == l[k];
    forall k | 0 <= k < |to| ensures to[k] in l && to[k] in m {}
    forall p, q, i, j | 0 <= p < q < |m| && 0 <= i < j < |to| ensures !(m[p] == to[j] && m[q] == to[i]) {
      assert to[i] in l;
    }
    WithLastEvolves(l, to, id, n);
  }

  lemma {:induction false} KeepEvolves(es: seq<Entry>, p: Entry -> bool, n: nat)
    requires Fits(IdList(es), n)
    ensures Evolves(IdList(es), n, IdList(Keep(es, p)), n)
  {
    if es != [] {
      var init, e := es[..|es| - 1], es[|es| - 1];
      var l, kept := IdList(es), IdList(Keep(init, p));
      assert l == IdList(init) + [e.id];
      InitFits(IdList(init), e.id, n);
      KeepEvolves(init, p, n);
      LastEvolves(IdList(init), kept, e.id, n);
      assert IdList(Keep(es, p)) == if p(e) then kept + [e.id] else kept;
    } else {
      assert IdList(Keep(es, p)) == [];
    }
  }

  lemma BehindDistinct(front: seq<nat>, from: seq<nat>, n: nat, to: seq<nat>, m: nat)
    requires Fits(front + from, n) && Evolves(from, n, to, m)
    ensures Distinct(front + to) && forall k, x :: 0 <= k < |to| && 0 <= x < |front| ==> to[k] != front[x]
  {
    var a, b, f := front + from, front + to, |front|;
    forall k, x | 0 <= k < |to| && 0 <= x < f ensures to[k] != front[x] {
      assert a[x] == front[x];
      if to[k] in from {
        var y :| 0 <= y < |from| && from[y] == to[k];
        assert a[f + y] == from[y];
      }
    }
    forall i, j | 0 <= i < j < |b| ensures b[i] != b[j] {
      if i < f { assert b[i] == a[i] && (j < f ==> b[j] == a[j]); }
    }
  }

  /** Printed ids in front change nothing. */
  lemma BehindEvolves(front: seq<nat>, from: seq<nat>, n: nat, to: seq<nat>, m: nat)
    requires Fits(front + from, n) && Evolves(from, n, to, m)
    ensures Evolves(front + from, n, front + to, m)
  {
    var a, b, f := front + from, front + to, |front|;
    BehindDistinct(front, from, n, to, m);
    forall k | 0 <= k < |b| ensures b[k] < m && (b[k] in a || n <= b[k]) {
      if k < f { assert b[k] == a[k]; } else if b[k] in from {
        var y :| 0 <= y < |from| && from[y] == b[k];
        assert a[f + y] == b[k];
      }
    }
    forall p, q, i, j | 0 <= p < q < |a| && 0 <= i < j < |b| ensures !(a[p] == b[j] && a[q] == b[i]) {
      assert a[p] == if p < f then front[p] else from[p - f];
      assert a[q] == if q < f then front[q] else from[q - f];
      assert b[i] == if i < f then a[i] else to[i - f];
      assert b[j] == if j < f then a[j] else to[j - f];
    }
  }

  // ----- what an event does to the list of ids ----------------------------------------------

  lemma SetList(es: seq<Entry>, id: nat, b: Block)
    ensures IdList(SetBlock(es, id, b)) == IdList(es) && IdList(SetDone(es, id)) == IdList(es)
  {
  }

  lemma CloseList(s: State)
    ensures IdList(CloseGroup(s).entries) == IdList(s.entries) && CloseGroup(s).nextId == s.nextId
  {
    hide SetBlock, SetDone, Get, Find, AllStopped;
    if s.openGroup.Some? {
      var g := s.openGroup.value;
      var e := Get(s.entries, g);
      if e.Some? {
        var b := e.value.block;
        SetList(s.entries, g, if b.Group? then b.(closed := true) else b);
        SetList(if b.Group? then SetBlock(s.entries, g, b.(closed := true)) else s.entries, g, b);
      }
    }
  }

  lemma AppendList(s: State, b: Block, done: bool)
    ensures IdList(Append(s, b, done).entries) == IdList(s.entries) + [s.nextId] && Append(s, b, done).nextId == s.nextId + 1
  {
  }

  lemma PushList(s: State, b: Block, done: bool)
    ensures IdList(Push(s, b, done).entries) == IdList(s.entries) + [s.nextId] && Push(s, b, done).nextId == s.nextId + 1
  {
    CloseList(s);
    hide CloseGroup;
    var c := if b.Assistant? || b.Reasoning? || b.Group? then s else CloseGroup(s);
    assert IdList(Append(c, b, done).entries) == IdList(c.entries) + [c.nextId];
  }

  lemma EndReasoningList(s: State, sid: string)
    ensures IdList(EndReasoning(s, sid).entries) == IdList(s.entries) && EndReasoning(s, sid).nextId == s.nextId
  {
    if sid in s.reasoning { SetList(s.entries, s.reasoning[sid], Note("")); }
  }

  lemma AddTextList(s: State, id: nat, token: string)
    ensures IdList(AddText(s, id, token).entries) == IdList(s.entries) && AddText(s, id, token).nextId == s.nextId
  {
    var e := Get(s.entries, id);
    if e.Some? && e.value.block.Assistant? { SetList(s.entries, id, Assistant(e.value.block.markdown + token)); }
  }

  lemma EnsureEvolves(s: State, sid: string)
    ensures Fits(IdList(s.entries), s.nextId) ==>
              var b := EnsureStream(s, sid); Evolves(IdList(s.entries), s.nextId, IdList(b.entries), b.nextId)
  {
    hide Evolves, Fits, Push;
    PushList(s, Assistant(""), false);
    if Fits(IdList(s.entries), s.nextId) {
      SameEvolves(IdList(s.entries), s.nextId);
      PushEvolves(IdList(s.entries), s.nextId);
    }
  }

  lemma TokenEvolves(s: State, sid: string, token: string, now: int)
    requires Fits(IdList(s.entries), s.nextId)
    ensures Evolves(IdList(s.entries), s.nextId, IdList(AddToken(s, sid, token, now).entries), AddToken(s, sid, token, now).nextId)
  {
    var a := if AllWhitespace(token) then s else CloseGroup(BecameBusy(s, now));
    CloseList(BecameBusy(s, now));
    EnsureEvolves(EndReasoning(a, sid), sid);
    EndReasoningList(a, sid);
    hide CloseGroup, EndReasoning, EnsureStream, Evolves, Fits, Get;
    var b := BeforeToken(s, sid, token, now);
    assert b == EnsureStream(EndReasoning(a, sid), sid);
    if sid in b.streams { AddTextList(b, b.streams[sid], token); }
  }

  lemma JoinList(s: State, tid: string, t: Tool, title: Option<string>)
    requires Joins(s, title)
    ensures var p := JoinGroup(s, tid, t, title); IdList(p.entries) == IdList(s.entries) && p.nextId == s.nextId
  {
    var g := Get(s.entries, s.openGroup.value).value.block;
    SetList(s.entries, s.openGroup.value, g.(tools := g.tools + [t]));
    hide SetBlock, Get, Find;
  }

  lemma NewGroupList(s: State, tid: string, t: Tool, title: Option<string>)
    ensures var p := NewGroup(s, tid, t, title); IdList(p.entries) == IdList(s.entries) + [s.nextId] && p.nextId == s.nextId + 1
  {
    hide CloseGroup;
    CloseList(s);
    AppendList(CloseGroup(s), Group([t], false, title), false);
  }

  lemma NewRowList(s: State, tid: string, t: Tool, isPlan: bool)
    ensures var p := NewRow(s, tid, t, isPlan); IdList(p.entries) == IdList(s.entries) + [s.nextId] && p.nextId == s.nextId + 1
  {
    hide Push, Append;
    PushList(s, ToolRow(t), false);
    AppendList(s, ToolRow(t), false);
  }

  lemma CompleteList(s: State, sid: string, text: Option<string>)
    ensures IdList(CompleteMessage(s, sid, text).entries) == IdList(s.entries) && CompleteMessage(s, sid, text).nextId == s.nextId
  {
    hide SetBlock, SetDone, Get, Find;
    if sid in s.reasoning { SetList(s.entries, s.reasoning[sid], Note("")); }
    var a := EndReasoning(s, sid);
    if sid in a.streams {
      var id, b := a.streams[sid], a.(streams := a.streams - {sid});
      var e := Get(b.entries, id);
      if e.Some? && e.value.block.Assistant? {
        SetList(b.entries, id, Assistant(Paragraphs.Completed(PrintedOf(b, id), e.value.block.markdown, text)));
      }
      SetList(CompleteText(b, id, text).entries, id, Note(""));
    }
  }

  lemma StartToolEvolves(s: State, tid: string, name: string, showing: Showing, now: int)
    requires Fits(IdList(s.entries), s.nextId)
    ensures var t := StartTool(s, tid, name, showing, now); Evolves(IdList(s.entries), s.nextId, IdList(t.entries), t.nextId)
  {
    hide CloseGroup, SetBlock, Get, Find, Evolves, Fits, Push, Append, NewRow, NewGroup, JoinGroup;
    var b, t := BecameBusy(s, now), Tool(name, Running);
    var l := IdList(s.entries);
    SameEvolves(l, s.nextId);
    PushEvolves(l, s.nextId);
    if showing.Run? {
      if Joins(b, showing.title) { JoinList(b, tid, t, showing.title); } else { NewGroupList(b, tid, t, showing.title); }
    } else {
      NewRowList(b, tid, t, showing.PlanUpdate?);
    }
  }

  lemma DropEvolves(s: State, id: nat, status: Outcome)
    requires Fits(IdList(s.entries), s.nextId)
    ensures var d := DropPlanRow(s, id, status); Evolves(IdList(s.entries), s.nextId, IdList(d.entries), d.nextId)
  {
    hide Evolves, Fits, Keep;
    SameEvolves(IdList(s.entries), s.nextId);
    KeepEvolves(s.entries, (e: Entry) => e.id != id, s.nextId);
  }

  lemma StatusList(es: seq<Entry>, slot: Slot, status: Outcome)
    ensures IdList(SetStatus(es, slot, status)) == IdList(es)
  {
    var e := Get(es, slot.id);
    if e.Some? { SetList(es, slot.id, Ended(e.value.block, slot.idx, status)); }
  }

  lemma FinishToolEvolves(s: State, tid: string, status: Outcome)
    requires Fits(IdList(s.entries), s.nextId)
    ensures var t := FinishTool(s, tid, status); Evolves(IdList(s.entries), s.nextId, IdList(t.entries), t.nextId)
  {
    hide SetBlock, SetDone, Get, Find, Evolves, Fits, Keep, SetStatus, AllStopped, DropPlanRow;
    SameEvolves(IdList(s.entries), s.nextId);
    if tid in s.tools {
      var slot := s.tools[tid];
      StatusList(s.entries, slot, status);
      var a := s.(tools := s.tools - {tid}, entries := SetStatus(s.entries, slot, status));
      DropEvolves(a, slot.id, status);
      SetList(DropPlanRow(a, slot.id, status).entries, slot.id, Note(""));
    }
  }

  lemma StopList(es: seq<Entry>)
    ensures IdList(StopAll(es)) == IdList(es)
  {
  }

  lemma SettleEvolves(s: State, interrupted: bool)
    requires Fits(IdList(s.entries), s.nextId)
    ensures var t := Settle(s, interrupted); Evolves(IdList(s.entries), s.nextId, IdList(t.entries), t.nextId)
  {
    hide Evolves, Fits, Keep, StopAll, IsBusy, Push;
    var kept := Keep(s.entries, (e: Entry) => e.id !in s.planRows);
    KeepEvolves(s.entries, (e: Entry) => e.id !in s.planRows, s.nextId);
    StopList(kept);
    var a := Stopping(s);
    var l := IdList(s.entries);
    var b := if interrupted && Unfinished(s.plan) then Push(a, Plan(s.plan.value), true) else a;
    if interrupted && Unfinished(s.plan) { OneMore(l, s.nextId, a, Plan(s.plan.value)); }
    if interrupted && IsBusy(s) { OneMore(l, s.nextId, b, Note(INTERRUPTED)); }
  }

  lemma OneMore(l: seq<nat>, n: nat, s: State, b: Block)
    requires Fits(l, n) && Evolves(l, n, IdList(s.entries), s.nextId)
    ensures var p := Push(s, b, true); Evolves(l, n, IdList(p.entries), p.nextId)
  {
    hide Evolves, Fits, Push;
    EvolvesFits(l, n, IdList(s.entries), s.nextId);
    PushList(s, b, true);
    PushEvolves(IdList(s.entries), s.nextId);
    EvolvesTransitive(l, n, IdList(s.entries), s.nextId, IdList(s.entries) + [s.nextId], s.nextId + 1);
  }

  lemma SplitList(s: State)
    ensures var t, l := SplitLeading(s), IdList(s.entries);
            t == s || (IdList(t.entries) == [s.nextId] + l && t.nextId == s.nextId + 1)
  {
    hide Paragraphs.CutOf;
    if SplitLeading(s) != s {
      var t := SplitLeading(s);
      assert |t.entries| == |s.entries| + 1 && t.entries[0].id == s.nextId;
      forall k | 0 <= k < |s.entries| ensures t.entries[k + 1].id == s.entries[k].id {}
    }
  }

  lemma SplitEvolves(s: State)
    requires Fits(IdList(s.entries), s.nextId)
    ensures Evolves(IdList(s.entries), s.nextId, IdList(SplitLeading(s).entries), SplitLeading(s).nextId)
  {
    hide Evolves, Fits, SplitLeading;
    var l := IdList(s.entries);
    SameEvolves(l, s.nextId);
    InsertEvolves(l, s.nextId, 0);
    SplitList(s);
    assert l[..0] + [s.nextId] + l[0..] == [s.nextId] + l;
  }

  lemma InsertedList(es: seq<Entry>, k: nat, e: Entry)
    requires k <= |es|
    ensures IdList(es[..k] + [e] + es[k..]) == IdList(es)[..k] + [e.id] + IdList(es)[k..]
  {
  }

  lemma StepEvolves(s: State, e: Event, now: int)
    requires Fits(IdList(s.entries), s.nextId) && !e.HistoryTaken?
    ensures Evolves(IdList(s.entries), s.nextId, IdList(Step(s, e, now).entries), Step(s, e, now).nextId)
  {
    hide Evolves, Fits, AddToken, CompleteMessage, StartTool, FinishTool, Settle, Push, Keep, Find, Get, SetBlock;
    var l := IdList(s.entries);
    SameEvolves(l, s.nextId);
    PushEvolves(l, s.nextId);
    match e
    case StreamStarted(sid) => PushList(s, Assistant(""), false);
    case ReasoningDelta(sid, token) => ThinkEvolves(s, sid, token, now);
    case TokenDelta(sid, token) => TokenEvolves(s, sid, token, now);
    case MessageCompleted(sid, text) => CompleteList(s, sid, text);
    case ToolStarted(tid, name, showing) => StartToolEvolves(s, tid, name, showing, now);
    case ToolFinished(tid, status) => FinishToolEvolves(s, tid, status);
    case BlockShown(block) => PushList(s, block, true);
    case TodoList(_) =>
    case Phase(_) => SettleEvolves(s.(phaseBusy := false), false);
    case Cleared => KeepEvolves(s.entries, (e: Entry) => !e.done, s.nextId);
    case Cancelled => SettleEvolves(s, true);
    case HistoryTaken =>
  }

  lemma ThinkEvolves(s: State, sid: string, token: string, now: int)
    requires Fits(IdList(s.entries), s.nextId)
    ensures var t := ThinkMore(s, sid, token, now); Evolves(IdList(s.entries), s.nextId, IdList(t.entries), t.nextId)
  {
    hide Evolves, Fits, SetBlock, Get, ReasoningPlace;
    SameEvolves(IdList(s.entries), s.nextId);
    if sid in s.reasoning {
      var e := Get(s.entries, s.reasoning[sid]);
      if e.Some? && e.value.block.Reasoning? { SetList(s.entries, s.reasoning[sid], Reasoning(e.value.block.text + token)); }
    } else if ReasoningPlace(s, sid).Some? {
      PlaceInRange(s, sid);
      var k := ReasoningPlace(s, sid).value;
      InsertEvolves(IdList(s.entries), s.nextId, k);
      InsertedList(s.entries, k, Entry(s.nextId, Reasoning(token), false));
      hide IdList;
    }
  }

  // ----- runs: nothing is printed twice or out of order ----------------------------------------

  /** Ids are distinct over everything printed and held, and only finished blocks were printed. */
  ghost predicate Once(r: Trace) {
    Fits(All(r), r.s.nextId) && forall k :: 0 <= k < |r.taken| ==> r.taken[k].done
  }

  lemma AllParts(r: Trace)
    ensures All(r) == IdList(r.taken) + IdList(r.s.entries)
  {
  }

  lemma TailFits(a: seq<nat>, b: seq<nat>, n: nat)
    requires Fits(a + b, n)
    ensures Fits(b, n)
  {
    forall i | 0 <= i < |b| ensures (a + b)[|a| + i] == b[i] {}
    forall i, j | 0 <= i < j < |b| ensures b[i] != b[j] { assert (a + b)[|a| + i] != (a + b)[|a| + j]; }
  }

  lemma StepTakes(s: State, now: int)
    ensures var a, t := SplitLeading(s), Step(s, HistoryTaken, now);
            Taken(s) + t.entries == a.entries && t.nextId == a.nextId && forall k :: 0 <= k < |Taken(s)| ==> Taken(s)[k].done
  {
    hide SplitLeading;
    var es := SplitLeading(s).entries;
    assert es[..DoneCount(es)] + es[DoneCount(es)..] == es;
  }

  lemma OnceFits(r: Trace)
    requires Once(r)
    ensures Fits(All(r), r.s.nextId)
  {
  }

  lemma TakeEvolves(r: Trace, now: int)
    requires Once(r)
    ensures var after := Next(r, HistoryTaken, now);
            Evolves(All(r), r.s.nextId, All(after), after.s.nextId) && Once(after)
  {
    hide Evolves, Fits, Step, SplitLeading, Received, DoneCount;
    var t, n := IdList(r.taken), r.s.nextId;
    AllParts(r);
    TailFits(t, IdList(r.s.entries), n);
    var after, a := Next(r, HistoryTaken, now), SplitLeading(r.s);
    SplitEvolves(r.s);
    StepTakes(r.s, now);
    assert r.taken + Taken(r.s) + after.s.entries == r.taken + a.entries;
    BehindEvolves(t, IdList(r.s.entries), n, IdList(a.entries), a.nextId);
    AllParts(Trace(a, r.taken, map[]));
    EvolvesFits(All(r), n, All(after), after.s.nextId);
  }

  lemma HeldEvolves(r: Trace, e: Event, now: int)
    requires Once(r) && !e.HistoryTaken?
    ensures var after := Next(r, e, now);
            Evolves(All(r), r.s.nextId, All(after), after.s.nextId) && Once(after)
  {
    hide Evolves, Fits, Step, Received;
    var t, n := IdList(r.taken), r.s.nextId;
    AllParts(r);
    TailFits(t, IdList(r.s.entries), n);
    var after := Next(r, e, now);
    AllParts(after);
    StepEvolves(r.s, e, now);
    BehindEvolves(t, IdList(r.s.entries), n, IdList(after.s.entries), after.s.nextId);
    EvolvesFits(All(r), n, All(after), after.s.nextId);
  }

  /** One event adds ids and drops held ids; it never swaps two of what is printed or held. */
  lemma NextEvolves(r: Trace, e: Event, now: int)
    requires Once(r)
    ensures Evolves(All(r), r.s.nextId, All(Next(r, e, now)), Next(r, e, now).s.nextId)
    ensures Once(Next(r, e, now)) && r.taken <= Next(r, e, now).taken
  {
    hide Evolves, Once, Step, Received, Taken;
    if e.HistoryTaken? { TakeEvolves(r, now); } else { HeldEvolves(r, e, now); }
  }

  /** Over every run each block is printed at most once, finished, and blocks leave in the order
      they were held in: what is printed only grows, and two blocks never change places. */
  lemma {:induction false} RunsPrintInOrder(r: Trace, events: seq<Timed>)
    requires Once(r)
    ensures Once(RunFrom(r, events)) && r.taken <= RunFrom(r, events).taken
    ensures Evolves(All(r), r.s.nextId, All(RunFrom(r, events)), RunFrom(r, events).s.nextId)
  {
    hide Evolves, Once, Next;
    OnceFits(r);
    if events == [] {
      SameEvolves(All(r), r.s.nextId);
    } else {
      var init, e := events[..|events| - 1], events[|events| - 1];
      RunsPrintInOrder(r, init);
      var m := RunFrom(r, init);
      NextEvolves(m, e.event, e.now);
      EvolvesTransitive(All(r), r.s.nextId, All(m), m.s.nextId, All(Next(m, e.event, e.now)), Next(m, e.event, e.now).s.nextId);
    }
  }

  // ----- the text of replies -------------------------------------------------------------------

  ghost predicate Replying(s: State, x: nat) {
    Get(s.entries, x).Some? && !Get(s.entries, x).value.done && Get(s.entries, x).value.block.Assistant?
  }

  /** Unfinished replies of `t` were the same in `s`. */
  ghost predicate SameReplies(s: State, t: State) {
    forall x: nat :: Replying(t, x) ==> Get(s.entries, x) == Get(t.entries, x) && PrintedOf(s, x) == PrintedOf(t, x)
  }

  ghost predicate ReplyOk(r: Trace, x: nat)
    requires Replying(r.s, x)
  {
    x in r.received && PrintedOf(r.s, x) + Get(r.s.entries, x).value.block.markdown == r.received[x] &&
    Paragraphs.PrintedOk(PrintedOf(r.s, x))
  }


  /** What was printed of an unfinished reply and what is held are together the tokens received;
      printing stopped at a boundary of that text. */
  ghost predicate TextOk(r: Trace) {
    (forall x :: x in r.received ==> x < r.s.nextId) &&
    forall x: nat :: Replying(r.s, x) ==> ReplyOk(r, x)
  }

  lemma SameTransitive(a: State, b: State, c: State)
    requires SameReplies(a, b) && SameReplies(b, c)
    ensures SameReplies(a, c)
  {
    hide Get, PrintedOf;
    forall x: nat | Replying(c, x) ensures Get(a.entries, x) == Get(c.entries, x) && PrintedOf(a, x) == PrintedOf(c, x) {
      assert Replying(b, x);
    }
  }

  /** A block that is no unfinished reply may change. */
  lemma PatchSame(s: State, t: State, id: nat, e: Option<Entry>)
    requires Patch(s.entries, t.entries, id, e) && t.printed == s.printed
    requires e.Some? ==> e.value.done || !e.value.block.Assistant?
    ensures SameReplies(s, t)
  {
    hide Get;
  }

  lemma FinishSame(s: State, id: nat)
    requires Ids(s)
    ensures SameReplies(s, Finish(s, id))
  {
    FinishPatch(s, id);
    hide SameReplies;
    var e := Get(s.entries, id);
    PatchSame(s, Finish(s, id), id, if e.Some? then Some(e.value.(done := true)) else None);
  }

  lemma CloseSame(s: State)
    requires Good(s)
    ensures SameReplies(s, CloseGroup(s))
  {
    if s.openGroup.Some? {
      var g := s.openGroup.value;
      var e := Get(s.entries, g).value;
      var b := e.block.(closed := true);
      SetPatch(s.entries, g, b);
      var t := s.(entries := SetBlock(s.entries, g, b), openGroup := None);
      hide SameReplies, Get, Find, Unique, SetBlock, Finish;
      PatchSame(s, t, g, Some(e.(block := b)));
      PatchIds(s, t);
      FinishSame(t, g);
      SameTransitive(s, t, Finish(t, g));
    }
  }

  lemma AppendSame(s: State, b: Block, done: bool)
    requires Ids(s) && (done || !b.Assistant?)
    ensures SameReplies(s, Append(s, b, done))
  {
    AppendPatch(s, b, done);
    PatchSame(s, Append(s, b, done), s.nextId, Some(Entry(s.nextId, b, done)));
  }

  lemma PushSame(s: State, b: Block, done: bool)
    requires Good(s) && (done || !b.Assistant?)
    ensures SameReplies(s, Push(s, b, done))
  {
    CloseSame(s);
    CloseGood(s);
    hide SameReplies, CloseGroup, Append, ToolsOk, GroupOk, EntriesOk, StreamsOk, RowsOk;
    var c := if b.Assistant? || b.Reasoning? || b.Group? then s else CloseGroup(s);
    AppendSame(c, b, done);
    SameSelf(s);
    SameTransitive(s, c, Append(c, b, done));
  }

  lemma SameSelf(s: State)
    ensures SameReplies(s, s)
  {
  }

  lemma EndReasoningSame(s: State, sid: string)
    requires Good(s)
    ensures SameReplies(s, EndReasoning(s, sid))
  {
    SameSelf(s);
    if sid in s.reasoning { FinishSame(s.(reasoning := s.reasoning - {sid}), s.reasoning[sid]); }
  }

  lemma ThinkMoreSame(s: State, sid: string, token: string, now: int)
    requires Good(s)
    ensures SameReplies(s, ThinkMore(s, sid, token, now))
  {
    hide SameReplies, Get, Find, SetBlock, ReasoningPlace;
    SameSelf(s);
    if sid in s.reasoning {
      var e := Get(s.entries, s.reasoning[sid]);
      if e.Some? && e.value.block.Reasoning? {
        var b := Reasoning(e.value.block.text + token);
        SetPatch(s.entries, s.reasoning[sid], b);
        PatchSame(s, ThinkMore(s, sid, token, now), s.reasoning[sid], Some(e.value.(block := b)));
      }
    } else if ReasoningPlace(s, sid).Some? {
      PlaceInRange(s, sid);
      var e := Entry(s.nextId, Reasoning(token), false);
      GetInsert(s.entries, ReasoningPlace(s, sid).value, e);
      PatchSame(s, ThinkMore(s, sid, token, now), s.nextId, Some(e));
    }
  }

  lemma StartToolSame(s: State, tid: string, name: string, showing: Showing, now: int)
    requires Good(s)
    ensures SameReplies(s, StartTool(s, tid, name, showing, now))
  {
    var b, t := BecameBusy(s, now), Tool(name, Running);
    assert SameReplies(s, b);
    BusyGood(s, now);
    var after := StartTool(s, tid, name, showing, now);
    if showing.Run? && Joins(b, showing.title) {
      var g := b.openGroup.value;
      var k := Get(b.entries, g).value.block;
      SetPatch(b.entries, g, k.(tools := k.tools + [t]));
      hide SameReplies, Get, Find, SetBlock;
      PatchSame(b, after, g, Some(Get(b.entries, g).value.(block := k.(tools := k.tools + [t]))));
      SameTransitive(s, b, after);
    } else {
      NewToolSame(b, tid, t, showing);
      hide SameReplies, NewRow, NewGroup;
      SameTransitive(s, b, after);
    }
  }

  lemma NewToolSame(s: State, tid: string, t: Tool, showing: Showing)
    requires Good(s)
    ensures SameReplies(s, NewRow(s, tid, t, showing.PlanUpdate?))
    ensures showing.Run? ==> SameReplies(s, NewGroup(s, tid, t, showing.title))
  {
    PushSame(s, ToolRow(t), false);
    AppendSame(s, ToolRow(t), false);
    var a, p := Append(s, ToolRow(t), false), Push(s, ToolRow(t), false);
    if showing.Run? { NewGroupSame(s, tid, t, showing.title); }
    hide SameReplies, Push, Append;
    var row := if showing.PlanUpdate? then a else p;
    var r := NewRow(s, tid, t, showing.PlanUpdate?);
    SamePlaces(s, row, r);
  }

  /** What points at blocks does not count. */
  lemma SamePlaces(s: State, t: State, u: State)
    requires SameReplies(s, t) && u.entries == t.entries && u.printed == t.printed
    ensures SameReplies(s, u)
  {
    hide Get;
    forall x: nat | Replying(u, x) ensures Replying(t, x) {}
  }

  lemma NewGroupSame(s: State, tid: string, t: Tool, title: Option<string>)
    requires Good(s)
    ensures SameReplies(s, NewGroup(s, tid, t, title))
  {
    CloseSame(s);
    CloseGood(s);
    var c := CloseGroup(s);
    var a := Append(c, Group([t], false, title), false);
    AppendSame(c, Group([t], false, title), false);
    hide SameReplies, CloseGroup, Append, Good;
    SameTransitive(s, c, a);
    SamePlaces(s, a, NewGroup(s, tid, t, title));
  }

  lemma FinishToolSame(s: State, tid: string, status: Outcome)
    requires Good(s)
    ensures SameReplies(s, FinishTool(s, tid, status))
  {
    SameSelf(s);
    if tid in s.tools {
      var slot := s.tools[tid];
      var b := Ended(Get(s.entries, slot.id).value.block, slot.idx, status);
      StatusPatch(s, tid, status);
      if slot.idx.None? { FinishRowPatch(s, tid, status); } else { FinishInGroupPatch(s, tid, status); }
      hide SameReplies, Get, Find, FinishTool, Unique, Good;
      var t := FinishTool(s, tid, status);
      PatchSame(s, t, slot.id,
                if slot.idx.Some? then Some(Entry(slot.id, b, b.closed && AllStopped(b.tools)))
                else if slot.id in s.planRows && s.planSeen && status != Error then None else Some(Entry(slot.id, b, true)));
    }
  }

  lemma ClearedSame(s: State)
    requires Ids(s)
    ensures SameReplies(s, s.(entries := Keep(s.entries, (e: Entry) => !e.done), plan := None))
  {
    GetKeep(s.entries, (e: Entry) => !e.done);
  }

  lemma SameTextOk(r: Trace, t: State)
    requires TextOk(r) && SameReplies(r.s, t) && t.nextId >= r.s.nextId
    ensures TextOk(Trace(t, r.taken, r.received))
  {
    hide Get, PrintedOf, Paragraphs.PrintedOk;
    forall x: nat | Replying(t, x) ensures Replying(r.s, x) {}
  }

  // ----- events on replies -----------------------------------------------------------------------

  /** A new empty reply. */
  lemma NewReplyText(r: Trace, t: State)
    requires Good(r.s) && TextOk(r) && t.printed == r.s.printed && t.nextId == r.s.nextId + 1
    requires Patch(r.s.entries, t.entries, r.s.nextId, Some(Entry(r.s.nextId, Assistant(""), false)))
    ensures TextOk(Trace(t, r.taken, r.received[r.s.nextId := ""]))
  {
    hide Get, Find, Unique;
    var after := Trace(t, r.taken, r.received[r.s.nextId := ""]);
    forall x: nat | Replying(t, x)
      ensures x in after.received && PrintedOf(t, x) + Get(t.entries, x).value.block.markdown == after.received[x] &&
              Paragraphs.PrintedOk(PrintedOf(t, x))
    {
      if x == r.s.nextId {
        assert PrintedOf(t, x) == "";
        assert "" + "" == "";
      } else {
        assert Replying(r.s, x);
      }
    }
  }

  lemma StartStreamText(r: Trace, sid: string, now: int)
    requires Good(r.s) && TextOk(r)
    ensures TextOk(Next(r, StreamStarted(sid), now))
  {
    AppendPatch(r.s, Assistant(""), false);
    hide TextOk, Good;
    NewReplyText(r, Step(r.s, StreamStarted(sid), now));
  }

  /** The state in which a token is added is as good as before it. */
  lemma BeforeTokenText(r: Trace, sid: string, token: string, now: int)
    requires Good(r.s) && TextOk(r)
    ensures var b := BeforeToken(r.s, sid, token, now);
            Good(b) && sid in b.streams && b.nextId >= r.s.nextId &&
            TextOk(Trace(b, r.taken, r.received[b.streams[sid] := TextOf(r.received, b.streams[sid])]))
  {
    BeforeTokenGood(r.s, sid, token, now);
    var busy := BecameBusy(r.s, now);
    BusyGood(r.s, now);
    CloseGood(busy);
    CloseSame(busy);
    var a := if AllWhitespace(token) then r.s else CloseGroup(busy);
    SameSelf(r.s);
    assert SameReplies(r.s, busy);
    SameTransitive(r.s, busy, CloseGroup(busy));
    EndReasoningGood(a, sid);
    EndReasoningSame(a, sid);
    EndReasoningKeeps(a, sid);
    hide EndReasoning, CloseGroup, SameReplies, Good;
    var c := EndReasoning(a, sid);
    SameTransitive(r.s, a, c);
    SameTextOk(r, c);
    EnsureText(Trace(c, r.taken, r.received), sid);
  }

  lemma EndReasoningKeeps(s: State, sid: string)
    ensures EndReasoning(s, sid).nextId == s.nextId && EndReasoning(s, sid).streams == s.streams
  {
  }

  lemma EnsureText(r: Trace, sid: string)
    requires Good(r.s) && TextOk(r)
    ensures var b := EnsureStream(r.s, sid);
            TextOk(Trace(b, r.taken, r.received[b.streams[sid] := TextOf(r.received, b.streams[sid])]))
    ensures EnsureStream(r.s, sid).nextId >= r.s.nextId
  {
    var b := EnsureStream(r.s, sid);
    if sid in r.s.streams {
      var id := b.streams[sid];
      assert Replying(r.s, id);
      assert r.received[id := TextOf(r.received, id)] == r.received;
    } else {
      AppendPatch(r.s, Assistant(""), false);
      assert r.s.nextId !in r.received;
      hide TextOk, Good;
      NewReplyText(r, b);
    }
  }

  lemma AddTextText(r: Trace, id: nat, token: string)
    requires Good(r.s) && TextOk(r) && Replying(r.s, id)
    ensures TextOk(Trace(AddText(r.s, id, token), r.taken, r.received[id := TextOf(r.received, id) + token]))
  {
    var md := Get(r.s.entries, id).value.block.markdown;
    SetPatch(r.s.entries, id, Assistant(md + token));
    hide Get, Find, Unique, SetBlock, Good, Paragraphs.PrintedOk;
    var t := AddText(r.s, id, token);
    assert PrintedOf(r.s, id) + (md + token) == PrintedOf(r.s, id) + md + token;
    forall x: nat | Replying(t, x) && x != id ensures Replying(r.s, x) && Get(t.entries, x) == Get(r.s.entries, x) {}
  }

  lemma OpenReply(s: State, sid: string)
    requires Good(s) && sid in s.streams
    ensures Replying(s, s.streams[sid])
  {
  }

  lemma NotedTwice(received: map<nat, string>, id: nat, token: string)
    ensures var noted := received[id := TextOf(received, id)];
            noted[id := TextOf(noted, id) + token] == received[id := TextOf(received, id) + token]
  {
  }

  lemma NextToken(r: Trace, sid: string, token: string, now: int)
    requires sid in BeforeToken(r.s, sid, token, now).streams
    ensures var b := BeforeToken(r.s, sid, token, now);
            Next(r, TokenDelta(sid, token), now) ==
              Trace(AddText(b, b.streams[sid], token), r.taken,
                    r.received[b.streams[sid] := TextOf(r.received, b.streams[sid]) + token])
  {
    hide BeforeToken, AddText;
  }

  lemma TokenText(r: Trace, sid: string, token: string, now: int)
    requires Good(r.s) && TextOk(r)
    ensures TextOk(Next(r, TokenDelta(sid, token), now))
  {
    BeforeTokenText(r, sid, token, now);
    var b := BeforeToken(r.s, sid, token, now);
    hide BeforeToken, TextOk, AddText, Replying;
    var id := b.streams[sid];
    OpenReply(b, sid);
    hide Good;
    AddTextText(Trace(b, r.taken, r.received[id := TextOf(r.received, id)]), id, token);
    NotedTwice(r.received, id, token);
    NextToken(r, sid, token, now);
    hide Next, TextOf;
  }

  /** A message completed leaves the other replies alone; what it leaves to print is decided by
      the final text, if any. */
  lemma CompleteMessageText(r: Trace, sid: string, text: Option<string>, now: int)
    requires Good(r.s) && TextOk(r)
    ensures TextOk(Next(r, MessageCompleted(sid, text), now))
    ensures sid in r.s.streams ==>
              var id := r.s.streams[sid];
              var was, e := Get(r.s.entries, id).value, Get(Next(r, MessageCompleted(sid, text), now).s.entries, id);
              was.block.Assistant? &&
              e == Some(Entry(id, Assistant(Paragraphs.Completed(PrintedOf(r.s, id), was.block.markdown, text)), true))
  {
    EndReasoningSame(r.s, sid);
    EndReasoningGood(r.s, sid);
    EndReasoningKeeps(r.s, sid);
    if sid in r.s.streams { ReplyStays(r.s, sid); }
    hide EndReasoning, Good, SameReplies, TextOk;
    var a := EndReasoning(r.s, sid);
    SameTextOk(r, a);
    if sid in r.s.streams { StreamEnds(Trace(a, r.taken, r.received), sid, text); }
  }

  lemma ReplyStays(s: State, sid: string)
    requires Good(s) && sid in s.streams
    ensures Get(EndReasoning(s, sid).entries, s.streams[sid]) == Get(s.entries, s.streams[sid])
    ensures PrintedOf(EndReasoning(s, sid), s.streams[sid]) == PrintedOf(s, s.streams[sid])
  {
    if sid in s.reasoning {
      hide Get, Find, SetDone, Unique;
      FinishPatch(s.(reasoning := s.reasoning - {sid}), s.reasoning[sid]);
    }
  }

  lemma CompletePatch(s: State, id: nat, text: Option<string>)
    requires Ids(s) && Get(s.entries, id).Some? && Get(s.entries, id).value.block.Assistant?
    ensures var t := Finish(CompleteText(s, id, text), id);
            var md := Get(s.entries, id).value.block.markdown;
            t.nextId == s.nextId && t.printed == s.printed - {id} &&
            Patch(s.entries, t.entries, id, Some(Entry(id, Assistant(Paragraphs.Completed(PrintedOf(s, id), md, text)), true)))
  {
    var was := Get(s.entries, id).value;
    var b := Assistant(Paragraphs.Completed(PrintedOf(s, id), was.block.markdown, text));
    SetPatch(s.entries, id, b);
    hide Get, Find, SetBlock, SetDone, Unique;
    var c := CompleteText(s, id, text);
    assert Patch(s.entries, c.entries, id, Some(was.(block := b)));
    PatchIds(s, c);
    FinishPatch(c, id);
  }

  lemma StreamEnds(r: Trace, sid: string, text: Option<string>)
    requires Good(r.s) && TextOk(r) && sid in r.s.streams
    ensures var id := r.s.streams[sid];
            var t := Finish(CompleteText(r.s.(streams := r.s.streams - {sid}), id, text), id);
            var was := Get(r.s.entries, id).value;
            was.block.Assistant? && TextOk(Trace(t, r.taken, r.received)) &&
            Get(t.entries, id) == Some(Entry(id, Assistant(Paragraphs.Completed(PrintedOf(r.s, id), was.block.markdown, text)), true))
  {
    var id, a := r.s.streams[sid], r.s.(streams := r.s.streams - {sid});
    assert Get(r.s.entries, id).value.block.Assistant? && Ids(r.s);
    CompletePatch(a, id, text);
    hide Get, CompleteText, Good, Paragraphs.PrintedOk;
    var t := Finish(CompleteText(a, id, text), id);
    forall x: nat | Replying(t, x) ensures Replying(r.s, x) && Get(t.entries, x) == Get(r.s.entries, x) && PrintedOf(t, x) == PrintedOf(r.s, x) {}
  }

  lemma TakenText(r: Trace, taken: seq<Entry>)
    requires TextOk(r)
    ensures TextOk(Trace(r.s, taken, r.received))
  {
  }

  lemma TakeText(r: Trace, now: int)
    requires Good(r.s) && TextOk(r)
    ensures TextOk(Next(r, HistoryTaken, now))
  {
    hide Good, TextOk, SplitLeading, SameReplies, DoneCount, Taken;
    SplitText(r);
    SplitLeadingGood(r.s);
    var a := SplitLeading(r.s);
    DropSame(a);
    SameTextOk(Trace(a, r.taken, r.received), TakeHistory(r.s));
    TakenText(Trace(TakeHistory(r.s), r.taken, r.received), r.taken + Taken(r.s));
  }

  lemma DropSame(s: State)
    requires Good(s)
    ensures SameReplies(s, s.(entries := s.entries[DoneCount(s.entries)..]))
  {
    GetDrop(s.entries, DoneCount(s.entries));
  }

  lemma TextOkAt(r: Trace, x: nat)
    requires TextOk(r) && Replying(r.s, x)
    ensures ReplyOk(r, x)
  {
  }

  lemma TextOkIs(r: Trace, m: Trace)
    requires TextOk(r) && m.received == r.received && m.s.nextId >= r.s.nextId
    requires forall x: nat :: Replying(m.s, x) ==> ReplyOk(m, x)
    ensures TextOk(m)
  {
    hide Get, Paragraphs.PrintedOk;
  }

  /** Part of the reply `e` moves from what is held to what is printed. */
  lemma ReplyMoves(r: Trace, t: State, e: Entry, c: Paragraphs.Cut)
    requires TextOk(r) && e.id < r.s.nextId && Get(r.s.entries, e.id) == Some(e) && !e.done && e.block.Assistant?
    requires Paragraphs.CutOf(e.block.markdown) == Some(c)
    requires t.nextId == r.s.nextId + 1 && t.printed == r.s.printed[e.id := PrintedOf(r.s, e.id) + c.consumed]
    requires forall x: nat :: Get(t.entries, x) ==
               if x == r.s.nextId then Some(Entry(r.s.nextId, Assistant(c.head), true))
               else if x == e.id then Some(e.(block := Assistant(c.tail))) else Get(r.s.entries, x)
    ensures TextOk(Trace(t, r.taken, r.received))
  {
    hide Get, Paragraphs.CutOf, Paragraphs.PrintedOk, Paragraphs.Boundary, TextOk;
    var s, was := r.s, PrintedOf(r.s, e.id);
    assert Replying(s, e.id);
    TextOkAt(r, e.id);
    Paragraphs.CutsAreBoundaries(was, e.block.markdown);
    PrintedIsOk(was + c.consumed);
    var after := Trace(t, r.taken, r.received);
    forall x: nat | Replying(t, x) ensures ReplyOk(after, x) {
      if x == e.id {
        assert PrintedOf(t, x) == was + c.consumed && Get(t.entries, x).value.block.markdown == c.tail;
      } else {
        assert Replying(s, x) && PrintedOf(t, x) == PrintedOf(s, x);
        TextOkAt(r, x);
      }
    }
    TextOkIs(r, after);
  }

  lemma SplitText(r: Trace)
    requires Good(r.s) && TextOk(r)
    ensures TextOk(Trace(SplitLeading(r.s), r.taken, r.received))
  {
    var s, t := r.s, SplitLeading(r.s);
    if t != s {
      var e := s.entries[0];
      var c := Paragraphs.CutOf(e.block.markdown).value;
      assert t == CutLeading(s, c);
      GetAt(s.entries, 0);
      SplitPatch(s, e, c);
      hide Good, TextOk, Find, Get;
      ReplyMoves(r, t, e, c);
    }
  }

  lemma PrintedIsOk(text: string)
    requires Paragraphs.Boundary(text)
    ensures Paragraphs.PrintedOk(text)
  {
  }

  lemma SplitPatch(s: State, e: Entry, c: Paragraphs.Cut)
    requires Ids(s) && s.entries != [] && e == s.entries[0]
    ensures var es := [Entry(s.nextId, Assistant(c.head), true)] + s.entries[0 := e.(block := Assistant(c.tail))];
            forall x: nat :: Get(es, x) ==
              if x == s.nextId then Some(Entry(s.nextId, Assistant(c.head), true))
              else if x == e.id then Some(e.(block := Assistant(c.tail))) else Get(s.entries, x)
  {
    var changed := s.entries[0 := e.(block := Assistant(c.tail))];
    var head := Entry(s.nextId, Assistant(c.head), true);
    GetAt(s.entries, 0);
    assert e.id < s.nextId;
    GetSet(s.entries, 0, e.(block := Assistant(c.tail)));
    assert Get(s.entries, s.nextId).None?;
    assert Get(changed, s.nextId) == Get(s.entries, s.nextId);
    hide Get, Find;
    GetInsert(changed, 0, head);
    assert changed[..0] + [head] + changed[0..] == [head] + changed;
  }

  lemma RestText(r: Trace, t: State)
    requires TextOk(r) && t.nextId >= r.s.nextId && forall x: nat :: !Replying(t, x)
    ensures TextOk(Trace(t, r.taken, r.received))
  {
  }

  lemma SettleText(r: Trace, s: State, interrupted: bool)
    requires TextOk(r) && Good(s) && s.nextId == r.s.nextId
    ensures TextOk(Trace(Settle(s, interrupted), r.taken, r.received))
  {
    SettleStopsEverything(s, interrupted);
    SettleCounts(s, interrupted);
    RestText(r, Settle(s, interrupted));
  }

  lemma SettleCounts(s: State, interrupted: bool)
    ensures Settle(s, interrupted).nextId >= s.nextId
  {
    hide Keep, StopAll, IsBusy;
  }

  /** An event that changes no unfinished reply. */
  lemma OtherText(r: Trace, e: Event, now: int)
    requires Good(r.s) && TextOk(r) && Step(r.s, e, now).nextId >= r.s.nextId
    requires !e.StreamStarted? && !e.TokenDelta? && !e.MessageCompleted? && !e.HistoryTaken?
    ensures TextOk(Trace(Step(r.s, e, now), r.taken, r.received))
  {
    hide Good, TextOk, ThinkMore, StartTool, FinishTool, Settle, Push, Keep, SameReplies;
    var t := Step(r.s, e, now);
    if e.Cancelled? {
      SettleText(r, r.s, true);
    } else if e.Phase? && !e.busy && r.s.phaseBusy {
      FlagsGood(r.s, None, false, false);
      SettleText(r, r.s.(phaseBusy := false), false);
    } else {
      match e {
        case ReasoningDelta(sid, token) => ThinkMoreSame(r.s, sid, token, now);
        case ToolStarted(tid, name, showing) => StartToolSame(r.s, tid, name, showing, now);
        case ToolFinished(tid, status) => FinishToolSame(r.s, tid, status);
        case BlockShown(block) => PushSame(r.s, block, true);
        case Cleared =>
          GoodIds(r.s);
          ClearedSame(r.s);
        case TodoList(_) => FlagsSame(r.s, t);
        case Phase(_) => FlagsSame(r.s, t);
      }
      SameTextOk(r, t);
    }
  }

  lemma FlagsSame(s: State, t: State)
    requires t.entries == s.entries && t.printed == s.printed
    ensures SameReplies(s, t)
  {
  }

  /** One event keeps the account of every reply's text. */
  lemma NextText(r: Trace, e: Event, now: int)
    requires Good(r.s) && TextOk(r) && Fits(IdList(r.s.entries), r.s.nextId)
    ensures TextOk(Next(r, e, now))
  {
    hide Good, TextOk, Step, Taken;
    if e.StreamStarted? {
      StartStreamText(r, e.sid, now);
    } else if e.TokenDelta? {
      TokenText(r, e.sid, e.token, now);
    } else if e.MessageCompleted? {
      CompleteMessageText(r, e.sid, e.text, now);
    } else if e.HistoryTaken? {
      TakeText(r, now);
    } else {
      StepEvolves(r.s, e, now);
      OtherText(r, e, now);
    }
  }

  /** All of it, over every run: links, identity and order of blocks, and text. */
  ghost predicate Sound(r: Trace) { Good(r.s) && Once(r) && TextOk(r) }

  lemma SoundNext(r: Trace, e: Event, now: int)
    requires Sound(r) && (e.BlockShown? ==> Quiet(e.block))
    ensures Sound(Next(r, e, now))
  {
    AllParts(r);
    TailFits(IdList(r.taken), IdList(r.s.entries), r.s.nextId);
    hide Good, Once, TextOk, Step, Taken, Received;
    NextText(r, e, now);
    NextEvolves(r, e, now);
    StepGood(r.s, e, now);
  }

  lemma {:induction false} EveryRunIsSound(events: seq<Timed>)
    requires Legal(events)
    ensures Sound(RunFrom(BEGIN, events))
  {
    if events == [] {
      BeginIsSound();
    } else {
      var init, e := events[..|events| - 1], events[|events| - 1];
      EveryRunIsSound(init);
      hide Sound, Next;
      SoundNext(RunFrom(BEGIN, init), e.event, e.now);
    }
  }

  lemma BeginIsSound()
    ensures Sound(BEGIN)
  {
  }

  /** A final text on any reachable state: what was printed and what is left are the text itself
      (up to newlines between them) when it extends what was printed, and otherwise the tokens
      received. */
  lemma FinalTextIsWhole(events: seq<Timed>, sid: string, text: Option<string>, now: int)
    requires Legal(events) && sid in RunFrom(BEGIN, events).s.streams
    ensures var r := RunFrom(BEGIN, events);
            var id := r.s.streams[sid];
            var printed, e := PrintedOf(r.s, id), Get(Step(r.s, MessageCompleted(sid, text), now).entries, id);
            e.Some? && e.value.done && e.value.block.Assistant? && Paragraphs.PrintedOk(printed) &&
            if text.Some? && printed <= text.value
            then exists n: nat :: text.value == printed + Paragraphs.Newlines(n) + e.value.block.markdown
            else printed + e.value.block.markdown == TextOf(r.received, id)
  {
    EveryRunIsSound(events);
    var r := RunFrom(BEGIN, events);
    hide RunFrom, Once;
    CompleteMessageText(r, sid, text, now);
    var id := r.s.streams[sid];
    assert Replying(r.s, id);
    var md := Get(r.s.entries, id).value.block.markdown;
    if text.Some? { Paragraphs.CompletionKeepsText(PrintedOf(r.s, id), md, text.value); }
  }

  lemma RestIsAllTaken(s: State)
    requires AtRest(s)
    ensures TakeHistory(s) == s.(entries := []) && Taken(s) == s.entries
  {
    var n := DoneCount(s.entries);
    assert n == |s.entries|;
    assert s.entries[n..] == [] && s.entries[..n] == s.entries;
  }

  lemma ShownFirst(s: State, interrupted: bool)
    ensures Settle(s, interrupted).reasoning == s.reasoning
  {
    hide Keep, StopAll, IsBusy;
  }

  /** `settle` forgets streams and tools but not which streams were reasoning.  Once the stopped
      blocks are printed, more reasoning on such a stream is dropped; on any other it opens a
      block. */
  lemma ReasoningAfterSettle(s: State, interrupted: bool, sid: string, token: string, now: int)
    requires Good(s)
    ensures var t := TakeHistory(Settle(s, interrupted));
            ThinkMore(t, sid, token, now) == t <==> sid in s.reasoning
  {
    SettleStopsEverything(s, interrupted);
    RestIsAllTaken(Settle(s, interrupted));
    ShownFirst(s, interrupted);
    hide Settle, Good, AtRest;
  }
}
