/** What an unfinished block waits for (crates/inline/src/session.rs): a stream, a tool id, the
    reasoning of a stream, or the open group.  A block that nothing points to any more is held,
    with everything behind it, until the turn settles. */
module Orphans {
  import opened Chars
  import opened Styles
  import opened Transcript
  import History
  import Paragraphs

  ghost predicate IsReply(s: State, x: nat) {
    var e := Get(s.entries, x);
    e.Some? && !e.value.done && e.value.block.Assistant?
  }

  ghost predicate IsThought(s: State, x: nat) {
    var e := Get(s.entries, x);
    e.Some? && !e.value.done && e.value.block.Reasoning?
  }

  ghost predicate IsRunning(s: State, slot: Slot) { SlotOk(Get(s.entries, slot.id), slot.idx) }

  ghost predicate StreamOf(s: State, x: nat) { exists t :: t in s.streams && s.streams[t] == x }
  ghost predicate ThoughtOf(s: State, x: nat) { exists t :: t in s.reasoning && s.reasoning[t] == x }
  ghost predicate ToolOf(s: State, slot: Slot) { exists t :: t in s.tools && s.tools[t] == slot }

  /** Every unfinished reply has its stream, every unfinished reasoning its stream's entry, and
      every running tool its id. */
  ghost predicate AllLinked(s: State) {
    (forall x: nat :: IsReply(s, x) ==> StreamOf(s, x)) &&
    (forall x: nat :: IsThought(s, x) ==> ThoughtOf(s, x)) &&
    (forall slot: Slot :: IsRunning(s, slot) ==> ToolOf(s, slot))
  }

  /** Something will finish the block: an id the host knows, or the end of a run of reads. */
  ghost predicate IsAwaited(s: State, x: nat) {
    StreamOf(s, x) || ThoughtOf(s, x) || s.openGroup == Some(x) || exists idx :: ToolOf(s, Slot(x, idx))
  }

  lemma LinkedIsAwaited(s: State, x: nat)
    requires Good(s) && AllLinked(s) && Get(s.entries, x).Some? && !Get(s.entries, x).value.done
    ensures IsAwaited(s, x)
  {
    var e := Get(s.entries, x).value;
    assert EntryOk(e, s.openGroup);
    match e.block
    case Assistant(_) => assert IsReply(s, x);
    case Reasoning(_) => assert IsThought(s, x);
    case ToolRow(_) =>
      assert IsRunning(s, Slot(x, None));
      assert ToolOf(s, Slot(x, None));
    case Group(ts, closed, _) =>
      if closed {
        var k :| 0 <= k < |ts| && ts[k].status == Running;
        assert IsRunning(s, Slot(x, Some(k)));
        assert ToolOf(s, Slot(x, Some(k)));
      }
    case Plan(_) =>
    case Note(_) =>
  }

  /** The event starts a stream or a tool under an id that is still in use. */
  predicate Restarts(s: State, e: Event) {
    (e.StreamStarted? && e.sid in s.streams) || (e.ToolStarted? && e.tid in s.tools)
  }

  // ----- nothing new to wait for -----------------------------------------------------------

  /** What is unfinished in `t` was so in `s`, but for the block `n`. */
  ghost predicate Less(s: State, t: State, n: nat) {
    (forall x: nat :: x != n && IsReply(t, x) ==> IsReply(s, x)) &&
    (forall x: nat :: x != n && IsThought(t, x) ==> IsThought(s, x)) &&
    (forall slot: Slot :: slot.id != n && IsRunning(t, slot) ==> IsRunning(s, slot))
  }

  /** Nor at `n`. */
  ghost predicate LessAt(s: State, t: State, n: nat) {
    (IsReply(t, n) ==> IsReply(s, n)) && (IsThought(t, n) ==> IsThought(s, n)) &&
    forall idx :: IsRunning(t, Slot(n, idx)) ==> IsRunning(s, Slot(n, idx))
  }

  ghost predicate SameLinks(s: State, t: State) {
    t.streams == s.streams && t.reasoning == s.reasoning && t.tools == s.tools
  }

  lemma PatchLess(s: State, t: State, n: nat, e: Option<Entry>)
    requires Patch(s.entries, t.entries, n, e)
    ensures Less(s, t, n)
  {
    hide Get, Unique, SlotOk;
  }

  lemma FewerLinked(s: State, t: State, n: nat)
    requires AllLinked(s) && SameLinks(s, t) && Less(s, t, n) && LessAt(s, t, n)
    ensures AllLinked(t)
  {
    hide IsReply, IsThought, IsRunning;
    forall x: nat | IsReply(t, x) ensures StreamOf(t, x) { assert IsReply(s, x) && StreamOf(s, x); }
    forall x: nat | IsThought(t, x) ensures ThoughtOf(t, x) { assert IsThought(s, x) && ThoughtOf(s, x); }
    forall slot: Slot | IsRunning(t, slot) ensures ToolOf(t, slot) {
      assert slot == Slot(slot.id, slot.idx);
      assert IsRunning(s, slot) && ToolOf(s, slot);
    }
  }

  lemma DoneLess(s: State, t: State, n: nat)
    requires Get(t.entries, n).Some? ==> Get(t.entries, n).value.done
    ensures LessAt(s, t, n)
  {
    hide Get;
  }

  lemma FinishLinked(s: State, id: nat)
    requires Ids(s) && AllLinked(s)
    ensures AllLinked(Finish(s, id))
  {
    var e := Get(s.entries, id);
    FinishPatch(s, id);
    hide AllLinked, Get, Find, Unique, SetDone;
    PatchLess(s, Finish(s, id), id, if e.Some? then Some(e.value.(done := true)) else None);
    DoneLess(s, Finish(s, id), id);
    FewerLinked(s, Finish(s, id), id);
  }

  lemma CloseLinked(s: State)
    requires Good(s) && AllLinked(s)
    ensures AllLinked(CloseGroup(s))
  {
    if s.openGroup.Some? {
      var g := s.openGroup.value;
      var e := Get(s.entries, g).value;
      var b := e.block.(closed := true);
      SetPatch(s.entries, g, b);
      var t := s.(entries := SetBlock(s.entries, g, b), openGroup := None);
      hide AllLinked, Get, Find, Unique, SetBlock, Finish;
      PatchLess(s, t, g, Some(e.(block := b)));
      assert LessAt(s, t, g);
      FewerLinked(s, t, g);
      PatchIds(s, t);
      FinishLinked(t, g);
    }
  }

  /** A block that waits for nothing. */
  lemma AppendLinked(s: State, b: Block, done: bool)
    requires Ids(s) && AllLinked(s) && done
    ensures AllLinked(Append(s, b, done))
  {
    AppendPatch(s, b, done);
    hide AllLinked, Get, Find, Unique;
    PatchLess(s, Append(s, b, done), s.nextId, Some(Entry(s.nextId, b, done)));
    DoneLess(s, Append(s, b, done), s.nextId);
    FewerLinked(s, Append(s, b, done), s.nextId);
  }

  lemma ShownLinked(s: State, b: Block)
    requires Good(s) && AllLinked(s)
    ensures AllLinked(Push(s, b, true))
  {
    CloseLinked(s);
    CloseGood(s);
    hide AllLinked, CloseGroup, Append, ToolsOk, GroupOk, EntriesOk, StreamsOk, RowsOk;
    AppendLinked(if b.Assistant? || b.Reasoning? || b.Group? then s else CloseGroup(s), b, true);
  }

  // ----- replies -----------------------------------------------------------------------------

  /** A new reply comes with its stream. */
  lemma NewReplyLinked(s: State, t: State, sid: string)
    requires Good(s) && AllLinked(s) && sid !in s.streams
    requires Patch(s.entries, t.entries, s.nextId, Some(Entry(s.nextId, Assistant(""), false)))
    requires t.streams == s.streams[sid := s.nextId] && t.reasoning == s.reasoning && t.tools == s.tools
    ensures AllLinked(t)
  {
    var n := s.nextId;
    PatchLess(s, t, n, Some(Entry(n, Assistant(""), false)));
    assert !IsThought(t, n) && forall idx :: !IsRunning(t, Slot(n, idx));
    hide Get, Find, Unique, Patch, Good, IsReply, IsThought, IsRunning;
    assert t.streams[sid] == n;
    forall x: nat | IsReply(t, x) ensures StreamOf(t, x) {
      if x != n {
        assert StreamOf(s, x);
        var u :| u in s.streams && s.streams[u] == x;
        assert t.streams[u] == x;
      }
    }
    forall x: nat | IsThought(t, x) ensures ThoughtOf(t, x) { assert ThoughtOf(s, x); }
    forall slot: Slot | IsRunning(t, slot) ensures ToolOf(t, slot) {
      assert slot == Slot(slot.id, slot.idx);
      assert ToolOf(s, slot);
    }
  }

  lemma EnsureLinked(s: State, sid: string)
    requires Good(s) && AllLinked(s)
    ensures AllLinked(EnsureStream(s, sid))
  {
    if sid !in s.streams {
      AppendPatch(s, Assistant(""), false);
      hide AllLinked, Good, Patch;
      NewReplyLinked(s, EnsureStream(s, sid), sid);
    }
  }

  lemma StartStreamLinked(s: State, sid: string, now: int)
    requires Good(s) && AllLinked(s) && sid !in s.streams
    ensures AllLinked(StartStream(s, sid, now))
  {
    AppendPatch(s, Assistant(""), false);
    var t := StartStream(s, sid, now);
    assert t.entries == Append(s, Assistant(""), false).entries && t.tools == s.tools && t.reasoning == s.reasoning &&
           t.streams == s.streams[sid := s.nextId] by {
      hide AllLinked, Good;
    }
    hide AllLinked, Good, Patch, StartStream;
    NewReplyLinked(s, t, sid);
  }

  lemma EndReasoningLinked(s: State, sid: string)
    requires Good(s) && AllLinked(s)
    ensures AllLinked(EndReasoning(s, sid))
  {
    if sid in s.reasoning {
      var id, t := s.reasoning[sid], EndReasoning(s, sid);
      var e := Get(s.entries, id);
      FinishPatch(s.(reasoning := s.reasoning - {sid}), id);
      PatchLess(s, t, id, if e.Some? then Some(e.value.(done := true)) else None);
      DoneLess(s, t, id);
      assert !IsThought(t, id);
      hide Get, Find, Unique, Patch, Good, IsReply, IsThought, IsRunning, Finish;
      forall x: nat | IsReply(t, x) ensures StreamOf(t, x) { assert IsReply(s, x) && StreamOf(s, x); }
      forall x: nat | IsThought(t, x) ensures ThoughtOf(t, x) {
        assert ThoughtOf(s, x);
        var u :| u in s.reasoning && s.reasoning[u] == x;
        assert u in t.reasoning && t.reasoning[u] == x;
      }
      forall slot: Slot | IsRunning(t, slot) ensures ToolOf(t, slot) {
        assert slot == Slot(slot.id, slot.idx);
        assert IsRunning(s, slot) && ToolOf(s, slot);
      }
    }
  }

  /** A block whose text changes waits for what it waited for. */
  lemma SetTextLinked(s: State, id: nat, b: Block)
    requires Ids(s) && AllLinked(s) && Get(s.entries, id).Some?
    requires var was := Get(s.entries, id).value.block; (was.Assistant? && b.Assistant?) || (was.Reasoning? && b.Reasoning?)
    ensures AllLinked(s.(entries := SetBlock(s.entries, id, b)))
  {
    SetPatch(s.entries, id, b);
    var e, t := Get(s.entries, id).value, s.(entries := SetBlock(s.entries, id, b));
    hide AllLinked, Get, Find, Unique, SetBlock;
    PatchLess(s, t, id, Some(e.(block := b)));
    assert LessAt(s, t, id);
    FewerLinked(s, t, id);
  }

  lemma TokenLinked(s: State, sid: string, token: string, now: int)
    requires Good(s) && AllLinked(s)
    ensures AllLinked(AddToken(s, sid, token, now))
  {
    var busy := BecameBusy(s, now);
    BusyGood(s, now);
    BusyLinked(s, now);
    CloseGood(busy);
    CloseLinked(busy);
    var a := if AllWhitespace(token) then s else CloseGroup(busy);
    EndReasoningGood(a, sid);
    EndReasoningLinked(a, sid);
    var c := EndReasoning(a, sid);
    EnsureStreamGood(c, sid);
    EnsureLinked(c, sid);
    var b := EnsureStream(c, sid);
    assert b == BeforeToken(s, sid, token, now);
    hide AllLinked, CloseGroup, EndReasoning, EnsureStream, BeforeToken, ToolsOk, GroupOk, EntriesOk, StreamsOk, RowsOk, Find;
    var e := Get(b.entries, b.streams[sid]);
    if e.Some? && e.value.block.Assistant? {
      SetTextLinked(b, b.streams[sid], Assistant(e.value.block.markdown + token));
    }
  }

  lemma BusyLinked(s: State, now: int)
    requires AllLinked(s)
    ensures AllLinked(BecameBusy(s, now))
  {
    SameEntriesLinked(s, BecameBusy(s, now));
  }

  lemma SameEntriesLinked(s: State, t: State)
    requires AllLinked(s) && t.entries == s.entries && SameLinks(s, t)
    ensures AllLinked(t)
  {
    hide AllLinked, Get;
    FewerLinked(s, t, 0);
  }

  lemma CompleteLinked(s: State, sid: string, text: Option<string>)
    requires Good(s) && AllLinked(s)
    ensures AllLinked(CompleteMessage(s, sid, text))
  {
    EndReasoningGood(s, sid);
    EndReasoningLinked(s, sid);
    var a := EndReasoning(s, sid);
    hide EndReasoning;
    if sid in a.streams {
      StreamEndsLinked(a, sid, text);
    }
  }

  lemma StreamEndsLinked(a: State, sid: string, text: Option<string>)
    requires Good(a) && AllLinked(a) && sid in a.streams
    ensures var id := a.streams[sid];
            AllLinked(Finish(CompleteText(a.(streams := a.streams - {sid}), id, text), id))
  {
    var id, b := a.streams[sid], a.(streams := a.streams - {sid});
    assert Get(b.entries, id).Some? && Get(b.entries, id).value.block.Assistant? && Ids(b);
    History.CompletePatch(b, id, text);
    var t := Finish(CompleteText(b, id, text), id);
    hide CompleteText, Finish, Good, Get, Find, Unique;
    var md := Get(b.entries, id).value.block.markdown;
    PatchLess(a, t, id, Some(Entry(id, Assistant(Paragraphs.Completed(PrintedOf(b, id), md, text)), true)));
    DoneLess(a, t, id);
    assert !IsReply(t, id);
    CompleteKeepsLinks(b, id, text);
    hide Patch, IsReply, IsThought, IsRunning;
    forall x: nat | IsReply(t, x) ensures StreamOf(t, x) {
      assert StreamOf(a, x);
      var u :| u in a.streams && a.streams[u] == x;
      assert u in t.streams && t.streams[u] == x;
    }
    forall x: nat | IsThought(t, x) ensures ThoughtOf(t, x) { assert IsThought(a, x) && ThoughtOf(a, x); }
    forall slot: Slot | IsRunning(t, slot) ensures ToolOf(t, slot) {
      assert slot == Slot(slot.id, slot.idx);
      assert IsRunning(a, slot) && ToolOf(a, slot);
    }
  }

  lemma CompleteKeepsLinks(b: State, id: nat, text: Option<string>)
    ensures SameLinks(b, Finish(CompleteText(b, id, text), id))
  {
    hide Get, SetBlock, SetDone;
  }

  lemma InsertPatch(s: State, pos: nat, e: Entry)
    requires Good(s) && pos <= |s.entries| && e.id == s.nextId
    ensures Patch(s.entries, s.entries[..pos] + [e] + s.entries[pos..], s.nextId, Some(e))
  {
    GetInsert(s.entries, pos, e);
  }

  lemma ThinkLinked(s: State, sid: string, token: string, now: int)
    requires Good(s) && AllLinked(s)
    ensures AllLinked(ThinkMore(s, sid, token, now))
  {
    if sid in s.reasoning {
      var e := Get(s.entries, s.reasoning[sid]);
      hide AllLinked, Find, ToolsOk, GroupOk, EntriesOk, StreamsOk, RowsOk;
      if e.Some? && e.value.block.Reasoning? {
        SetTextLinked(s, s.reasoning[sid], Reasoning(e.value.block.text + token));
      }
    } else if ReasoningPlace(s, sid).Some? {
      PlaceInRange(s, sid);
      NewThoughtLinked(s, ReasoningPlace(s, sid).value, sid, token, now);
    }
  }

  lemma NewThoughtLinked(s: State, pos: nat, sid: string, token: string, now: int)
    requires Good(s) && AllLinked(s) && sid !in s.reasoning && pos <= |s.entries|
    ensures var e := Entry(s.nextId, Reasoning(token), false);
            AllLinked(BecameBusy(s.(entries := s.entries[..pos] + [e] + s.entries[pos..],
                                    nextId := s.nextId + 1, reasoning := s.reasoning[sid := s.nextId]), now))
  {
    hide AllLinked, Good, BecameBusy;
    var e := Entry(s.nextId, Reasoning(token), false);
    var es := s.entries[..pos] + [e] + s.entries[pos..];
    InsertPatch(s, pos, e);
    var t := s.(entries := es, nextId := s.nextId + 1, reasoning := s.reasoning[sid := s.nextId]);
    hide Patch;
    ThoughtLinked(s, t, sid, e);
    BusyLinked(t, now);
  }

  /** A new block of reasoning comes with its entry. */
  lemma ThoughtLinked(s: State, t: State, sid: string, e: Entry)
    requires AllLinked(s) && sid !in s.reasoning && e.block.Reasoning?
    requires Patch(s.entries, t.entries, s.nextId, Some(e))
    requires t.reasoning == s.reasoning[sid := s.nextId] && t.streams == s.streams && t.tools == s.tools
    ensures AllLinked(t)
  {
    var n := s.nextId;
    PatchLess(s, t, n, Some(e));
    assert !IsReply(t, n) && forall idx :: !IsRunning(t, Slot(n, idx));
    hide Get, Find, Unique, Patch, IsReply, IsThought, IsRunning;
    assert t.reasoning[sid] == n;
    forall x: nat | IsThought(t, x) ensures ThoughtOf(t, x) {
      if x != n {
        assert ThoughtOf(s, x);
        var u :| u in s.reasoning && s.reasoning[u] == x;
        assert t.reasoning[u] == x;
      }
    }
    forall x: nat | IsReply(t, x) ensures StreamOf(t, x) { assert StreamOf(s, x); }
    forall slot: Slot | IsRunning(t, slot) ensures ToolOf(t, slot) {
      assert slot == Slot(slot.id, slot.idx);
      assert ToolOf(s, slot);
    }
  }

  // ----- tools -------------------------------------------------------------------------------

  /** What runs in `t` at `slot.id` ran in `s`, but for `slot`. */
  ghost predicate OnlyAt(s: State, t: State, slot: Slot) {
    !IsReply(t, slot.id) && !IsThought(t, slot.id) &&
    forall idx :: idx != slot.idx && IsRunning(t, Slot(slot.id, idx)) ==> IsRunning(s, Slot(slot.id, idx))
  }

  lemma ToolAddedLinked(s: State, t: State, tid: string, slot: Slot)
    requires AllLinked(s) && tid !in s.tools && Less(s, t, slot.id) && OnlyAt(s, t, slot)
    requires t.tools == s.tools[tid := slot] && t.streams == s.streams && t.reasoning == s.reasoning
    ensures AllLinked(t)
  {
    hide IsReply, IsThought, IsRunning;
    assert t.tools[tid] == slot;
    forall x: nat | IsReply(t, x) ensures StreamOf(t, x) { assert IsReply(s, x) && StreamOf(s, x); }
    forall x: nat | IsThought(t, x) ensures ThoughtOf(t, x) { assert IsThought(s, x) && ThoughtOf(s, x); }
    forall other: Slot | IsRunning(t, other) ensures ToolOf(t, other) {
      assert other == Slot(other.id, other.idx);
      if other != slot {
        assert IsRunning(s, other) && ToolOf(s, other);
        var u :| u in s.tools && s.tools[u] == other;
        assert t.tools[u] == other;
      }
    }
  }

  lemma ToolGoneLinked(s: State, t: State, tid: string)
    requires AllLinked(s) && tid in s.tools && Less(s, t, s.tools[tid].id) && OnlyAt(s, t, s.tools[tid])
    requires !IsRunning(t, s.tools[tid])
    requires t.tools == s.tools - {tid} && t.streams == s.streams && t.reasoning == s.reasoning
    ensures AllLinked(t)
  {
    hide IsReply, IsThought, IsRunning;
    var slot := s.tools[tid];
    forall x: nat | IsReply(t, x) ensures StreamOf(t, x) { assert IsReply(s, x) && StreamOf(s, x); }
    forall x: nat | IsThought(t, x) ensures ThoughtOf(t, x) { assert IsThought(s, x) && ThoughtOf(s, x); }
    forall other: Slot | IsRunning(t, other) ensures ToolOf(t, other) {
      assert other == Slot(other.id, other.idx);
      assert IsRunning(s, other) && ToolOf(s, other);
      var u :| u in s.tools && s.tools[u] == other;
      assert u in t.tools && t.tools[u] == other;
    }
  }

  lemma RowLinked(c: State, tid: string, tool: Tool, isPlan: bool)
    requires Good(c) && AllLinked(c) && tid !in c.tools
    ensures AllLinked(PointRow(Append(c, ToolRow(tool), false), tid, isPlan))
  {
    AppendPatch(c, ToolRow(tool), false);
    var n, t := c.nextId, PointRow(Append(c, ToolRow(tool), false), tid, isPlan);
    PatchLess(c, t, n, Some(Entry(n, ToolRow(tool), false)));
    assert OnlyAt(c, t, Slot(n, None)) by { hide Find; }
    hide AllLinked, Good, Patch, Less, OnlyAt;
    ToolAddedLinked(c, t, tid, Slot(n, None));
  }

  lemma NewRowLinked(s: State, tid: string, tool: Tool, isPlan: bool)
    requires Good(s) && AllLinked(s) && tid !in s.tools
    ensures AllLinked(NewRow(s, tid, tool, isPlan))
  {
    CloseLinked(s);
    CloseGood(s);
    hide AllLinked, Good, CloseGroup, Append, PointRow;
    if isPlan { RowLinked(s, tid, tool, true); } else { RowLinked(CloseGroup(s), tid, tool, false); }
  }

  lemma OpenedLinked(c: State, tid: string, tool: Tool, title: Option<string>)
    requires Good(c) && AllLinked(c) && tid !in c.tools
    ensures var p := Append(c, Group([tool], false, title), false);
            AllLinked(p.(openGroup := Some(c.nextId), tools := p.tools[tid := Slot(c.nextId, Some(0))]))
  {
    AppendPatch(c, Group([tool], false, title), false);
    var n, p := c.nextId, Append(c, Group([tool], false, title), false);
    var t := p.(openGroup := Some(n), tools := p.tools[tid := Slot(n, Some(0))]);
    PatchLess(c, t, n, Some(Entry(n, Group([tool], false, title), false)));
    assert OnlyAt(c, t, Slot(n, Some(0))) by { hide Find; }
    hide AllLinked, Good, Patch, Less, OnlyAt;
    ToolAddedLinked(c, t, tid, Slot(n, Some(0)));
  }

  lemma NewGroupLinked(s: State, tid: string, tool: Tool, title: Option<string>)
    requires Good(s) && AllLinked(s) && tid !in s.tools
    ensures AllLinked(NewGroup(s, tid, tool, title))
  {
    CloseLinked(s);
    CloseGood(s);
    hide AllLinked, Good, CloseGroup;
    OpenedLinked(CloseGroup(s), tid, tool, title);
  }

  lemma JoinLinked(s: State, tid: string, tool: Tool, title: Option<string>)
    requires Good(s) && AllLinked(s) && tid !in s.tools && Joins(s, title)
    ensures AllLinked(JoinGroup(s, tid, tool, title))
  {
    var g, t := s.openGroup.value, JoinGroup(s, tid, tool, title);
    var e := Get(s.entries, g).value;
    var b := e.block.(tools := e.block.tools + [tool]);
    SetPatch(s.entries, g, b);
    hide Get, Find, SetBlock, Unique;
    PatchLess(s, t, g, Some(e.(block := b)));
    var slot := Slot(g, Some(|e.block.tools|));
    forall idx: Option<nat> | idx != slot.idx && IsRunning(t, Slot(g, idx)) ensures IsRunning(s, Slot(g, idx)) {
      assert idx.Some? && b.tools[idx.value] == e.block.tools[idx.value];
    }
    assert OnlyAt(s, t, slot);
    hide AllLinked, Good, Patch, Less, OnlyAt;
    ToolAddedLinked(s, t, tid, slot);
  }

  lemma StartToolLinked(s: State, tid: string, name: string, showing: Showing, now: int)
    requires Good(s) && AllLinked(s) && tid !in s.tools
    ensures AllLinked(StartTool(s, tid, name, showing, now))
  {
    var b, t := BecameBusy(s, now), Tool(name, Running);
    BusyGood(s, now);
    BusyLinked(s, now);
    hide AllLinked, Good, JoinGroup, NewGroup, NewRow;
    match showing
    case PlanUpdate => NewRowLinked(b, tid, t, true);
    case Single => NewRowLinked(b, tid, t, false);
    case Run(title) => if Joins(b, title) { JoinLinked(b, tid, t, title); } else { NewGroupLinked(b, tid, t, title); }
  }

  lemma FinishToolLinked(s: State, tid: string, status: Outcome)
    requires Good(s) && AllLinked(s)
    ensures AllLinked(FinishTool(s, tid, status))
  {
    if tid in s.tools {
      var slot, t := s.tools[tid], FinishTool(s, tid, status);
      if slot.idx.None? {
        FinishRowPatch(s, tid, status);
        RowEndsLinked(s, t, tid, status);
      } else {
        FinishInGroupPatch(s, tid, status);
        PlaceEndsLinked(s, t, tid, status);
      }
    }
  }

  lemma RowEndsLinked(s: State, t: State, tid: string, status: Outcome)
    requires Good(s) && AllLinked(s) && tid in s.tools && s.tools[tid].idx.None?
    requires var id := s.tools[tid].id;
             Patch(s.entries, t.entries, id, None) ||
             Patch(s.entries, t.entries, id, Some(Entry(id, Ended(Get(s.entries, id).value.block, None, status), true)))
    requires t.tools == s.tools - {tid} && t.streams == s.streams && t.reasoning == s.reasoning
    ensures AllLinked(t)
  {
    var slot := s.tools[tid];
    PatchLess(s, t, slot.id, Get(t.entries, slot.id));
    hide Find, Unique, Ended;
    assert OnlyAt(s, t, slot) && !IsRunning(t, slot);
    hide AllLinked, Good, Patch, Less, OnlyAt, Get, IsRunning;
    ToolGoneLinked(s, t, tid);
  }

  lemma PlaceEndsLinked(s: State, t: State, tid: string, status: Outcome)
    requires Good(s) && AllLinked(s) && tid in s.tools && s.tools[tid].idx.Some?
    requires var slot := s.tools[tid];
             var b := Ended(Get(s.entries, slot.id).value.block, slot.idx, status);
             Patch(s.entries, t.entries, slot.id, Some(Entry(slot.id, b, b.closed && AllStopped(b.tools))))
    requires t.tools == s.tools - {tid} && t.streams == s.streams && t.reasoning == s.reasoning
    ensures AllLinked(t)
  {
    var slot := s.tools[tid];
    PatchLess(s, t, slot.id, Get(t.entries, slot.id));
    hide Find, Unique, Get;
    assert SlotOk(Get(s.entries, slot.id), slot.idx);
    var was := Get(s.entries, slot.id).value.block;
    var b := Ended(was, slot.idx, status);
    forall idx: Option<nat> | idx != slot.idx && IsRunning(t, Slot(slot.id, idx)) ensures IsRunning(s, Slot(slot.id, idx)) {
      assert idx.Some? && b.tools[idx.value] == was.tools[idx.value];
    }
    assert OnlyAt(s, t, slot) && !IsRunning(t, slot);
    hide AllLinked, Good, Patch, Less, OnlyAt, IsRunning;
    ToolGoneLinked(s, t, tid);
  }

  // ----- every event ---------------------------------------------------------------------------

  lemma RestIsLinked(s: State)
    requires Ids(s) && AtRest(s)
    ensures AllLinked(s)
  {
    forall x: nat | Get(s.entries, x).Some? ensures Get(s.entries, x).value.done {
      var k := Find(s.entries, x).value;
      assert s.entries[k].done;
    }
    hide Get;
  }

  lemma ClearedLinked(s: State)
    requires Good(s) && AllLinked(s)
    ensures AllLinked(s.(entries := Keep(s.entries, (e: Entry) => !e.done), plan := None))
  {
    var t := s.(entries := Keep(s.entries, (e: Entry) => !e.done), plan := None);
    GetKeep(s.entries, (e: Entry) => !e.done);
    hide AllLinked, Get, Keep, Good;
    FewerLinked(s, t, 0);
  }

  lemma HeadLinked(s: State, e: Entry, c: Paragraphs.Cut, t: State)
    requires Ids(s) && AllLinked(s) && Get(s.entries, e.id) == Some(e) && e.block.Assistant? && SameLinks(s, t)
    requires forall x: nat :: Get(t.entries, x) ==
               if x == s.nextId then Some(Entry(s.nextId, Assistant(c.head), true))
               else if x == e.id then Some(e.(block := Assistant(c.tail))) else Get(s.entries, x)
    ensures AllLinked(t)
  {
    hide AllLinked, Get, Find, Unique;
    assert Less(s, t, e.id) && LessAt(s, t, e.id);
    FewerLinked(s, t, e.id);
  }

  lemma SplitLinked(s: State)
    requires Good(s) && AllLinked(s)
    ensures AllLinked(SplitLeading(s))
  {
    if SplitLeading(s) != s {
      var e := s.entries[0];
      var c := Paragraphs.CutOf(e.block.markdown).value;
      GetAt(s.entries, 0);
      History.SplitPatch(s, e, c);
      hide AllLinked, Get, Find, Unique, Paragraphs.CutOf;
      HeadLinked(s, e, c, SplitLeading(s));
    }
  }

  lemma DroppedLinked(s: State)
    requires Ids(s) && AllLinked(s)
    ensures AllLinked(s.(entries := s.entries[DoneCount(s.entries)..]))
  {
    GetDrop(s.entries, DoneCount(s.entries));
    var t := s.(entries := s.entries[DoneCount(s.entries)..]);
    hide AllLinked, Get, Find, Unique;
    FewerLinked(s, t, 0);
  }

  lemma TakeLinked(s: State)
    requires Good(s) && AllLinked(s)
    ensures AllLinked(TakeHistory(s))
  {
    SplitLinked(s);
    SplitLeadingGood(s);
    hide AllLinked, SplitLeading, ToolsOk, GroupOk, EntriesOk, StreamsOk, RowsOk;
    DroppedLinked(SplitLeading(s));
  }

  lemma SettledLinked(s: State, interrupted: bool)
    requires Good(s)
    ensures AllLinked(Settle(s, interrupted))
  {
    SettleStopsEverything(s, interrupted);
    hide AllLinked, Settle, AtRest, ToolsOk, GroupOk, EntriesOk, StreamsOk, RowsOk;
    RestIsLinked(Settle(s, interrupted));
  }

  lemma StepLinked(s: State, e: Event, now: int)
    requires Good(s) && AllLinked(s) && !Restarts(s, e)
    ensures AllLinked(Step(s, e, now))
  {
    hide Good, AllLinked, StartStream, ThinkMore, AddToken, CompleteMessage, StartTool, FinishTool, Settle, TakeHistory, Push, BecameBusy, Keep;
    match e
    case StreamStarted(sid) => StartStreamLinked(s, sid, now);
    case ReasoningDelta(sid, token) => ThinkLinked(s, sid, token, now);
    case TokenDelta(sid, token) => TokenLinked(s, sid, token, now);
    case MessageCompleted(sid, text) => CompleteLinked(s, sid, text);
    case ToolStarted(tid, name, showing) => StartToolLinked(s, tid, name, showing, now);
    case ToolFinished(tid, status) => FinishToolLinked(s, tid, status);
    case BlockShown(block) => ShownLinked(s, block);
    case TodoList(items) => SameEntriesLinked(s, Step(s, e, now));
    case Phase(busy) =>
      FlagsGood(s, None, false, busy);
      if busy {
        SameEntriesLinked(s, s.(phaseBusy := true));
        BusyLinked(s.(phaseBusy := true), now);
      } else { SettledLinked(s.(phaseBusy := false), false); }
    case Cleared => ClearedLinked(s);
    case Cancelled => SettledLinked(s, true);
    case HistoryTaken => TakeLinked(s);
  }

  // ----- a start under an id in use ------------------------------------------------------------

  lemma NoMoreStream(s: State, t: State, sid: string)
    requires Good(s) && sid in s.streams && t.streams == s.streams[sid := s.nextId]
    ensures !StreamOf(t, s.streams[sid])
  {
    hide EntriesOk, ToolsOk, GroupOk, RowsOk, Unique, Find;
  }

  lemma StreamRestarts(s: State, sid: string, now: int)
    requires Good(s) && sid in s.streams
    ensures var t, x := StartStream(s, sid, now), s.streams[sid]; IsReply(t, x) && !StreamOf(t, x)
  {
    var t := StartStream(s, sid, now);
    assert t.entries == Append(s, Assistant(""), false).entries && t.streams == s.streams[sid := s.nextId] by { hide Good; }
    hide StartStream, Append;
    AppendPatch(s, Assistant(""), false);
    NoMoreStream(s, t, sid);
    hide Find, Unique, ToolsOk, GroupOk, RowsOk, EntriesOk;
    assert s.streams[sid] != s.nextId;
  }

  lemma NoMoreTool(s: State, t: State, tid: string, slot: Slot)
    requires Good(s) && tid in s.tools && t.tools == s.tools[tid := slot] && slot != s.tools[tid]
    ensures !ToolOf(t, s.tools[tid])
  {
    hide EntriesOk, StreamsOk, GroupOk, RowsOk, Unique, Find;
  }

  /** Closing the open group stops no tool. */
  lemma CloseKeepsRunning(s: State, slot: Slot)
    requires Good(s) && IsRunning(s, slot)
    ensures IsRunning(CloseGroup(s), slot)
  {
    if s.openGroup.Some? {
      var g := s.openGroup.value;
      var b := Get(s.entries, g).value.block.(closed := true);
      SetPatch(s.entries, g, b);
      var t := s.(entries := SetBlock(s.entries, g, b), openGroup := None);
      hide Get, Find, Unique, SetBlock, SetDone, StreamsOk, RowsOk, ToolsOk;
      FinishPatch(t, g);
    }
  }

  lemma AddedKeepsRunning(c: State, b: Block, t: State, slot: Slot)
    requires Ids(c) && IsRunning(c, slot) && t.entries == Append(c, b, false).entries
    ensures IsRunning(t, slot) && slot.id != c.nextId
  {
    AppendPatch(c, b, false);
    hide Find, Unique;
    assert Get(c.entries, slot.id).Some?;
  }

  lemma JoinKeepsRunning(s: State, tid: string, tool: Tool, title: Option<string>, slot: Slot)
    requires Good(s) && Joins(s, title) && IsRunning(s, slot)
    ensures var t := JoinGroup(s, tid, tool, title); IsRunning(t, slot) && t.tools[tid] != slot
  {
    var g := s.openGroup.value;
    var b := Get(s.entries, g).value.block;
    SetPatch(s.entries, g, b.(tools := b.tools + [tool]));
    hide Get, Find, Unique, SetBlock;
  }

  lemma NewKeepsRunning(b: State, tid: string, tool: Tool, showing: Showing, slot: Slot)
    requires Good(b) && IsRunning(b, slot) && (showing.Run? ==> !Joins(b, showing.title))
    ensures var t := if showing.Run? then NewGroup(b, tid, tool, showing.title) else NewRow(b, tid, tool, showing.PlanUpdate?);
            IsRunning(t, slot) && tid in t.tools && t.tools[tid] != slot
  {
    CloseGood(b);
    CloseKeepsRunning(b, slot);
    hide Good, Get, CloseGroup, IsRunning;
    GoodIds(b);
    GoodIds(CloseGroup(b));
    if showing.PlanUpdate? {
      AddedKeepsRunning(b, ToolRow(tool), NewRow(b, tid, tool, true), slot);
    } else if showing.Single? {
      AddedKeepsRunning(CloseGroup(b), ToolRow(tool), NewRow(b, tid, tool, false), slot);
    } else {
      AddedKeepsRunning(CloseGroup(b), Group([tool], false, showing.title), NewGroup(b, tid, tool, showing.title), slot);
    }
  }

  lemma ToolRestarts(s: State, tid: string, name: string, showing: Showing, now: int)
    requires Good(s) && tid in s.tools
    ensures var t, slot := StartTool(s, tid, name, showing, now), s.tools[tid]; IsRunning(t, slot) && !ToolOf(t, slot)
  {
    var b, tool, slot := BecameBusy(s, now), Tool(name, Running), s.tools[tid];
    var t := StartTool(s, tid, name, showing, now);
    BusyGood(s, now);
    assert IsRunning(b, slot);
    hide Good, Get, IsRunning;
    if showing.Run? && Joins(b, showing.title) {
      JoinKeepsRunning(b, tid, tool, showing.title, slot);
    } else {
      NewKeepsRunning(b, tid, tool, showing, slot);
    }
    ToolsOnlyAt(s, tid, name, showing, now);
    NoMoreTool(s, t, tid, t.tools[tid]);
  }

  /** A tool started is found where it was put. */
  ghost predicate Put(s: State, t: State, tid: string) {
    tid in t.tools && t.tools == s.tools[tid := t.tools[tid]]
  }

  lemma RowPut(s: State, tid: string, tool: Tool, isPlan: bool)
    requires Good(s)
    ensures Put(s, NewRow(s, tid, tool, isPlan), tid)
  {
    CloseGood(s);
    hide CloseGroup, Good, Append;
  }

  lemma GroupPut(s: State, tid: string, tool: Tool, title: Option<string>)
    requires Good(s)
    ensures Put(s, NewGroup(s, tid, tool, title), tid)
  {
    CloseGood(s);
    hide CloseGroup, Good, Append;
  }

  lemma JoinPut(s: State, tid: string, tool: Tool, title: Option<string>)
    requires Joins(s, title)
    ensures Put(s, JoinGroup(s, tid, tool, title), tid)
  {
    hide Get, SetBlock;
  }

  lemma ToolsOnlyAt(s: State, tid: string, name: string, showing: Showing, now: int)
    requires Good(s)
    ensures Put(s, StartTool(s, tid, name, showing, now), tid)
  {
    var b, t := BecameBusy(s, now), Tool(name, Running);
    BusyGood(s, now);
    hide Good, JoinGroup, NewGroup, NewRow, Get;
    match showing
    case PlanUpdate => RowPut(b, tid, t, true);
    case Single => RowPut(b, tid, t, false);
    case Run(title) => if Joins(b, title) { JoinPut(b, tid, t, title); } else { GroupPut(b, tid, t, title); }
  }

  /** An event leaves a block that nothing will finish exactly when it starts a stream or a tool
      under an id that is still in use. */
  lemma StepLinkedIff(s: State, e: Event, now: int)
    requires Good(s) && AllLinked(s)
    ensures AllLinked(Step(s, e, now)) <==> !Restarts(s, e)
  {
    hide Good, IsReply, IsRunning, StreamOf, ToolOf, StartStream, StartTool;
    if Restarts(s, e) {
      if e.StreamStarted? { StreamRestarts(s, e.sid, now); } else { ToolRestarts(s, e.tid, e.name, e.showing, now); }
    } else {
      hide AllLinked;
      StepLinked(s, e, now);
    }
  }

  /** No event of the run starts something under an id in use. */
  ghost predicate NoRestart(events: seq<History.Timed>) {
    forall k :: 0 <= k < |events| ==> !Restarts(History.RunFrom(History.BEGIN, events[..k]).s, events[k].event)
  }

  lemma NothingYet()
    ensures AllLinked(START)
  {
  }

  /** On every run without such a start each unfinished block is awaited. */
  lemma {:induction false} EveryRunIsLinked(events: seq<History.Timed>)
    requires History.Legal(events) && NoRestart(events)
    ensures var s := History.RunFrom(History.BEGIN, events).s;
            AllLinked(s) && forall x: nat :: Get(s.entries, x).Some? && !Get(s.entries, x).value.done ==> IsAwaited(s, x)
  {
    hide AllLinked, Good, IsAwaited, Get, Step, Restarts, History.Once, History.TextOk;
    var r := History.RunFrom(History.BEGIN, events);
    History.EveryRunIsSound(events);
    if events != [] {
      var init, e := events[..|events| - 1], events[|events| - 1];
      forall k | 0 <= k < |init| ensures !Restarts(History.RunFrom(History.BEGIN, init[..k]).s, init[k].event) {
        assert init[..k] == events[..k];
      }
      EveryRunIsLinked(init);
      History.EveryRunIsSound(init);
      var m := History.RunFrom(History.BEGIN, init);
      assert events[..|init|] == init;
      StepLinkedIff(m.s, e.event, e.now);
    } else {
      NothingYet();
    }
    forall x: nat | Get(r.s.entries, x).Some? && !Get(r.s.entries, x).value.done ensures IsAwaited(r.s, x) {
      LinkedIsAwaited(r.s, x);
    }
  }
}
