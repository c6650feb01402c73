/** Orphans of the transcript (crates/inline/src/session.rs): blocks that nothing will finish.  They
    stay until the turn ends, and hold back everything behind them. */
module Stalls {
  import opened Chars
  import opened Styles
  import opened Transcript
  import opened Orphans
  import History
  import Paragraphs

  // ----- a block that nothing will finish ------------------------------------------------------

  ghost predicate Stuck(s: State, x: nat) {
    Get(s.entries, x).Some? && !Get(s.entries, x).value.done && !IsAwaited(s, x)
  }

  /** Nothing points at `x` in `t` that did not in `s`. */
  ghost predicate NoNewLink(s: State, t: State, x: nat) {
    (StreamOf(t, x) ==> StreamOf(s, x)) && (ThoughtOf(t, x) ==> ThoughtOf(s, x)) &&
    (t.openGroup == Some(x) ==> s.openGroup == Some(x)) &&
    forall idx: Option<nat> :: ToolOf(t, Slot(x, idx)) ==> ToolOf(s, Slot(x, idx))
  }

  lemma ReplyIsStuck(s: State, x: nat)
    requires Good(s) && IsReply(s, x) && !StreamOf(s, x)
    ensures Stuck(s, x)
  {
    hide Find, Unique, Get;
    assert !ThoughtOf(s, x) && s.openGroup != Some(x);
    forall idx: Option<nat> ensures !ToolOf(s, Slot(x, idx)) {}
  }

  lemma ThoughtIsStuck(s: State, x: nat)
    requires Good(s) && IsThought(s, x) && !ThoughtOf(s, x)
    ensures Stuck(s, x)
  {
    hide Find, Unique, Get;
    assert !StreamOf(s, x) && s.openGroup != Some(x);
    forall idx: Option<nat> ensures !ToolOf(s, Slot(x, idx)) {}
  }

  /** Another block changes. */
  lemma PatchStuck(s: State, t: State, n: nat, e: Option<Entry>, x: nat)
    requires Stuck(s, x) && Patch(s.entries, t.entries, n, e) && n != x && NoNewLink(s, t, x)
    ensures Stuck(t, x)
  {
    hide Get, Unique, StreamOf, ThoughtOf, ToolOf;
  }

  lemma SameStuck(s: State, t: State, x: nat)
    requires Stuck(s, x) && t.entries == s.entries && NoNewLink(s, t, x)
    ensures Stuck(t, x)
  {
    hide Get, StreamOf, ThoughtOf, ToolOf;
  }

  /** What links and bounds say of a block that nothing points at. */
  lemma StuckIs(s: State, x: nat)
    requires Good(s) && Stuck(s, x)
    ensures x < s.nextId && s.openGroup != Some(x)
    ensures forall u :: u in s.streams ==> s.streams[u] != x
    ensures forall u :: u in s.reasoning ==> s.reasoning[u] != x
    ensures forall u :: u in s.tools ==> s.tools[u].id != x
  {
    hide Get, Find, Unique;
    forall u | u in s.tools ensures s.tools[u].id != x {
      var slot := s.tools[u];
      assert ToolOf(s, slot) && slot == Slot(slot.id, slot.idx);
    }
  }

  lemma FinishStuck(s: State, id: nat, x: nat)
    requires Ids(s) && Stuck(s, x) && id != x
    ensures Stuck(Finish(s, id), x)
  {
    FinishPatch(s, id);
    var e := Get(s.entries, id);
    hide Get, Find, Unique, SetDone, Stuck;
    PatchStuck(s, Finish(s, id), id, if e.Some? then Some(e.value.(done := true)) else None, x);
  }

  lemma CloseStuck(s: State, x: nat)
    requires Good(s) && Stuck(s, x)
    ensures Stuck(CloseGroup(s), x)
  {
    StuckIs(s, x);
    if s.openGroup.Some? {
      var g := s.openGroup.value;
      var e := Get(s.entries, g).value;
      var b := e.block.(closed := true);
      SetPatch(s.entries, g, b);
      var t := s.(entries := SetBlock(s.entries, g, b), openGroup := None);
      hide Get, Find, Unique, SetBlock, Finish, Stuck;
      PatchStuck(s, t, g, Some(e.(block := b)), x);
      PatchIds(s, t);
      FinishStuck(t, g, x);
    }
  }

  lemma PushStuck(s: State, b: Block, done: bool, x: nat)
    requires Good(s) && Stuck(s, x)
    ensures Stuck(Push(s, b, done), x) && Stuck(Append(s, b, done), x)
  {
    CloseStuck(s, x);
    CloseGood(s);
    hide Good, Stuck, CloseGroup, Append;
    AppendStuck(s, b, done, x);
    AppendStuck(CloseGroup(s), b, done, x);
  }

  lemma AppendStuck(s: State, b: Block, done: bool, x: nat)
    requires Good(s) && Stuck(s, x)
    ensures Stuck(Append(s, b, done), x)
  {
    StuckIs(s, x);
    AppendPatch(s, b, done);
    hide Get, Find, Unique, Stuck;
    PatchStuck(s, Append(s, b, done), s.nextId, Some(Entry(s.nextId, b, done)), x);
  }

  /** Links to other blocks may come and go. */
  lemma RelinkStuck(s: State, t: State, x: nat)
    requires Stuck(s, x) && t.entries == s.entries && t.openGroup != Some(x)
    requires forall u :: u in t.streams ==> t.streams[u] != x
    requires forall u :: u in t.reasoning ==> t.reasoning[u] != x
    requires forall u :: u in t.tools ==> t.tools[u].id != x
    ensures Stuck(t, x)
  {
    hide Get;
    assert forall idx: Option<nat> :: !ToolOf(t, Slot(x, idx));
  }

  lemma StartStreamStuck(s: State, sid: string, now: int, x: nat)
    requires Good(s) && Stuck(s, x)
    ensures Stuck(StartStream(s, sid, now), x) && Stuck(EnsureStream(s, sid), x)
  {
    StuckIs(s, x);
    AppendStuck(s, Assistant(""), false, x);
    hide Good, Stuck;
    RelinkStuck(Append(s, Assistant(""), false), StartStream(s, sid, now), x);
    if sid !in s.streams { RelinkStuck(Append(s, Assistant(""), false), EnsureStream(s, sid), x); }
  }

  lemma EndReasoningStuck(s: State, sid: string, x: nat)
    requires Good(s) && Stuck(s, x)
    ensures Stuck(EndReasoning(s, sid), x)
  {
    StuckIs(s, x);
    GoodIds(s);
    if sid in s.reasoning {
      hide Good, Stuck, Finish, Get, Unique;
      var t := s.(reasoning := s.reasoning - {sid});
      RelinkStuck(s, t, x);
      FinishStuck(t, s.reasoning[sid], x);
    }
  }

  lemma SetStuck(s: State, id: nat, b: Block, x: nat)
    requires Ids(s) && Stuck(s, x) && id != x && Get(s.entries, id).Some?
    ensures Stuck(s.(entries := SetBlock(s.entries, id, b)), x)
  {
    SetPatch(s.entries, id, b);
    var e := Get(s.entries, id).value;
    hide Get, Find, Unique, SetBlock, Stuck;
    PatchStuck(s, s.(entries := SetBlock(s.entries, id, b)), id, Some(e.(block := b)), x);
  }

  lemma TokenStuck(s: State, sid: string, token: string, now: int, x: nat)
    requires Good(s) && Stuck(s, x)
    ensures Stuck(AddToken(s, sid, token, now), x)
  {
    hide Good, Stuck, BecameBusy, CloseGroup, EndReasoning, EnsureStream, AddText;
    var busy := BecameBusy(s, now);
    BusyGood(s, now);
    BusyStuck(s, now, x);
    CloseGood(busy);
    CloseStuck(busy, x);
    var a := if AllWhitespace(token) then s else CloseGroup(busy);
    EndReasoningGood(a, sid);
    EndReasoningStuck(a, sid, x);
    var c := EndReasoning(a, sid);
    EnsureStreamGood(c, sid);
    StartStreamStuck(c, sid, now, x);
    var b := EnsureStream(c, sid);
    assert b == BeforeToken(s, sid, token, now);
    TextStuck(b, sid, token, x);
  }

  lemma TextStuck(b: State, sid: string, token: string, x: nat)
    requires Good(b) && Stuck(b, x) && sid in b.streams
    ensures Stuck(AddText(b, b.streams[sid], token), x)
  {
    StuckIs(b, x);
    GoodIds(b);
    hide Good, Stuck, SetBlock;
    var e := Get(b.entries, b.streams[sid]);
    if e.Some? && e.value.block.Assistant? { SetStuck(b, b.streams[sid], Assistant(e.value.block.markdown + token), x); }
  }

  lemma CompleteStuck(s: State, sid: string, text: Option<string>, x: nat)
    requires Good(s) && Stuck(s, x)
    ensures Stuck(CompleteMessage(s, sid, text), x)
  {
    EndReasoningGood(s, sid);
    EndReasoningStuck(s, sid, x);
    var a := EndReasoning(s, sid);
    hide EndReasoning;
    if sid in a.streams { StreamEndStuck(a, sid, text, x); }
  }

  lemma StreamEndStuck(a: State, sid: string, text: Option<string>, x: nat)
    requires Good(a) && Stuck(a, x) && sid in a.streams
    ensures var id := a.streams[sid]; Stuck(Finish(CompleteText(a.(streams := a.streams - {sid}), id, text), id), x)
  {
    var id, b := a.streams[sid], a.(streams := a.streams - {sid});
    StuckIs(a, x);
    assert Get(b.entries, id).Some? && Get(b.entries, id).value.block.Assistant? && Ids(b);
    History.CompletePatch(b, id, text);
    CompleteKeepsLinks(b, id, text);
    CompleteKeepsGroup(b, id, text);
    var t := Finish(CompleteText(b, id, text), id);
    hide CompleteText, Finish, Good, Get, Find, Unique, Stuck;
    PatchStuck(a, t, id, Some(Entry(id, Assistant(Paragraphs.Completed(PrintedOf(b, id), Get(b.entries, id).value.block.markdown, text)), true)), x);
  }

  lemma CompleteKeepsGroup(b: State, id: nat, text: Option<string>)
    ensures Finish(CompleteText(b, id, text), id).openGroup == b.openGroup
  {
    hide Get, SetBlock, SetDone;
  }

  lemma ThinkStuck(s: State, sid: string, token: string, now: int, x: nat)
    requires Good(s) && Stuck(s, x)
    ensures Stuck(ThinkMore(s, sid, token, now), x)
  {
    hide Good, Stuck, ReasoningPlace;
    if sid in s.reasoning {
      MoreStuck(s, sid, token, x);
    } else if ReasoningPlace(s, sid).Some? {
      StuckIs(s, x);
      GoodIds(s);
      PlaceInRange(s, sid);
      ThoughtStuck(s, ReasoningPlace(s, sid).value, sid, token, now, x);
    }
  }

  lemma MoreStuck(s: State, sid: string, token: string, x: nat)
    requires Good(s) && Stuck(s, x) && sid in s.reasoning
    ensures var e := Get(s.entries, s.reasoning[sid]);
            e.Some? && e.value.block.Reasoning? ==>
              Stuck(s.(entries := SetBlock(s.entries, s.reasoning[sid], Reasoning(e.value.block.text + token))), x)
  {
    StuckIs(s, x);
    GoodIds(s);
    hide Good, Stuck, SetBlock, Get;
    var e := Get(s.entries, s.reasoning[sid]);
    if e.Some? && e.value.block.Reasoning? { SetStuck(s, s.reasoning[sid], Reasoning(e.value.block.text + token), x); }
  }

  lemma ThoughtStuck(s: State, pos: nat, sid: string, token: string, now: int, x: nat)
    requires Ids(s) && Stuck(s, x) && pos <= |s.entries| && x < s.nextId
    ensures var e := Entry(s.nextId, Reasoning(token), false);
            Stuck(BecameBusy(s.(entries := s.entries[..pos] + [e] + s.entries[pos..],
                                nextId := s.nextId + 1, reasoning := s.reasoning[sid := s.nextId]), now), x)
  {
    var e := Entry(s.nextId, Reasoning(token), false);
    GetInsert(s.entries, pos, e);
    var t := BecameBusy(s.(entries := s.entries[..pos] + [e] + s.entries[pos..],
                           nextId := s.nextId + 1, reasoning := s.reasoning[sid := s.nextId]), now);
    hide Get, Find, Unique, Stuck;
    PatchStuck(s, t, s.nextId, Some(e), x);
  }

  lemma RowIs(s: State, tid: string, tool: Tool, isPlan: bool)
    ensures NewRow(s, tid, tool, isPlan) ==
            PointRow(Append(if isPlan then s else CloseGroup(s), ToolRow(tool), false), tid, isPlan)
  {
    hide CloseGroup, Append, PointRow;
  }

  /** A group as the last block, open, with its one tool. */
  function WithGroup(c: State, tid: string, tool: Tool, title: Option<string>): State {
    var p := Append(c, Group([tool], false, title), false);
    p.(openGroup := Some(c.nextId), tools := p.tools[tid := Slot(c.nextId, Some(0))])
  }

  lemma GroupIs(s: State, tid: string, tool: Tool, title: Option<string>)
    ensures NewGroup(s, tid, tool, title) == WithGroup(CloseGroup(s), tid, tool, title)
  {
    hide CloseGroup;
  }

  lemma RowStuck(c: State, tid: string, tool: Tool, isPlan: bool, x: nat)
    requires Good(c) && Stuck(c, x)
    ensures Stuck(PointRow(Append(c, ToolRow(tool), false), tid, isPlan), x)
  {
    AppendStuck(c, ToolRow(tool), false, x);
    hide Good, Stuck;
    StuckLinks(c, Append(c, ToolRow(tool), false), PointRow(Append(c, ToolRow(tool), false), tid, isPlan), x);
  }

  lemma GroupStuck(c: State, tid: string, tool: Tool, title: Option<string>, x: nat)
    requires Good(c) && Stuck(c, x)
    ensures Stuck(WithGroup(c, tid, tool, title), x)
  {
    AppendStuck(c, Group([tool], false, title), false, x);
    hide Good, Stuck;
    StuckLinks(c, Append(c, Group([tool], false, title), false), WithGroup(c, tid, tool, title), x);
  }

  lemma NewToolStuck(s: State, tid: string, tool: Tool, showing: Showing, x: nat)
    requires Good(s) && Stuck(s, x)
    ensures Stuck(NewRow(s, tid, tool, showing.PlanUpdate?), x)
    ensures showing.Run? ==> Stuck(NewGroup(s, tid, tool, showing.title), x)
  {
    CloseGood(s);
    CloseStuck(s, x);
    hide Good, Stuck, CloseGroup, NewRow, NewGroup;
    if showing.PlanUpdate? { RowStuck(s, tid, tool, true, x); } else { RowStuck(CloseGroup(s), tid, tool, false, x); }
    if showing.Run? { GroupStuck(CloseGroup(s), tid, tool, showing.title, x); }
    RowIs(s, tid, tool, showing.PlanUpdate?);
    if showing.Run? { GroupIs(s, tid, tool, showing.title); }
  }

  /** A new block, and links to it. */
  lemma StuckLinks(s: State, p: State, t: State, x: nat)
    requires Good(s) && Stuck(s, x) && Stuck(p, x) && t.entries == p.entries
    requires t.streams == s.streams && t.reasoning == s.reasoning && (t.openGroup == s.openGroup || t.openGroup == Some(s.nextId))
    requires forall u :: u in t.tools ==> t.tools[u].id == s.nextId || (u in s.tools && t.tools[u] == s.tools[u])
    ensures Stuck(t, x)
  {
    StuckIs(s, x);
    hide Good, Stuck;
    RelinkStuck(p, t, x);
  }

  lemma JoinStuck(s: State, tid: string, tool: Tool, title: Option<string>, x: nat)
    requires Good(s) && Stuck(s, x) && Joins(s, title)
    ensures Stuck(JoinGroup(s, tid, tool, title), x)
  {
    StuckIs(s, x);
    GoodIds(s);
    var g := s.openGroup.value;
    var b := Get(s.entries, g).value.block;
    hide Good, Stuck, SetBlock, Get;
    SetStuck(s, g, b.(tools := b.tools + [tool]), x);
    RelinkStuck(s.(entries := SetBlock(s.entries, g, b.(tools := b.tools + [tool]))), JoinGroup(s, tid, tool, title), x);
  }

  lemma BusyStuck(s: State, now: int, x: nat)
    requires Stuck(s, x)
    ensures Stuck(BecameBusy(s, now), x)
  {
    assert BecameBusy(s, now).entries == s.entries && NoNewLink(s, BecameBusy(s, now), x);
    hide Stuck, BecameBusy, NoNewLink;
    SameStuck(s, BecameBusy(s, now), x);
  }

  lemma StartToolStuck(s: State, tid: string, name: string, showing: Showing, now: int, x: nat)
    requires Good(s) && Stuck(s, x)
    ensures Stuck(StartTool(s, tid, name, showing, now), x)
  {
    var b, t := BecameBusy(s, now), Tool(name, Running);
    BusyGood(s, now);
    BusyStuck(s, now, x);
    hide Good, Stuck, JoinGroup, NewGroup, NewRow;
    if showing.Run? && Joins(b, showing.title) { JoinStuck(b, tid, t, showing.title, x); } else { NewToolStuck(b, tid, t, showing, x); }
  }

  lemma FinishToolStuck(s: State, tid: string, status: Outcome, x: nat)
    requires Good(s) && Stuck(s, x)
    ensures Stuck(FinishTool(s, tid, status), x)
  {
    if tid in s.tools {
      var slot, t := s.tools[tid], FinishTool(s, tid, status);
      if slot.idx.None? { FinishRowPatch(s, tid, status); } else { FinishInGroupPatch(s, tid, status); }
      hide Good, Stuck, FinishTool, Ended, Find, Unique, Get;
      ToolGoneStuck(s, t, tid, Get(t.entries, slot.id), x);
    }
  }

  lemma ToolGoneStuck(s: State, t: State, tid: string, e: Option<Entry>, x: nat)
    requires Good(s) && Stuck(s, x) && tid in s.tools && Patch(s.entries, t.entries, s.tools[tid].id, e)
    requires t.streams == s.streams && t.reasoning == s.reasoning && t.openGroup == s.openGroup && t.tools == s.tools - {tid}
    ensures Stuck(t, x)
  {
    StuckIs(s, x);
    hide Good, Stuck, Patch, ThoughtOf, StreamOf;
    assert forall idx: Option<nat> :: !ToolOf(t, Slot(x, idx));
    assert NoNewLink(s, t, x);
    PatchStuck(s, t, s.tools[tid].id, e, x);
  }

  lemma FewerStuck(s: State, t: State, x: nat)
    requires Stuck(s, x) && Get(t.entries, x) == Get(s.entries, x) && SameLinks(s, t) && t.openGroup == s.openGroup
    ensures Stuck(t, x)
  {
    hide Get;
  }

  lemma ClearedStuck(s: State, x: nat)
    requires Good(s) && Stuck(s, x)
    ensures Stuck(s.(entries := Keep(s.entries, (e: Entry) => !e.done), plan := None), x)
  {
    GetKeep(s.entries, (e: Entry) => !e.done);
    FewerStuck(s, s.(entries := Keep(s.entries, (e: Entry) => !e.done), plan := None), x);
  }

  lemma DropStuck(a: State, x: nat)
    requires Good(a) && Stuck(a, x)
    ensures Stuck(a.(entries := a.entries[DoneCount(a.entries)..]), x)
  {
    hide StreamsOk, ToolsOk, GroupOk, EntriesOk, RowsOk;
    GetDrop(a.entries, DoneCount(a.entries));
    assert Find(a.entries, x).value >= DoneCount(a.entries);
    hide Find, DoneCount;
    FewerStuck(a, a.(entries := a.entries[DoneCount(a.entries)..]), x);
  }

  lemma SplitStuck(s: State, x: nat)
    requires Good(s) && Stuck(s, x)
    ensures Stuck(SplitLeading(s), x)
  {
    if SplitLeading(s) != s {
      StuckIs(s, x);
      var e := s.entries[0];
      var c := Paragraphs.CutOf(e.block.markdown).value;
      GetAt(s.entries, 0);
      History.SplitPatch(s, e, c);
      hide Get, Find, Unique, Paragraphs.CutOf, Good;
      assert NoNewLink(s, SplitLeading(s), x);
      hide StreamOf, ThoughtOf, ToolOf;
    }
  }

  lemma TakeStuck(s: State, x: nat)
    requires Good(s) && Stuck(s, x)
    ensures Stuck(TakeHistory(s), x)
  {
    hide SplitLeading, Good, Stuck;
    SplitStuck(s, x);
    SplitLeadingGood(s);
    DropStuck(SplitLeading(s), x);
  }

  /** The event ends the turn. */
  predicate Settles(s: State, e: Event) { e.Cancelled? || (e.Phase? && !e.busy && s.phaseBusy) }

  /** A block that nothing will finish stays so until the turn ends. */
  lemma StuckStays(s: State, e: Event, now: int, x: nat)
    requires Good(s) && Stuck(s, x) && !Settles(s, e)
    ensures Stuck(Step(s, e, now), x)
  {
    hide Good, Stuck, StartStream, ThinkMore, AddToken, CompleteMessage, StartTool, FinishTool, Settle, TakeHistory, Push, Keep;
    match e
    case StreamStarted(sid) => StartStreamStuck(s, sid, now, x);
    case ReasoningDelta(sid, token) => ThinkStuck(s, sid, token, now, x);
    case TokenDelta(sid, token) => TokenStuck(s, sid, token, now, x);
    case MessageCompleted(sid, text) => CompleteStuck(s, sid, text, x);
    case ToolStarted(tid, name, showing) => StartToolStuck(s, tid, name, showing, now, x);
    case ToolFinished(tid, status) => FinishToolStuck(s, tid, status, x);
    case BlockShown(block) => PushStuck(s, block, true, x);
    case TodoList(items) => SameStuck(s, Step(s, e, now), x);
    case Phase(busy) => SameStuck(s, Step(s, e, now), x);
    case Cleared => ClearedStuck(s, x);
    case Cancelled =>
    case HistoryTaken => TakeStuck(s, x);
  }

  // ----- a tool that no id points at -------------------------------------------------------------

  /** The tool at `slot` runs under no id: it may be in a group that other ids point at. */
  ghost predicate Lost(s: State, slot: Slot) { IsRunning(s, slot) && !ToolOf(s, slot) }

  lemma SameLost(s: State, t: State, slot: Slot)
    requires Lost(s, slot) && IsRunning(t, slot) && t.tools == s.tools
    ensures Lost(t, slot)
  {
    hide IsRunning;
  }

  /** What links and kinds say of a block with a running tool. */
  lemma RunningIs(s: State, slot: Slot)
    requires Good(s) && IsRunning(s, slot)
    ensures slot.id < s.nextId && Get(s.entries, slot.id).Some? && !Get(s.entries, slot.id).value.done
    ensures !Get(s.entries, slot.id).value.block.Assistant? && !Get(s.entries, slot.id).value.block.Reasoning?
    ensures forall u :: u in s.streams ==> s.streams[u] != slot.id
    ensures forall u :: u in s.reasoning ==> s.reasoning[u] != slot.id
  {
    hide Find, Unique;
  }

  lemma PatchRunning(s: State, t: State, n: nat, e: Option<Entry>, slot: Slot)
    requires IsRunning(s, slot) && Patch(s.entries, t.entries, n, e) && n != slot.id
    ensures IsRunning(t, slot)
  {
    hide Get, Unique;
  }

  lemma FinishRunning(s: State, id: nat, slot: Slot)
    requires Ids(s) && IsRunning(s, slot) && id != slot.id
    ensures IsRunning(Finish(s, id), slot)
  {
    FinishPatch(s, id);
    var e := Get(s.entries, id);
    hide Get, Find, Unique, SetDone, IsRunning;
    PatchRunning(s, Finish(s, id), id, if e.Some? then Some(e.value.(done := true)) else None, slot);
  }

  lemma SetRunning(s: State, id: nat, b: Block, slot: Slot)
    requires Ids(s) && IsRunning(s, slot) && id != slot.id && Get(s.entries, id).Some?
    ensures IsRunning(s.(entries := SetBlock(s.entries, id, b)), slot)
  {
    SetPatch(s.entries, id, b);
    var e := Get(s.entries, id).value;
    hide Get, Find, Unique, SetBlock, IsRunning;
    PatchRunning(s, s.(entries := SetBlock(s.entries, id, b)), id, Some(e.(block := b)), slot);
  }

  lemma AppendLost(s: State, b: Block, done: bool, t: State, slot: Slot)
    requires Good(s) && Lost(s, slot) && t.entries == Append(s, b, done).entries && t.tools == s.tools
    ensures Lost(t, slot)
  {
    RunningIs(s, slot);
    AppendPatch(s, b, done);
    hide Good, Get, Find, Unique, IsRunning;
    PatchRunning(s, t, s.nextId, Some(Entry(s.nextId, b, done)), slot);
  }

  lemma CloseLost(s: State, slot: Slot)
    requires Good(s) && Lost(s, slot)
    ensures Lost(CloseGroup(s), slot)
  {
    hide Good, IsRunning, CloseGroup;
    CloseKeepsRunning(s, slot);
    CloseGood(s);
    SameLost(s, CloseGroup(s), slot);
  }

  lemma PushLost(s: State, b: Block, done: bool, slot: Slot)
    requires Good(s) && Lost(s, slot)
    ensures Lost(Push(s, b, done), slot)
  {
    CloseLost(s, slot);
    CloseGood(s);
    hide Good, Lost, CloseGroup, Append;
    var c := if b.Assistant? || b.Reasoning? || b.Group? then s else CloseGroup(s);
    AppendLost(c, b, done, Append(c, b, done), slot);
  }

  lemma StreamLost(s: State, sid: string, now: int, slot: Slot)
    requires Good(s) && Lost(s, slot)
    ensures Lost(StartStream(s, sid, now), slot) && Lost(EnsureStream(s, sid), slot)
  {
    hide Good, Lost;
    AppendLost(s, Assistant(""), false, StartStream(s, sid, now), slot);
    if sid !in s.streams { AppendLost(s, Assistant(""), false, EnsureStream(s, sid), slot); }
  }

  lemma EndReasoningLost(s: State, sid: string, slot: Slot)
    requires Good(s) && Lost(s, slot)
    ensures Lost(EndReasoning(s, sid), slot)
  {
    if sid in s.reasoning {
      RunningIs(s, slot);
      GoodIds(s);
      hide Good, Finish, Get, Unique;
      FinishRunning(s.(reasoning := s.reasoning - {sid}), s.reasoning[sid], slot);
      FinishTools(s.(reasoning := s.reasoning - {sid}), s.reasoning[sid]);
      hide IsRunning;
      SameLost(s, EndReasoning(s, sid), slot);
    }
  }

  lemma FinishTools(s: State, id: nat)
    ensures Finish(s, id).tools == s.tools
  {
    hide SetDone;
  }

  lemma BusyLost(s: State, now: int, slot: Slot)
    requires Lost(s, slot)
    ensures Lost(BecameBusy(s, now), slot)
  {
  }

  lemma TextLost(b: State, sid: string, token: string, slot: Slot)
    requires Good(b) && Lost(b, slot) && sid in b.streams
    ensures Lost(AddText(b, b.streams[sid], token), slot)
  {
    RunningIs(b, slot);
    GoodIds(b);
    hide Good, SetBlock, IsRunning;
    var e := Get(b.entries, b.streams[sid]);
    if e.Some? && e.value.block.Assistant? {
      SetRunning(b, b.streams[sid], Assistant(e.value.block.markdown + token), slot);
      SameLost(b, AddText(b, b.streams[sid], token), slot);
    }
  }

  lemma TokenLost(s: State, sid: string, token: string, now: int, slot: Slot)
    requires Good(s) && Lost(s, slot)
    ensures Lost(AddToken(s, sid, token, now), slot)
  {
    hide Good, Lost, BecameBusy, CloseGroup, EndReasoning, EnsureStream, AddText;
    var busy := BecameBusy(s, now);
    BusyGood(s, now);
    BusyLost(s, now, slot);
    CloseGood(busy);
    CloseLost(busy, slot);
    var a := if AllWhitespace(token) then s else CloseGroup(busy);
    EndReasoningGood(a, sid);
    EndReasoningLost(a, sid, slot);
    var c := EndReasoning(a, sid);
    EnsureStreamGood(c, sid);
    StreamLost(c, sid, now, slot);
    TextLost(EnsureStream(c, sid), sid, token, slot);
  }

  lemma CompleteLost(s: State, sid: string, text: Option<string>, slot: Slot)
    requires Good(s) && Lost(s, slot)
    ensures Lost(CompleteMessage(s, sid, text), slot)
  {
    EndReasoningGood(s, sid);
    EndReasoningLost(s, sid, slot);
    var a := EndReasoning(s, sid);
    hide EndReasoning, Lost;
    if sid in a.streams { StreamEndLost(a, sid, text, slot); }
  }

  lemma StreamEndLost(a: State, sid: string, text: Option<string>, slot: Slot)
    requires Good(a) && Lost(a, slot) && sid in a.streams
    ensures var id := a.streams[sid]; Lost(Finish(CompleteText(a.(streams := a.streams - {sid}), id, text), id), slot)
  {
    var id, b := a.streams[sid], a.(streams := a.streams - {sid});
    RunningIs(a, slot);
    assert Get(b.entries, id).Some? && Get(b.entries, id).value.block.Assistant? && Ids(b);
    History.CompletePatch(b, id, text);
    CompleteKeepsLinks(b, id, text);
    var t := Finish(CompleteText(b, id, text), id);
    hide CompleteText, Finish, Good, Get, Find, Unique, IsRunning;
    PatchRunning(a, t, id, Some(Entry(id, Assistant(Paragraphs.Completed(PrintedOf(b, id), Get(b.entries, id).value.block.markdown, text)), true)), slot);
    SameLost(a, t, slot);
  }

  lemma ThinkLost(s: State, sid: string, token: string, now: int, slot: Slot)
    requires Good(s) && Lost(s, slot)
    ensures Lost(ThinkMore(s, sid, token, now), slot)
  {
    RunningIs(s, slot);
    GoodIds(s);
    hide Good, ReasoningPlace, IsRunning, Get, SetBlock;
    if sid in s.reasoning {
      var e := Get(s.entries, s.reasoning[sid]);
      if e.Some? && e.value.block.Reasoning? {
        SetRunning(s, s.reasoning[sid], Reasoning(e.value.block.text + token), slot);
        SameLost(s, ThinkMore(s, sid, token, now), slot);
      }
    } else if ReasoningPlace(s, sid).Some? {
      PlaceInRange(s, sid);
      ThoughtLost(s, ReasoningPlace(s, sid).value, sid, token, now, slot);
    }
  }

  lemma ThoughtLost(s: State, pos: nat, sid: string, token: string, now: int, slot: Slot)
    requires Ids(s) && Lost(s, slot) && pos <= |s.entries| && slot.id < s.nextId
    ensures var e := Entry(s.nextId, Reasoning(token), false);
            Lost(BecameBusy(s.(entries := s.entries[..pos] + [e] + s.entries[pos..],
                               nextId := s.nextId + 1, reasoning := s.reasoning[sid := s.nextId]), now), slot)
  {
    var e := Entry(s.nextId, Reasoning(token), false);
    GetInsert(s.entries, pos, e);
    var t := BecameBusy(s.(entries := s.entries[..pos] + [e] + s.entries[pos..],
                           nextId := s.nextId + 1, reasoning := s.reasoning[sid := s.nextId]), now);
    hide Get, Find, Unique, IsRunning;
    PatchRunning(s, t, s.nextId, Some(e), slot);
    SameLost(s, t, slot);
  }

  lemma StartToolLost(s: State, tid: string, name: string, showing: Showing, now: int, slot: Slot)
    requires Good(s) && Lost(s, slot)
    ensures Lost(StartTool(s, tid, name, showing, now), slot)
  {
    var b, tool, t := BecameBusy(s, now), Tool(name, Running), StartTool(s, tid, name, showing, now);
    BusyGood(s, now);
    BusyLost(s, now, slot);
    hide Good, Get, IsRunning, BecameBusy;
    if showing.Run? && Joins(b, showing.title) {
      JoinKeepsRunning(b, tid, tool, showing.title, slot);
    } else {
      NewKeepsRunning(b, tid, tool, showing, slot);
    }
    ToolsOnlyAt(s, tid, name, showing, now);
    PutLost(s, t, tid, slot);
  }

  lemma PutLost(s: State, t: State, tid: string, slot: Slot)
    requires Lost(s, slot) && IsRunning(t, slot) && Put(s, t, tid) && t.tools[tid] != slot
    ensures Lost(t, slot)
  {
    hide IsRunning;
  }

  lemma FinishToolLost(s: State, tid: string, status: Outcome, slot: Slot)
    requires Good(s) && Lost(s, slot)
    ensures Lost(FinishTool(s, tid, status), slot)
  {
    if tid in s.tools {
      var own, t := s.tools[tid], FinishTool(s, tid, status);
      assert own != slot;
      if own.idx.None? { FinishRowPatch(s, tid, status); } else { FinishInGroupPatch(s, tid, status); }
      if own.id != slot.id {
        hide Good, FinishTool, Ended, Find, Unique, IsRunning;
        PatchRunning(s, t, own.id, Get(t.entries, own.id), slot);
      } else {
        OtherPlaceRuns(s, t, tid, status, slot);
      }
      hide Good, FinishTool, IsRunning;
      LessLost(s, t, tid, slot);
    }
  }

  lemma LessLost(s: State, t: State, tid: string, slot: Slot)
    requires Lost(s, slot) && IsRunning(t, slot) && t.tools == s.tools - {tid}
    ensures Lost(t, slot)
  {
    hide IsRunning;
  }

  /** Another tool of the group ends. */
  lemma OtherPlaceRuns(s: State, t: State, tid: string, status: Outcome, slot: Slot)
    requires Good(s) && tid in s.tools && IsRunning(s, slot) && s.tools[tid].id == slot.id && s.tools[tid] != slot
    requires var own := s.tools[tid];
             var b := Ended(Get(s.entries, own.id).value.block, own.idx, status);
             own.idx.Some? ==> Patch(s.entries, t.entries, own.id, Some(Entry(own.id, b, b.closed && AllStopped(b.tools))))
    ensures IsRunning(t, slot)
  {
    var own, was := s.tools[tid], Get(s.entries, slot.id).value.block;
    hide Find, Unique, Get;
    assert SlotOk(Get(s.entries, own.id), own.idx);
    var b := Ended(was, own.idx, status);
    assert own.idx.Some? && slot.idx.Some? && b.tools[slot.idx.value] == was.tools[slot.idx.value];
  }

  lemma ClearedLost(s: State, slot: Slot)
    requires Good(s) && Lost(s, slot)
    ensures Lost(s.(entries := Keep(s.entries, (e: Entry) => !e.done), plan := None), slot)
  {
    GetKeep(s.entries, (e: Entry) => !e.done);
    hide Get, Keep;
  }

  lemma SplitLost(s: State, slot: Slot)
    requires Good(s) && Lost(s, slot)
    ensures Lost(SplitLeading(s), slot)
  {
    if SplitLeading(s) != s {
      RunningIs(s, slot);
      var e := s.entries[0];
      var c := Paragraphs.CutOf(e.block.markdown).value;
      GetAt(s.entries, 0);
      History.SplitPatch(s, e, c);
      hide Get, Find, Unique, Paragraphs.CutOf, Good;
    }
  }

  lemma TakeLost(s: State, slot: Slot)
    requires Good(s) && Lost(s, slot)
    ensures Lost(TakeHistory(s), slot)
  {
    SplitLost(s, slot);
    SplitLeadingGood(s);
    hide SplitLeading, StreamsOk, ToolsOk, GroupOk, EntriesOk, RowsOk;
    var a := SplitLeading(s);
    GetDrop(a.entries, DoneCount(a.entries));
    assert Find(a.entries, slot.id).value >= DoneCount(a.entries);
    hide Find, DoneCount, Get;
    SameLost(a, TakeHistory(s), slot);
  }

  lemma LostStays(s: State, e: Event, now: int, slot: Slot)
    requires Good(s) && Lost(s, slot) && !Settles(s, e)
    ensures Lost(Step(s, e, now), slot)
  {
    hide Good, Lost, StartStream, ThinkMore, AddToken, CompleteMessage, StartTool, FinishTool, Settle, TakeHistory, Push, Keep, BecameBusy;
    match e
    case StreamStarted(sid) => StreamLost(s, sid, now, slot);
    case ReasoningDelta(sid, token) => ThinkLost(s, sid, token, now, slot);
    case TokenDelta(sid, token) => TokenLost(s, sid, token, now, slot);
    case MessageCompleted(sid, text) => CompleteLost(s, sid, text, slot);
    case ToolStarted(tid, name, showing) => StartToolLost(s, tid, name, showing, now, slot);
    case ToolFinished(tid, status) => FinishToolLost(s, tid, status, slot);
    case BlockShown(block) => PushLost(s, block, true, slot);
    case TodoList(items) => FlagsLost(s, Step(s, e, now), slot);
    case Phase(busy) =>
      FlagsLost(s, s.(phaseBusy := busy), slot);
      BusyLost(s.(phaseBusy := busy), now, slot);
    case Cleared => ClearedLost(s, slot);
    case Cancelled =>
    case HistoryTaken => TakeLost(s, slot);
  }

  lemma FlagsLost(s: State, t: State, slot: Slot)
    requires Lost(s, slot) && t.entries == s.entries && t.tools == s.tools
    ensures Lost(t, slot)
  {
  }

  // ----- orphans ------------------------------------------------------------------------------

  /** Nothing will finish the block: nothing points at it, or no id at a tool that runs in it. */
  ghost predicate Orphaned(s: State, x: nat) { Stuck(s, x) || exists idx: Option<nat> :: Lost(s, Slot(x, idx)) }

  /** What has its stream, entry or id is no orphan, and what is no orphan has it. */
  lemma LinkedIffNoOrphan(s: State)
    requires Good(s)
    ensures AllLinked(s) <==> forall x: nat :: !Orphaned(s, x)
  {
    hide Good, IsReply, IsThought, IsRunning, StreamOf, ThoughtOf, ToolOf, Stuck;
    forall x: nat | AllLinked(s) ensures !Orphaned(s, x) { LinkedIsNoOrphan(s, x); }
    if forall x: nat :: !Orphaned(s, x) {
      forall x: nat | IsReply(s, x) ensures StreamOf(s, x) {
        assert !Orphaned(s, x);
        if !StreamOf(s, x) { ReplyIsStuck(s, x); }
      }
      forall x: nat | IsThought(s, x) ensures ThoughtOf(s, x) {
        assert !Orphaned(s, x);
        if !ThoughtOf(s, x) { ThoughtIsStuck(s, x); }
      }
      forall slot: Slot | IsRunning(s, slot) ensures ToolOf(s, slot) {
        assert !Orphaned(s, slot.id) && slot == Slot(slot.id, slot.idx);
      }
    }
  }

  lemma LinkedIsNoOrphan(s: State, x: nat)
    requires Good(s) && AllLinked(s)
    ensures !Orphaned(s, x)
  {
    hide Good, IsReply, IsThought, StreamOf, ThoughtOf, ToolOf;
    if Stuck(s, x) { LinkedIsAwaited(s, x); }
    forall idx: Option<nat> ensures !Lost(s, Slot(x, idx)) {}
  }

  /** A start under an id in use orphans the block of that id. */
  lemma RestartOrphans(s: State, e: Event, now: int)
    requires Good(s) && Restarts(s, e)
    ensures Orphaned(Step(s, e, now), if e.StreamStarted? then s.streams[e.sid] else s.tools[e.tid].id)
  {
    StepGood(s, e, now);
    hide Good, IsReply, IsRunning, StreamOf, ToolOf, StartStream, StartTool, Stuck;
    if e.StreamStarted? {
      StreamRestarts(s, e.sid, now);
      ReplyIsStuck(Step(s, e, now), s.streams[e.sid]);
    } else {
      ToolRestarts(s, e.tid, e.name, e.showing, now);
      var slot := s.tools[e.tid];
      assert slot == Slot(slot.id, slot.idx) && Lost(Step(s, e, now), slot);
    }
  }

  /** An orphan stays one until the turn ends. */
  lemma OrphanStays(s: State, e: Event, now: int, x: nat)
    requires Good(s) && Orphaned(s, x) && !Settles(s, e)
    ensures Orphaned(Step(s, e, now), x)
  {
    hide Good, Stuck, Lost, Step, Settles;
    if Stuck(s, x) {
      StuckStays(s, e, now, x);
    } else {
      var idx: Option<nat> :| Lost(s, Slot(x, idx));
      LostStays(s, e, now, Slot(x, idx));
    }
  }

  /** A run of events in which the turn does not end. */
  ghost predicate GoesOn(r: History.Trace, events: seq<History.Timed>) {
    History.Legal(events) &&
    forall k :: 0 <= k < |events| ==> !Settles(History.RunFrom(r, events[..k]).s, events[k].event)
  }

  lemma {:induction false} RunOrphaned(r: History.Trace, events: seq<History.Timed>, x: nat)
    requires Good(r.s) && Orphaned(r.s, x) && GoesOn(r, events)
    ensures Good(History.RunFrom(r, events).s) && Orphaned(History.RunFrom(r, events).s, x)
  {
    hide Good, Orphaned, Step, Settles;
    if events != [] {
      var init, e := events[..|events| - 1], events[|events| - 1];
      forall k | 0 <= k < |init| ensures !Settles(History.RunFrom(r, init[..k]).s, init[k].event) {
        assert init[..k] == events[..k];
      }
      RunOrphaned(r, init, x);
      assert events[..|init|] == init;
      OrphanStays(History.RunFrom(r, init).s, e.event, e.now, x);
      StepGood(History.RunFrom(r, init).s, e.event, e.now);
    }
  }

  /** Of two ids in order the second is not in a front part that the first is behind. */
  lemma OrderStays(from: seq<nat>, n: nat, front: seq<nat>, back: seq<nat>, m: nat, p: nat, q: nat, x: nat)
    requires History.Evolves(from, n, front + back, m) && p < q < |from| && from[p] == x && x in back
    ensures from[q] !in front
  {
    var to := front + back;
    var j :| 0 <= j < |back| && back[j] == x;
    assert to[|front| + j] == x;
    forall i | 0 <= i < |front| ensures front[i] != from[q] {
      assert to[i] == front[i];
    }
  }

  lemma HeldAt(r: History.Trace, i: nat)
    requires i < |r.s.entries|
    ensures |History.All(r)| == |r.taken| + |r.s.entries| && History.All(r)[|r.taken| + i] == r.s.entries[i].id
  {
  }

  lemma OrphanIsHeld(s: State, x: nat)
    requires Orphaned(s, x)
    ensures x in History.IdList(s.entries)
  {
    assert Get(s.entries, x).Some?;
    var k := Find(s.entries, x).value;
    assert History.IdList(s.entries)[k] == x;
  }

  /** While an orphan is held nothing behind it reaches scrollback, whatever the host does. */
  lemma OrphanHoldsPrinting(r: History.Trace, events: seq<History.Timed>, i: nat, j: nat)
    requires Good(r.s) && History.Once(r) && i < j < |r.s.entries| && Orphaned(r.s, r.s.entries[i].id) && GoesOn(r, events)
    ensures r.s.entries[j].id !in History.IdList(History.RunFrom(r, events).taken)
  {
    hide Good, Orphaned, Get, Find, History.RunFrom, History.Evolves, History.Once, History.All, GoesOn;
    var x, last := r.s.entries[i].id, History.RunFrom(r, events);
    RunOrphaned(r, events, x);
    OrphanIsHeld(last.s, x);
    History.RunsPrintInOrder(r, events);
    History.AllParts(last);
    HeldAt(r, i);
    HeldAt(r, j);
    OrderStays(History.All(r), r.s.nextId, History.IdList(last.taken), History.IdList(last.s.entries), last.s.nextId,
               |r.taken| + i, |r.taken| + j, x);
  }
}
