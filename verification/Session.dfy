/** The live session (crates/inline/src/session.rs): the fields that host events and keys update
    in place.  Every method is proved to do what Transcript.dfy and Prompts.dfy say of the held
    blocks and of the prompts, whose runs those files describe. */
module Session {
  import opened Chars
  import opened Styles
  import T = Transcript
  import P = Prompts
  import Paragraphs

  /** What the host is told: an answer to a prompt, or that the user stopped the turn. */
  datatype Outbound = Answered(answer: P.Answer) | CancelRequested

  class Session {
    var entries: seq<T.Entry>
    var nextId: nat
    var streams: map<string, nat>
    var printed: map<nat, string>
    var reasoning: map<string, nat>
    var tools: map<string, T.Slot>
    var openGroup: Option<nat>
    var plan: Option<seq<T.PlanItem>>
    var planSeen: bool
    var planRows: set<nat>
    var phaseBusy: bool
    var busySince: Option<int>

    var prompt: Option<P.Prompt>
    var queue: seq<P.Prompt>
    var form: bool
    var outbound: seq<Outbound>

    function View(): T.State
      reads this
    {
      T.State(entries, nextId, streams, printed, reasoning, tools, openGroup, plan, planSeen, planRows, phaseBusy, busySince)
    }

    function Desk(): P.Desk
      reads this
    {
      P.Desk(prompt, queue, form)
    }

    constructor ()
      ensures View() == T.START && Desk() == P.BEGIN.d && outbound == []
    {
      entries, nextId, streams, printed, reasoning, tools := [], 1, map[], map[], map[], map[];
      openGroup, plan, planSeen, planRows, phaseBusy, busySince := None, None, false, {}, false, None;
      prompt, queue, form, outbound := None, [], false, [];
    }

    // ----- blocks ------------------------------------------------------------------------

    method Find(id: nat) returns (r: Option<nat>)
      ensures r == T.Find(entries, id)
    {
      var i := |entries|;
      assert entries[..i] == entries;
      while i > 0
        invariant i <= |entries| && T.Find(entries[..i], id) == T.Find(entries, id)
      {
        i := i - 1;
        assert entries[..i + 1][..i] == entries[..i];
        if entries[i].id == id { return Some(i); }
      }
      return None;
    }

    method SetBlock(id: nat, b: T.Block)
      modifies `entries
      ensures entries == T.SetBlock(old(entries), id, b)
    {
      var r := Find(id);
      if r.Some? { entries := entries[r.value := entries[r.value].(block := b)]; }
    }

    method Finish(id: nat)
      modifies `entries
      ensures View() == T.Finish(old(View()), id)
    {
      var r := Find(id);
      if r.Some? { entries := entries[r.value := entries[r.value].(done := true)]; }
    }

    method BlockOf(id: nat) returns (b: Option<T.Block>)
      ensures b == (var e := T.Get(entries, id); if e.Some? then Some(e.value.block) else None)
    {
      var r := Find(id);
      b := if r.Some? then Some(entries[r.value].block) else None;
    }

    method FinishGroupIfDone(g: nat)
      modifies `entries
      ensures View() == T.FinishGroupIfDone(old(View()), g)
    {
      var b := BlockOf(g);
      if b.Some? && b.value.Group? && b.value.closed && T.AllStopped(b.value.tools) { Finish(g); }
    }

    method CloseGroup()
      modifies `entries, `openGroup
      ensures View() == T.CloseGroup(old(View()))
    {
      hide T.Find, T.Get;
      if openGroup.Some? {
        var g := openGroup.value;
        openGroup := None;
        var b := BlockOf(g);
        if b.Some? && b.value.Group? { SetBlock(g, b.value.(closed := true)); }
        FinishGroupIfDone(g);
      }
    }

    method PushQuiet(b: T.Block, done: bool) returns (id: nat)
      modifies `entries, `nextId
      ensures View() == T.Append(old(View()), b, done) && id == old(nextId)
    {
      id := nextId;
      nextId := nextId + 1;
      entries := entries + [T.Entry(id, b, done)];
    }

    method Push(b: T.Block, done: bool) returns (id: nat)
      modifies `entries, `nextId, `openGroup
      ensures View() == T.Push(old(View()), b, done) && id == old(nextId)
    {
      CloseKeepsNext(View());
      if !(b.Assistant? || b.Reasoning? || b.Group?) { CloseGroup(); }
      id := PushQuiet(b, done);
    }

    method BecameBusy(now: int)
      modifies `busySince
      ensures View() == T.BecameBusy(old(View()), now)
    {
      if busySince.None? { busySince := Some(now); }
    }

    // ----- replies -------------------------------------------------------------------------

    method StreamStarted(sid: string, now: int)
      modifies `entries, `nextId, `openGroup, `streams, `busySince
      ensures View() == T.StartStream(old(View()), sid, now)
    {
      var id := Push(T.Assistant(""), false);
      streams := streams[sid := id];
      BecameBusy(now);
    }

    method ReasoningDelta(sid: string, token: string, now: int)
      modifies `entries, `nextId, `reasoning, `busySince
      ensures View() == T.ThinkMore(old(View()), sid, token, now)
    {
      hide T.Find, T.SetBlock;
      if sid in reasoning {
        var b := BlockOf(reasoning[sid]);
        if b.Some? && b.value.Reasoning? { SetBlock(reasoning[sid], T.Reasoning(b.value.text + token)); }
        return;
      }
      var pos := |entries|;
      if sid in streams {
        var i := Find(streams[sid]);
        if i.None? || entries[i.value].block != T.Assistant("") { return; }
        pos := i.value;
      }
      var id := nextId;
      nextId := nextId + 1;
      entries := entries[..pos] + [T.Entry(id, T.Reasoning(token), false)] + entries[pos..];
      reasoning := reasoning[sid := id];
      BecameBusy(now);
    }

    method EndReasoning(sid: string)
      modifies `entries, `reasoning
      ensures View() == T.EndReasoning(old(View()), sid)
    {
      if sid in reasoning {
        var id := reasoning[sid];
        reasoning := reasoning - {sid};
        Finish(id);
      }
    }

    method TokenDelta(sid: string, token: string, now: int)
      modifies `entries, `nextId, `openGroup, `streams, `reasoning, `busySince
      ensures View() == T.AddToken(old(View()), sid, token, now)
    {
      hide T.Find, T.Get, T.SetBlock, T.CloseGroup, T.EndReasoning;
      if !AllWhitespace(token) {
        BecameBusy(now);
        CloseGroup();
      }
      EndReasoning(sid);
      if sid !in streams {
        var id := Push(T.Assistant(""), false);
        streams := streams[sid := id];
      }
      assert View() == T.BeforeToken(old(View()), sid, token, now);
      var b := BlockOf(streams[sid]);
      if b.Some? && b.value.Assistant? { SetBlock(streams[sid], T.Assistant(b.value.markdown + token)); }
    }

    method MessageCompleted(sid: string, text: Option<string>)
      modifies `entries, `streams, `reasoning, `printed
      ensures View() == T.CompleteMessage(old(View()), sid, text)
    {
      hide T.Find, T.Get, T.SetBlock, T.EndReasoning, T.Finish;
      EndReasoning(sid);
      if sid in streams {
        var id := streams[sid];
        streams := streams - {sid};
        ghost var before := View();
        var was := if id in printed then printed[id] else "";
        printed := printed - {id};
        if text.Some? && was <= text.value {
          var b := BlockOf(id);
          var rest := text.value[|was|..];
          if b.Some? && b.value.Assistant? { SetBlock(id, T.Assistant(rest[Paragraphs.NewlinesBefore(rest)..])); }
        }
        assert View() == T.CompleteText(before, id, text);
        Finish(id);
      }
    }

    // ----- tools -----------------------------------------------------------------------------

    method ToolStarted(tid: string, name: string, showing: T.Showing, now: int)
      modifies `entries, `nextId, `openGroup, `tools, `planRows, `busySince
      ensures View() == T.StartTool(old(View()), tid, name, showing, now)
    {
      hide T.NewRow, T.NewGroup, T.JoinGroup, T.Joins;
      BecameBusy(now);
      var t := T.Tool(name, T.Running);
      if showing.Run? { StartInRun(tid, t, showing.title); } else { StartRow(tid, t, showing.PlanUpdate?); }
    }

    method StartRow(tid: string, t: T.Tool, isPlan: bool)
      modifies `entries, `nextId, `openGroup, `tools, `planRows
      ensures View() == T.NewRow(old(View()), tid, t, isPlan)
    {
      hide T.CloseGroup;
      if isPlan {
        var id := PushQuiet(T.ToolRow(t), false);
        tools := tools[tid := T.Slot(id, None)];
        planRows := planRows + {id};
      } else {
        PushCounts(View(), T.ToolRow(t));
        var id := Push(T.ToolRow(t), false);
        tools := tools[tid := T.Slot(id, None)];
      }
    }

    method StartInRun(tid: string, t: T.Tool, title: Option<string>)
      modifies `entries, `nextId, `openGroup, `tools
      ensures View() == (var s := old(View()); if T.Joins(s, title) then T.JoinGroup(s, tid, t, title) else T.NewGroup(s, tid, t, title))
    {
      hide T.Find, T.Get, T.SetBlock, T.CloseGroup;
      if openGroup.Some? {
        var g := openGroup.value;
        var b := BlockOf(g);
        if b.Some? && b.value.Group? && b.value.title == title {
          SetBlock(g, b.value.(tools := b.value.tools + [t]));
          tools := tools[tid := T.Slot(g, Some(|b.value.tools|))];
          return;
        }
      }
      CloseKeepsNext(View());
      CloseGroup();
      var gid := Push(T.Group([t], false, title), false);
      openGroup := Some(gid);
      tools := tools[tid := T.Slot(gid, Some(0))];
    }

    method Retain(p: T.Entry -> bool)
      modifies `entries
      ensures entries == T.Keep(old(entries), p)
    {
      var kept, all := [], entries;
      for k := 0 to |all|
        invariant kept == T.Keep(all[..k], p)
      {
        assert all[..k + 1][..k] == all[..k];
        if p(all[k]) { kept := kept + [all[k]]; }
      }
      assert all[..|all|] == all;
      entries := kept;
    }

    method SetStatus(slot: T.Slot, status: T.Outcome)
      modifies `entries
      ensures entries == T.SetStatus(old(entries), slot, status)
    {
      hide T.Find, T.Get, T.SetBlock;
      var b := BlockOf(slot.id);
      if b.Some? && b.value.ToolRow? && slot.idx.None? {
        SetBlock(slot.id, T.ToolRow(b.value.tool.(status := status)));
      } else if b.Some? && b.value.Group? && slot.idx.Some? && slot.idx.value < |b.value.tools| {
        var g, i := b.value, slot.idx.value;
        SetBlock(slot.id, g.(tools := g.tools[i := g.tools[i].(status := status)]));
      }
    }

    method ToolFinished(tid: string, status: T.Outcome)
      modifies `entries, `tools, `planRows
      ensures View() == T.FinishTool(old(View()), tid, status)
    {
      hide T.Find, T.Get, T.Keep, T.SetDone, T.SetStatus;
      if tid !in tools { return; }
      var slot := tools[tid];
      tools := tools - {tid};
      SetStatus(slot, status);
      if slot.id in planRows {
        planRows := planRows - {slot.id};
        if planSeen && status != T.Error { Retain((e: T.Entry) => e.id != slot.id); }
      }
      if slot.idx.None? { Finish(slot.id); } else { FinishGroupIfDone(slot.id); }
    }

    // ----- the end of a turn -------------------------------------------------------------------

    method StopAll()
      modifies `entries
      ensures entries == T.StopAll(old(entries))
    {
      var k := 0;
      while k < |entries|
        invariant k <= |entries| == |old(entries)|
        invariant forall i :: 0 <= i < |entries| ==> entries[i] == if i < k then T.StopEntry(old(entries)[i]) else old(entries)[i]
      {
        entries := entries[k := T.StopEntry(entries[k])];
        k := k + 1;
      }
    }

    method StopBlocks()
      modifies `entries, `streams, `tools, `openGroup, `plan, `planRows, `phaseBusy
      ensures View() == T.Stopping(old(View()))
    {
      hide T.Keep, T.StopAll;
      var rows := planRows;
      Retain((e: T.Entry) => e.id !in rows);
      SameKeep(old(entries), rows, old(View()));
      planRows := {};
      StopAll();
      openGroup, streams, tools, phaseBusy := None, map[], map[], false;
      plan := None;
    }

    method SettlePrompts()
      modifies `prompt, `queue
      ensures Desk() == P.Settle(old(Desk()))
    {
      if prompt.Some? && prompt.value.kind.Permission? { prompt := None; }
      queue := P.NoPermissions(queue);
      ShowQueuedPrompt();
    }

    method Settle(interrupted: bool)
      modifies `entries, `nextId, `streams, `tools, `openGroup, `plan, `planRows, `phaseBusy, `busySince, `prompt, `queue
      ensures View() == T.Settle(old(View()), interrupted)
      ensures Desk() == P.Settle(old(Desk()))
    {
      hide T.Keep, T.StopAll, T.CloseGroup, P.NoPermissions, T.IsBusy;
      var wasBusy := T.IsBusy(View());
      var was := plan;
      StopBlocks();
      hide T.Stopping, T.Push, T.Settle, P.Settle;
      SettleSteps(old(View()), interrupted);
      ShowStop(if interrupted && T.Unfinished(was) then was else None, interrupted && wasBusy);
      SettlePrompts();
    }

    /** The plan that was not finished and the notice, as finished blocks. */
    method ShowStop(was: Option<seq<T.PlanItem>>, notice: bool)
      modifies `entries, `nextId, `openGroup, `busySince
      ensures var b := if was.Some? then T.Push(old(View()), T.Plan(was.value), true) else old(View());
              var c := if notice then T.Push(b, T.Note(T.INTERRUPTED), true) else b;
              View() == c.(busySince := None)
    {
      hide T.Push;
      if was.Some? { var _ := Push(T.Plan(was.value), true); }
      if notice { var _ := Push(T.Note(T.INTERRUPTED), true); }
      busySince := None;
    }

    method Interrupt()
      modifies this
      ensures View() == T.Settle(old(View()), true) && Desk() == P.Settle(old(Desk()))
      ensures outbound == old(outbound) + [CancelRequested]
    {
      outbound := outbound + [CancelRequested];
      Settle(true);
    }

    method PhaseChanged(busy: bool, now: int)
      modifies this
      ensures View() == T.Step(old(View()), T.Phase(busy), now) && outbound == old(outbound)
      // A phase that is not busy settles only after one that was.
      ensures Desk() == if !busy && old(phaseBusy) then P.Settle(old(Desk())) else old(Desk())
    {
      hide T.Settle, P.Settle, T.Step;
      PhaseSteps(View(), busy, now);
      if busy {
        phaseBusy := true;
        BecameBusy(now);
      } else if phaseBusy {
        phaseBusy := false;
        Settle(false);
      }
    }

    // ----- printing ------------------------------------------------------------------------------

    method SplitStreamingParagraphs()
      modifies `entries, `nextId, `printed
      ensures View() == T.SplitLeading(old(View()))
    {
      hide Paragraphs.CutOf;
      if entries == [] || entries[0].done || !entries[0].block.Assistant? { return; }
      var e := entries[0];
      var cut := CutMarkdown(e.block.markdown);
      if cut.None? { return; }
      var c := cut.value;
      printed := printed[e.id := (if e.id in printed then printed[e.id] else "") + c.consumed];
      entries := entries[0 := e.(block := T.Assistant(c.tail))];
      entries := [T.Entry(nextId, T.Assistant(c.head), true)] + entries;
      nextId := nextId + 1;
    }

    /** The blocks to print now, in order; they are held no longer. */
    method TakeHistory(showReasoning: bool) returns (out: seq<T.Entry>)
      modifies `entries, `nextId, `printed
      ensures View() == T.TakeHistory(old(View()))
      ensures out == T.Shown(T.Taken(old(View())), showReasoning)
    {
      hide T.SplitLeading, T.DoneCount, T.Shown, T.Visible;
      SplitStreamingParagraphs();
      ghost var mid := View();
      NoneTaken(entries, showReasoning);
      ghost var all, k := entries, 0;
      out := [];
      while entries != [] && entries[0].done
        invariant k <= |all| && entries == all[k..] && T.DoneCount(all) == k + T.DoneCount(entries)
        invariant out == T.Shown(all[..k], showReasoning)
        modifies `entries
        decreases |entries|
      {
        var e := entries[0];
        OneTaken(all, k, showReasoning);
        entries := entries[1..];
        if T.Visible(e, showReasoning) { out := out + [e]; }
        k := k + 1;
      }
      NoneDone(entries);
      assert View() == mid.(entries := all[k..]);
    }

    // ----- prompts -------------------------------------------------------------------------------

    method OpenPrompt(p: P.Prompt)
      modifies `prompt, `queue
      ensures Desk() == P.Open(old(Desk()), p)
    {
      if prompt.Some? && (prompt.value.kind.Permission? || p.kind.Permission?) {
        queue := queue + [p];
      } else {
        prompt := Some(p);
      }
    }

    method ShowQueuedPrompt()
      modifies `prompt, `queue
      ensures Desk() == P.ShowQueued(old(Desk()))
    {
      if prompt.None? && queue != [] {
        prompt := Some(queue[0]);
        queue := queue[1..];
      }
    }

    method FrameDrawn(now: int)
      modifies `prompt
      ensures Desk() == P.FrameDrawn(old(Desk()), now)
    {
      if form { return; }
      if prompt.Some? && prompt.value.shownAt.None? {
        prompt := Some(prompt.value.(shownAt := Some(now)));
      }
    }

    /** Cancelling a permission also stops the turn. */
    method ResolvePrompt(choice: Option<nat>)
      modifies this
      ensures Desk() == P.Resolve(old(Desk()), choice)
      ensures var ended := old(prompt).Some? && P.Interrupts(old(prompt).value.kind, choice);
              var answer := if old(prompt).Some? then P.AnswerTo(old(prompt).value.kind, choice) else None;
              View() == (if ended then T.Settle(old(View()), true) else old(View())) &&
              outbound == old(outbound) + (if answer.Some? then [Answered(answer.value)] else []) +
                          (if ended then [CancelRequested] else [])
    {
      hide T.Settle, P.Settle, P.ShowQueued, P.ChoiceOf;
      if prompt.None? { return; }
      var p := prompt.value;
      prompt := None;
      match p.kind {
        case Permission(request) =>
          outbound := outbound + [Answered(P.Permitted(request, P.ChoiceOf(choice)))];
          if choice.None? {
            Interrupt();
          }
        case Select(id, values, allowCancel, _) =>
          if choice.Some? {
            outbound := outbound + [Answered(P.Selected(id, if choice.value < |values| then values[choice.value] else ""))];
          } else if allowCancel {
            outbound := outbound + [Answered(P.Dismissed(id))];
          } else {
            prompt := Some(p.(kind := P.Select(id, values, allowCancel, true)));
            return;
          }
        case Confirm(id, allowCancel) =>
          if choice.Some? {
            outbound := outbound + [Answered(P.Confirmed(id, choice.value == 0))];
          } else if allowCancel {
            outbound := outbound + [Answered(P.Dismissed(id))];
          } else {
            prompt := Some(p);
            return;
          }
      }
      ShowQueuedPrompt();
    }

    /** A key while a prompt is open and no form is over it. */
    method PromptKey(key: P.Key, ranking: seq<nat>, after: seq<nat>, now: int)
      requires prompt.Some? && !form
      modifies this
      ensures Desk() == P.KeyPressed(old(Desk()), key, ranking, after, now)
      ensures var d := P.Decision(old(prompt).value, key, ranking, now);
              var ended := d.Some? && P.Interrupts(old(prompt).value.kind, d.value);
              var answer := P.Reply(old(Desk()), key, ranking, now);
              View() == (if ended then T.Settle(old(View()), true) else old(View())) &&
              outbound == old(outbound) + (if answer.Some? then [Answered(answer.value)] else []) +
                          (if ended then [CancelRequested] else [])
    {
      hide T.Settle, P.Resolve, P.AnswerTo, P.DigitChoice, P.Moved, P.KeyPressed, P.Reply, P.Filtered;
      P.KeyDecides(Desk(), key, ranking, after, now);
      var p := prompt.value;
      if !P.Armed(p, now) {
        if key.Cancel? { ResolvePrompt(None); }
        return;
      }
      var visible := P.VisibleOf(p, ranking);
      match key
      case Up => prompt := Some(P.Moved(p, visible, -1));
      case Down => prompt := Some(P.Moved(p, visible, 1));
      case Enter => if p.selected in visible { ResolvePrompt(Some(p.selected)); }
      case Cancel => ResolvePrompt(None);
      case Text(t) =>
        var digit := P.DigitChoice(t, p.options);
        if p.kind.Confirm? && (P.IsYes(t) || P.IsNo(t)) {
          ResolvePrompt(Some(if P.IsYes(t) then 0 else 1));
        } else if !P.Filterable(p.kind) && digit.Some? {
          ResolvePrompt(digit);
        } else if P.Filterable(p.kind) {
          prompt := Some(P.Filtered(p, t, after));
        }
      case Backspace => prompt := Some(p.(filter := if p.filter == "" then "" else p.filter[..|p.filter| - 1]));
      case Other =>
    }
  }

  /** Where the leading reply is cut, from the offset that scanning its lines finds. */
  method CutMarkdown(md: string) returns (cut: Option<Paragraphs.Cut>)
    ensures cut == Paragraphs.CutOf(md)
  {
    hide Paragraphs.Boundary, Paragraphs.TrimEnd;
    var best := Paragraphs.ParagraphSplit(md);
    SameSplit(md, best);
    if best.None? { return None; }
    var head := Paragraphs.TrimEnd(md[..best.value]);
    var k := best.value + Paragraphs.NewlinesBefore(md[best.value..]);
    if head == "" { return None; }
    return Some(Paragraphs.Cut(head, md[..k], md[k..]));
  }

  lemma CloseKeepsNext(s: T.State)
    ensures T.CloseGroup(s).nextId == s.nextId
  {
  }

  lemma {:induction false} SameKeep(es: seq<T.Entry>, rows: set<nat>, s: T.State)
    requires rows == s.planRows
    ensures T.Keep(es, (e: T.Entry) => e.id !in rows) == T.Keep(es, (e: T.Entry) => e.id !in s.planRows)
  {
    if es != [] { SameKeep(es[..|es| - 1], rows, s); }
  }

  lemma SettleSteps(s: T.State, interrupted: bool)
    ensures var a := T.Stopping(s);
            var b := if interrupted && T.Unfinished(s.plan) then T.Push(a, T.Plan(s.plan.value), true) else a;
            var c := if interrupted && T.IsBusy(s) then T.Push(b, T.Note(T.INTERRUPTED), true) else b;
            T.Settle(s, interrupted) == c.(busySince := None)
  {
    hide T.Keep, T.StopAll, T.IsBusy, T.Push;
  }

  lemma NoneTaken(es: seq<T.Entry>, showReasoning: bool)
    ensures T.Shown(es[..0], showReasoning) == [] && es[0..] == es
  {
  }

  lemma NoneDone(es: seq<T.Entry>)
    requires es == [] || !es[0].done
    ensures T.DoneCount(es) == 0
  {
  }

  lemma OneTaken(all: seq<T.Entry>, k: nat, showReasoning: bool)
    requires k < |all| && all[k].done
    ensures T.Shown(all[..k + 1], showReasoning) ==
            T.Shown(all[..k], showReasoning) + (if T.Visible(all[k], showReasoning) then [all[k]] else [])
    ensures T.DoneCount(all[k..]) == 1 + T.DoneCount(all[k + 1..]) && all[k..][1..] == all[k + 1..]
  {
    assert all[..k + 1][..k] == all[..k];
  }

  lemma PhaseSteps(s: T.State, busy: bool, now: int)
    ensures T.Step(s, T.Phase(busy), now) ==
            if busy then T.BecameBusy(s.(phaseBusy := true), now)
            else if s.phaseBusy then T.Settle(s.(phaseBusy := false), false) else s
  {
    hide T.Settle;
  }

  lemma PushCounts(s: T.State, b: T.Block)
    ensures T.Push(s, b, false).nextId == s.nextId + 1 && T.Push(s, b, false).planRows == s.planRows
  {
  }

  lemma SameSplit(md: string, best: Option<nat>)
    requires Paragraphs.IsLastSplit(md, best, |md|)
    ensures best == Paragraphs.LastSplit(md, |md|)
  {
    hide Paragraphs.CanSplit, Paragraphs.LastSplit;
    Paragraphs.LastSplitIs(md, |md|);
  }
}
