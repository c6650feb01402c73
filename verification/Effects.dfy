/** What each event does to the held blocks (crates/inline/src/session.rs), said of the blocks
    themselves: which is added where, which changes to what, and that every other stays as it is. */
module Effects {
  import opened Chars
  import opened Styles
  import opened Transcript
  import opened Filters
  import Paragraphs

  /** Since when the session is busy once something happens at `now`. */
  function Since(s: State, now: int): Option<int> { if s.busySince == None then Some(now) else s.busySince }

  ghost predicate HasRunning(tools: seq<Tool>) { exists k :: 0 <= k < |tools| && tools[k].status == Running }

  /** A block once a run of reads is over: the open group is closed, and done if nothing in it runs. */
  ghost function GroupEnded(s: State, e: Entry): Entry {
    if s.openGroup == Some(e.id) && e.block.Group? then
      Entry(e.id, Group(e.block.tools, true, e.block.title), !HasRunning(e.block.tools))
    else e
  }

  ghost predicate AllGroupsEnded(s: State, es: seq<Entry>) {
    |es| == |s.entries| && forall k :: 0 <= k < |es| ==> es[k] == GroupEnded(s, s.entries[k])
  }

  lemma SetAt(es: seq<Entry>, k: nat, b: Block)
    requires Unique(es) && k < |es|
    ensures SetBlock(es, es[k].id, b) == es[k := Entry(es[k].id, b, es[k].done)]
    ensures SetDone(es, es[k].id) == es[k := Entry(es[k].id, es[k].block, true)]
  {
    GetAt(es, k);
  }

  lemma Place(es: seq<Entry>, id: nat) returns (k: nat)
    requires Unique(es) && Get(es, id).Some?
    ensures k < |es| && es[k].id == id && Get(es, id).value == es[k]
    ensures forall j :: 0 <= j < |es| && j != k ==> es[j].id != id
  {
    k := Find(es, id).value;
  }

  lemma RunningIs(tools: seq<Tool>)
    ensures HasRunning(tools) <==> !AllStopped(tools)
  {
  }

  lemma CloseMeans(s: State)
    requires Good(s)
    ensures var n := CloseGroup(s); n == s.(entries := n.entries, openGroup := None) && AllGroupsEnded(s, n.entries)
  {
    hide StreamsOk, ToolsOk, RowsOk;
    if s.openGroup.Some? {
      var g := s.openGroup.value;
      var k := Place(s.entries, g);
      var e := s.entries[k];
      assert EntryOk(e, s.openGroup);
      var b := e.block.(closed := true);
      SetAt(s.entries, k, b);
      var es := s.entries[k := Entry(g, b, e.done)];
      GetSet(s.entries, k, Entry(g, b, e.done));
      SetAt(es, k, b);
      RunningIs(e.block.tools);
      hide Get, Find, SetBlock, SetDone, Unique;
    }
  }

  lemma StreamStartedMeans(s: State, sid: string, now: int)
    ensures Step(s, StreamStarted(sid), now) ==
            s.(entries := s.entries + [Entry(s.nextId, Assistant(""), false)], nextId := s.nextId + 1,
               streams := s.streams[sid := s.nextId], busySince := Since(s, now))
  {
  }

  /** Reasoning goes to the end of its block if it has one; else it begins a block, at the end or right
      above its reply while that has no text; else it is dropped. */
  lemma ReasoningMeans(s: State, sid: string, token: string, now: int, k: nat)
    requires Unique(s.entries) && k < |s.entries|
    ensures var n, e := Step(s, ReasoningDelta(sid, token), now), s.entries[k];
            var begun := Entry(s.nextId, Reasoning(token), false);
            var more := s.(nextId := s.nextId + 1, reasoning := s.reasoning[sid := s.nextId], busySince := Since(s, now));
            if sid in s.reasoning then
              (s.reasoning[sid] == e.id && e.block.Reasoning? ==>
                 n == s.(entries := s.entries[k := Entry(e.id, Reasoning(e.block.text + token), e.done)]))
            else if sid !in s.streams then n == more.(entries := s.entries + [begun])
            else
              (s.streams[sid] == e.id ==>
                 n == if e.block == Assistant("") then more.(entries := s.entries[..k] + [begun] + s.entries[k..]) else s)
  {
    hide Get, Unique, SetDone, SetBlock, ReasoningPlace, Find;
    var e := s.entries[k];
    GetAt(s.entries, k);
    if sid in s.reasoning {
      if s.reasoning[sid] == e.id && e.block.Reasoning? { SetAt(s.entries, k, Reasoning(e.block.text + token)); }
    } else {
      PlaceMeans(s, sid, k);
      AtEnd(s.entries, Entry(s.nextId, Reasoning(token), false));
    }
  }

  lemma PlaceMeans(s: State, sid: string, k: nat)
    requires Unique(s.entries) && k < |s.entries|
    ensures var place := ReasoningPlace(s, sid);
            (place.Some? ==> place.value <= |s.entries|) &&
            if sid !in s.streams then place == Some(|s.entries|)
            else s.streams[sid] == s.entries[k].id ==> place == if s.entries[k].block == Assistant("") then Some(k) else None
  {
    GetAt(s.entries, k);
  }

  lemma AtEnd(es: seq<Entry>, e: Entry)
    ensures es[..|es|] + [e] + es[|es|..] == es + [e]
  {
  }

  /** Block `k` is the open group of the label. */
  ghost predicate OpensAt(s: State, title: Option<string>, k: nat)
    requires k < |s.entries|
  {
    s.openGroup == Some(s.entries[k].id) && s.entries[k].block.Group? && s.entries[k].block.title == title
  }

  /** The tool joins the open group, behind those in it. */
  ghost predicate JoinsAt(s: State, n: State, tid: string, t: Tool, title: Option<string>, k: nat, now: int)
    requires k < |s.entries|
  {
    OpensAt(s, title, k) &&
    var e := s.entries[k];
    n == s.(entries := s.entries[k := Entry(e.id, Group(e.block.tools + [t], e.block.closed, title), e.done)],
            tools := s.tools[tid := Slot(e.id, Some(|e.block.tools|))], busySince := Since(s, now))
  }

  /** Ending a run of reads when something happens. */
  lemma CloseBusyMeans(s: State, now: int) returns (es: seq<Entry>)
    requires Good(s)
    ensures AllGroupsEnded(s, es)
    ensures CloseGroup(BecameBusy(s, now)) == s.(entries := es, openGroup := None, busySince := Since(s, now))
  {
    hide Good, CloseGroup, HasRunning, AllGroupsEnded;
    var b := BecameBusy(s, now);
    BusyGood(s, now);
    CloseMeans(b);
    es := CloseGroup(b).entries;
    SameGroups(s, b, es);
  }

  lemma SameGroups(s: State, b: State, es: seq<Entry>)
    requires AllGroupsEnded(b, es) && b.entries == s.entries && b.openGroup == s.openGroup
    ensures AllGroupsEnded(s, es)
  {
    hide HasRunning;
  }

  /** A plan update is started as a row under its name, running. */
  lemma PlanUpdateStarts(s: State, tid: string, name: string, now: int)
    ensures Step(s, ToolStarted(tid, name, PlanUpdate), now) ==
            s.(entries := s.entries + [Entry(s.nextId, ToolRow(Tool(name, Running)), false)], nextId := s.nextId + 1,
               tools := s.tools[tid := Slot(s.nextId, None)], planRows := s.planRows + {s.nextId}, busySince := Since(s, now))
  {
  }

  /** A tool with a row of its own ends a run of reads and shows there under its name, running. */
  lemma RowStarts(s: State, tid: string, name: string, now: int) returns (es: seq<Entry>)
    requires Good(s)
    ensures AllGroupsEnded(s, es)
    ensures Step(s, ToolStarted(tid, name, Single), now) ==
            s.(entries := es + [Entry(s.nextId, ToolRow(Tool(name, Running)), false)], nextId := s.nextId + 1, openGroup := None,
               tools := s.tools[tid := Slot(s.nextId, None)], busySince := Since(s, now))
  {
    hide CloseGroup, Good, AllGroupsEnded;
    es := CloseBusyMeans(s, now);
    assert s.planRows + {} == s.planRows;
  }

  /** A tool of the open group's label goes behind the others there; else it begins a group, which
      ends another one.  Either way it shows under its name, running. */
  lemma GroupedToolStarts(s: State, tid: string, name: string, title: Option<string>, now: int) returns (es: seq<Entry>, k: nat)
    requires Good(s)
    ensures AllGroupsEnded(s, es)
    ensures var n, t, id := Step(s, ToolStarted(tid, name, Run(title)), now), Tool(name, Running), s.nextId;
            if k < |s.entries| then JoinsAt(s, n, tid, t, title, k, now)
            else
              (forall j :: 0 <= j < |s.entries| ==> !OpensAt(s, title, j)) &&
              n == s.(entries := es + [Entry(id, Group([t], false, title), false)], nextId := id + 1, openGroup := Some(id),
                      tools := s.tools[tid := Slot(id, Some(0))], busySince := Since(s, now))
  {
    hide Joins, JoinGroup, JoinsAt, CloseGroup, AllGroupsEnded, Good, NewGroup, OpensAt;
    var b, t := BecameBusy(s, now), Tool(name, Running);
    if Joins(b, title) {
      CloseMeans(s);
      es := CloseGroup(s).entries;
      k := JoinStarts(s, tid, t, title, now);
    } else {
      k := |s.entries|;
      es := NewGroupStarts(s, tid, t, title, now);
    }
  }

  lemma NewGroupStarts(s: State, tid: string, t: Tool, title: Option<string>, now: int) returns (es: seq<Entry>)
    requires Good(s) && !Joins(BecameBusy(s, now), title)
    ensures AllGroupsEnded(s, es) && forall j :: 0 <= j < |s.entries| ==> !OpensAt(s, title, j)
    ensures NewGroup(BecameBusy(s, now), tid, t, title) ==
            s.(entries := es + [Entry(s.nextId, Group([t], false, title), false)], nextId := s.nextId + 1,
               openGroup := Some(s.nextId), tools := s.tools[tid := Slot(s.nextId, Some(0))], busySince := Since(s, now))
  {
    NoneOpens(s, title, now);
    hide CloseGroup, Good, AllGroupsEnded, OpensAt, Joins;
    es := CloseBusyMeans(s, now);
  }

  lemma NoneOpens(s: State, title: Option<string>, now: int)
    requires Good(s) && !Joins(BecameBusy(s, now), title)
    ensures forall j :: 0 <= j < |s.entries| ==> !OpensAt(s, title, j)
  {
    GoodIds(s);
    hide Good, Get;
    forall j | 0 <= j < |s.entries| ensures !OpensAt(s, title, j) { GetAt(s.entries, j); }
  }

  lemma JoinStarts(s: State, tid: string, t: Tool, title: Option<string>, now: int) returns (k: nat)
    requires Good(s) && Joins(BecameBusy(s, now), title)
    ensures k < |s.entries| && JoinsAt(s, JoinGroup(BecameBusy(s, now), tid, t, title), tid, t, title, k, now)
  {
    GoodIds(s);
    hide Good, Unique, JoinGroup, Get, Joins;
    var b := BecameBusy(s, now);
    k := JoinPlace(b, title);
    JoinAt(b, tid, t, title, k);
    assert b == s.(busySince := Since(s, now));
  }

  lemma JoinPlace(s: State, title: Option<string>) returns (k: nat)
    requires Unique(s.entries) && Joins(s, title)
    ensures k < |s.entries| && OpensAt(s, title, k)
  {
    hide Unique;
    k := Place(s.entries, s.openGroup.value);
  }

  lemma JoinAt(s: State, tid: string, t: Tool, title: Option<string>, k: nat)
    requires Unique(s.entries) && k < |s.entries| && OpensAt(s, title, k)
    ensures var e := s.entries[k];
            Joins(s, title) &&
            JoinGroup(s, tid, t, title) ==
            s.(entries := s.entries[k := Entry(e.id, Group(e.block.tools + [t], e.block.closed, title), e.done)],
               tools := s.tools[tid := Slot(e.id, Some(|e.block.tools|))])
  {
    var e := s.entries[k];
    GetAt(s.entries, k);
    SetAt(s.entries, k, Group(e.block.tools + [t], e.block.closed, title));
    hide Get, Find, SetBlock, Unique, SetDone;
    assert e.block.(tools := e.block.tools + [t]) == Group(e.block.tools + [t], e.block.closed, title);
  }

  // ----- a tool ends ---------------------------------------------------------------------------

  lemma {:induction false} KeepOthers(es: seq<Entry>, id: nat)
    requires forall j :: 0 <= j < |es| ==> es[j].id != id
    ensures Keep(es, (e: Entry) => e.id != id) == es
  {
    if es != [] { KeepOthers(es[..|es| - 1], id); }
  }

  lemma {:induction false} KeepDrops(es: seq<Entry>, k: nat)
    requires Unique(es) && k < |es|
    ensures Keep(es, (e: Entry) => e.id != es[k].id) == es[..k] + es[k + 1..]
  {
    var n, id := |es| - 1, es[k].id;
    if k == n {
      KeepOthers(es[..n], id);
    } else {
      KeepDrops(es[..n], k);
      assert es[..n][..k] == es[..k] && es[..n][k + 1..] + [es[n]] == es[k + 1..];
    }
  }

  /** A tool that ends gets its status, where it is shown; a row is then done, a group if it is closed
      and nothing in it runs.  A plan update that did not fail, of a plan reported too, goes. */
  ghost predicate ToolEnds(s: State, n: State, tid: string, status: Outcome, k: nat)
    requires tid in s.tools && k < |s.entries|
  {
    var e, idx := s.entries[k], s.tools[tid].idx;
    if idx == None then
      e.block.ToolRow? &&
      n == s.(tools := s.tools - {tid}, planRows := s.planRows - {e.id},
              entries := if e.id in s.planRows && s.planSeen && status != Error then s.entries[..k] + s.entries[k + 1..]
                         else s.entries[k := Entry(e.id, ToolRow(Tool(e.block.tool.name, status)), true)])
    else
      e.block.Group? && idx.value < |e.block.tools| &&
      var tools := e.block.tools[idx.value := Tool(e.block.tools[idx.value].name, status)];
      n == s.(tools := s.tools - {tid},
              entries := s.entries[k := Entry(e.id, Group(tools, e.block.closed, e.block.title), e.block.closed && !HasRunning(tools))])
  }

  lemma RowEnds(s: State, tid: string, status: Outcome, k: nat)
    requires Good(s) && tid in s.tools && k < |s.entries| && s.entries[k].id == s.tools[tid].id && s.tools[tid].idx == None
    ensures ToolEnds(s, FinishTool(s, tid, status), tid, status, k)
  {
    hide Get, Find, SetBlock, SetDone, Keep, Unique, FinishTool;
    var e := s.entries[k];
    RowIsHeld(s, tid, k);
    var es := s.entries[k := Entry(e.id, ToolRow(Tool(e.block.tool.name, status)), e.done)];
    GetSet(s.entries, k, es[k]);
    SetAt(es, k, es[k].block);
    KeepDrops(es, k);
    GoneStays(es, k);
    RowDropped(s, tid, status, k, es);
    hide Good;
    assert es[..k] + es[k + 1..] == s.entries[..k] + s.entries[k + 1..];
    assert es[k := Entry(e.id, es[k].block, true)] == s.entries[k := Entry(e.id, ToolRow(Tool(e.block.tool.name, status)), true)];
  }

  lemma RowIsHeld(s: State, tid: string, k: nat)
    requires Good(s) && tid in s.tools && k < |s.entries| && s.entries[k].id == s.tools[tid].id && s.tools[tid].idx == None
    ensures Unique(s.entries) && s.entries[k].block.ToolRow?
  {
    GetAt(s.entries, k);
  }

  /** What happens to the row once it has its status. */
  lemma RowDropped(s: State, tid: string, status: Outcome, k: nat, es: seq<Entry>)
    requires Unique(s.entries) && tid in s.tools && k < |s.entries| && s.entries[k].id == s.tools[tid].id && s.tools[tid].idx == None
    requires s.entries[k].block.ToolRow?
    requires es == s.entries[k := Entry(s.entries[k].id, ToolRow(Tool(s.entries[k].block.tool.name, status)), s.entries[k].done)]
    ensures var id := s.entries[k].id;
            FinishTool(s, tid, status) ==
            s.(tools := s.tools - {tid}, planRows := s.planRows - {id},
               entries := SetDone(if id in s.planRows && s.planSeen && status != Error then Keep(es, (e: Entry) => e.id != id) else es, id))
  {
    var e := s.entries[k];
    GetAt(s.entries, k);
    SetAt(s.entries, k, ToolRow(e.block.tool.(status := status)));
    hide Get, SetBlock, SetDone, Keep, Unique;
    assert SetStatus(s.entries, s.tools[tid], status) == es;
    assert e.id !in s.planRows ==> s.planRows - {e.id} == s.planRows;
  }

  lemma GoneStays(es: seq<Entry>, k: nat)
    requires Unique(es) && k < |es|
    ensures var rest := es[..k] + es[k + 1..]; SetDone(rest, es[k].id) == rest
  {
    var rest := es[..k] + es[k + 1..];
    assert forall j :: 0 <= j < |rest| ==> rest[j] == es[if j < k then j else j + 1];
  }

  lemma GroupedToolEnds(s: State, tid: string, status: Outcome, k: nat)
    requires Good(s) && tid in s.tools && k < |s.entries| && s.entries[k].id == s.tools[tid].id && s.tools[tid].idx.Some?
    ensures ToolEnds(s, FinishTool(s, tid, status), tid, status, k)
  {
    var e, slot := s.entries[k], s.tools[tid];
    GetAt(s.entries, k);
    var i := slot.idx.value;
    var tools := e.block.tools[i := Tool(e.block.tools[i].name, status)];
    var b := Group(tools, e.block.closed, e.block.title);
    SetAt(s.entries, k, b);
    var es := s.entries[k := Entry(e.id, b, e.done)];
    GetSet(s.entries, k, es[k]);
    GetAt(es, k);
    SetAt(es, k, b);
    RunningIs(tools);
    assert e.id !in s.planRows && !e.done;
    hide Good, Get, Find, SetBlock, SetDone, Keep, Unique;
  }

  lemma ToolFinishedMeans(s: State, tid: string, status: Outcome, now: int) returns (k: nat)
    requires Good(s)
    ensures var n := Step(s, ToolFinished(tid, status), now);
            if tid !in s.tools then n == s
            else k < |s.entries| && s.entries[k].id == s.tools[tid].id && ToolEnds(s, n, tid, status, k)
  {
    k := 0;
    if tid in s.tools {
      k := Place(s.entries, s.tools[tid].id);
      if s.tools[tid].idx == None { RowEnds(s, tid, status, k); } else { GroupedToolEnds(s, tid, status, k); }
    }
  }

  // ----- replies -------------------------------------------------------------------------------

  /** What a token leaves of a block: its reply grows, the reasoning of its stream is done, and a run
      of reads ends if the token is not blank. */
  ghost function AfterToken(s: State, e: Entry, sid: string, token: string): Entry {
    if sid in s.streams && s.streams[sid] == e.id && e.block.Assistant? then
      Entry(e.id, Assistant(e.block.markdown + token), e.done)
    else if sid in s.reasoning && s.reasoning[sid] == e.id then Entry(e.id, e.block, true)
    else if AllWhitespace(token) then e
    else GroupEnded(s, e)
  }

  ghost predicate TokenAdded(s: State, n: State, sid: string, token: string, now: int) {
    n == s.(entries := n.entries, nextId := n.nextId, streams := n.streams, reasoning := s.reasoning - {sid},
            openGroup := if AllWhitespace(token) then s.openGroup else None,
            busySince := if AllWhitespace(token) then s.busySince else Since(s, now)) &&
    |n.entries| >= |s.entries| &&
    (forall k :: 0 <= k < |s.entries| ==> n.entries[k] == AfterToken(s, s.entries[k], sid, token)) &&
    if sid in s.streams then |n.entries| == |s.entries| && n.nextId == s.nextId && n.streams == s.streams
    else
      |n.entries| == |s.entries| + 1 && n.entries[|s.entries|] == Entry(s.nextId, Assistant(token), false) &&
      n.nextId == s.nextId + 1 && n.streams == s.streams[sid := s.nextId]
  }

  /** The blocks when reading has stopped and the reasoning of the stream is done. */
  ghost predicate Ready(s: State, es: seq<Entry>, sid: string, token: string) {
    |es| == |s.entries| && forall k :: 0 <= k < |es| ==>
      es[k] == if sid in s.reasoning && s.reasoning[sid] == s.entries[k].id then Entry(s.entries[k].id, s.entries[k].block, true)
               else if AllWhitespace(token) then s.entries[k] else GroupEnded(s, s.entries[k])
  }

  lemma ReadyForToken(s: State, sid: string, token: string, now: int)
    requires Good(s)
    ensures var a := if AllWhitespace(token) then s else CloseGroup(BecameBusy(s, now));
            var n := EndReasoning(a, sid);
            Good(n) && Ready(s, n.entries, sid, token) &&
            n == s.(entries := n.entries, reasoning := s.reasoning - {sid}, openGroup := if AllWhitespace(token) then s.openGroup else None,
                    busySince := if AllWhitespace(token) then s.busySince else Since(s, now))
  {
    hide Good, CloseGroup, EndReasoning, GroupEnded, Get, Unique, AllGroupsEnded;
    var mid := CloseBusyMeans(s, now);
    BusyGood(s, now);
    CloseGood(BecameBusy(s, now));
    var a := if AllWhitespace(token) then s else CloseGroup(BecameBusy(s, now));
    GoodIds(a);
    EndReasoningGood(a, sid);
    EndReasoningAt(a, sid);
    ReasoningIsNoGroup(s, sid);
    ReadyFrom(s, a.entries, EndReasoning(a, sid).entries, sid, token);
  }

  lemma ReadyFrom(s: State, mid: seq<Entry>, es: seq<Entry>, sid: string, token: string)
    requires if AllWhitespace(token) then mid == s.entries else AllGroupsEnded(s, mid)
    requires forall k :: 0 <= k < |s.entries| && sid in s.reasoning && s.entries[k].id == s.reasoning[sid] ==> s.entries[k].block.Reasoning?
    requires |es| == |mid| && forall k :: 0 <= k < |es| ==>
               es[k] == if sid in s.reasoning && s.reasoning[sid] == mid[k].id then Entry(mid[k].id, mid[k].block, true) else mid[k]
    ensures Ready(s, es, sid, token)
  {
    hide HasRunning;
    forall k | 0 <= k < |es|
      ensures es[k] == if sid in s.reasoning && s.reasoning[sid] == s.entries[k].id then Entry(s.entries[k].id, s.entries[k].block, true)
               else if AllWhitespace(token) then s.entries[k] else GroupEnded(s, s.entries[k])
    {
      assert mid[k].id == s.entries[k].id;
    }
  }

  lemma ReasoningIsNoGroup(s: State, sid: string)
    requires Good(s)
    ensures forall k :: 0 <= k < |s.entries| && sid in s.reasoning && s.entries[k].id == s.reasoning[sid] ==> s.entries[k].block.Reasoning?
  {
    forall k | 0 <= k < |s.entries| && sid in s.reasoning && s.entries[k].id == s.reasoning[sid] ensures s.entries[k].block.Reasoning? {
      GetAt(s.entries, k);
    }
  }

  lemma EndReasoningAt(a: State, sid: string)
    requires Unique(a.entries)
    ensures var n := EndReasoning(a, sid);
            n == a.(entries := n.entries, reasoning := a.reasoning - {sid}) && |n.entries| == |a.entries| &&
            forall k :: 0 <= k < |n.entries| ==>
              n.entries[k] == if sid in a.reasoning && a.reasoning[sid] == a.entries[k].id
                              then Entry(a.entries[k].id, a.entries[k].block, true) else a.entries[k]
  {
    if sid in a.reasoning {
      if Get(a.entries, a.reasoning[sid]).Some? {
        var k := Place(a.entries, a.reasoning[sid]);
        SetAt(a.entries, k, a.entries[k].block);
      }
    } else {
      assert a.reasoning - {sid} == a.reasoning;
    }
  }

  lemma RepliesAreReplies(s: State, sid: string)
    requires Good(s) && sid in s.streams
    ensures Get(s.entries, s.streams[sid]).Some? && Unique(s.entries)
    ensures forall k :: 0 <= k < |s.entries| && s.entries[k].id == s.streams[sid] ==>
              s.entries[k].block.Assistant? && s.openGroup != Some(s.entries[k].id) &&
              (sid in s.reasoning ==> s.reasoning[sid] != s.entries[k].id)
  {
    forall k | 0 <= k < |s.entries| && s.entries[k].id == s.streams[sid]
      ensures s.entries[k].block.Assistant? && s.openGroup != Some(s.entries[k].id) &&
              (sid in s.reasoning ==> s.reasoning[sid] != s.entries[k].id)
    {
      GetAt(s.entries, k);
    }
  }

  lemma AddTextAt(c: State, k: nat, token: string)
    requires k < |c.entries| && c.entries[k].block.Assistant? && Unique(c.entries)
    ensures var e := c.entries[k];
            AddText(c, e.id, token) == c.(entries := c.entries[k := Entry(e.id, Assistant(e.block.markdown + token), e.done)])
  {
    GetAt(c.entries, k);
    SetAt(c.entries, k, Assistant(c.entries[k].block.markdown + token));
  }

  /** A reply already open. */
  lemma OldReply(s: State, c: State, sid: string, token: string)
    requires Good(s) && sid in s.streams && Ready(s, c.entries, sid, token) && Unique(c.entries)
    ensures var n := AddText(c, s.streams[sid], token);
            n == c.(entries := n.entries) && |n.entries| == |s.entries| &&
            forall k :: 0 <= k < |s.entries| ==> n.entries[k] == AfterToken(s, s.entries[k], sid, token)
  {
    RepliesAreReplies(s, sid);
    var k := Place(s.entries, s.streams[sid]);
    assert c.entries[k] == s.entries[k];
    AddTextAt(c, k, token);
    hide AddText, Good, Get, Unique;
  }

  /** A reply begun. */
  lemma NewReply(s: State, c: State, sid: string, token: string)
    requires sid !in s.streams && c.streams == s.streams && Ready(s, c.entries, sid, token) && Unique(c.entries)
    requires Get(c.entries, c.nextId).None?
    ensures var d := EnsureStream(c, sid);
            d.streams == s.streams[sid := c.nextId] &&
            AddText(d, c.nextId, token) == d.(entries := c.entries + [Entry(c.nextId, Assistant(token), false)]) &&
            d == c.(entries := d.entries, nextId := c.nextId + 1, streams := d.streams)
    ensures forall k :: 0 <= k < |s.entries| ==> c.entries[k] == AfterToken(s, s.entries[k], sid, token)
  {
    var d := EnsureStream(c, sid);
    var n := |c.entries|;
    GetPush(c.entries, Entry(c.nextId, Assistant(""), false));
    assert d.entries == c.entries + [Entry(c.nextId, Assistant(""), false)];
    AddTextAt(d, n, token);
    assert "" + token == token;
    assert d.entries[n := Entry(c.nextId, Assistant(token), false)] == c.entries + [Entry(c.nextId, Assistant(token), false)];
  }

  /** A token goes to the end of its reply, or begins one at the end if its stream has none; a token
      that is not blank ends a run of reads; the reasoning of the stream is done. */
  lemma TokenMeans(s: State, sid: string, token: string, now: int)
    requires Good(s)
    ensures TokenAdded(s, Step(s, TokenDelta(sid, token), now), sid, token, now)
  {
    hide EndReasoning, CloseGroup, Good, Ready, Unique, Get, AddText, EnsureStream, AfterToken, TokenAdded, BecameBusy;
    ReadyForToken(s, sid, token, now);
    var c := EndReasoning(if AllWhitespace(token) then s else CloseGroup(BecameBusy(s, now)), sid);
    ReadyFits(s, c, sid, token);
    EnsureMeans(c, sid);
    ReadyAdds(s, c, sid, token, now);
    assert Step(s, TokenDelta(sid, token), now) == AddText(EnsureStream(c, sid), EnsureStream(c, sid).streams[sid], token);
  }

  lemma ReadyAdds(s: State, c: State, sid: string, token: string, now: int)
    requires Good(s) && Ready(s, c.entries, sid, token) && Unique(c.entries) && Get(c.entries, c.nextId).None? && |c.entries| == |s.entries|
    requires c == s.(entries := c.entries, reasoning := s.reasoning - {sid}, openGroup := if AllWhitespace(token) then s.openGroup else None,
                     busySince := if AllWhitespace(token) then s.busySince else Since(s, now))
    ensures var d := EnsureStream(c, sid); sid in d.streams && TokenAdded(s, AddText(d, d.streams[sid], token), sid, token, now)
  {
    hide Good, Ready, Unique, Get, AddText, EnsureStream, AfterToken;
    EnsureMeans(c, sid);
    if sid in s.streams { OldReply(s, c, sid, token); } else { NewReply(s, c, sid, token); }
  }

  lemma EnsureMeans(c: State, sid: string)
    ensures sid in EnsureStream(c, sid).streams && (sid in c.streams ==> EnsureStream(c, sid) == c)
  {
  }

  lemma ReadyFits(s: State, c: State, sid: string, token: string)
    requires Good(c) && Ready(s, c.entries, sid, token)
    ensures |c.entries| == |s.entries| && Unique(c.entries) && Get(c.entries, c.nextId).None?
  {
  }

  /** What is left to show of a reply that ends: of a final text that goes on from what was printed,
      the rest behind its newlines; else what was held. */
  ghost predicate LeftToShow(printed: string, held: string, text: Option<string>, out: string) {
    if text.Some? && printed <= text.value then
      |printed| + |out| <= |text.value| && out == text.value[|text.value| - |out|..] && (out != "" ==> out[0] != '\n') &&
      forall k :: |printed| <= k < |text.value| - |out| ==> text.value[k] == '\n'
    else out == held
  }

  /** A message that ends leaves its reply and its reasoning done, and every other block as it was. */
  ghost predicate Completes(s: State, n: State, sid: string, text: Option<string>) {
    |n.entries| == |s.entries| &&
    n == s.(entries := n.entries, streams := s.streams - {sid}, reasoning := s.reasoning - {sid},
            printed := if sid in s.streams then s.printed - {s.streams[sid]} else s.printed) &&
    forall k :: 0 <= k < |s.entries| ==>
      var e, f := s.entries[k], n.entries[k];
      if sid in s.streams && s.streams[sid] == e.id then
        e.block.Assistant? && f.block.Assistant? && f.id == e.id && f.done &&
        LeftToShow(if e.id in s.printed then s.printed[e.id] else "", e.block.markdown, text, f.block.markdown)
      else if sid in s.reasoning && s.reasoning[sid] == e.id then f == Entry(e.id, e.block, true)
      else f == e
  }

  lemma CompletedIs(printed: string, held: string, text: Option<string>)
    ensures LeftToShow(printed, held, text, Paragraphs.Completed(printed, held, text))
  {
    if text.Some? && printed <= text.value {
      var rest := text.value[|printed|..];
      var n := Paragraphs.NewlinesBefore(rest);
      assert rest[n..] == text.value[|printed| + n..];
      forall k | |printed| <= k < |printed| + n ensures text.value[k] == '\n' { assert rest[k - |printed|] == '\n'; }
    }
  }

  lemma MessageCompletedMeans(s: State, sid: string, text: Option<string>, now: int)
    requires Good(s)
    ensures Completes(s, Step(s, MessageCompleted(sid, text), now), sid, text)
  {
    hide Good, EndReasoning, Get, Unique, CompleteText, Finish, LeftToShow;
    GoodIds(s);
    EndReasoningAt(s, sid);
    EndReasoningGood(s, sid);
    var a := EndReasoning(s, sid);
    if sid in s.streams {
      RepliesAreReplies(s, sid);
      var k := Place(s.entries, s.streams[sid]);
      GoodIds(a);
      CompleteAt(a.(streams := a.streams - {sid}), k, text);
    } else {
      assert s.streams - {sid} == s.streams;
    }
  }

  lemma CompleteAt(a: State, k: nat, text: Option<string>)
    requires Unique(a.entries) && k < |a.entries| && a.entries[k].block.Assistant?
    ensures var e := a.entries[k];
            var n := Finish(CompleteText(a, e.id, text), e.id);
            n == a.(entries := n.entries, printed := a.printed - {e.id}) && |n.entries| == |a.entries| &&
            (forall j :: 0 <= j < |a.entries| && j != k ==> n.entries[j] == a.entries[j]) &&
            n.entries[k].block.Assistant? && n.entries[k].id == e.id && n.entries[k].done &&
            LeftToShow(if e.id in a.printed then a.printed[e.id] else "", e.block.markdown, text, n.entries[k].block.markdown)
  {
    hide Unique, LeftToShow, CompleteText, SetDone, Find, Get;
    var e := a.entries[k];
    var was := if e.id in a.printed then a.printed[e.id] else "";
    var b := Assistant(Paragraphs.Completed(was, e.block.markdown, text));
    CompletedIs(was, e.block.markdown, text);
    CompleteTextAt(a, k, text);
    var es := a.entries[k := Entry(e.id, b, e.done)];
    GetSet(a.entries, k, es[k]);
    SetAt(es, k, b);
  }

  lemma CompleteTextAt(a: State, k: nat, text: Option<string>)
    requires Unique(a.entries) && k < |a.entries| && a.entries[k].block.Assistant?
    ensures var e := a.entries[k];
            var was := if e.id in a.printed then a.printed[e.id] else "";
            CompleteText(a, e.id, text) ==
            a.(printed := a.printed - {e.id},
               entries := a.entries[k := Entry(e.id, Assistant(Paragraphs.Completed(was, e.block.markdown, text)), e.done)])
  {
    var e := a.entries[k];
    var was := if e.id in a.printed then a.printed[e.id] else "";
    var b := Assistant(Paragraphs.Completed(was, e.block.markdown, text));
    GetAt(a.entries, k);
    SetAt(a.entries, k, b);
    hide SetBlock, Unique, Find;
    if text.Some? && was <= text.value {
    } else {
      assert b == e.block && a.entries[k := Entry(e.id, b, e.done)] == a.entries;
    }
  }

  // ----- other events --------------------------------------------------------------------------

  /** A block the host shows goes to the end, done; unless it is reply text, reasoning or a group it
      ends a run of reads. */
  lemma BlockShownMeans(s: State, b: Block, now: int) returns (es: seq<Entry>)
    requires Good(s)
    ensures AllGroupsEnded(s, es)
    ensures Step(s, BlockShown(b), now) ==
            if b.Assistant? || b.Reasoning? || b.Group? then
              s.(entries := s.entries + [Entry(s.nextId, b, true)], nextId := s.nextId + 1)
            else s.(entries := es + [Entry(s.nextId, b, true)], nextId := s.nextId + 1, openGroup := None)
  {
    es := CloseGroup(s).entries;
    CloseMeans(s);
    hide CloseGroup, Good, AllGroupsEnded;
  }

  /** A list of steps is the plan, an empty one takes it away; a plan was seen from then on. */
  lemma TodoListMeans(s: State, items: seq<PlanItem>, now: int)
    ensures Step(s, TodoList(items), now) ==
            if items == [] then s.(plan := None) else s.(plan := Some(items), planSeen := true)
  {
  }

  /** A busy phase changes no block; only the first phase that is not busy ends the turn.  A
      cancelled one ends it as interrupted. */
  lemma PhaseMeans(s: State, now: int)
    ensures Step(s, Phase(true), now) == s.(phaseBusy := true, busySince := Since(s, now))
    ensures Step(s, Phase(false), now) == if s.phaseBusy then Settle(s.(phaseBusy := false), false) else s
    ensures Step(s, Cancelled, now) == Settle(s, true)
  {
  }

  /** Clearing drops the plan and exactly the blocks that are done. */
  lemma ClearedMeans(s: State, now: int) returns (at: seq<nat>)
    ensures var n := Step(s, Cleared, now);
            n == s.(entries := n.entries, plan := None) && IsFilter(s.entries, n.entries, (e: Entry) => !e.done, at)
  {
    at := KeepIs(s.entries, (e: Entry) => !e.done);
  }

  lemma {:induction false} KeepIs(es: seq<Entry>, p: Entry -> bool) returns (at: seq<nat>)
    ensures IsFilter(es, Keep(es, p), p, at)
  {
    hide IsFilter;
    if es == [] {
      FilterNone(p);
      at := [];
    } else {
      var init, e := es[..|es| - 1], es[|es| - 1];
      at := KeepIs(init, p);
      FilterLast(init, Keep(init, p), p, at, e);
      assert init + [e] == es;
      at := if p(e) then at + [|init|] else at;
    }
  }

  // ----- the end of a turn ---------------------------------------------------------------------

  /** The end of a turn stops a tool that runs, and changes no other. */
  ghost predicate ToolStops(t: Tool, u: Tool) {
    u.name == t.name && u.status == if t.status == Running then Stopped else t.status
  }

  /** A block at the end of a turn: done, its tools stopped, a group closed, the rest as it was. */
  ghost predicate BlockStops(e: Entry, f: Entry) {
    f.id == e.id && f.done &&
    if e.block.ToolRow? then f.block.ToolRow? && ToolStops(e.block.tool, f.block.tool)
    else if e.block.Group? then
      f.block.Group? && f.block.closed && f.block.title == e.block.title && |f.block.tools| == |e.block.tools| &&
      forall i :: 0 <= i < |e.block.tools| ==> ToolStops(e.block.tools[i], f.block.tools[i])
    else f.block == e.block
  }

  /** What the end of a turn adds: the plan if the turn was interrupted and a step is not done, then
      a notice if it was interrupted while something went on. */
  ghost predicate Added(s: State, interrupted: bool, added: seq<Entry>) {
    var plan := interrupted && s.plan.Some? && exists k :: 0 <= k < |s.plan.value| && !s.plan.value[k].done;
    var note := interrupted && (s.phaseBusy || exists k :: 0 <= k < |s.entries| && !s.entries[k].done);
    var first: seq<Entry> := if plan then [Entry(s.nextId, Plan(s.plan.value), true)] else [];
    added == first + if note then [Entry(s.nextId + |first|, Note("Interrupted"), true)] else []
  }

  /** The end of a turn drops the rows of plan updates and no other block; each other one stays in its
      place, stopped; behind them comes what the end adds. */
  lemma SettleMeans(s: State, interrupted: bool) returns (kept: seq<Entry>, at: seq<nat>, added: seq<Entry>)
    requires Good(s)
    ensures IsFilter(s.entries, kept, (e: Entry) => e.id !in s.planRows, at) && Added(s, interrupted, added)
    ensures var n := Settle(s, interrupted);
            |n.entries| == |kept| + |added| && n.entries[|kept|..] == added &&
            (forall k :: 0 <= k < |kept| ==> BlockStops(kept[k], n.entries[k])) &&
            n == s.(entries := n.entries, nextId := s.nextId + |added|, planRows := {}, openGroup := None, streams := map[],
                    tools := map[], phaseBusy := false, plan := None, busySince := None)
  {
    hide Good, Keep, StopEntry, IsFilter, BlockStops, Added, Settle;
    var keep := (e: Entry) => e.id !in s.planRows;
    kept := Keep(s.entries, keep);
    at := KeepIs(s.entries, keep);
    added := SettleShape(s, interrupted);
    RunningRows(s);
    forall k | 0 <= k < |kept| ensures BlockStops(kept[k], StopAll(kept)[k]) {
      FilterHas(s.entries, kept, keep, at, k);
      EntryStops(kept[k]);
    }
  }

  /** The blocks kept, stopped, and the blocks added. */
  lemma SettleShape(s: State, interrupted: bool) returns (added: seq<Entry>)
    ensures Added(s, interrupted, added)
    ensures Settle(s, interrupted) ==
            s.(entries := StopAll(Keep(s.entries, (e: Entry) => e.id !in s.planRows)) + added, nextId := s.nextId + |added|, planRows := {},
               openGroup := None, streams := map[], tools := map[], phaseBusy := false, plan := None, busySince := None)
  {
    AddedIs(s, interrupted);
    hide Keep, StopAll, IsBusy, Unfinished;
    var es := StopAll(Keep(s.entries, (e: Entry) => e.id !in s.planRows));
    added := Settle(s, interrupted).entries[|es|..];
    assert es + [] == es;
  }

  lemma AddedIs(s: State, interrupted: bool)
    ensures IsBusy(s) <==> s.phaseBusy || exists k :: 0 <= k < |s.entries| && !s.entries[k].done
    ensures Unfinished(s.plan) <==> s.plan.Some? && exists k :: 0 <= k < |s.plan.value| && !s.plan.value[k].done
  {
  }

  lemma FilterHas<T(!new)>(from: seq<T>, to: seq<T>, keep: T -> bool, at: seq<nat>, k: nat)
    requires IsFilter(from, to, keep, at) && k < |to|
    ensures to[k] in from
  {
  }

  lemma RunningRows(s: State)
    requires Good(s)
    ensures forall e :: e in s.entries && e.block.ToolRow? ==> (e.done <==> e.block.tool.status != Running)
  {
    forall e | e in s.entries && e.block.ToolRow? ensures e.done <==> e.block.tool.status != Running {
      var k :| 0 <= k < |s.entries| && s.entries[k] == e;
      GetAt(s.entries, k);
      assert EntryOk(e, s.openGroup);
    }
  }

  lemma EntryStops(e: Entry)
    requires e.block.ToolRow? ==> (e.done <==> e.block.tool.status != Running)
    ensures BlockStops(e, StopEntry(e))
  {
  }

  // ----- printing --------------------------------------------------------------------------------

  /** Of the blocks taken exactly those are printed, in order, that are no blank reply and, unless
      reasoning is shown, no reasoning. */
  lemma {:induction false} PrintedAre(es: seq<Entry>, showReasoning: bool) returns (at: seq<nat>)
    ensures IsFilter(es, Shown(es, showReasoning),
                     (e: Entry) => (e.block.Assistant? ==> !BlankText(e.block.markdown)) && (e.block.Reasoning? ==> showReasoning), at)
  {
    at := KeepIs(es, (e: Entry) => Visible(e, showReasoning));
    forall e: Entry ensures e.block.Assistant? ==> (AllWhitespace(e.block.markdown) <==> BlankText(e.block.markdown)) {
      if e.block.Assistant? { BlankIs(e.block.markdown); }
    }
    hide IsFilter, Keep, BlankText;
    FilterAlike(es, Shown(es, showReasoning), (e: Entry) => Visible(e, showReasoning),
                (e: Entry) => (e.block.Assistant? ==> !BlankText(e.block.markdown)) && (e.block.Reasoning? ==> showReasoning), at);
  }

  /** Printing takes the blocks up to the first that is not done.  Before, a leading reply not done is
      split at its cut, if it has one: what is before it is a done block of its own, noted as printed
      with what is dropped at the cut. */
  lemma HistoryTakenMeans(s: State, now: int) returns (m: State, k: nat)
    ensures k <= |m.entries| && Taken(s) == m.entries[..k] && Step(s, HistoryTaken, now) == m.(entries := m.entries[k..])
    ensures (forall j :: 0 <= j < k ==> m.entries[j].done) && (k < |m.entries| ==> !m.entries[k].done)
    ensures var leads := s.entries != [] && !s.entries[0].done && s.entries[0].block.Assistant?;
            if leads && Paragraphs.CutOf(s.entries[0].block.markdown).Some? then
              var e, c := s.entries[0], Paragraphs.CutOf(s.entries[0].block.markdown).value;
              m == s.(entries := [Entry(s.nextId, Assistant(c.head), true), Entry(e.id, Assistant(c.tail), false)] + s.entries[1..],
                      nextId := s.nextId + 1,
                      printed := s.printed[e.id := (if e.id in s.printed then s.printed[e.id] else "") + c.consumed])
            else m == s
  {
    hide Paragraphs.CutOf;
    m, k := SplitLeading(s), DoneCount(SplitLeading(s).entries);
    if m != s {
      var e, c := s.entries[0], Paragraphs.CutOf(s.entries[0].block.markdown).value;
      assert s.entries[0 := e.(block := Assistant(c.tail))] == [Entry(e.id, Assistant(c.tail), false)] + s.entries[1..];
    }
  }
}
