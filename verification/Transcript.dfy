/** Held transcript blocks (crates/inline/src/session.rs): what each host event does to the
    blocks that are not in scrollback yet.

    A state is a value here and every event a function on it; the class in Session.dfy keeps the
    fields in place and is proved to follow these functions. */
module Transcript {
  import opened Chars
  import opened Styles
  import Paragraphs

  datatype Status = Running | Ok | Error | Declined | Stopped

  /** How a tool may end. */
  type Outcome = s: Status | s != Running witness Ok

  datatype Tool = Tool(name: string, status: Status)

  datatype PlanItem = PlanItem(text: string, done: bool)

  datatype Block =
    | Assistant(markdown: string)
    | Reasoning(text: string)
    | ToolRow(tool: Tool)
    | Group(tools: seq<Tool>, closed: bool, title: Option<string>)
    | Plan(items: seq<PlanItem>)
    | Note(text: string)

  datatype Entry = Entry(id: nat, block: Block, done: bool)

  /** Where a running tool is: a block, or a place in a group. */
  datatype Slot = Slot(id: nat, idx: Option<nat>)

  datatype State = State(
    entries: seq<Entry>, nextId: nat,
    streams: map<string, nat>, printed: map<nat, string>, reasoning: map<string, nat>,
    tools: map<string, Slot>, openGroup: Option<nat>,
    plan: Option<seq<PlanItem>>, planSeen: bool, planRows: set<nat>,
    phaseBusy: bool, busySince: Option<int>)

  const START := State([], 1, map[], map[], map[], map[], None, None, false, {}, false, None)

  // ----- finding and changing blocks --------------------------------------------------

  function Find(es: seq<Entry>, id: nat): (r: Option<nat>)
    ensures r.Some? ==> r.value < |es| && es[r.value].id == id
    ensures r.None? ==> forall k :: 0 <= k < |es| ==> es[k].id != id
  {
    if es == [] then None
    else if es[|es| - 1].id == id then Some(|es| - 1)
    else Find(es[..|es| - 1], id)
  }

  function Get(es: seq<Entry>, id: nat): (e: Option<Entry>)
    ensures e.Some? ==> e.value.id == id
  {
    var r := Find(es, id);
    if r.Some? then Some(es[r.value]) else None
  }

  function SetBlock(es: seq<Entry>, id: nat, b: Block): seq<Entry> {
    var r := Find(es, id);
    if r.Some? then es[r.value := es[r.value].(block := b)] else es
  }

  function SetDone(es: seq<Entry>, id: nat): seq<Entry> {
    var r := Find(es, id);
    if r.Some? then es[r.value := es[r.value].(done := true)] else es
  }

  function Keep(es: seq<Entry>, p: Entry -> bool): seq<Entry> {
    if es == [] then []
    else
      var init, e := Keep(es[..|es| - 1], p), es[|es| - 1];
      if p(e) then init + [e] else init
  }

  ghost predicate Unique(es: seq<Entry>) {
    forall i, j :: 0 <= i < j < |es| ==> es[i].id != es[j].id
  }

  lemma GetAt(es: seq<Entry>, i: nat)
    requires Unique(es) && i < |es|
    ensures Get(es, es[i].id) == Some(es[i]) && Find(es, es[i].id) == Some(i)
  {
  }

  /** A block appended or put in under a new id. */
  lemma GetInsert(es: seq<Entry>, pos: nat, e: Entry)
    requires Unique(es) && pos <= |es| && Get(es, e.id).None?
    ensures var more := es[..pos] + [e] + es[pos..];
            Unique(more) && forall x: nat :: Get(more, x) == if x == e.id then Some(e) else Get(es, x)
  {
    var more := es[..pos] + [e] + es[pos..];
    assert forall k :: 0 <= k < |more| ==> more[k] == if k < pos then es[k] else if k == pos then e else es[k - 1];
    forall x: nat ensures Get(more, x) == if x == e.id then Some(e) else Get(es, x) {
      var r := Find(es, x);
      if x == e.id {
        GetAt(more, pos);
      } else if r.Some? {
        GetAt(more, if r.value < pos then r.value else r.value + 1);
      }
    }
  }

  lemma GetPush(es: seq<Entry>, e: Entry)
    requires Unique(es) && Get(es, e.id).None?
    ensures Unique(es + [e]) && forall x: nat :: Get(es + [e], x) == if x == e.id then Some(e) else Get(es, x)
  {
    GetInsert(es, |es|, e);
    assert es[..|es|] + [e] + es[|es|..] == es + [e];
  }

  lemma GetSet(es: seq<Entry>, i: nat, e: Entry)
    requires Unique(es) && i < |es| && e.id == es[i].id
    ensures Unique(es[i := e]) && forall x: nat :: Get(es[i := e], x) == if x == e.id then Some(e) else Get(es, x)
  {
    forall x: nat ensures Get(es[i := e], x) == if x == e.id then Some(e) else Get(es, x) {
      var r := Find(es, x);
      if r.Some? { GetAt(es[i := e], r.value); }
    }
  }

  lemma {:induction false} GetKeep(es: seq<Entry>, p: Entry -> bool)
    requires Unique(es)
    ensures Unique(Keep(es, p))
    ensures forall x: nat :: Get(Keep(es, p), x) == if Get(es, x).Some? && p(Get(es, x).value) then Get(es, x) else None
  {
    if es != [] {
      var init, e := es[..|es| - 1], es[|es| - 1];
      GetKeep(init, p);
      assert Get(init, e.id).None?;
      if p(e) { GetPush(Keep(init, p), e); }
    }
  }

  // ----- groups, busy state, pushing ---------------------------------------------------

  predicate AllStopped(tools: seq<Tool>) { forall k :: 0 <= k < |tools| ==> tools[k].status != Running }

  predicate Quiet(b: Block) {
    (b.ToolRow? ==> b.tool.status != Running) && (b.Group? ==> AllStopped(b.tools))
  }

  predicate IsBusy(s: State) { s.phaseBusy || exists k :: 0 <= k < |s.entries| && !s.entries[k].done }

  function Finish(s: State, id: nat): State { s.(entries := SetDone(s.entries, id)) }

  function FinishGroupIfDone(s: State, g: nat): State {
    var e := Get(s.entries, g);
    if e.Some? && e.value.block.Group? && e.value.block.closed && AllStopped(e.value.block.tools) then Finish(s, g) else s
  }

  function CloseGroup(s: State): State {
    if s.openGroup.None? then s
    else
      var g := s.openGroup.value;
      var e := Get(s.entries, g);
      var es := if e.Some? && e.value.block.Group? then SetBlock(s.entries, g, e.value.block.(closed := true)) else s.entries;
      FinishGroupIfDone(s.(entries := es, openGroup := None), g)
  }

  /** `push_quiet`: it does not end a run of reads. */
  function Append(s: State, b: Block, done: bool): (r: State)
    ensures r.nextId == s.nextId + 1 && r.planRows == s.planRows && r.tools == s.tools
  {
    s.(entries := s.entries + [Entry(s.nextId, b, done)], nextId := s.nextId + 1)
  }

  /** `push`: anything but reply text, reasoning or a group ends the open group. */
  function Push(s: State, b: Block, done: bool): State {
    Append(if b.Assistant? || b.Reasoning? || b.Group? then s else CloseGroup(s), b, done)
  }

  function BecameBusy(s: State, now: int): State { if s.busySince.None? then s.(busySince := Some(now)) else s }

  // ----- replies ---------------------------------------------------------------------------

  function StartStream(s: State, sid: string, now: int): State {
    var p := Push(s, Assistant(""), false);
    BecameBusy(p.(streams := p.streams[sid := s.nextId]), now)
  }

  /** Where a new reasoning block goes: above its reply while that has no text yet. */
  function ReasoningPlace(s: State, sid: string): Option<nat> {
    if sid !in s.streams then Some(|s.entries|)
    else
      var i := Find(s.entries, s.streams[sid]);
      if i.Some? && s.entries[i.value].block == Assistant("") then i else None
  }

  function ThinkMore(s: State, sid: string, token: string, now: int): State {
    if sid in s.reasoning then
      var e := Get(s.entries, s.reasoning[sid]);
      if e.Some? && e.value.block.Reasoning? then
        s.(entries := SetBlock(s.entries, s.reasoning[sid], Reasoning(e.value.block.text + token)))
      else s
    else
      var place := ReasoningPlace(s, sid);
      if place.None? then s
      else
        var e := Entry(s.nextId, Reasoning(token), false);
        BecameBusy(s.(entries := s.entries[..place.value] + [e] + s.entries[place.value..],
                      nextId := s.nextId + 1, reasoning := s.reasoning[sid := s.nextId]), now)
  }

  function EndReasoning(s: State, sid: string): State {
    if sid in s.reasoning then Finish(s.(reasoning := s.reasoning - {sid}), s.reasoning[sid]) else s
  }

  /** A delta without a start opens the stream. */
  function EnsureStream(s: State, sid: string): State {
    if sid in s.streams then s
    else
      var p := Push(s, Assistant(""), false);
      p.(streams := p.streams[sid := s.nextId])
  }

  function AddText(s: State, id: nat, token: string): State {
    var e := Get(s.entries, id);
    if e.Some? && e.value.block.Assistant? then
      s.(entries := SetBlock(s.entries, id, Assistant(e.value.block.markdown + token)))
    else s
  }

  /** A token before its text is added: reading stops, reasoning ends, the stream is there. */
  function BeforeToken(s: State, sid: string, token: string, now: int): State {
    var a := if AllWhitespace(token) then s else CloseGroup(BecameBusy(s, now));
    EnsureStream(EndReasoning(a, sid), sid)
  }

  function AddToken(s: State, sid: string, token: string, now: int): State
  {
    var b := BeforeToken(s, sid, token, now);
    if sid in b.streams then AddText(b, b.streams[sid], token) else b
  }

  function PrintedOf(s: State, id: nat): string { if id in s.printed then s.printed[id] else "" }

  function CompleteText(s: State, id: nat, text: Option<string>): State {
    var e := Get(s.entries, id);
    var a := s.(printed := s.printed - {id});
    if text.Some? && PrintedOf(s, id) <= text.value && e.Some? && e.value.block.Assistant? then
      a.(entries := SetBlock(a.entries, id, Assistant(Paragraphs.Completed(PrintedOf(s, id), e.value.block.markdown, text))))
    else a
  }

  function CompleteMessage(s: State, sid: string, text: Option<string>): State {
    var a := EndReasoning(s, sid);
    if sid in a.streams then
      var id := a.streams[sid];
      Finish(CompleteText(a.(streams := a.streams - {sid}), id, text), id)
    else a
  }

  // ----- tools -----------------------------------------------------------------------------

  /** How a tool is shown: a plan update, a row of its own, or part of a run of one label. */
  datatype Showing = PlanUpdate | Single | Run(title: Option<string>)

  predicate Joins(s: State, title: Option<string>) {
    s.openGroup.Some? &&
    var e := Get(s.entries, s.openGroup.value);
    e.Some? && e.value.block.Group? && e.value.block.title == title
  }

  function JoinGroup(s: State, tid: string, t: Tool, title: Option<string>): State
    requires Joins(s, title)
  {
    var g := s.openGroup.value;
    var b := Get(s.entries, g).value.block;
    s.(entries := SetBlock(s.entries, g, b.(tools := b.tools + [t])), tools := s.tools[tid := Slot(g, Some(|b.tools|))])
  }

  function NewGroup(s: State, tid: string, t: Tool, title: Option<string>): State {
    var p := Append(CloseGroup(s), Group([t], false, title), false);
    p.(openGroup := Some(p.nextId - 1), tools := p.tools[tid := Slot(p.nextId - 1, Some(0))])
  }

  /** The tool is the last row. */
  function PointRow(p: State, tid: string, isPlan: bool): State
    requires p.nextId > 0
  {
    p.(tools := p.tools[tid := Slot(p.nextId - 1, None)], planRows := p.planRows + if isPlan then {p.nextId - 1} else {})
  }

  function NewRow(s: State, tid: string, t: Tool, isPlan: bool): State {
    PointRow(if isPlan then Append(s, ToolRow(t), false) else Push(s, ToolRow(t), false), tid, isPlan)
  }

  function StartTool(s: State, tid: string, name: string, showing: Showing, now: int): State {
    var b, t := BecameBusy(s, now), Tool(name, Running);
    match showing
    case PlanUpdate => NewRow(b, tid, t, true)
    case Single => NewRow(b, tid, t, false)
    case Run(title) => if Joins(b, title) then JoinGroup(b, tid, t, title) else NewGroup(b, tid, t, title)
  }

  function SetStatus(es: seq<Entry>, slot: Slot, status: Outcome): seq<Entry> {
    var e := Get(es, slot.id);
    if e.Some? && e.value.block.ToolRow? && slot.idx.None? then
      SetBlock(es, slot.id, ToolRow(e.value.block.tool.(status := status)))
    else if e.Some? && e.value.block.Group? && slot.idx.Some? && slot.idx.value < |e.value.block.tools| then
      var b, i := e.value.block, slot.idx.value;
      SetBlock(es, slot.id, b.(tools := b.tools[i := b.tools[i].(status := status)]))
    else es
  }

  /** The row of a plan update goes once a plan was reported, unless the update failed. */
  function DropPlanRow(s: State, id: nat, status: Outcome): State {
    if id !in s.planRows then s
    else s.(planRows := s.planRows - {id},
            entries := if s.planSeen && status != Error then Keep(s.entries, (e: Entry) => e.id != id) else s.entries)
  }

  function FinishTool(s: State, tid: string, status: Outcome): State {
    if tid !in s.tools then s
    else
      var slot := s.tools[tid];
      var a := s.(tools := s.tools - {tid}, entries := SetStatus(s.entries, slot, status));
      var b := DropPlanRow(a, slot.id, status);
      if slot.idx.None? then Finish(b, slot.id) else FinishGroupIfDone(b, slot.id)
  }

  // ----- the end of a turn -------------------------------------------------------------------

  function StopTool(t: Tool): Tool { if t.status == Running then t.(status := Stopped) else t }

  function StopEntry(e: Entry): Entry {
    match e.block
    case ToolRow(t) => Entry(e.id, if e.done then e.block else ToolRow(t.(status := Stopped)), true)
    case Group(ts, _, title) => Entry(e.id, Group(seq(|ts|, k requires 0 <= k < |ts| => StopTool(ts[k])), true, title), true)
    case _ => e.(done := true)
  }

  function StopAll(es: seq<Entry>): seq<Entry> { seq(|es|, k requires 0 <= k < |es| => StopEntry(es[k])) }

  predicate Unfinished(plan: Option<seq<PlanItem>>) {
    plan.Some? && exists k :: 0 <= k < |plan.value| && !plan.value[k].done
  }

  const INTERRUPTED: string := "Interrupted"

  /** The turn is over: nothing runs, and an interruption says so. */
  function Settle(s: State, interrupted: bool): State {
    var a := s.(entries := StopAll(Keep(s.entries, (e: Entry) => e.id !in s.planRows)), planRows := {},
                openGroup := None, streams := map[], tools := map[], phaseBusy := false, plan := None);
    var b := if interrupted && Unfinished(s.plan) then Push(a, Plan(s.plan.value), true) else a;
    var c := if interrupted && IsBusy(s) then Push(b, Note(INTERRUPTED), true) else b;
    c.(busySince := None)
  }

  // ----- printing ------------------------------------------------------------------------------

  function CutLeading(s: State, c: Paragraphs.Cut): State
    requires s.entries != []
  {
    var e := s.entries[0];
    s.(entries := [Entry(s.nextId, Assistant(c.head), true)] + s.entries[0 := e.(block := Assistant(c.tail))],
       nextId := s.nextId + 1, printed := s.printed[e.id := PrintedOf(s, e.id) + c.consumed])
  }

  /** Completed paragraphs of the leading reply become a finished block. */
  function SplitLeading(s: State): State {
    if s.entries != [] && !s.entries[0].done && s.entries[0].block.Assistant? then
      var cut := Paragraphs.CutOf(s.entries[0].block.markdown);
      if cut.None? then s else CutLeading(s, cut.value)
    else s
  }

  /** Number of finished blocks at the front. */
  function DoneCount(es: seq<Entry>): (n: nat)
    ensures n <= |es| && (forall k :: 0 <= k < n ==> es[k].done) && (n < |es| ==> !es[n].done)
  {
    if es != [] && es[0].done then 1 + DoneCount(es[1..]) else 0
  }

  /** The blocks `take_history` drops from the held ones, in order. */
  function Taken(s: State): seq<Entry> {
    var es := SplitLeading(s).entries;
    es[..DoneCount(es)]
  }

  function TakeHistory(s: State): State {
    var a := SplitLeading(s);
    a.(entries := a.entries[DoneCount(a.entries)..])
  }

  /** Of the blocks taken, those with something to show. */
  predicate Visible(e: Entry, showReasoning: bool) {
    !(e.block.Assistant? && AllWhitespace(e.block.markdown)) && !(e.block.Reasoning? && !showReasoning)
  }

  /** What of the taken blocks is printed. */
  function Shown(es: seq<Entry>, showReasoning: bool): seq<Entry> { Keep(es, (e: Entry) => Visible(e, showReasoning)) }

  // ----- events --------------------------------------------------------------------------------

  datatype Event =
    | StreamStarted(sid: string)
    | ReasoningDelta(sid: string, token: string)
    | TokenDelta(sid: string, token: string)
    | MessageCompleted(sid: string, text: Option<string>)
    | ToolStarted(tid: string, name: string, showing: Showing)
    | ToolFinished(tid: string, status: Outcome)
    | BlockShown(block: Block)
    | TodoList(items: seq<PlanItem>)
    | Phase(busy: bool)
    | Cleared
    | Cancelled
    | HistoryTaken

  function Step(s: State, e: Event, now: int): State {
    match e
    case StreamStarted(sid) => StartStream(s, sid, now)
    case ReasoningDelta(sid, token) => ThinkMore(s, sid, token, now)
    case TokenDelta(sid, token) => AddToken(s, sid, token, now)
    case MessageCompleted(sid, text) => CompleteMessage(s, sid, text)
    case ToolStarted(tid, name, showing) => StartTool(s, tid, name, showing, now)
    case ToolFinished(tid, status) => FinishTool(s, tid, status)
    case BlockShown(block) => Push(s, block, true)
    case TodoList(items) => s.(plan := if items == [] then None else Some(items), planSeen := s.planSeen || items != [])
    case Phase(busy) =>
      if busy then BecameBusy(s.(phaseBusy := true), now) else if s.phaseBusy then Settle(s.(phaseBusy := false), false) else s
    case Cleared => s.(entries := Keep(s.entries, (e: Entry) => !e.done), plan := None)
    case Cancelled => Settle(s, true)
    case HistoryTaken => TakeHistory(s)
  }

  // ----- what every event keeps ------------------------------------------------------------------

  ghost predicate Ids(s: State) { Unique(s.entries) && forall x: nat :: Get(s.entries, x).Some? ==> x < s.nextId }

  ghost predicate SlotOk(e: Option<Entry>, idx: Option<nat>) {
    e.Some? && !e.value.done &&
    match idx
    case None => e.value.block.ToolRow? && e.value.block.tool.status == Running
    case Some(i) => e.value.block.Group? && i < |e.value.block.tools| && e.value.block.tools[i].status == Running
  }

  /** Each running tool id points to a place of its own that is still running. */
  ghost predicate ToolsOk(s: State) {
    (forall t :: t in s.tools ==> SlotOk(Get(s.entries, s.tools[t].id), s.tools[t].idx)) &&
    (forall t, u :: t in s.tools && u in s.tools && s.tools[t] == s.tools[u] ==> t == u)
  }

  ghost predicate GroupOk(s: State) {
    s.openGroup.Some? ==>
      var e := Get(s.entries, s.openGroup.value);
      e.Some? && !e.value.done && e.value.block.Group? && !e.value.block.closed
  }

  /** Finished blocks hold no running tool; an unfinished row runs, and an unfinished group is the
      open one or has a tool that runs.  Whether anything can still finish them: Orphans.dfy. */
  ghost predicate EntryOk(e: Entry, openGroup: Option<nat>) {
    if e.done then Quiet(e.block)
    else match e.block
      case Assistant(_) => true
      case Reasoning(_) => true
      case ToolRow(t) => t.status == Running
      case Group(ts, closed, _) => if closed then !AllStopped(ts) else openGroup == Some(e.id)
      case _ => false
  }

  ghost predicate EntriesOk(s: State) {
    forall x: nat :: Get(s.entries, x).Some? ==> EntryOk(Get(s.entries, x).value, s.openGroup)
  }

  /** Each open stream points to an unfinished reply of its own. */
  ghost predicate StreamsOk(s: State) {
    (forall t :: t in s.streams ==>
      var e := Get(s.entries, s.streams[t]);
      e.Some? && !e.value.done && e.value.block.Assistant?) &&
    (forall t, u :: t in s.streams && u in s.streams && s.streams[t] == s.streams[u] ==> t == u)
  }

  ghost predicate RowsOk(s: State) {
    (forall x: nat :: x in s.planRows ==> x < s.nextId && (Get(s.entries, x).Some? ==> Get(s.entries, x).value.block.ToolRow?)) &&
    (forall t :: t in s.reasoning ==>
      s.reasoning[t] < s.nextId && (Get(s.entries, s.reasoning[t]).Some? ==> Get(s.entries, s.reasoning[t]).value.block.Reasoning?)) &&
    (forall x: nat :: x in s.printed ==> x < s.nextId)
  }

  ghost predicate Good(s: State) {
    Ids(s) && ToolsOk(s) && GroupOk(s) && EntriesOk(s) && StreamsOk(s) && RowsOk(s)
  }

  /** `to` is `from` with the block of `id` replaced, added or dropped. */
  ghost predicate Patch(from: seq<Entry>, to: seq<Entry>, id: nat, e: Option<Entry>) {
    Unique(to) && forall x: nat :: Get(to, x) == if x == id then e else Get(from, x)
  }

  lemma FinishPatch(s: State, id: nat)
    requires Ids(s)
    ensures var e := Get(s.entries, id);
            Patch(s.entries, Finish(s, id).entries, id, if e.Some? then Some(e.value.(done := true)) else None)
  {
    var r := Find(s.entries, id);
    if r.Some? { GetSet(s.entries, r.value, s.entries[r.value].(done := true)); }
  }

  lemma SetPatch(es: seq<Entry>, id: nat, b: Block)
    requires Unique(es) && Get(es, id).Some?
    ensures Patch(es, SetBlock(es, id, b), id, Some(Get(es, id).value.(block := b)))
  {
    var r := Find(es, id).value;
    GetSet(es, r, es[r].(block := b));
  }

  lemma AppendPatch(s: State, b: Block, done: bool)
    requires Ids(s)
    ensures Patch(s.entries, Append(s, b, done).entries, s.nextId, Some(Entry(s.nextId, b, done)))
  {
    GetPush(s.entries, Entry(s.nextId, b, done));
  }

  lemma GoodIds(s: State)
    requires Good(s)
    ensures Ids(s)
  {
  }

  lemma ClosedGood(s: State, t: State, b: Block)
    requires Good(s) && s.openGroup.Some? && t == s.(entries := t.entries, openGroup := None)
    requires var g := s.openGroup.value;
             var e := Get(s.entries, g).value;
             b == e.block.(closed := true) && Patch(s.entries, t.entries, g, Some(e.(block := b)))
    ensures Good(FinishGroupIfDone(t, s.openGroup.value))
    ensures var f := FinishGroupIfDone(t, s.openGroup.value);
            f.openGroup.None? && f.nextId == s.nextId && f.streams == s.streams && f.tools == s.tools && f.reasoning == s.reasoning
  {
    hide Get, Find, SetDone, Unique;
    FinishPatch(t, s.openGroup.value);
  }

  lemma FinishGood(s: State, id: nat)
    requires Good(s) && (Get(s.entries, id).Some? ==> Quiet(Get(s.entries, id).value.block))
    requires forall t :: t in s.streams ==> s.streams[t] != id
    requires s.openGroup != Some(id)
    ensures Good(Finish(s, id))
  {
    hide Get, Find, SetDone, Unique;
    FinishPatch(s, id);
  }

  lemma CloseGood(s: State)
    requires Good(s)
    ensures Good(CloseGroup(s)) && CloseGroup(s).openGroup.None? && CloseGroup(s).nextId == s.nextId
    ensures CloseGroup(s).streams == s.streams && CloseGroup(s).tools == s.tools && CloseGroup(s).reasoning == s.reasoning
  {
    hide Get, Find, SetDone, SetBlock, Unique, Finish;
    if s.openGroup.Some? {
      var g := s.openGroup.value;
      var e := Get(s.entries, g).value;
      var b := e.block.(closed := true);
      SetPatch(s.entries, g, b);
      ClosedGood(s, s.(entries := SetBlock(s.entries, g, b), openGroup := None), b);
    }
  }

  /** A block added under the next id; a group added may become the open one. */
  lemma AddedGood(s: State, es: seq<Entry>, e: Entry, open: Option<nat>)
    requires Good(s) && e.id == s.nextId && Patch(s.entries, es, s.nextId, Some(e)) && EntryOk(e, open)
    requires open == s.openGroup || (s.openGroup.None? && open == Some(e.id) && e.block.Group? && !e.block.closed && !e.done)
    ensures Good(s.(entries := es, nextId := s.nextId + 1, openGroup := open))
  {
    hide Get, Find, Unique;
  }

  lemma AppendGood(s: State, b: Block, done: bool)
    requires Good(s) && EntryOk(Entry(s.nextId, b, done), None)
    ensures Good(Append(s, b, done))
  {
    hide Get, Find, Unique, Patch;
    AppendPatch(s, b, done);
    assert Ids(s);
    AddedGood(s, Append(s, b, done).entries, Entry(s.nextId, b, done), s.openGroup);
  }

  lemma StreamPointGood(s: State, sid: string, id: nat)
    requires Good(s) && forall t :: t in s.streams ==> s.streams[t] != id
    requires Get(s.entries, id).Some? && !Get(s.entries, id).value.done && Get(s.entries, id).value.block.Assistant?
    ensures Good(s.(streams := s.streams[sid := id]))
  {
    hide Get, Find, Unique;
  }

  lemma ToolPointGood(s: State, tid: string, slot: Slot)
    requires Good(s) && SlotOk(Get(s.entries, slot.id), slot.idx) && forall t :: t in s.tools ==> s.tools[t] != slot
    ensures Good(s.(tools := s.tools[tid := slot]))
  {
    hide Get, Find, Unique, SlotOk;
  }

  lemma PushGood(s: State, b: Block, done: bool)
    requires Good(s) && EntryOk(Entry(s.nextId, b, done), None)
    ensures Good(Push(s, b, done)) && Push(s, b, done).nextId == s.nextId + 1
  {
    hide Good, EntryOk;
    CloseGood(s);
    AppendGood(if b.Assistant? || b.Reasoning? || b.Group? then s else CloseGroup(s), b, done);
  }

  lemma StartStreamGood(s: State, sid: string, now: int)
    requires Good(s)
    ensures Good(StartStream(s, sid, now))
  {
    hide Good;
    GoodIds(s);
    AppendPatch(s, Assistant(""), false);
    AppendGood(s, Assistant(""), false);
    NewIdIsUnused(s);
    hide Get, Unique, Find;
    StreamPointGood(Append(s, Assistant(""), false), sid, s.nextId);
    var p := Append(s, Assistant(""), false);
    BusyGood(p.(streams := p.streams[sid := s.nextId]), now);
  }

  lemma EnsureStreamGood(s: State, sid: string)
    requires Good(s)
    ensures Good(EnsureStream(s, sid)) && sid in EnsureStream(s, sid).streams
  {
    AppendPatch(s, Assistant(""), false);
    AppendGood(s, Assistant(""), false);
    NewIdIsUnused(s);
    hide Good;
    if sid !in s.streams { StreamPointGood(Append(s, Assistant(""), false), sid, s.nextId); }
  }

  lemma EndReasoningGood(s: State, sid: string)
    requires Good(s)
    ensures Good(EndReasoning(s, sid))
  {
    hide Get, Find, Unique, SetDone, Finish, Patch;
    if sid in s.reasoning {
      var a := s.(reasoning := s.reasoning - {sid});
      assert Good(a);
      FinishGood(a, s.reasoning[sid]);
    }
  }

  lemma SetTextGood(s: State, id: nat, b: Block)
    requires Good(s) && Get(s.entries, id).Some?
    requires var was := Get(s.entries, id).value.block; (was.Assistant? && b.Assistant?) || (was.Reasoning? && b.Reasoning?)
    ensures Good(s.(entries := SetBlock(s.entries, id, b)))
  {
    hide Get, Find, Unique, SetBlock;
    SetPatch(s.entries, id, b);
  }

  lemma BusyGood(s: State, now: int)
    requires Good(s)
    ensures Good(BecameBusy(s, now))
  {
    hide Get, Find, Unique, SlotOk;
  }

  lemma PointReasoning(s: State, sid: string, id: nat)
    requires Good(s) && id < s.nextId && Get(s.entries, id).Some? && Get(s.entries, id).value.block.Reasoning?
    ensures Good(s.(reasoning := s.reasoning[sid := id]))
  {
    hide Get, Find, Unique, SlotOk;
  }

  lemma InsertReasoningGood(s: State, pos: nat, token: string, sid: string, now: int)
    requires Good(s) && pos <= |s.entries|
    ensures var e := Entry(s.nextId, Reasoning(token), false);
            Good(BecameBusy(s.(entries := s.entries[..pos] + [e] + s.entries[pos..],
                               nextId := s.nextId + 1, reasoning := s.reasoning[sid := s.nextId]), now))
  {
    var e := Entry(s.nextId, Reasoning(token), false);
    var es := s.entries[..pos] + [e] + s.entries[pos..];
    GetInsert(s.entries, pos, e);
    hide Get, Find, Unique;
    AddedGood(s, es, e, s.openGroup);
    var t := s.(entries := es, nextId := s.nextId + 1);
    hide Good;
    PointReasoning(t, sid, s.nextId);
    BusyGood(t.(reasoning := t.reasoning[sid := s.nextId]), now);
  }

  /** Nothing points at the id the next block gets. */
  lemma NewIdIsUnused(s: State)
    requires Good(s)
    ensures forall t :: t in s.streams ==> s.streams[t] != s.nextId
    ensures forall t :: t in s.tools ==> s.tools[t].id != s.nextId
  {
  }

  lemma RowGood(s: State, rows: set<nat>)
    requires Good(s)
    requires forall x :: x in rows ==> x < s.nextId && (Get(s.entries, x).Some? ==> Get(s.entries, x).value.block.ToolRow?)
    ensures Good(s.(planRows := s.planRows + rows))
  {
    hide Get, Find, Unique, SlotOk;
  }

  lemma MoreReasoningGood(s: State, sid: string, token: string)
    requires Good(s) && sid in s.reasoning
    ensures var e := Get(s.entries, s.reasoning[sid]);
            e.Some? && e.value.block.Reasoning? ==>
              Good(s.(entries := SetBlock(s.entries, s.reasoning[sid], Reasoning(e.value.block.text + token))))
  {
    hide Get, Find, Unique, SetBlock;
    var e := Get(s.entries, s.reasoning[sid]);
    if e.Some? { SetTextGood(s, s.reasoning[sid], Reasoning(e.value.block.text + token)); }
  }

  lemma ThinkMoreGood(s: State, sid: string, token: string, now: int)
    requires Good(s)
    ensures Good(ThinkMore(s, sid, token, now))
  {
    hide Good, ReasoningPlace, Get, Find, SetBlock;
    if sid in s.reasoning {
      MoreReasoningGood(s, sid, token);
    } else {
      var place := ReasoningPlace(s, sid);
      if place.Some? {
        PlaceInRange(s, sid);
        InsertReasoningGood(s, place.value, token, sid, now);
      }
    }
  }

  lemma PlaceInRange(s: State, sid: string)
    requires ReasoningPlace(s, sid).Some?
    ensures ReasoningPlace(s, sid).value <= |s.entries|
  {
  }

  lemma AddTokenGood(s: State, sid: string, token: string, now: int)
    requires Good(s)
    ensures Good(AddToken(s, sid, token, now))
  {
    BeforeTokenGood(s, sid, token, now);
    hide Good, BeforeToken;
    var b := BeforeToken(s, sid, token, now);
    var id := b.streams[sid];
    var e := Get(b.entries, id);
    if e.Some? && e.value.block.Assistant? { SetTextGood(b, id, Assistant(e.value.block.markdown + token)); }
  }

  lemma BeforeTokenGood(s: State, sid: string, token: string, now: int)
    requires Good(s)
    ensures Good(BeforeToken(s, sid, token, now)) && sid in BeforeToken(s, sid, token, now).streams
  {
    hide EndReasoning, EnsureStream, CloseGroup;
    var busy := BecameBusy(s, now);
    assert Good(busy);
    CloseGood(busy);
    var a := if AllWhitespace(token) then s else CloseGroup(busy);
    hide Good;
    EndReasoningGood(a, sid);
    EnsureStreamGood(EndReasoning(a, sid), sid);
  }

  lemma CompleteTextGood(s: State, id: nat, text: Option<string>)
    requires Good(s)
    ensures Good(CompleteText(s, id, text)) && CompleteText(s, id, text).streams == s.streams
    ensures CompleteText(s, id, text).openGroup == s.openGroup
    ensures Get(CompleteText(s, id, text).entries, id).Some? ==>
              Get(s.entries, id).Some? && (Get(CompleteText(s, id, text).entries, id).value.block.Assistant? <==> Get(s.entries, id).value.block.Assistant?)
  {
    hide Get, Find, Unique, SetBlock;
    var a := s.(printed := s.printed - {id});
    assert Good(a);
    var e := Get(s.entries, id);
    if e.Some? && e.value.block.Assistant? {
      var b := Assistant(Paragraphs.Completed(PrintedOf(s, id), e.value.block.markdown, text));
      SetTextGood(a, id, b);
      SetPatch(a.entries, id, b);
    }
  }

  lemma CompleteMessageGood(s: State, sid: string, text: Option<string>)
    requires Good(s)
    ensures Good(CompleteMessage(s, sid, text))
  {
    EndReasoningGood(s, sid);
    hide EndReasoning;
    var a := EndReasoning(s, sid);
    if sid in a.streams {
      var id, b := a.streams[sid], a.(streams := a.streams - {sid});
      DropStreamGood(a, sid);
      hide Good, Get, Find, CompleteText, Finish;
      CompleteTextGood(b, id, text);
      FinishGood(CompleteText(b, id, text), id);
    }
  }

  lemma DropStreamGood(s: State, sid: string)
    requires Good(s) && sid in s.streams
    ensures var a := s.(streams := s.streams - {sid});
            Good(a) && (forall t :: t in a.streams ==> a.streams[t] != s.streams[sid]) &&
            Get(s.entries, s.streams[sid]).Some? && Get(s.entries, s.streams[sid]).value.block.Assistant? &&
            s.openGroup != Some(s.streams[sid])
  {
    hide Get, Find, Unique, SlotOk;
  }

  lemma JoinGroupGood(s: State, tid: string, t: Tool, title: Option<string>)
    requires Good(s) && Joins(s, title) && t.status == Running
    ensures Good(JoinGroup(s, tid, t, title))
  {
    hide Get, Find, Unique, SetBlock;
    var g := s.openGroup.value;
    var b := Get(s.entries, g).value.block;
    SetPatch(s.entries, g, b.(tools := b.tools + [t]));
  }

  lemma OpenGroupGood(c: State, tid: string, t: Tool, title: Option<string>)
    requires Good(c) && t.status == Running && c.openGroup.None?
    ensures var p := Append(c, Group([t], false, title), false);
            Good(p.(openGroup := Some(c.nextId), tools := p.tools[tid := Slot(c.nextId, Some(0))]))
  {
    var p := Append(c, Group([t], false, title), false);
    AppendPatch(c, Group([t], false, title), false);
    NewIdIsUnused(c);
    hide Get, Find, Unique;
    AddedGood(c, p.entries, Entry(c.nextId, Group([t], false, title), false), Some(c.nextId));
    hide Good;
    ToolPointGood(p.(openGroup := Some(c.nextId)), tid, Slot(c.nextId, Some(0)));
  }

  lemma NewGroupGood(s: State, tid: string, t: Tool, title: Option<string>)
    requires Good(s) && t.status == Running
    ensures Good(NewGroup(s, tid, t, title))
  {
    CloseGood(s);
    hide CloseGroup, Good;
    OpenGroupGood(CloseGroup(s), tid, t, title);
  }

  lemma RowIn(c: State, tid: string, t: Tool, isPlan: bool)
    requires Good(c) && t.status == Running
    ensures Good(PointRow(Append(c, ToolRow(t), false), tid, isPlan))
  {
    AppendPatch(c, ToolRow(t), false);
    AppendGood(c, ToolRow(t), false);
    NewIdIsUnused(c);
    var p := Append(c, ToolRow(t), false);
    hide Get, Find, Good, Unique, Append;
    var rows: set<nat> := if isPlan then {c.nextId} else {};
    RowGood(p, rows);
    var q := p.(planRows := p.planRows + rows);
    ToolPointGood(q, tid, Slot(c.nextId, None));
    assert PointRow(p, tid, isPlan) == q.(tools := q.tools[tid := Slot(c.nextId, None)]);
  }

  lemma NewRowGood(s: State, tid: string, t: Tool, isPlan: bool)
    requires Good(s) && t.status == Running
    ensures Good(NewRow(s, tid, t, isPlan))
  {
    CloseGood(s);
    hide CloseGroup, Good, Append, PointRow;
    if isPlan { RowIn(s, tid, t, true); } else { RowIn(CloseGroup(s), tid, t, false); }
  }

  lemma StartToolGood(s: State, tid: string, name: string, showing: Showing, now: int)
    requires Good(s)
    ensures Good(StartTool(s, tid, name, showing, now))
  {
    var b, t := BecameBusy(s, now), Tool(name, Running);
    assert Good(b);
    hide Good, JoinGroup, NewGroup, NewRow;
    match showing
    case PlanUpdate => NewRowGood(b, tid, t, true);
    case Single => NewRowGood(b, tid, t, false);
    case Run(title) => if Joins(b, title) { JoinGroupGood(b, tid, t, title); } else { NewGroupGood(b, tid, t, title); }
  }

  // ----- a tool ends -----------------------------------------------------------------------

  lemma StatusPatch(s: State, tid: string, status: Outcome)
    requires Good(s) && tid in s.tools
    ensures var slot := s.tools[tid];
            var b := Get(s.entries, slot.id).value.block;
            Get(s.entries, slot.id).Some? &&
            (slot.idx.None? ==> b.ToolRow?) && (slot.idx.Some? ==> b.Group? && slot.idx.value < |b.tools|) &&
            Patch(s.entries, SetStatus(s.entries, slot, status), slot.id,
                  Some(Get(s.entries, slot.id).value.(block := Ended(b, slot.idx, status))))
  {
    var slot := s.tools[tid];
    SetPatch(s.entries, slot.id, Ended(Get(s.entries, slot.id).value.block, slot.idx, status));
  }

  function Ended(b: Block, idx: Option<nat>, status: Outcome): Block {
    if b.ToolRow? && idx.None? then ToolRow(b.tool.(status := status))
    else if b.Group? && idx.Some? && idx.value < |b.tools| then
      b.(tools := b.tools[idx.value := b.tools[idx.value].(status := status)])
    else b
  }

  lemma FinishToolGood(s: State, tid: string, status: Outcome)
    requires Good(s)
    ensures Good(FinishTool(s, tid, status))
  {
    if tid in s.tools {
      if s.tools[tid].idx.None? {
        FinishRowPatch(s, tid, status);
        RowGone(s, tid, status, FinishTool(s, tid, status).entries);
      } else {
        FinishInGroupPatch(s, tid, status);
        PlaceGone(s, tid, status, FinishTool(s, tid, status).entries);
      }
    }
  }

  lemma DropPatch(s: State, id: nat, status: Outcome)
    requires Unique(s.entries)
    ensures var d := DropPlanRow(s, id, status);
            d == s.(planRows := s.planRows - {id}, entries := d.entries) &&
            Patch(s.entries, d.entries, id, if id in s.planRows && s.planSeen && status != Error then None else Get(s.entries, id))
  {
    hide Get, Find, Unique, Keep;
    GetKeep(s.entries, (e: Entry) => e.id != id);
    assert DropPlanRow(s, id, status).planRows == s.planRows - {id};
  }

  /** A finished row is done, or dropped when the plan is shown elsewhere. */
  lemma FinishRowPatch(s: State, tid: string, status: Outcome)
    requires Good(s) && tid in s.tools && s.tools[tid].idx.None?
    ensures var f, id := FinishTool(s, tid, status), s.tools[tid].id;
            f == s.(tools := s.tools - {tid}, planRows := s.planRows - {id}, entries := f.entries) &&
            Patch(s.entries, f.entries, id,
                  if id in s.planRows && s.planSeen && status != Error then None
                  else Some(Entry(id, Ended(Get(s.entries, id).value.block, None, status), true)))
  {
    StatusPatch(s, tid, status);
    hide Get, Find, Unique, SetStatus, SetDone, Keep, Good;
    var slot := s.tools[tid];
    var a := s.(tools := s.tools - {tid}, entries := SetStatus(s.entries, slot, status));
    DropPatch(a, slot.id, status);
    hide DropPlanRow;
    var b := DropPlanRow(a, slot.id, status);
    PatchIds(s, b);
    FinishPatch(b, slot.id);
  }

  lemma PatchIds(s: State, t: State)
    requires Ids(s) && Unique(t.entries) && t.nextId == s.nextId
    requires forall x: nat :: Get(t.entries, x).Some? ==> Get(s.entries, x).Some?
    ensures Ids(t)
  {
  }

  lemma FinishInGroupPatch(s: State, tid: string, status: Outcome)
    requires Good(s) && tid in s.tools && s.tools[tid].idx.Some?
    ensures var f, slot := FinishTool(s, tid, status), s.tools[tid];
            var b := Ended(Get(s.entries, slot.id).value.block, slot.idx, status);
            f == s.(tools := s.tools - {tid}, entries := f.entries) &&
            Patch(s.entries, f.entries, slot.id, Some(Entry(slot.id, b, b.closed && AllStopped(b.tools))))
  {
    StatusPatch(s, tid, status);
    var slot := s.tools[tid];
    hide Get, Find, Unique, SetStatus, SetDone, Keep;
    assert slot.id !in s.planRows;
    assert !Get(s.entries, slot.id).value.done;
    var a := s.(tools := s.tools - {tid}, entries := SetStatus(s.entries, slot, status));
    PatchIds(s, a);
    FinishPatch(a, slot.id);
  }

  lemma RowGone(s: State, tid: string, status: Outcome, es: seq<Entry>)
    requires Good(s) && tid in s.tools && s.tools[tid].idx.None?
    requires var id := s.tools[tid].id;
             Patch(s.entries, es, id, None) ||
             Patch(s.entries, es, id, Some(Entry(id, Ended(Get(s.entries, id).value.block, None, status), true)))
    ensures Good(s.(tools := s.tools - {tid}, planRows := s.planRows - {s.tools[tid].id}, entries := es))
  {
    hide Get, Find, Unique;
    assert SlotOk(Get(s.entries, s.tools[tid].id), s.tools[tid].idx);
  }

  lemma PlaceGone(s: State, tid: string, status: Outcome, es: seq<Entry>)
    requires Good(s) && tid in s.tools && s.tools[tid].idx.Some?
    requires var slot := s.tools[tid];
             var b := Ended(Get(s.entries, slot.id).value.block, slot.idx, status);
             b.Group? && Patch(s.entries, es, slot.id, Some(Entry(slot.id, b, b.closed && AllStopped(b.tools))))
    ensures Good(s.(tools := s.tools - {tid}, entries := es))
  {
    hide Get, Find, Unique;
    var slot := s.tools[tid];
    var was := Get(s.entries, slot.id);
    assert SlotOk(was, slot.idx) && EntryOk(was.value, s.openGroup);
    forall t | t in s.tools && t != tid && s.tools[t].id == slot.id ensures SlotOk(Get(es, s.tools[t].id), s.tools[t].idx) {
      assert s.tools[t] != slot && SlotOk(was, s.tools[t].idx);
      var b, k := Ended(was.value.block, slot.idx, status), s.tools[t].idx.value;
      assert b.tools[k] == was.value.block.tools[k];
    }
  }

  // ----- the turn ends -------------------------------------------------------------------------

  lemma GetStop(es: seq<Entry>)
    requires Unique(es)
    ensures Unique(StopAll(es))
    ensures forall x: nat :: Get(StopAll(es), x) == if Get(es, x).Some? then Some(StopEntry(Get(es, x).value)) else None
  {
    forall x: nat ensures Get(StopAll(es), x) == if Get(es, x).Some? then Some(StopEntry(Get(es, x).value)) else None {
      var r := Find(es, x);
      if r.Some? { GetAt(StopAll(es), r.value); }
    }
  }

  lemma GetDrop(es: seq<Entry>, n: nat)
    requires Unique(es) && n <= |es|
    ensures Unique(es[n..])
    ensures forall x: nat :: Get(es[n..], x) == if Find(es, x).Some? && Find(es, x).value >= n then Get(es, x) else None
  {
    forall x: nat ensures Get(es[n..], x) == if Find(es, x).Some? && Find(es, x).value >= n then Get(es, x) else None {
      var r := Find(es, x);
      if r.Some? && r.value >= n { GetAt(es[n..], r.value - n); }
    }
  }

  /** Nothing is running any more. */
  ghost predicate AtRest(s: State) {
    !IsBusy(s) && s.streams == map[] && s.tools == map[] && s.openGroup == None && s.planRows == {} && s.plan == None &&
    forall k :: 0 <= k < |s.entries| ==> s.entries[k].done && Quiet(s.entries[k].block)
  }

  lemma StopIsQuiet(e: Entry, openGroup: Option<nat>)
    requires EntryOk(e, openGroup)
    ensures StopEntry(e).done && Quiet(StopEntry(e).block)
    ensures e.block.Reasoning? ==> StopEntry(e).block == e.block
    ensures StopEntry(e).block.Reasoning? ==> e.block.Reasoning?
  {
  }

  /** The state once every block is stopped, before the plan and the notice are shown. */
  function Stopping(s: State): State {
    s.(entries := StopAll(Keep(s.entries, (e: Entry) => e.id !in s.planRows)), planRows := {},
       openGroup := None, streams := map[], tools := map[], phaseBusy := false, plan := None)
  }

  lemma StoppingGood(s: State)
    requires Good(s)
    ensures Good(Stopping(s)) && AtRest(Stopping(s))
  {
    var kept := Keep(s.entries, (e: Entry) => e.id !in s.planRows);
    GetKeep(s.entries, (e: Entry) => e.id !in s.planRows);
    GetStop(kept);
    var a := Stopping(s);
    forall x: nat | Get(a.entries, x).Some?
      ensures Get(s.entries, x).Some? && Get(a.entries, x).value == StopEntry(Get(s.entries, x).value)
      ensures Get(a.entries, x).value.done && Quiet(Get(a.entries, x).value.block)
    {
      StopIsQuiet(Get(s.entries, x).value, s.openGroup);
    }
    hide Keep, StopAll, Quiet, EntryOk, SlotOk;
    forall k | 0 <= k < |a.entries| ensures a.entries[k].done && Quiet(a.entries[k].block) {
      GetAt(a.entries, k);
    }
    StoppedParts(s, a);
  }

  lemma StoppedParts(s: State, a: State)
    requires Good(s) && a == s.(entries := a.entries, planRows := {}, openGroup := None, streams := map[], tools := map[],
                                phaseBusy := false, plan := None)
    requires Unique(a.entries)
    requires forall x: nat :: Get(a.entries, x).Some? ==>
               Get(s.entries, x).Some? && Get(a.entries, x).value == StopEntry(Get(s.entries, x).value) &&
               Get(a.entries, x).value.done && Quiet(Get(a.entries, x).value.block)
    ensures Good(a)
  {
    hide Get, Find, Unique, Quiet;
  }

  lemma ShowAtRest(s: State, b: Block)
    requires Good(s) && AtRest(s) && Quiet(b)
    ensures Good(Push(s, b, true)) && AtRest(Push(s, b, true))
  {
    hide Good;
    PushGood(s, b, true);
  }

  /** After `settle` nothing runs: not busy, no tool running, no stream, tool id or group open. */
  lemma SettleStopsEverything(s: State, interrupted: bool)
    requires Good(s)
    ensures Good(Settle(s, interrupted)) && AtRest(Settle(s, interrupted)) && Settle(s, interrupted).busySince == None
  {
    StoppingGood(s);
    hide Good, AtRest, IsBusy;
    var a := Stopping(s);
    var b := if interrupted && Unfinished(s.plan) then Push(a, Plan(s.plan.value), true) else a;
    if interrupted && Unfinished(s.plan) { ShowAtRest(a, Plan(s.plan.value)); }
    ShowAtRest(b, Note(INTERRUPTED));
    var c := if interrupted && IsBusy(s) then Push(b, Note(INTERRUPTED), true) else b;
    ForgetBusy(c);
  }

  lemma ForgetBusy(s: State)
    requires Good(s)
    ensures Good(s.(busySince := None)) && (AtRest(s) ==> AtRest(s.(busySince := None)))
  {
    hide Get, Find, Unique, Quiet, SlotOk, EntryOk;
  }

  // ----- printing and clearing -----------------------------------------------------------------

  /** Finished blocks may leave. */
  lemma FewerGood(s: State, es: seq<Entry>)
    requires Good(s) && Unique(es)
    requires forall x: nat :: Get(es, x) == Get(s.entries, x) || (Get(es, x).None? && Get(s.entries, x).value.done)
    ensures Good(s.(entries := es))
  {
    hide Get, Find, Unique, Quiet;
  }

  lemma ClearedGood(s: State)
    requires Good(s)
    ensures Good(s.(entries := Keep(s.entries, (e: Entry) => !e.done), plan := None))
  {
    var es := Keep(s.entries, (e: Entry) => !e.done);
    GetKeep(s.entries, (e: Entry) => !e.done);
    hide Keep, Get, Find;
    FewerGood(s, es);
    hide EntryOk, SlotOk, Unique;
  }

  lemma PutFirstGood(s: State, head: Entry)
    requires Good(s) && head.id == s.nextId && head.done && head.block.Assistant?
    ensures Good(s.(entries := [head] + s.entries, nextId := s.nextId + 1))
  {
    GetInsert(s.entries, 0, head);
    assert s.entries[..0] + [head] + s.entries[0..] == [head] + s.entries;
    hide Get, Find, Unique;
    AddedGood(s, [head] + s.entries, head, s.openGroup);
  }

  lemma PrintedGood(s: State, id: nat, text: string)
    requires Good(s) && id < s.nextId
    ensures Good(s.(printed := s.printed[id := text]))
  {
    hide Get, Find, Unique, EntryOk, SlotOk;
  }

  lemma SplitSteps(s: State, e: Entry, c: Paragraphs.Cut)
    requires Ids(s) && s.entries != [] && e == s.entries[0]
    ensures SetBlock(s.entries, e.id, Assistant(c.tail)) == s.entries[0 := e.(block := Assistant(c.tail))] && e.id < s.nextId
  {
    GetAt(s.entries, 0);
  }

  lemma CutLeadingGood(s: State, c: Paragraphs.Cut)
    requires Good(s) && s.entries != [] && s.entries[0].block.Assistant?
    ensures Good(CutLeading(s, c))
  {
    var e, es := s.entries[0], s.entries;
    GetAt(es, 0);
    SetTextGood(s, e.id, Assistant(c.tail));
    SplitSteps(s, e, c);
    hide Good, Get, Find, Unique, SetBlock;
    var t := s.(entries := es[0 := e.(block := Assistant(c.tail))]);
    var head := Entry(s.nextId, Assistant(c.head), true);
    PutFirstGood(t, head);
    PrintedGood(t.(entries := [head] + t.entries, nextId := t.nextId + 1), e.id, PrintedOf(s, e.id) + c.consumed);
  }

  lemma SplitLeadingGood(s: State)
    requires Good(s)
    ensures Good(SplitLeading(s))
  {
    hide Good, CutLeading, Paragraphs.CutOf;
    if s.entries != [] && s.entries[0].block.Assistant? {
      var cut := Paragraphs.CutOf(s.entries[0].block.markdown);
      if cut.Some? { CutLeadingGood(s, cut.value); }
    }
  }

  lemma DropDoneGood(s: State)
    requires Good(s)
    ensures Good(s.(entries := s.entries[DoneCount(s.entries)..]))
  {
    var es := s.entries;
    GetDrop(es, DoneCount(es));
    forall x: nat | Get(es, x).Some? ensures Get(es, x).value.done || Find(es, x).value >= DoneCount(es) {}
    hide Good;
    FewerGood(s, es[DoneCount(es)..]);
  }

  lemma TakeHistoryGood(s: State)
    requires Good(s)
    ensures Good(TakeHistory(s))
  {
    hide Good, SplitLeading;
    SplitLeadingGood(s);
    DropDoneGood(SplitLeading(s));
  }

  lemma FlagsGood(s: State, plan: Option<seq<PlanItem>>, seen: bool, busy: bool)
    requires Good(s)
    ensures Good(s.(plan := plan, planSeen := seen)) && Good(s.(phaseBusy := busy))
  {
    hide Get, Find, Unique, EntryOk, SlotOk;
  }

  /** Every event keeps the links between ids, blocks, groups and streams. */
  lemma StepGood(s: State, e: Event, now: int)
    requires Good(s) && (e.BlockShown? ==> Quiet(e.block))
    ensures Good(Step(s, e, now))
  {
    hide Good, StartStream, ThinkMore, AddToken, CompleteMessage, StartTool, FinishTool, Settle, TakeHistory, Push, BecameBusy, Keep;
    match e
    case StreamStarted(sid) => StartStreamGood(s, sid, now);
    case ReasoningDelta(sid, token) => ThinkMoreGood(s, sid, token, now);
    case TokenDelta(sid, token) => AddTokenGood(s, sid, token, now);
    case MessageCompleted(sid, text) => CompleteMessageGood(s, sid, text);
    case ToolStarted(tid, name, showing) => StartToolGood(s, tid, name, showing, now);
    case ToolFinished(tid, status) => FinishToolGood(s, tid, status);
    case BlockShown(block) => PushGood(s, block, true);
    case TodoList(items) => FlagsGood(s, if items == [] then None else Some(items), s.planSeen || items != [], false);
    case Phase(busy) =>
      FlagsGood(s, None, false, busy);
      if busy { BusyGood(s.(phaseBusy := true), now); } else { SettleStopsEverything(s.(phaseBusy := false), false); }
    case Cleared => ClearedGood(s);
    case Cancelled => SettleStopsEverything(s, true);
    case HistoryTaken => TakeHistoryGood(s);
  }

  // ----- runs of reads -----------------------------------------------------------------------

  predicate EndsRun(s: State, e: Event) {
    match e
    case TokenDelta(_, token) => !AllWhitespace(token)
    case BlockShown(b) => !b.Assistant? && !b.Reasoning? && !b.Group?
    case ToolStarted(_, _, showing) => showing.Single? || (showing.Run? && !Joins(s, showing.title))
    case Phase(busy) => !busy && s.phaseBusy
    case Cancelled => true
    case _ => false
  }

  lemma TokenGroup(s: State, sid: string, token: string, now: int)
    ensures AddToken(s, sid, token, now).openGroup ==
            if AllWhitespace(token) then s.openGroup else CloseGroup(BecameBusy(s, now)).openGroup
  {
    var a := if AllWhitespace(token) then s else CloseGroup(BecameBusy(s, now));
    var b := EndReasoning(a, sid);
    assert b.openGroup == a.openGroup by { hide Find, CloseGroup; }
    hide CloseGroup, EndReasoning;
    var c := EnsureStream(b, sid);
    assert c.openGroup == b.openGroup;
    hide EnsureStream;
    if sid in c.streams { assert AddText(c, c.streams[sid], token).openGroup == c.openGroup by { hide Get; } }
    hide AddText;
  }

  lemma ToolGroup(s: State, tid: string, name: string, showing: Showing, now: int)
    ensures var b := BecameBusy(s, now);
            StartTool(s, tid, name, showing, now).openGroup ==
              match showing
              case PlanUpdate => s.openGroup
              case Single => CloseGroup(b).openGroup
              case Run(title) => if Joins(b, title) then s.openGroup else Some(CloseGroup(b).nextId)
  {
    hide CloseGroup, Get, SetBlock;
  }

  lemma EndsGroup(s: State, sid: string)
    ensures EndReasoning(s, sid).openGroup == s.openGroup
  {
    hide SetDone;
  }

  lemma TextGroup(s: State, id: nat, text: Option<string>)
    ensures Finish(CompleteText(s, id, text), id).openGroup == s.openGroup
  {
    hide Get, SetBlock, SetDone;
  }

  lemma FinishGroup(s: State, tid: string, status: Outcome)
    ensures FinishTool(s, tid, status).openGroup == s.openGroup
  {
    hide Get, SetStatus, SetDone, Keep, AllStopped;
    if tid in s.tools {
      var slot := s.tools[tid];
      var a := s.(tools := s.tools - {tid}, entries := SetStatus(s.entries, slot, status));
      var b := DropPlanRow(a, slot.id, status);
      assert b.openGroup == s.openGroup;
      hide DropPlanRow;
    }
  }

  lemma MessageGroup(s: State, sid: string, text: Option<string>)
    ensures CompleteMessage(s, sid, text).openGroup == s.openGroup
  {
    hide Get, SetBlock, SetDone, CompleteText, EndReasoning, Finish;
    assert EndReasoning(s, sid).openGroup == s.openGroup by { EndsGroup(s, sid); }
    var a := EndReasoning(s, sid);
    if sid in a.streams {
      var id, b := a.streams[sid], a.(streams := a.streams - {sid});
      TextGroup(b, id, text);
    }
  }

  lemma ThinkGroup(s: State, sid: string, token: string, now: int)
    ensures ThinkMore(s, sid, token, now).openGroup == s.openGroup
  {
    hide Get, SetBlock, ReasoningPlace;
  }

  lemma TakeGroup(s: State)
    ensures TakeHistory(s).openGroup == s.openGroup
  {
    hide DoneCount, Paragraphs.CutOf;
  }

  lemma OpenIsOld(s: State)
    requires Good(s) && s.openGroup.Some?
    ensures s.openGroup.value < s.nextId
  {
  }

  lemma BusyKeeps(s: State, now: int)
    ensures var b := BecameBusy(s, now); b.entries == s.entries && b.openGroup == s.openGroup && b.nextId == s.nextId
  {
  }

  lemma SettleGroup(s: State, interrupted: bool)
    ensures Settle(s, interrupted).openGroup.None?
  {
    hide Keep, StopAll, IsBusy;
  }

  lemma ToolEndsRun(s: State, e: Event, now: int)
    requires Good(s) && s.openGroup.Some? && e.ToolStarted?
    ensures StartTool(s, e.tid, e.name, e.showing, now).openGroup == s.openGroup <==> !EndsRun(s, e)
  {
    hide Good, CloseGroup, StartTool, Get, BecameBusy;
    var b := BecameBusy(s, now);
    BusyGood(s, now);
    CloseGood(b);
    OpenIsOld(s);
    BusyKeeps(s, now);
    ToolGroup(s, e.tid, e.name, e.showing, now);
  }

  lemma ReplyEndsRun(s: State, e: Event, now: int)
    requires Good(s) && s.openGroup.Some? && (e.TokenDelta? || e.BlockShown?)
    ensures Step(s, e, now).openGroup == s.openGroup <==> !EndsRun(s, e)
  {
    BusyGood(s, now);
    CloseGood(s);
    CloseGood(BecameBusy(s, now));
    hide Good, CloseGroup, AddToken;
    if e.TokenDelta? { TokenGroup(s, e.sid, e.token, now); }
  }

  /** An open group of reads goes on exactly until reply text that is not blank, a block, a tool of
      another kind, or the end of the turn; plan updates, reasoning, results and printing leave it
      open. */
  lemma RunEndsIff(s: State, e: Event, now: int)
    requires Good(s) && s.openGroup.Some?
    ensures Step(s, e, now).openGroup == s.openGroup <==> !EndsRun(s, e)
  {
    if e.ToolStarted? {
      ToolEndsRun(s, e, now);
      hide StartTool;
    } else if e.TokenDelta? || e.BlockShown? {
      ReplyEndsRun(s, e, now);
    } else {
      OtherEndsRun(s, e, now);
    }
  }

  lemma OtherEndsRun(s: State, e: Event, now: int)
    requires s.openGroup.Some? && !e.ToolStarted? && !e.TokenDelta? && !e.BlockShown?
    ensures Step(s, e, now).openGroup == s.openGroup <==> !EndsRun(s, e)
  {
    hide FinishTool, CompleteMessage, ThinkMore, TakeHistory, Settle, Keep;
    if e.ToolFinished? {
      FinishGroup(s, e.tid, e.status);
    } else if e.MessageCompleted? {
      MessageGroup(s, e.sid, e.text);
    } else if e.ReasoningDelta? {
      ThinkGroup(s, e.sid, e.token, now);
    } else if e.HistoryTaken? {
      TakeGroup(s);
    } else if e.Phase? {
      SettleGroup(s.(phaseBusy := false), false);
    } else if e.Cancelled? {
      SettleGroup(s, true);
    }
  }
}
