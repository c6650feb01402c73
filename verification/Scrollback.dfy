/** What of a reply reaches scrollback (crates/inline/src/session.rs).  Over every run the
    paragraphs printed early, the white space dropped between them, and the block that is left
    spell the text the reply received, or its final text; the account is of the printed blocks
    themselves. */
module Scrollback {
  import opened Chars
  import opened Styles
  import opened Transcript
  import opened History
  import Paragraphs

  /** A paragraph printed before its reply was finished: where it is among the blocks printed, and
      the white space dropped behind it. */
  datatype Piece = Piece(at: nat, gap: string)

  /** A run with notes: the pieces cut from each reply, final texts that extended what was
      printed, and replies the user cleared away. */
  datatype Log = Log(r: Trace, cuts: map<nat, seq<Piece>>, finals: map<nat, string>, cleared: set<nat>)

  const NOTHING := Log(BEGIN, map[], map[], {})

  function Pieces(l: Log, x: nat): seq<Piece> { if x in l.cuts then l.cuts[x] else [] }

  function Cuts(l: Log, e: Event): map<nat, seq<Piece>> {
    var s := l.r.s;
    if e.HistoryTaken? && s.entries != [] && !s.entries[0].done && s.entries[0].block.Assistant? then
      match Paragraphs.CutOf(s.entries[0].block.markdown)
      case None => l.cuts
      case Some(c) =>
        var x := s.entries[0].id;
        l.cuts[x := Pieces(l, x) + [Piece(|l.r.taken|, if c.head <= c.consumed then c.consumed[|c.head|..] else "")]]
    else l.cuts
  }

  function Finals(l: Log, e: Event): map<nat, string> {
    if e.MessageCompleted? && e.sid in l.r.s.streams && e.text.Some? && PrintedOf(l.r.s, l.r.s.streams[e.sid]) <= e.text.value
    then l.finals[l.r.s.streams[e.sid] := e.text.value]
    else l.finals
  }

  function DoneIds(es: seq<Entry>): set<nat> { set k | 0 <= k < |es| && es[k].done :: es[k].id }

  function Noted(l: Log, e: Event, now: int): Log {
    Log(Next(l.r, e, now), Cuts(l, e), Finals(l, e), if e.Cleared? then l.cleared + DoneIds(l.r.s.entries) else l.cleared)
  }

  function LogOf(events: seq<Timed>): Log {
    if events == [] then NOTHING
    else Noted(LogOf(events[..|events| - 1]), events[|events| - 1].event, events[|events| - 1].now)
  }

  lemma {:induction false} LogIsRun(events: seq<Timed>)
    ensures LogOf(events).r == RunFrom(BEGIN, events)
  {
    if events != [] { LogIsRun(events[..|events| - 1]); }
  }

  // ----- what the blocks spell -----------------------------------------------------------------

  function Said(e: Entry): string { if e.block.Assistant? then e.block.markdown else "" }

  /** The text of some printed blocks with the white space behind them. */
  function Spell(taken: seq<Entry>, ps: seq<Piece>): string {
    if ps == [] then ""
    else
      var p := ps[|ps| - 1];
      Spell(taken, ps[..|ps| - 1]) + (if p.at < |taken| then Said(taken[p.at]) else "") + p.gap
  }

  predicate OnlySpace(s: string) { forall i :: 0 <= i < |s| ==> IsWhitespace(s[i]) }

  predicate PieceOk(taken: seq<Entry>, p: Piece) {
    p.at < |taken| && taken[p.at].block.Assistant? && Visible(taken[p.at], false) && OnlySpace(p.gap)
  }

  /** The pieces are printed, visible paragraphs, in order. */
  ghost predicate PiecesOk(taken: seq<Entry>, ps: seq<Piece>) {
    (forall k :: 0 <= k < |ps| ==> PieceOk(taken, ps[k])) && forall j, k :: 0 <= j < k < |ps| ==> ps[j].at < ps[k].at
  }

  lemma {:induction false} SpellStays(taken: seq<Entry>, more: seq<Entry>, ps: seq<Piece>)
    requires PiecesOk(taken, ps)
    ensures Spell(taken + more, ps) == Spell(taken, ps) && PiecesOk(taken + more, ps)
  {
    if ps != [] {
      var init := ps[..|ps| - 1];
      assert PiecesOk(taken, init);
      SpellStays(taken, more, init);
    }
  }

  /** The block of a reply, printed or held. */
  function BlockOf(r: Trace, x: nat): Option<Entry> {
    var e := Get(r.taken, x);
    if e.Some? then e else Get(r.s.entries, x)
  }

  /** What was printed early and what is left are the tokens received, or the final text up to the
      newlines between them. */
  ghost predicate Whole(front: string, rest: string, received: string, final: Option<string>) {
    match final
    case None => front + rest == received
    case Some(text) => exists n: nat :: text == front + Paragraphs.Newlines(n) + rest
  }

  function FinalOf(l: Log, x: nat): Option<string> { if x in l.finals then Some(l.finals[x]) else None }

  ghost predicate IsText(e: Option<Entry>) { e.Some? && e.value.block.Assistant? }

  /** The block of the reply, and the pieces in front of it. */
  ghost predicate BlockTold(l: Log, x: nat) {
    var e, ps := BlockOf(l.r, x), Pieces(l, x);
    IsText(e) && Whole(Spell(l.r.taken, ps), e.value.block.markdown, TextOf(l.r.received, x), FinalOf(l, x)) &&
    (x in l.finals ==> e.value.done)
  }

  /** A printed block comes after its pieces. */
  ghost predicate InOrder(taken: seq<Entry>, ps: seq<Piece>, x: nat) {
    Get(taken, x).Some? ==> forall k :: 0 <= k < |ps| ==> ps[k].at < Find(taken, x).value
  }

  ghost predicate ReplyTold(l: Log, x: nat) {
    PiecesOk(l.r.taken, Pieces(l, x)) && InOrder(l.r.taken, Pieces(l, x), x) &&
    if x in l.cleared then x !in All(l.r) else BlockTold(l, x)
  }

  ghost predicate KeysOk(l: Log) {
    l.cuts.Keys <= l.r.received.Keys && l.finals.Keys <= l.r.received.Keys && forall x :: x in l.cleared ==> x < l.r.s.nextId
  }

  ghost predicate SharePlace(l: Log, x: nat, i: int, y: nat, j: int) {
    0 <= i < |Pieces(l, x)| && 0 <= j < |Pieces(l, y)| && Pieces(l, x)[i].at == Pieces(l, y)[j].at
  }

  /** No printed block is a piece of two replies. */
  ghost predicate Apart(l: Log) {
    forall x: nat, y: nat, i, j :: SharePlace(l, x, i, y, j) ==> x == y && i == j
  }

  ghost predicate Told(l: Log) { KeysOk(l) && Apart(l) && forall x :: x in l.r.received ==> ReplyTold(l, x) }

  // ----- replies that an event leaves alone ------------------------------------------------------

  /** If `x` is a reply, its text stays. */
  ghost predicate KeepsAt(s: State, t: State, x: nat) {
    IsText(Get(s.entries, x)) ==>
      IsText(Get(t.entries, x)) && Get(t.entries, x).value.block == Get(s.entries, x).value.block &&
      (Get(s.entries, x).value.done ==> Get(t.entries, x).value.done)
  }

  ghost predicate KeepsTexts(s: State, t: State) { forall x: nat :: KeepsAt(s, t, x) }

  lemma PatchKeeps(s: State, t: State, n: nat, e: Option<Entry>)
    requires Patch(s.entries, t.entries, n, e)
    requires IsText(Get(s.entries, n)) ==>
               e.Some? && e.value.block == Get(s.entries, n).value.block && (Get(s.entries, n).value.done ==> e.value.done)
    ensures KeepsTexts(s, t)
  {
    hide Get, Unique;
  }

  lemma KeepsTransitive(a: State, b: State, c: State)
    requires KeepsTexts(a, b) && KeepsTexts(b, c)
    ensures KeepsTexts(a, c)
  {
    hide Get;
    forall x: nat ensures KeepsAt(a, c, x) {
      assert KeepsAt(a, b, x) && KeepsAt(b, c, x);
    }
  }

  lemma SameKeeps(s: State, t: State)
    requires t.entries == s.entries
    ensures KeepsTexts(s, t)
  {
    hide Get;
  }

  lemma FinishKeeps(s: State, id: nat)
    requires Ids(s)
    ensures KeepsTexts(s, Finish(s, id))
  {
    FinishPatch(s, id);
    hide KeepsTexts, Get, Find, Unique, SetDone;
    var e := Get(s.entries, id);
    PatchKeeps(s, Finish(s, id), id, if e.Some? then Some(e.value.(done := true)) else None);
  }

  lemma CloseKeeps(s: State)
    requires Good(s)
    ensures KeepsTexts(s, CloseGroup(s))
  {
    if s.openGroup.Some? {
      var g := s.openGroup.value;
      var e := Get(s.entries, g).value;
      var b := e.block.(closed := true);
      SetPatch(s.entries, g, b);
      var t := s.(entries := SetBlock(s.entries, g, b), openGroup := None);
      hide KeepsTexts, Get, Find, Unique, SetBlock, Finish;
      PatchKeeps(s, t, g, Some(e.(block := b)));
      PatchIds(s, t);
      FinishKeeps(t, g);
      KeepsTransitive(s, t, Finish(t, g));
    } else {
      SameKeeps(s, CloseGroup(s));
    }
  }

  lemma AppendKeeps(s: State, b: Block, done: bool)
    requires Ids(s)
    ensures KeepsTexts(s, Append(s, b, done))
  {
    AppendPatch(s, b, done);
    hide KeepsTexts, Find;
    PatchKeeps(s, Append(s, b, done), s.nextId, Some(Entry(s.nextId, b, done)));
  }

  lemma PushKeeps(s: State, b: Block, done: bool)
    requires Good(s)
    ensures KeepsTexts(s, Push(s, b, done))
  {
    CloseKeeps(s);
    CloseGood(s);
    SameKeeps(s, s);
    hide KeepsTexts, CloseGroup, Append, ToolsOk, GroupOk, EntriesOk, StreamsOk, RowsOk;
    var c := if b.Assistant? || b.Reasoning? || b.Group? then s else CloseGroup(s);
    AppendKeeps(c, b, done);
    KeepsTransitive(s, c, Append(c, b, done));
  }

  lemma StartStreamKeeps(s: State, sid: string, now: int)
    requires Good(s)
    ensures KeepsTexts(s, StartStream(s, sid, now)) && KeepsTexts(s, EnsureStream(s, sid))
  {
    AppendKeeps(s, Assistant(""), false);
    SameKeeps(s, s);
    hide KeepsTexts, Good;
    SameKeeps(Append(s, Assistant(""), false), StartStream(s, sid, now));
    KeepsTransitive(s, Append(s, Assistant(""), false), StartStream(s, sid, now));
    if sid !in s.streams {
      SameKeeps(Append(s, Assistant(""), false), EnsureStream(s, sid));
      KeepsTransitive(s, Append(s, Assistant(""), false), EnsureStream(s, sid));
    }
  }

  lemma EndReasoningKeepsTexts(s: State, sid: string)
    requires Good(s)
    ensures KeepsTexts(s, EndReasoning(s, sid))
  {
    SameKeeps(s, s);
    if sid in s.reasoning {
      var t := s.(reasoning := s.reasoning - {sid});
      GoodIds(s);
      hide KeepsTexts, Finish, Get, Unique, Good;
      SameKeeps(s, t);
      FinishKeeps(t, s.reasoning[sid]);
      KeepsTransitive(s, t, Finish(t, s.reasoning[sid]));
    }
  }

  lemma BeforeTokenKeeps(s: State, sid: string, token: string, now: int)
    requires Good(s)
    ensures KeepsTexts(s, BeforeToken(s, sid, token, now))
  {
    var busy := BecameBusy(s, now);
    BusyGood(s, now);
    SameKeeps(s, busy);
    SameKeeps(s, s);
    hide Good, KeepsTexts, BecameBusy;
    CloseGood(busy);
    CloseKeeps(busy);
    KeepsTransitive(s, busy, CloseGroup(busy));
    var a := if AllWhitespace(token) then s else CloseGroup(busy);
    hide CloseGroup, EndReasoning, EnsureStream;
    EndReasoningGood(a, sid);
    EndReasoningKeepsTexts(a, sid);
    var c := EndReasoning(a, sid);
    StartStreamKeeps(c, sid, now);
    KeepsTransitive(s, a, c);
    KeepsTransitive(s, c, EnsureStream(c, sid));
  }

  lemma ThinkKeeps(s: State, sid: string, token: string, now: int)
    requires Good(s)
    ensures KeepsTexts(s, ThinkMore(s, sid, token, now))
  {
    hide KeepsTexts, Get, Find, SetBlock, ReasoningPlace;
    SameKeeps(s, s);
    if sid in s.reasoning {
      var e := Get(s.entries, s.reasoning[sid]);
      if e.Some? && e.value.block.Reasoning? {
        var b := Reasoning(e.value.block.text + token);
        SetPatch(s.entries, s.reasoning[sid], b);
        PatchKeeps(s, ThinkMore(s, sid, token, now), s.reasoning[sid], Some(e.value.(block := b)));
      }
    } else if ReasoningPlace(s, sid).Some? {
      PlaceInRange(s, sid);
      var e := Entry(s.nextId, Reasoning(token), false);
      GetInsert(s.entries, ReasoningPlace(s, sid).value, e);
      PatchKeeps(s, ThinkMore(s, sid, token, now), s.nextId, Some(e));
    }
  }

  lemma NewToolKeeps(s: State, tid: string, t: Tool, showing: Showing)
    requires Good(s)
    ensures KeepsTexts(s, NewRow(s, tid, t, showing.PlanUpdate?))
    ensures showing.Run? ==> KeepsTexts(s, NewGroup(s, tid, t, showing.title))
  {
    GoodIds(s);
    hide Good, KeepsTexts, Append, Push, CloseGroup;
    PushKeeps(s, ToolRow(t), false);
    AppendKeeps(s, ToolRow(t), false);
    var row := if showing.PlanUpdate? then Append(s, ToolRow(t), false) else Push(s, ToolRow(t), false);
    SameKeeps(row, NewRow(s, tid, t, showing.PlanUpdate?));
    KeepsTransitive(s, row, NewRow(s, tid, t, showing.PlanUpdate?));
    if showing.Run? { NewGroupKeeps(s, tid, t, showing.title); }
  }

  lemma NewGroupKeeps(s: State, tid: string, t: Tool, title: Option<string>)
    requires Good(s)
    ensures KeepsTexts(s, NewGroup(s, tid, t, title))
  {
    CloseKeeps(s);
    CloseGood(s);
    hide Good, KeepsTexts, Append, CloseGroup;
    var c := CloseGroup(s);
    var a := Append(c, Group([t], false, title), false);
    GoodIds(c);
    AppendKeeps(c, Group([t], false, title), false);
    KeepsTransitive(s, c, a);
    SameKeeps(a, NewGroup(s, tid, t, title));
    KeepsTransitive(s, a, NewGroup(s, tid, t, title));
  }

  lemma JoinKeeps(s: State, tid: string, t: Tool, title: Option<string>)
    requires Good(s) && Joins(s, title)
    ensures KeepsTexts(s, JoinGroup(s, tid, t, title))
  {
    var g := s.openGroup.value;
    var k := Get(s.entries, g).value.block;
    SetPatch(s.entries, g, k.(tools := k.tools + [t]));
    hide KeepsTexts, Get, Find, SetBlock, Good;
    PatchKeeps(s, JoinGroup(s, tid, t, title), g, Some(Get(s.entries, g).value.(block := k.(tools := k.tools + [t]))));
  }

  lemma StartToolKeeps(s: State, tid: string, name: string, showing: Showing, now: int)
    requires Good(s)
    ensures KeepsTexts(s, StartTool(s, tid, name, showing, now))
  {
    var b, t := BecameBusy(s, now), Tool(name, Running);
    BusyGood(s, now);
    SameKeeps(s, b);
    hide Good, KeepsTexts, NewRow, NewGroup, JoinGroup, BecameBusy, Joins;
    if showing.Run? && Joins(b, showing.title) { JoinKeeps(b, tid, t, showing.title); } else { NewToolKeeps(b, tid, t, showing); }
    KeepsTransitive(s, b, StartTool(s, tid, name, showing, now));
  }

  lemma FinishToolKeeps(s: State, tid: string, status: Outcome)
    requires Good(s)
    ensures KeepsTexts(s, FinishTool(s, tid, status))
  {
    SameKeeps(s, s);
    if tid in s.tools {
      var slot, t := s.tools[tid], FinishTool(s, tid, status);
      StatusPatch(s, tid, status);
      if slot.idx.None? { FinishRowPatch(s, tid, status); } else { FinishInGroupPatch(s, tid, status); }
      hide Good, KeepsTexts, FinishTool, Ended, Find, Unique, Get, SetStatus;
      PatchKeeps(s, t, slot.id, Get(t.entries, slot.id));
    }
  }

  lemma StoppingKeeps(s: State)
    requires Good(s)
    ensures KeepsTexts(s, Stopping(s))
  {
    var kept := Keep(s.entries, (e: Entry) => e.id !in s.planRows);
    GetKeep(s.entries, (e: Entry) => e.id !in s.planRows);
    GetStop(kept);
    hide Get, Keep, StopAll, Unique;
  }

  lemma SettleKeeps(s: State, interrupted: bool)
    requires Good(s)
    ensures KeepsTexts(s, Settle(s, interrupted))
  {
    StoppingGood(s);
    StoppingKeeps(s);
    hide Good, AtRest, IsBusy, KeepsTexts, Push, Keep, StopAll, Unfinished;
    var a := Stopping(s);
    var b := if interrupted && Unfinished(s.plan) then Push(a, Plan(s.plan.value), true) else a;
    if interrupted && Unfinished(s.plan) {
      PushKeeps(a, Plan(s.plan.value), true);
      ShowAtRest(a, Plan(s.plan.value));
      KeepsTransitive(s, a, b);
    }
    var c := if interrupted && IsBusy(s) then Push(b, Note(INTERRUPTED), true) else b;
    if interrupted && IsBusy(s) {
      PushKeeps(b, Note(INTERRUPTED), true);
      KeepsTransitive(s, b, c);
    }
    SameKeeps(c, c.(busySince := None));
    KeepsTransitive(s, c, c.(busySince := None));
  }

  /** Every event but these leaves the text of every reply as it is. */
  lemma OthersKeep(s: State, e: Event, now: int)
    requires Good(s) && !e.TokenDelta? && !e.MessageCompleted? && !e.Cleared? && !e.HistoryTaken?
    ensures KeepsTexts(s, Step(s, e, now))
  {
    hide Good, KeepsTexts, StartStream, ThinkMore, StartTool, FinishTool, Settle, Push;
    match e
    case StreamStarted(sid) => StartStreamKeeps(s, sid, now);
    case ReasoningDelta(sid, token) => ThinkKeeps(s, sid, token, now);
    case ToolStarted(tid, name, showing) => StartToolKeeps(s, tid, name, showing, now);
    case ToolFinished(tid, status) => FinishToolKeeps(s, tid, status);
    case BlockShown(block) => PushKeeps(s, block, true);
    case TodoList(_) => SameKeeps(s, Step(s, e, now));
    case Phase(busy) =>
      if !busy && s.phaseBusy {
        FlagsGood(s, None, false, false);
        SettleKeeps(s.(phaseBusy := false), false);
        SameKeeps(s, s.(phaseBusy := false));
        KeepsTransitive(s, s.(phaseBusy := false), Step(s, e, now));
      } else {
        SameKeeps(s, Step(s, e, now));
      }
    case Cancelled => SettleKeeps(s, true);
  }

  // ----- the account after an event --------------------------------------------------------------

  /** Ids that are gone do not come back. */
  lemma GoneStays(r: Trace, e: Event, now: int, x: nat)
    requires Once(r) && x < r.s.nextId && x !in All(r)
    ensures x !in All(Next(r, e, now))
  {
    hide Once, Next, Fits;
    NextEvolves(r, e, now);
    var from, to := All(r), All(Next(r, e, now));
    forall k | 0 <= k < |to| ensures to[k] != x {}
  }

  lemma HeldIsListed(r: Trace, x: nat)
    ensures Get(r.s.entries, x).Some? ==> x in All(r)
    ensures Get(r.taken, x).Some? ==> x in All(r)
  {
    var l := All(r);
    var i, j := Find(r.s.entries, x), Find(r.taken, x);
    if i.Some? { assert l[|r.taken| + i.value] == x; }
    if j.Some? { assert l[j.value] == x; }
  }

  /** A block is printed or held, not both. */
  lemma PrintedOrHeld(r: Trace, x: nat)
    requires Once(r)
    ensures Get(r.taken, x).None? || Get(r.s.entries, x).None?
    ensures Get(r.taken, x).Some? || Get(r.s.entries, x).Some? ==> x < r.s.nextId
  {
    var l := All(r);
    var i, j := Find(r.s.entries, x), Find(r.taken, x);
    if i.Some? { assert l[|r.taken| + i.value] == x; }
    if j.Some? { assert l[j.value] == x; }
  }

  lemma KeepTold(l: Log, m: Log, x: nat)
    requires ReplyTold(l, x) && KeepsAt(l.r.s, m.r.s, x) && m.r.taken == l.r.taken && m.cuts == l.cuts
    requires TextOf(m.r.received, x) == TextOf(l.r.received, x) && FinalOf(m, x) == FinalOf(l, x)
    requires x in m.cleared <==> x in l.cleared
    requires x in l.cleared ==> x !in All(m.r)
    ensures ReplyTold(m, x)
  {
    hide Get, Find, Spell, PiecesOk, InOrder, Whole, TextOf, All;
  }

  lemma NewTold(l: Log, n: nat)
    requires Get(l.r.taken, n).None? && Get(l.r.s.entries, n) == Some(Entry(n, Assistant(""), false))
    requires n !in l.cuts && n !in l.finals && n !in l.cleared && TextOf(l.r.received, n) == ""
    ensures ReplyTold(l, n)
  {
    hide Get, Find;
    assert "" + "" == "";
  }

  /** What the account says of a reply in progress. */
  lemma InProgress(l: Log, x: nat)
    requires Sound(l.r) && Told(l) && Replying(l.r.s, x)
    ensures x in l.r.received && x !in l.cleared && x !in l.finals && Get(l.r.taken, x).None? && ReplyTold(l, x)
    ensures Spell(l.r.taken, Pieces(l, x)) == PrintedOf(l.r.s, x)
  {
    PrintedOrHeld(l.r, x);
    HeldIsListed(l.r, x);
    assert x in l.r.received;
    hide Get, All, Spell, PiecesOk, InOrder, Good, Once;
    var md := Get(l.r.s.entries, x).value.block.markdown;
    SameFront(Spell(l.r.taken, Pieces(l, x)), PrintedOf(l.r.s, x), md);
  }

  lemma SameFront(a: string, b: string, rest: string)
    ensures a + rest == b + rest ==> a == b
  {
    if a + rest == b + rest {
      assert (a + rest)[..|a|] == a && (b + rest)[..|b|] == b;
    }
  }

  lemma IdsGrow(r: Trace, e: Event, now: int)
    requires Once(r)
    ensures Next(r, e, now).s.nextId >= r.s.nextId
  {
    hide Once, Next;
    NextEvolves(r, e, now);
  }

  /** Events that change no reply. */
  lemma NotesSame(l: Log, e: Event, now: int)
    requires !e.StreamStarted? && !e.TokenDelta? && !e.MessageCompleted? && !e.Cleared? && !e.HistoryTaken?
    ensures Noted(l, e, now) == l.(r := l.r.(s := Step(l.r.s, e, now)))
  {
    hide Step;
  }

  lemma OtherTold(l: Log, e: Event, now: int)
    requires Sound(l.r) && Told(l)
    requires !e.StreamStarted? && !e.TokenDelta? && !e.MessageCompleted? && !e.Cleared? && !e.HistoryTaken?
    ensures Told(Noted(l, e, now))
  {
    hide Good, Once, TextOk, ReplyTold, KeepsAt, All, Step, Apart, Noted;
    var m := Noted(l, e, now);
    OthersKeep(l.r.s, e, now);
    IdsGrow(l.r, e, now);
    NotesSame(l, e, now);
    SameApart(l, m);
    forall x | x in m.r.received ensures ReplyTold(m, x) { StaysTold(l, e, now, x); }
  }

  lemma SameApart(l: Log, m: Log)
    requires Apart(l) && m.cuts == l.cuts
    ensures Apart(m)
  {
    assert forall x: nat :: Pieces(m, x) == Pieces(l, x);
    assert forall x: nat, y: nat, i, j :: SharePlace(m, x, i, y, j) ==> SharePlace(l, x, i, y, j);
  }

  lemma StaysTold(l: Log, e: Event, now: int, x: nat)
    requires Once(l.r) && KeysOk(l) && ReplyTold(l, x) && !e.Cleared? && !e.HistoryTaken?
    requires KeepsAt(l.r.s, Step(l.r.s, e, now), x) && FinalOf(Noted(l, e, now), x) == FinalOf(l, x)
    requires TextOf(Received(l.r, e, now), x) == TextOf(l.r.received, x)
    ensures ReplyTold(Noted(l, e, now), x)
  {
    hide Once, KeepsAt, Step, Received, All, FinalOf, TextOf, PiecesOk, InOrder, BlockTold;
    if x in l.cleared { GoneStays(l.r, e, now, x); }
    KeepTold(l, Noted(l, e, now), x);
  }

  /** The next id is nowhere yet. */
  lemma NextIsNew(l: Log)
    requires Sound(l.r) && Told(l)
    ensures var n := l.r.s.nextId;
            n !in l.r.received && n !in l.cuts && n !in l.finals && n !in l.cleared && Get(l.r.taken, n).None?
  {
    PrintedOrHeld(l.r, l.r.s.nextId);
    hide Good, Once, ReplyTold, Get;
  }

  lemma StreamTold(l: Log, sid: string, now: int)
    requires Sound(l.r) && Told(l)
    ensures Told(Noted(l, StreamStarted(sid), now))
  {
    var e, n := StreamStarted(sid), l.r.s.nextId;
    var m := Noted(l, e, now);
    hide Good, Once, TextOk, ReplyTold, KeepsAt, All, StartStream, Apart, Get;
    OthersKeep(l.r.s, e, now);
    IdsGrow(l.r, e, now);
    NextIsNew(l);
    NewReply(l.r.s, sid, now);
    SameApart(l, m);
    NewTold(m, n);
    forall x | x in m.r.received && x != n ensures ReplyTold(m, x) { StaysTold(l, e, now, x); }
  }

  lemma NewReply(s: State, sid: string, now: int)
    requires Good(s)
    ensures Get(StartStream(s, sid, now).entries, s.nextId) == Some(Entry(s.nextId, Assistant(""), false))
  {
    AppendPatch(s, Assistant(""), false);
  }

  // ----- tokens ----------------------------------------------------------------------------------

  lemma AddTextPatch(b: State, id: nat, token: string)
    requires Ids(b) && Replying(b, id)
    ensures var md := Get(b.entries, id).value.block.markdown;
            Patch(b.entries, AddText(b, id, token).entries, id, Some(Entry(id, Assistant(md + token), false)))
  {
    SetPatch(b.entries, id, Assistant(Get(b.entries, id).value.block.markdown + token));
  }

  lemma TokenBlock(l: Log, m: Log, id: nat, token: string)
    requires BlockTold(l, id) && id !in l.finals && Get(l.r.taken, id).None? && m.r.taken == l.r.taken && m.cuts == l.cuts
    requires m.finals == l.finals && m.r.received == l.r.received[id := TextOf(l.r.received, id) + token]
    requires var e := Get(l.r.s.entries, id);
             IsText(e) && Get(m.r.s.entries, id) == Some(Entry(id, Assistant(e.value.block.markdown + token), false))
    ensures BlockTold(m, id)
  {
    hide Get, Find, Spell;
    var md, front := Get(l.r.s.entries, id).value.block.markdown, Spell(l.r.taken, Pieces(l, id));
    assert front + (md + token) == front + md + token;
  }

  /** One more token at the end of a reply. */
  lemma TokenAdded(l: Log, m: Log, id: nat, token: string)
    requires Good(l.r.s) && Replying(l.r.s, id) && ReplyTold(l, id) && id !in l.finals && id !in l.cleared
    requires m.r.s == AddText(l.r.s, id, token) && m.r.taken == l.r.taken && m.cuts == l.cuts && m.finals == l.finals
    requires m.cleared == l.cleared && m.r.received == l.r.received[id := TextOf(l.r.received, id) + token]
    requires Get(l.r.taken, id).None?
    ensures ReplyTold(m, id)
  {
    hide Get, Find, Unique, Spell, PiecesOk, InOrder, All, Good, AddText, Whole, BlockTold;
    GoodIds(l.r.s);
    AddTextPatch(l.r.s, id, token);
    TokenBlock(l, m, id, token);
  }

  lemma ListedAlike(r: Trace, q: Trace)
    requires Once(r) && q.taken == r.taken && IdList(q.s.entries) == IdList(r.s.entries) && q.s.nextId == r.s.nextId
    ensures Once(q) && All(q) == All(r)
  {
    AllParts(r);
    AllParts(q);
  }

  /** The account in the state in which the token is added. */
  function Opened(l: Log, sid: string, token: string, now: int): Log {
    var b := BeforeToken(l.r.s, sid, token, now);
    if sid in b.streams then
      l.(r := Trace(b, l.r.taken, l.r.received[b.streams[sid] := TextOf(l.r.received, b.streams[sid])]))
    else l
  }

  lemma OpenedIs(l: Log, sid: string, token: string, now: int)
    requires Sound(l.r)
    ensures var o, id := Opened(l, sid, token, now), BeforeToken(l.r.s, sid, token, now).streams[sid];
            sid in o.r.s.streams && o.r.s.streams[sid] == id && Sound(o.r) && Replying(o.r.s, id) && id in o.r.received &&
            All(o.r) == All(Next(l.r, TokenDelta(sid, token), now)) && o.r.s.nextId >= l.r.s.nextId
  {
    var b, after := BeforeToken(l.r.s, sid, token, now), Next(l.r, TokenDelta(sid, token), now);
    BeforeTokenText(l.r, sid, token, now);
    OpenReply(b, sid);
    NextToken(l.r, sid, token, now);
    NextEvolves(l.r, TokenDelta(sid, token), now);
    hide Good, Once, TextOk, BeforeToken, Next, Replying, AddText;
    AddTextList(b, b.streams[sid], token);
    ListedAlike(after, Opened(l, sid, token, now).r);
  }

  /** A stream opened by its first token has an empty reply. */
  lemma OpenedNew(l: Log, sid: string, token: string, now: int)
    requires Sound(l.r)
    ensures var b := BeforeToken(l.r.s, sid, token, now);
            sid in b.streams &&
            (b.streams[sid] in l.r.received ||
             (b.streams[sid] >= l.r.s.nextId && Get(b.entries, b.streams[sid]) == Some(Entry(b.streams[sid], Assistant(""), false))))
  {
    var s := l.r.s;
    BusyGood(s, now);
    var busy := BecameBusy(s, now);
    CloseGood(busy);
    var a := if AllWhitespace(token) then s else CloseGroup(busy);
    assert a.streams == s.streams && a.nextId >= s.nextId by { hide CloseGroup, Good; }
    EndReasoningGood(a, sid);
    EndReasoningKeeps(a, sid);
    var c := EndReasoning(a, sid);
    if sid in s.streams { OpenReply(s, sid); }
    hide Good, Once, CloseGroup, EndReasoning, Get, Find;
    if sid !in s.streams { EnsuredNew(c, sid); }
  }

  lemma EnsuredNew(c: State, sid: string)
    requires Good(c) && sid !in c.streams
    ensures var b := EnsureStream(c, sid);
            b.streams[sid] == c.nextId && Get(b.entries, c.nextId) == Some(Entry(c.nextId, Assistant(""), false))
  {
    AppendPatch(c, Assistant(""), false);
  }

  lemma ReplyNotPrinted(r: Trace, id: nat)
    requires Once(r) && Replying(r.s, id)
    ensures Get(r.taken, id).None?
  {
    PrintedOrHeld(r, id);
  }

  lemma OpenedKeys(l: Log, sid: string, token: string, now: int)
    requires KeysOk(l) && Opened(l, sid, token, now).r.s.nextId >= l.r.s.nextId
    ensures KeysOk(Opened(l, sid, token, now))
  {
    hide BeforeToken;
  }

  lemma FirstTold(l: Log, o: Log, id: nat)
    requires KeysOk(l) && id !in l.r.received && id >= l.r.s.nextId && Get(o.r.taken, id).None?
    requires Get(o.r.s.entries, id) == Some(Entry(id, Assistant(""), false))
    requires o.cuts == l.cuts && o.finals == l.finals && o.cleared == l.cleared
    requires o.r.received == l.r.received[id := TextOf(l.r.received, id)]
    ensures ReplyTold(o, id)
  {
    hide Get, ReplyTold;
    NewTold(o, id);
  }

  lemma OpenedKeeps(l: Log, sid: string, token: string, now: int, x: nat)
    requires Sound(l.r) && Told(l) && x in l.r.received
    ensures ReplyTold(Opened(l, sid, token, now), x)
  {
    hide Good, Once, TextOk, BeforeToken, ReplyTold, KeepsAt, All, Apart, Get, Replying, Next;
    var o := Opened(l, sid, token, now);
    OpenedIs(l, sid, token, now);
    OpenedNew(l, sid, token, now);
    BeforeTokenKeeps(l.r.s, sid, token, now);
    assert KeepsAt(l.r.s, o.r.s, x);
    if x in l.cleared { ClearedGone(l, x, TokenDelta(sid, token), now); }
    KeepTold(l, o, x);
  }

  lemma OpenedTold(l: Log, sid: string, token: string, now: int)
    requires Sound(l.r) && Told(l)
    ensures Told(Opened(l, sid, token, now))
  {
    hide Good, Once, TextOk, BeforeToken, ReplyTold, KeepsAt, All, Apart, Get, Replying, Next, KeysOk, FinalOf;
    var o, b := Opened(l, sid, token, now), BeforeToken(l.r.s, sid, token, now);
    OpenedIs(l, sid, token, now);
    OpenedNew(l, sid, token, now);
    var id := b.streams[sid];
    ReplyNotPrinted(o.r, id);
    OpenedKeys(l, sid, token, now);
    SameApart(l, o);
    if id !in l.r.received { FirstTold(l, o, id); }
    forall x | x in l.r.received ensures ReplyTold(o, x) { OpenedKeeps(l, sid, token, now, x); }
  }

  lemma ClearedGone(l: Log, x: nat, e: Event, now: int)
    requires Once(l.r) && KeysOk(l) && ReplyTold(l, x) && x in l.cleared
    ensures x !in All(Next(l.r, e, now))
  {
    hide Once, Next, PiecesOk, InOrder, All;
    GoneStays(l.r, e, now, x);
  }

  lemma TokenTold(l: Log, sid: string, token: string, now: int)
    requires Sound(l.r) && Told(l)
    ensures Told(Noted(l, TokenDelta(sid, token), now))
  {
    var m, o := Noted(l, TokenDelta(sid, token), now), Opened(l, sid, token, now);
    OpenedIs(l, sid, token, now);
    OpenedTold(l, sid, token, now);
    var b := BeforeToken(l.r.s, sid, token, now);
    var id := b.streams[sid];
    NextToken(l.r, sid, token, now);
    NotedTwice(l.r.received, id, token);
    InProgress(o, id);
    IdsGrow(l.r, TokenDelta(sid, token), now);
    assert m.r == Trace(AddText(o.r.s, id, token), o.r.taken, o.r.received[id := TextOf(o.r.received, id) + token]);
    hide Good, Once, TextOk, BeforeToken, ReplyTold, All, Apart, Get, Replying, Next, Noted;
    TokenAddedTold(o, m, id, token);
  }

  lemma TokenAddedTold(o: Log, m: Log, id: nat, token: string)
    requires Sound(o.r) && Told(o) && Replying(o.r.s, id)
    requires m == Log(Trace(AddText(o.r.s, id, token), o.r.taken, o.r.received[id := TextOf(o.r.received, id) + token]),
                      o.cuts, o.finals, o.cleared)
    requires All(m.r) == All(o.r)
    ensures Told(m)
  {
    hide Good, Once, TextOk, ReplyTold, All, Apart, Find, Unique, AddText, Replying, Get, KeepsAt;
    InProgress(o, id);
    TokenAdded(o, m, id, token);
    SameApart(o, m);
    AddTextCounts(o.r.s, id, token);
    forall x | x in o.r.received && x != id ensures ReplyTold(m, x) {
      AddTextElsewhere(o.r.s, id, token, x);
      SameNotes(o, m, x);
    }
  }

  lemma AddTextElsewhere(s: State, id: nat, token: string, x: nat)
    requires Good(s) && Replying(s, id) && x != id
    ensures KeepsAt(s, AddText(s, id, token), x)
  {
    AddTextPatch(s, id, token);
    hide Good, Get, AddText, Unique;
  }

  lemma AddTextCounts(s: State, id: nat, token: string)
    ensures AddText(s, id, token).nextId == s.nextId
  {
    hide Get, SetBlock;
  }

  lemma SameNotes(o: Log, m: Log, x: nat)
    requires ReplyTold(o, x) && KeepsAt(o.r.s, m.r.s, x) && All(m.r) == All(o.r) && m.r.taken == o.r.taken
    requires m.cuts == o.cuts && m.finals == o.finals && m.cleared == o.cleared
    requires TextOf(m.r.received, x) == TextOf(o.r.received, x)
    ensures ReplyTold(m, x)
  {
    assert x in o.cleared ==> x !in All(m.r) by { hide All, PiecesOk, InOrder, BlockTold; }
    hide ReplyTold, KeepsAt, All;
    KeepTold(o, m, x);
  }

  // ----- a reply completed -------------------------------------------------------------------------

  lemma OthersComplete(s: State, sid: string, text: Option<string>, x: nat)
    requires Good(s) && (sid in s.streams ==> x != s.streams[sid])
    ensures KeepsAt(s, CompleteMessage(s, sid, text), x)
  {
    EndReasoningGood(s, sid);
    EndReasoningKeepsTexts(s, sid);
    EndReasoningKeeps(s, sid);
    var a := EndReasoning(s, sid);
    hide EndReasoning;
    assert KeepsAt(s, a, x);
    if sid in a.streams {
      StreamCompletes(a, sid, text, x);
    }
  }

  lemma StreamCompletes(a: State, sid: string, text: Option<string>, x: nat)
    requires Good(a) && sid in a.streams && x != a.streams[sid]
    ensures var id := a.streams[sid];
            Get(Finish(CompleteText(a.(streams := a.streams - {sid}), id, text), id).entries, x) == Get(a.entries, x)
  {
    var id, b := a.streams[sid], a.(streams := a.streams - {sid});
    assert Get(b.entries, id).Some? && Get(b.entries, id).value.block.Assistant? && Ids(b);
    hide Good, CompleteText, Finish, Get, Unique;
    CompletePatch(b, id, text);
  }

  lemma WholeCompletes(printed: string, md: string, received: string, text: Option<string>)
    requires Whole(printed, md, received, None)
    ensures Whole(printed, Paragraphs.Completed(printed, md, text), received, if text.Some? && printed <= text.value then text else None)
  {
    if text.Some? { Paragraphs.CompletionKeepsText(printed, md, text.value); }
  }

  lemma CompletedTold(l: Log, m: Log, id: nat, text: Option<string>)
    requires Sound(l.r) && Told(l) && Replying(l.r.s, id) && m.r.taken == l.r.taken && m.cuts == l.cuts
    requires m.r.received == l.r.received && m.cleared == l.cleared
    requires m.finals == if text.Some? && PrintedOf(l.r.s, id) <= text.value then l.finals[id := text.value] else l.finals
    requires Get(m.r.s.entries, id) ==
             Some(Entry(id, Assistant(Paragraphs.Completed(PrintedOf(l.r.s, id), Get(l.r.s.entries, id).value.block.markdown, text)), true))
    ensures ReplyTold(m, id)
  {
    hide Good, Once, TextOk, Get, Find, PiecesOk, InOrder, All, Spell, Paragraphs.Completed, Apart, Whole, KeysOk;
    InProgress(l, id);
    var md, printed := Get(l.r.s.entries, id).value.block.markdown, PrintedOf(l.r.s, id);
    hide PrintedOf;
    assert FinalOf(l, id) == None && BlockOf(l.r, id) == Get(l.r.s.entries, id) && BlockOf(m.r, id) == Get(m.r.s.entries, id);
    assert FinalOf(m, id) == if text.Some? && printed <= text.value then text else None;
    WholeCompletes(printed, md, TextOf(l.r.received, id), text);
  }

  lemma MessageKeys(l: Log, e: Event, now: int)
    requires Sound(l.r) && Told(l) && e.MessageCompleted? && Next(l.r, e, now).s.nextId >= l.r.s.nextId
    ensures KeysOk(Noted(l, e, now))
  {
    hide Good, Once, ReplyTold, Apart, Get, Step;
    if e.sid in l.r.s.streams { OpenReply(l.r.s, e.sid); }
  }

  lemma OwnMessage(l: Log, sid: string, text: Option<string>, now: int)
    requires Sound(l.r) && Told(l) && sid in l.r.s.streams
    ensures ReplyTold(Noted(l, MessageCompleted(sid, text), now), l.r.s.streams[sid])
  {
    hide Good, Once, TextOk, ReplyTold, All, Apart, Get, Replying, CompleteMessage, PrintedOf, KeysOk;
    CompleteMessageText(l.r, sid, text, now);
    OpenReply(l.r.s, sid);
    CompletedTold(l, Noted(l, MessageCompleted(sid, text), now), l.r.s.streams[sid], text);
  }

  lemma MessageTold(l: Log, sid: string, text: Option<string>, now: int)
    requires Sound(l.r) && Told(l)
    ensures Told(Noted(l, MessageCompleted(sid, text), now))
  {
    var e := MessageCompleted(sid, text);
    var m := Noted(l, e, now);
    hide Good, Once, TextOk, ReplyTold, KeepsAt, All, Apart, Get, Replying, CompleteMessage, PrintedOf;
    IdsGrow(l.r, e, now);
    SameApart(l, m);
    MessageKeys(l, e, now);
    if sid in l.r.s.streams { OwnMessage(l, sid, text, now); }
    forall x | x in l.r.received && (sid in l.r.s.streams ==> x != l.r.s.streams[sid]) ensures ReplyTold(m, x) {
      OthersComplete(l.r.s, sid, text, x);
      StaysTold(l, e, now, x);
    }
  }

  // ----- clearing ------------------------------------------------------------------------------------

  lemma ClearedIds(r: Trace, x: nat)
    requires Once(r) && Unique(r.s.entries)
    ensures var kept := Keep(r.s.entries, (e: Entry) => !e.done);
            Get(kept, x) == (if x in DoneIds(r.s.entries) then None else Get(r.s.entries, x)) &&
            (x in DoneIds(r.s.entries) ==> x < r.s.nextId && x !in IdList(r.taken) + IdList(kept))
  {
    var kept := Keep(r.s.entries, (e: Entry) => !e.done);
    GetKeep(r.s.entries, (e: Entry) => !e.done);
    if x in DoneIds(r.s.entries) {
      var k :| 0 <= k < |r.s.entries| && r.s.entries[k].done && r.s.entries[k].id == x;
      GetAt(r.s.entries, k);
      PrintedOrHeld(r, x);
      NotListed(kept, x);
      NotListed(r.taken, x);
    } else if Get(r.s.entries, x).Some? {
      var k := Find(r.s.entries, x).value;
      assert r.s.entries[k].id == x;
    }
  }

  lemma NotListed(es: seq<Entry>, x: nat)
    requires Get(es, x).None?
    ensures x !in IdList(es)
  {
  }

  lemma ClearTold(l: Log, now: int)
    requires Sound(l.r) && Told(l)
    ensures Told(Noted(l, Cleared, now))
  {
    hide Good, Once, TextOk, ReplyTold, All, Apart, Get, DoneIds, Keep, Unique;
    var m := Noted(l, Cleared, now);
    IdsGrow(l.r, Cleared, now);
    GoodIds(l.r.s);
    forall x | x in DoneIds(l.r.s.entries) ensures x < l.r.s.nextId { ClearedIds(l.r, x); }
    SameApart(l, m);
    forall x | x in l.r.received ensures ReplyTold(m, x) {
      ClearedIds(l.r, x);
      AllParts(m.r);
      if x in l.cleared { ClearedGone(l, x, Cleared, now); }
      ClearOne(l, m, x);
    }
  }

  lemma ClearOne(l: Log, m: Log, x: nat)
    requires ReplyTold(l, x) && m.r.taken == l.r.taken && m.cuts == l.cuts && m.finals == l.finals && m.r.received == l.r.received
    requires l.cleared <= m.cleared && (x in m.cleared ==> x !in All(m.r))
    requires x in m.cleared || Get(m.r.s.entries, x) == Get(l.r.s.entries, x)
    ensures ReplyTold(m, x)
  {
    hide Get, Find, Spell, PiecesOk, InOrder, Whole, All;
  }

  // ----- printing --------------------------------------------------------------------------------------

  lemma {:induction false} FindConcat(a: seq<Entry>, b: seq<Entry>, x: nat)
    ensures Find(a + b, x) == if Find(b, x).Some? then Some(|a| + Find(b, x).value) else Find(a, x)
  {
    if b == [] {
      assert a + b == a;
    } else {
      var init := b[..|b| - 1];
      assert (a + b)[..|a + b| - 1] == a + init;
      FindConcat(a, init, x);
    }
  }

  lemma GetConcat(a: seq<Entry>, b: seq<Entry>, x: nat)
    ensures Get(a + b, x) == if Get(b, x).Some? then Get(b, x) else Get(a, x)
  {
    FindConcat(a, b, x);
  }

  lemma DoneIsDone(es: seq<Entry>, x: nat)
    requires forall k :: 0 <= k < |es| ==> es[k].done
    ensures Get(es, x).Some? ==> Get(es, x).value.done
  {
  }

  /** Taking moves blocks from what is held to what is printed. */
  lemma TakenBlock(r: Trace, now: int, x: nat)
    requires Once(r)
    ensures var m, a := Next(r, HistoryTaken, now), SplitLeading(r.s);
            BlockOf(m, x) == (if Get(r.taken, x).Some? then Get(r.taken, x) else Get(a.entries, x)) &&
            (Get(m.taken, x).Some? ==> Get(m.taken, x).value.done)
    ensures Get(r.taken, x).Some? ==> Get(Taken(r.s), x).None?
  {
    var m, a := Next(r, HistoryTaken, now), SplitLeading(r.s);
    NextEvolves(r, HistoryTaken, now);
    StepTakes(r.s, now);
    var mine := Taken(r.s);
    assert m.taken == r.taken + mine by { hide Once, Taken, Step; }
    DoneIsDone(m.taken, x);
    PrintedOrHeld(m, x);
    ApartIn(m, r.taken, mine, x);
    GetConcat(r.taken, mine, x);
    GetConcat(mine, m.s.entries, x);
    hide Once, Taken, Step, SplitLeading, Get, Find;
  }

  lemma ApartIn(m: Trace, front: seq<Entry>, back: seq<Entry>, x: nat)
    requires Once(m) && m.taken == front + back
    ensures Get(front, x).None? || Get(back, x).None?
  {
    var i, j, l := Find(front, x), Find(back, x), All(m);
    if i.Some? { assert l[i.value] == x; }
    if j.Some? { assert l[|front| + j.value] == x; }
  }

  /** The reply that is cut, if any, and its cut. */
  function CutNow(s: State): Option<Paragraphs.Cut> {
    if s.entries != [] && !s.entries[0].done && s.entries[0].block.Assistant? then Paragraphs.CutOf(s.entries[0].block.markdown)
    else None
  }

  lemma OthersSplit(s: State, x: nat)
    requires Good(s) && x < s.nextId && (CutNow(s).Some? ==> x != s.entries[0].id)
    ensures Get(SplitLeading(s).entries, x) == Get(s.entries, x)
  {
    if CutNow(s).Some? {
      SplitPatch(s, s.entries[0], CutNow(s).value);
      hide Get, Paragraphs.CutOf;
    }
  }

  lemma InOrderGrows(taken: seq<Entry>, more: seq<Entry>, ps: seq<Piece>, x: nat)
    requires PiecesOk(taken, ps) && InOrder(taken, ps, x) && (Get(taken, x).Some? ==> Get(more, x).None?)
    ensures InOrder(taken + more, ps, x)
  {
    FindConcat(taken, more, x);
  }

  /** A reply that is not cut now. */
  lemma UncutTold(l: Log, now: int, x: nat)
    requires Sound(l.r) && Told(l) && x in l.r.received && (CutNow(l.r.s).Some? ==> x != l.r.s.entries[0].id)
    ensures ReplyTold(Noted(l, HistoryTaken, now), x)
  {
    hide Good, Once, TextOk, All, Get, Find, Step, SplitLeading, Taken, Spell, PiecesOk, InOrder, Apart, Whole;
    var m := Noted(l, HistoryTaken, now);
    assert ReplyTold(l, x);
    UncutPieces(l, now, x);
    TakenBlock(l.r, now, x);
    ReceivedIsOld(l.r, x);
    OthersSplit(l.r.s, x);
    SpellStays(l.r.taken, Taken(l.r.s), Pieces(l, x));
    InOrderGrows(l.r.taken, Taken(l.r.s), Pieces(l, x), x);
    if x in l.cleared { ClearedGone(l, x, HistoryTaken, now); }
  }

  lemma ReceivedIsOld(r: Trace, x: nat)
    requires TextOk(r) && x in r.received
    ensures x < r.s.nextId
  {
  }

  lemma UncutPieces(l: Log, now: int, x: nat)
    requires CutNow(l.r.s).Some? ==> x != l.r.s.entries[0].id
    ensures Pieces(Noted(l, HistoryTaken, now), x) == Pieces(l, x)
  {
    hide Step, Paragraphs.CutOf, Taken;
  }

  /** The head of a cut is printed at once. */
  lemma HeadTaken(s: State)
    requires CutNow(s).Some?
    ensures Taken(s) != [] && Taken(s)[0] == Entry(s.nextId, Assistant(CutNow(s).value.head), true)
  {
    var a := SplitLeading(s);
    assert a.entries[0].done && DoneCount(a.entries) == 1 + DoneCount(a.entries[1..]);
    hide Paragraphs.CutOf, DoneCount;
  }

  /** A piece printed now comes after the others. */
  lemma OneMorePiece(taken: seq<Entry>, more: seq<Entry>, ps: seq<Piece>, p: Piece)
    requires PiecesOk(taken, ps) && more != [] && more[0].block.Assistant? && Visible(more[0], false) && p.at == |taken|
    requires OnlySpace(p.gap)
    ensures PiecesOk(taken + more, ps + [p])
  {
    forall k | 0 <= k < |ps| ensures ps[k].at < p.at && PieceOk(taken, ps[k]) {}
    hide PiecesOk;
    SpellStays(taken, more, ps);
    LastPiece(taken, more, p);
    AllPieces(taken + more, ps, p);
  }

  lemma AllPieces(taken: seq<Entry>, ps: seq<Piece>, p: Piece)
    requires PiecesOk(taken, ps) && PieceOk(taken, p) && forall k :: 0 <= k < |ps| ==> ps[k].at < p.at
    ensures PiecesOk(taken, ps + [p])
  {
    hide PieceOk;
    var more := ps + [p];
    forall k | 0 <= k < |more| ensures PieceOk(taken, more[k]) { assert more[k] == if k < |ps| then ps[k] else p; }
    forall j, k | 0 <= j < k < |more| ensures more[j].at < more[k].at {
      assert more[j] == ps[j] && more[k] == if k < |ps| then ps[k] else p;
    }
  }

  lemma MoreSpelled(taken: seq<Entry>, more: seq<Entry>, ps: seq<Piece>, p: Piece)
    requires PiecesOk(taken, ps) && more != [] && more[0].block.Assistant? && p.at == |taken|
    ensures Spell(taken + more, ps + [p]) == Spell(taken, ps) + more[0].block.markdown + p.gap
  {
    hide PiecesOk;
    SpellStays(taken, more, ps);
    LastSpelled(taken + more, ps, p);
  }

  lemma LastPiece(taken: seq<Entry>, more: seq<Entry>, p: Piece)
    requires more != [] && more[0].block.Assistant? && Visible(more[0], false) && p.at == |taken| && OnlySpace(p.gap)
    ensures PieceOk(taken + more, p) && (taken + more)[p.at] == more[0]
  {
  }

  lemma LastSpelled(taken: seq<Entry>, ps: seq<Piece>, p: Piece)
    requires p.at < |taken| && taken[p.at].block.Assistant?
    ensures Spell(taken, ps + [p]) == Spell(taken, ps) + taken[p.at].block.markdown + p.gap
  {
    assert (ps + [p])[..|ps + [p]| - 1] == ps;
  }

  /** The piece cut now. */
  function NewPiece(l: Log, c: Paragraphs.Cut): Piece
    requires c.head <= c.consumed
  {
    Piece(|l.r.taken|, c.consumed[|c.head|..])
  }

  lemma GapIsSpace(md: string)
    requires Paragraphs.CutOf(md).Some?
    ensures var c := Paragraphs.CutOf(md).value; c.head <= c.consumed && OnlySpace(c.consumed[|c.head|..])
  {
    Paragraphs.CutKeepsText(md);
    var c := Paragraphs.CutOf(md).value;
    hide Paragraphs.CutOf, IsWhitespace;
    var gap := c.consumed[|c.head|..];
    forall i | 0 <= i < |gap| ensures IsWhitespace(gap[i]) { assert gap[i] == c.consumed[|c.head| + i]; }
  }

  lemma CutPieces(l: Log, now: int)
    requires CutNow(l.r.s).Some?
    ensures var c, x := CutNow(l.r.s).value, l.r.s.entries[0].id;
            c.head <= c.consumed && Cuts(l, HistoryTaken) == l.cuts[x := Pieces(l, x) + [NewPiece(l, c)]] &&
            OnlySpace(NewPiece(l, c).gap)
  {
    GapIsSpace(l.r.s.entries[0].block.markdown);
    hide Paragraphs.CutOf, OnlySpace;
  }

  lemma CutBlock(l: Log, now: int)
    requires Sound(l.r) && CutNow(l.r.s).Some?
    ensures var e := l.r.s.entries[0];
            Replying(l.r.s, e.id) && Get(l.r.s.entries, e.id) == Some(e) &&
            (Get(l.r.taken, e.id).None? ==>
               BlockOf(Next(l.r, HistoryTaken, now), e.id) == Some(e.(block := Assistant(CutNow(l.r.s).value.tail))) &&
               Get(Next(l.r, HistoryTaken, now).taken, e.id).None?)
  {
    var s := l.r.s;
    GetAt(s.entries, 0);
    SplitPatch(s, s.entries[0], CutNow(s).value);
    hide Good, Once, TextOk, Get, Find, Step, Paragraphs.CutOf;
    TakenBlock(l.r, now, s.entries[0].id);
  }

  lemma CutTold(l: Log, now: int)
    requires Sound(l.r) && Told(l) && CutNow(l.r.s).Some?
    ensures ReplyTold(Noted(l, HistoryTaken, now), l.r.s.entries[0].id)
  {
    hide Good, Once, TextOk, All, Get, Find, Step, SplitLeading, Taken, Spell, PiecesOk, Apart, Paragraphs.CutOf, Cuts, Replying, PrintedOf;
    var m, c, e := Noted(l, HistoryTaken, now), CutNow(l.r.s).value, l.r.s.entries[0];
    CutBlock(l, now);
    InProgress(l, e.id);
    CutPieces(l, now);
    HeadTaken(l.r.s);
    CutText(l.r.s);
    HeadVisible(l.r.s);
    OneMorePiece(l.r.taken, Taken(l.r.s), Pieces(l, e.id), NewPiece(l, c));
    MoreSpelled(l.r.taken, Taken(l.r.s), Pieces(l, e.id), NewPiece(l, c));
    var front := Spell(l.r.taken, Pieces(l, e.id));
    assert c.head + NewPiece(l, c).gap == c.consumed;
    assert front + c.head + NewPiece(l, c).gap + c.tail == front + e.block.markdown;
  }

  lemma CutText(s: State)
    requires CutNow(s).Some?
    ensures s.entries[0].block.Assistant? && CutNow(s).value.consumed + CutNow(s).value.tail == s.entries[0].block.markdown
  {
    Paragraphs.CutKeepsText(s.entries[0].block.markdown);
  }

  lemma HeadVisible(s: State)
    requires CutNow(s).Some?
    ensures Visible(Entry(s.nextId, Assistant(CutNow(s).value.head), true), false)
  {
    Paragraphs.HeadShows(s.entries[0].block.markdown);
  }

  lemma PlaceIs(l: Log, x: nat, p: Piece, m: Log, y: nat, i: int)
    requires KeysOk(l) && (forall y :: y in l.r.received ==> PiecesOk(l.r.taken, Pieces(l, y)))
    requires m.cuts == l.cuts[x := Pieces(l, x) + [p]] && 0 <= i < |Pieces(m, y)|
    ensures if y == x && i == |Pieces(l, x)| then Pieces(m, y)[i] == p
            else i < |Pieces(l, y)| && Pieces(m, y)[i] == Pieces(l, y)[i] && Pieces(l, y)[i].at < |l.r.taken|
  {
    if i < |Pieces(l, y)| { assert y in l.cuts; }
  }

  lemma NoShare(l: Log, y: nat, i: int, z: nat, j: int)
    requires Apart(l) && SharePlace(l, y, i, z, j)
    ensures y == z && i == j
  {
  }

  lemma NewPieceApart(l: Log, x: nat, p: Piece, m: Log)
    requires KeysOk(l) && Apart(l) && (forall y :: y in l.r.received ==> PiecesOk(l.r.taken, Pieces(l, y)))
    requires p.at == |l.r.taken| && m.cuts == l.cuts[x := Pieces(l, x) + [p]]
    ensures Apart(m)
  {
    forall y: nat, z: nat, i, j | SharePlace(m, y, i, z, j) ensures y == z && i == j {
      PlaceIs(l, x, p, m, y, i);
      PlaceIs(l, x, p, m, z, j);
      hide PiecesOk;
      if !(y == x && i == |Pieces(l, x)|) && !(z == x && j == |Pieces(l, x)|) { NoShare(l, y, i, z, j); }
    }
  }

  lemma TakeTold(l: Log, now: int)
    requires Sound(l.r) && Told(l)
    ensures Told(Noted(l, HistoryTaken, now))
  {
    hide Good, Once, TextOk, All, Get, Step, Apart, Paragraphs.CutOf, Taken, Replying, BlockTold, InOrder, PiecesOk;
    var m := Noted(l, HistoryTaken, now);
    IdsGrow(l.r, HistoryTaken, now);
    forall y | y in l.r.received ensures PiecesOk(l.r.taken, Pieces(l, y)) { assert ReplyTold(l, y); }
    hide ReplyTold;
    if CutNow(l.r.s).Some? {
      CutPieces(l, now);
      NewPieceApart(l, l.r.s.entries[0].id, NewPiece(l, CutNow(l.r.s).value), m);
      CutBlock(l, now);
      InProgress(l, l.r.s.entries[0].id);
      CutTold(l, now);
    } else {
      SameApart(l, m);
    }
    forall x | x in m.r.received && (CutNow(l.r.s).Some? ==> x != l.r.s.entries[0].id) ensures ReplyTold(m, x) {
      UncutTold(l, now, x);
    }
  }

  // ----- every run -------------------------------------------------------------------------------------

  lemma NotedTold(l: Log, e: Event, now: int)
    requires Sound(l.r) && Told(l)
    ensures Told(Noted(l, e, now))
  {
    hide Sound, Told, Noted;
    match e
    case StreamStarted(sid) => StreamTold(l, sid, now);
    case TokenDelta(sid, token) => TokenTold(l, sid, token, now);
    case MessageCompleted(sid, text) => MessageTold(l, sid, text, now);
    case Cleared => ClearTold(l, now);
    case HistoryTaken => TakeTold(l, now);
    case _ => OtherTold(l, e, now);
  }

  /** Over every run each reply has its text in its blocks: the paragraphs printed early, with the
      white space dropped behind each, and then its own block are the tokens received, or the
      final text up to newlines; all of them are visible, in order, and no block is a piece of two
      replies.  Only the user can clear the block away. */
  lemma {:induction false} EveryReplyIsTold(events: seq<Timed>)
    requires Legal(events)
    ensures Told(LogOf(events)) && Sound(LogOf(events).r) && LogOf(events).r == RunFrom(BEGIN, events)
  {
    LogIsRun(events);
    if events == [] {
      BeginIsSound();
    } else {
      var init, e := events[..|events| - 1], events[|events| - 1];
      EveryReplyIsTold(init);
      hide Sound, Told, Noted;
      NotedTold(LogOf(init), e.event, e.now);
      EveryRunIsSound(events);
    }
  }

  lemma LastTake(l: Log, now: int)
    requires AtRest(l.r.s)
    ensures var m := Noted(l, HistoryTaken, now);
            m.r.s.entries == [] && m.r.received == l.r.received && m.cleared == l.cleared && m.finals == l.finals
  {
    RestIsAllTaken(l.r.s);
    hide AtRest, TakeHistory, Taken;
  }

  lemma PrintedTold(m: Log, x: nat)
    requires ReplyTold(m, x) && m.r.s.entries == [] && x !in m.cleared
    ensures IsText(Get(m.r.taken, x)) && PiecesOk(m.r.taken, Pieces(m, x)) && InOrder(m.r.taken, Pieces(m, x), x)
    ensures Whole(Spell(m.r.taken, Pieces(m, x)), Get(m.r.taken, x).value.block.markdown, TextOf(m.r.received, x), FinalOf(m, x))
  {
    assert BlockOf(m.r, x) == Get(m.r.taken, x);
    hide Get, Find, Spell, PiecesOk, InOrder, Whole, TextOf, All;
  }

  /** When the turn is over and its blocks are printed, every reply not cleared away is in
      scrollback whole, behind its pieces. */
  lemma AllReachesScrollback(events: seq<Timed>, now: int, x: nat)
    requires Legal(events) && AtRest(LogOf(events).r.s)
    ensures var l := LogOf(events);
            var m := Noted(l, HistoryTaken, now);
            x in l.r.received && x !in l.cleared ==>
              IsText(Get(m.r.taken, x)) && PiecesOk(m.r.taken, Pieces(m, x)) && InOrder(m.r.taken, Pieces(m, x), x) &&
              Whole(Spell(m.r.taken, Pieces(m, x)), Get(m.r.taken, x).value.block.markdown, TextOf(l.r.received, x), FinalOf(l, x))
  {
    hide Sound, LogOf, AtRest, Noted, Get, Spell, PiecesOk, InOrder, Whole, Apart, KeysOk, ReplyTold, TextOf, FinalOf;
    var l := LogOf(events);
    var m := Noted(l, HistoryTaken, now);
    EveryReplyIsTold(events);
    NotedTold(l, HistoryTaken, now);
    LastTake(l, now);
    if x in l.r.received && x !in l.cleared {
      PrintedTold(m, x);
      assert TextOf(m.r.received, x) == TextOf(l.r.received, x);
      SameFinal(l, m, x);
    }
  }

  lemma SameFinal(l: Log, m: Log, x: nat)
    requires m.finals == l.finals
    ensures FinalOf(m, x) == FinalOf(l, x)
  {
  }
}
