/** Turn, stream and tool handles of the Node SDK (sdk/node/src/lifecycle.js): handles that settle
    themselves, and turns that settle what was opened under them.

    A turn's state is a value here and every call a function on it; the classes in Handles.dfy
    keep it in objects and are proved to follow these functions.  Sending is appending to the
    wire. */
module Lifecycle {
  import opened Styles

  // ----- tool statuses -------------------------------------------------------------------

  datatype ToolStatus = Done | Error | Cancelled | Rejected

  /** Lower case, for the characters whose lower case is an ASCII letter of its own. */
  function Lower(c: char): char {
    if 'A' <= c <= 'Z' then c + ('a' - 'A') else if c == '\U{212A}' then 'k' else c
  }

  function LowerAll(s: string): string { seq(|s|, k requires 0 <= k < |s| => Lower(s[k])) }

  /** None when the status is unknown, which throws. */
  function Normalize(status: Option<string>): Option<ToolStatus> {
    if status.None? then Some(Done)
    else
      var s := LowerAll(status.value);
      if s == "ok" || s == "done" then Some(Done)
      else if s == "error" || s == "failed" then Some(Error)
      else if s == "cancelled" || s == "canceled" then Some(Cancelled)
      else if s == "rejected" then Some(Rejected)
      else None
  }

  function NameOf(s: ToolStatus): string {
    match s
    case Done => "done"
    case Error => "error"
    case Cancelled => "cancelled"
    case Rejected => "rejected"
  }

  /** A status once normalized is a host status with the same meaning, so settling the tools of a
      turn with it cannot throw half way. */
  lemma NormalizedIsFixed(status: Option<string>)
    requires Normalize(status).Some?
    ensures Normalize(Some(NameOf(Normalize(status).value))) == Normalize(status)
  {
    var n := NameOf(Normalize(status).value);
    assert LowerAll(n) == n;
  }

  lemma NamesAreFixed(status: ToolStatus)
    ensures Normalize(Some(NameOf(status))) == Some(status)
  {
    assert LowerAll(NameOf(status)) == NameOf(status);
  }

  // ----- a turn ----------------------------------------------------------------------------

  datatype HandleState = HandleState(isStream: bool, id: string, open: bool)

  datatype What =
    | Started(isStream: bool, id: string)
    | Delta(isStream: bool, id: string, chunk: string)
    | StreamDone(id: string, text: Option<string>)
    | ToolDone(id: string, status: ToolStatus, exitCode: int)
    | Requested(request: string)
    | PhaseSet(phase: string)

  /** What was sent, and by which handle of the turn. */
  datatype Sent = Sent(handle: Option<nat>, what: What)

  datatype Choice = AllowOnce | AllowSession | Deny

  /** A permission asked for: its id and, once resolved, the answers its promise was given. */
  datatype PromiseState = PromiseState(request: string, answers: seq<Choice>)

  /** `pending` maps request ids to promises, in the order in which the ids were put in. */
  datatype TurnState = TurnState(handles: seq<HandleState>, promises: seq<PromiseState>, pending: seq<(string, nat)>, ended: bool,
                       settleStatus: ToolStatus, wire: seq<Sent>)

  function Sending(t: TurnState, h: Option<nat>, what: What): TurnState { t.(wire := t.wire + [Sent(h, what)]) }

  function OpenHandle(t: TurnState, isStream: bool, id: string): TurnState {
    Sending(t.(handles := t.handles + [HandleState(isStream, id, true)]), Some(|t.handles|), Started(isStream, id))
  }

  /** A delta of a closed handle is dropped. */
  function Write(t: TurnState, h: nat, chunk: string): TurnState
    requires h < |t.handles|
  {
    if t.handles[h].open then Sending(t, Some(h), Delta(t.handles[h].isStream, t.handles[h].id, chunk)) else t
  }

  function Shut(t: TurnState, h: nat, what: What): TurnState
    requires h < |t.handles|
  {
    if t.handles[h].open then Sending(t.(handles := t.handles[h := t.handles[h].(open := false)]), Some(h), what) else t
  }

  function EndStream(t: TurnState, h: nat, text: Option<string>): TurnState
    requires h < |t.handles|
  {
    Shut(t, h, StreamDone(t.handles[h].id, text))
  }

  function ExitCode(status: ToolStatus, exit: Option<int>): int {
    if exit.Some? then exit.value else if status == Error then 1 else 0
  }

  /** An unknown status throws and leaves the tool open. */
  function FinishTool(t: TurnState, h: nat, status: Option<string>, exit: Option<int>): TurnState
    requires h < |t.handles|
  {
    if Normalize(status).None? then t
    else Shut(t, h, ToolDone(t.handles[h].id, Normalize(status).value, ExitCode(Normalize(status).value, exit)))
  }

  // ----- permissions -------------------------------------------------------------------------

  function Key(pending: seq<(string, nat)>, request: string): (r: Option<nat>)
    ensures r.Some? ==> r.value < |pending| && pending[r.value].0 == request
    ensures r.None? ==> forall k :: 0 <= k < |pending| ==> pending[k].0 != request
  {
    if pending == [] then None
    else if pending[0].0 == request then Some(0)
    else
      var r := Key(pending[1..], request);
      if r.Some? then Some(r.value + 1) else None
  }

  /** An id already there keeps its place and gets the new promise. */
  function Put(pending: seq<(string, nat)>, request: string, p: nat): seq<(string, nat)> {
    var k := Key(pending, request);
    if k.Some? then pending[k.value := (request, p)] else pending + [(request, p)]
  }

  function Drop(pending: seq<(string, nat)>, request: string): seq<(string, nat)> {
    var k := Key(pending, request);
    if k.Some? then pending[..k.value] + pending[k.value + 1..] else pending
  }

  function Ask(t: TurnState, request: string): TurnState {
    Sending(t.(promises := t.promises + [PromiseState(request, [])], pending := Put(t.pending, request, |t.promises|)),
            None, Requested(request))
  }

  /** Only the first answer resolves the promise. */
  function Resolve(t: TurnState, p: nat, choice: Choice): TurnState {
    if p < |t.promises| && t.promises[p].answers == [] then
      t.(promises := t.promises[p := t.promises[p].(answers := [choice])], pending := Drop(t.pending, t.promises[p].request))
    else t
  }

  function DenyAll(t: TurnState, ps: seq<(string, nat)>): TurnState {
    if ps == [] then t else Resolve(DenyAll(t, ps[..|ps| - 1]), ps[|ps| - 1].1, Deny)
  }

  // ----- the end of a turn ---------------------------------------------------------------------

  /** The open handles, oldest first. */
  function OpenOf(hs: seq<HandleState>): (r: seq<nat>)
    ensures forall k :: 0 <= k < |r| ==> r[k] < |hs| && hs[r[k]].open
  {
    if hs == [] then []
    else
      var init, n := OpenOf(hs[..|hs| - 1]), |hs| - 1;
      if hs[n].open then init + [n] else init
  }

  lemma {:induction false} OpenOfAll(hs: seq<HandleState>)
    ensures forall h :: 0 <= h < |hs| && hs[h].open ==> h in OpenOf(hs)
  {
    if hs != [] { OpenOfAll(hs[..|hs| - 1]); }
  }

  function Settled(t: TurnState, h: nat, status: ToolStatus): TurnState
    requires h < |t.handles|
  {
    if t.handles[h].isStream then EndStream(t, h, None) else FinishTool(t, h, Some(NameOf(status)), None)
  }

  function SettleAll(t: TurnState, hs: seq<nat>, status: ToolStatus): (r: TurnState)
    requires forall k :: 0 <= k < |hs| ==> hs[k] < |t.handles|
    ensures |r.handles| == |t.handles|
  {
    if hs == [] then t else Settled(SettleAll(t, hs[..|hs| - 1], status), hs[|hs| - 1], status)
  }

  function StatusFor(t: TurnState, toolStatus: Option<string>): Option<ToolStatus> {
    if toolStatus.Some? then Normalize(toolStatus) else Some(t.settleStatus)
  }

  /** Everything open is settled; an unknown status throws before anything is changed. */
  function End(t: TurnState, toolStatus: Option<string>, phase: Option<string>): TurnState {
    if t.ended || StatusFor(t, toolStatus).None? then t
    else
      var a := SettleAll(t.(ended := true), OpenOf(t.handles), StatusFor(t, toolStatus).value);
      var b := DenyAll(a, a.pending).(pending := []);
      if phase.Some? then Sending(b, None, PhaseSet(phase.value)) else b
  }

  // ----- runs ------------------------------------------------------------------------------------

  datatype Call =
    | StreamOpened(id: string)
    | ToolOpened(id: string)
    | Wrote(h: nat, chunk: string)
    | StreamEnded(h: nat, text: Option<string>)
    | ToolFinished(h: nat, status: Option<string>, exit: Option<int>)
    | PermissionAsked(request: string)
    | Answered(p: nat, choice: Choice)
    | TurnEnded(toolStatus: Option<string>, phase: Option<string>)

  /** A call on a handle that does not exist, or of the other kind, is not one; opening anything
      under an ended turn throws. */
  function Step(t: TurnState, c: Call): TurnState {
    match c
    case StreamOpened(id) => if t.ended then t else OpenHandle(t, true, id)
    case ToolOpened(id) => if t.ended then t else OpenHandle(t, false, id)
    case Wrote(h, chunk) => if h < |t.handles| then Write(t, h, chunk) else t
    case StreamEnded(h, text) => if h < |t.handles| && t.handles[h].isStream then EndStream(t, h, text) else t
    case ToolFinished(h, status, exit) => if h < |t.handles| && !t.handles[h].isStream then FinishTool(t, h, status, exit) else t
    case PermissionAsked(request) => if t.ended then t else Ask(t, request)
    case Answered(p, choice) => Resolve(t, p, choice)
    case TurnEnded(toolStatus, phase) => End(t, toolStatus, phase)
  }

  function NewTurn(status: ToolStatus): TurnState { TurnState([], [], [], false, status, []) }

  function Run(status: ToolStatus, calls: seq<Call>): TurnState {
    if calls == [] then NewTurn(status) else Step(Run(status, calls[..|calls| - 1]), calls[|calls| - 1])
  }

  // ----- what the wire shows of one handle -----------------------------------------------------

  function Of(wire: seq<Sent>, h: nat): seq<What> {
    if wire == [] then []
    else
      var init, s := Of(wire[..|wire| - 1], h), wire[|wire| - 1];
      if s.handle == Some(h) then init + [s.what] else init
  }

  predicate Finishes(w: What, isStream: bool) { if isStream then w.StreamDone? else w.ToolDone? }

  /** A start, deltas, and one finish at the end once the handle is closed. */
  ghost predicate Bracketed(l: seq<What>, h: HandleState) {
    l != [] && l[0] == Started(h.isStream, h.id) &&
    if h.open then forall k :: 1 <= k < |l| ==> l[k].Delta?
    else |l| >= 2 && Finishes(l[|l| - 1], h.isStream) && forall k :: 1 <= k < |l| - 1 ==> l[k].Delta?
  }

  ghost predicate WireOk(t: TurnState) {
    (forall h :: 0 <= h < |t.handles| ==> Bracketed(Of(t.wire, h), t.handles[h])) &&
    (forall k :: 0 <= k < |t.wire| && t.wire[k].handle.Some? ==> t.wire[k].handle.value < |t.handles|) &&
    (t.ended ==> forall h :: 0 <= h < |t.handles| ==> !t.handles[h].open)
  }

  lemma OfMore(wire: seq<Sent>, s: Sent, h: nat)
    ensures Of(wire + [s], h) == Of(wire, h) + if s.handle == Some(h) then [s.what] else []
  {
    assert (wire + [s])[..|wire|] == wire;
  }

  lemma {:induction false} OfNew(wire: seq<Sent>, n: nat)
    requires forall k :: 0 <= k < |wire| && wire[k].handle.Some? ==> wire[k].handle.value < n
    ensures Of(wire, n) == []
  {
    if wire != [] { OfNew(wire[..|wire| - 1], n); }
  }

  lemma OpenWire(t: TurnState, isStream: bool, id: string)
    requires WireOk(t) && !t.ended
    ensures WireOk(OpenHandle(t, isStream, id))
  {
    var o, n, s := OpenHandle(t, isStream, id), |t.handles|, Sent(Some(|t.handles|), Started(isStream, id));
    OfNew(t.wire, n);
    forall h | 0 <= h < |o.handles| ensures Bracketed(Of(o.wire, h), o.handles[h]) { OfMore(t.wire, s, h); }
  }

  lemma WriteWire(t: TurnState, h: nat, chunk: string)
    requires WireOk(t) && h < |t.handles|
    ensures WireOk(Write(t, h, chunk))
  {
    var w := Write(t, h, chunk);
    forall i | 0 <= i < |t.handles| ensures Bracketed(Of(w.wire, i), w.handles[i]) {
      OfMore(t.wire, Sent(Some(h), Delta(t.handles[h].isStream, t.handles[h].id, chunk)), i);
    }
  }

  ghost predicate Links(t: TurnState) {
    (forall h :: 0 <= h < |t.handles| ==> Bracketed(Of(t.wire, h), t.handles[h])) &&
    (forall k :: 0 <= k < |t.wire| && t.wire[k].handle.Some? ==> t.wire[k].handle.value < |t.handles|)
  }

  lemma ShutWire(t: TurnState, h: nat, what: What)
    requires Links(t) && h < |t.handles| && Finishes(what, t.handles[h].isStream)
    ensures Links(Shut(t, h, what)) && !Shut(t, h, what).handles[h].open
    ensures forall i :: 0 <= i < |t.handles| && i != h ==> Shut(t, h, what).handles[i] == t.handles[i]
  {
    var s := Shut(t, h, what);
    forall i | 0 <= i < |t.handles| ensures Bracketed(Of(s.wire, i), s.handles[i]) {
      OfMore(t.wire, Sent(Some(h), what), i);
    }
  }

  lemma SettledWire(t: TurnState, h: nat, status: ToolStatus)
    requires Links(t) && h < |t.handles|
    ensures var s := Settled(t, h, status);
            Links(s) && |s.handles| == |t.handles| && !s.handles[h].open &&
            s.promises == t.promises && s.pending == t.pending && s.ended == t.ended
    ensures forall i :: 0 <= i < |t.handles| && i != h ==> Settled(t, h, status).handles[i] == t.handles[i]
  {
    NamesAreFixed(status);
    hide Links, Normalize, NameOf;
    ShutWire(t, h, if t.handles[h].isStream then StreamDone(t.handles[h].id, None)
                   else ToolDone(t.handles[h].id, status, ExitCode(status, None)));
  }

  lemma {:induction false} SettleAllWire(t: TurnState, hs: seq<nat>, status: ToolStatus)
    requires Links(t) && forall k :: 0 <= k < |hs| ==> hs[k] < |t.handles|
    ensures var s := SettleAll(t, hs, status);
            Links(s) && s.promises == t.promises && s.pending == t.pending && s.ended == t.ended &&
            forall i :: 0 <= i < |t.handles| ==> s.handles[i].open == (t.handles[i].open && i !in hs)
  {
    hide Links, Settled;
    if hs != [] {
      var init, h := hs[..|hs| - 1], hs[|hs| - 1];
      SettleAllWire(t, init, status);
      SettledWire(SettleAll(t, init, status), h, status);
      assert hs == init + [h];
      assert SettleAll(t, hs, status) == Settled(SettleAll(t, init, status), h, status);
      hide SettleAll;
      forall i | 0 <= i < |t.handles|
        ensures Settled(SettleAll(t, init, status), h, status).handles[i].open == (t.handles[i].open && i !in hs)
      {
        assert i in hs <==> i in init || i == h;
      }
    }
  }

  /** Promises and pending requests are no business of the wire's handles. */
  lemma {:induction false} DenyAllWire(t: TurnState, ps: seq<(string, nat)>)
    ensures DenyAll(t, ps).handles == t.handles && DenyAll(t, ps).wire == t.wire && DenyAll(t, ps).ended == t.ended
  {
    if ps != [] { DenyAllWire(t, ps[..|ps| - 1]); }
  }

  lemma ShowWire(t: TurnState, what: What)
    requires WireOk(t)
    ensures WireOk(Sending(t, None, what))
  {
    var s := Sending(t, None, what);
    forall h | 0 <= h < |t.handles| ensures Bracketed(Of(s.wire, h), s.handles[h]) { OfMore(t.wire, Sent(None, what), h); }
  }

  lemma EndWire(t: TurnState, toolStatus: Option<string>, phase: Option<string>)
    requires WireOk(t)
    ensures WireOk(End(t, toolStatus, phase))
  {
    if !t.ended && StatusFor(t, toolStatus).Some? {
      var status := StatusFor(t, toolStatus).value;
      var a := SettleAll(t.(ended := true), OpenOf(t.handles), status);
      SettleAllWire(t.(ended := true), OpenOf(t.handles), status);
      OpenOfAll(t.handles);
      DenyAllWire(a, a.pending);
      var b := DenyAll(a, a.pending).(pending := []);
      assert WireOk(b);
      hide WireOk, SettleAll, DenyAll;
      if phase.Some? { ShowWire(b, PhaseSet(phase.value)); }
    }
  }

  lemma StepWire(t: TurnState, c: Call)
    requires WireOk(t)
    ensures WireOk(Step(t, c))
  {
    match c
    case StreamOpened(id) => if !t.ended { OpenWire(t, true, id); }
    case ToolOpened(id) => if !t.ended { OpenWire(t, false, id); }
    case Wrote(h, chunk) => if h < |t.handles| { WriteWire(t, h, chunk); }
    case StreamEnded(h, text) => if h < |t.handles| && t.handles[h].isStream { ShutWire(t, h, StreamDone(t.handles[h].id, text)); }
    case ToolFinished(h, status, exit) =>
      if h < |t.handles| && !t.handles[h].isStream && Normalize(status).Some? {
        ShutWire(t, h, ToolDone(t.handles[h].id, Normalize(status).value, ExitCode(Normalize(status).value, exit)));
      }
    case PermissionAsked(request) =>
      if !t.ended {
        var a := t.(promises := t.promises + [PromiseState(request, [])], pending := Put(t.pending, request, |t.promises|));
        assert WireOk(a);
        ShowWire(a, Requested(request));
      }
    case Answered(p, choice) =>
    case TurnEnded(toolStatus, phase) => EndWire(t, toolStatus, phase);
  }

  /** On every run each handle's messages are a start, deltas, and at most one finish, after which
      nothing; once the turn has ended every handle has its finish. */
  lemma {:induction false} EveryRunIsBracketed(status: ToolStatus, calls: seq<Call>)
    ensures WireOk(Run(status, calls))
  {
    if calls != [] {
      EveryRunIsBracketed(status, calls[..|calls| - 1]);
      StepWire(Run(status, calls[..|calls| - 1]), calls[|calls| - 1]);
    }
  }

  // ----- what the wire shows of one id -------------------------------------------------------

  /** The stream or tool a message is about, by kind and id: the handle itself is not sent. */
  function Subject(w: What): Option<(bool, string)> {
    match w
    case Started(isStream, id) => Some((isStream, id))
    case Delta(isStream, id, _) => Some((isStream, id))
    case StreamDone(id, _) => Some((true, id))
    case ToolDone(id, _, _) => Some((false, id))
    case _ => None
  }

  function NameIn(t: TurnState, h: nat): (bool, string)
    requires h < |t.handles|
  {
    (t.handles[h].isStream, t.handles[h].id)
  }

  function About(wire: seq<Sent>, name: (bool, string)): seq<What> {
    if wire == [] then []
    else
      var init, s := About(wire[..|wire| - 1], name), wire[|wire| - 1];
      if Subject(s.what) == Some(name) then init + [s.what] else init
  }

  /** Messages are named after their handle. */
  ghost predicate Named(t: TurnState) {
    forall k :: 0 <= k < |t.wire| ==>
      match t.wire[k].handle
      case None => Subject(t.wire[k].what) == None
      case Some(h) => h < |t.handles| && Subject(t.wire[k].what) == Some(NameIn(t, h))
  }

  /** The same handles, open or closed. */
  ghost predicate SameNames(t: TurnState, u: TurnState) {
    |t.handles| == |u.handles| && forall h :: 0 <= h < |t.handles| ==> NameIn(u, h) == NameIn(t, h)
  }

  lemma SendNamed(t: TurnState, u: TurnState, s: Sent)
    requires Named(t) && SameNames(t, u) && u.wire == t.wire + [s]
    requires match s.handle
             case None => Subject(s.what) == None
             case Some(h) => h < |t.handles| && Subject(s.what) == Some(NameIn(t, h))
    ensures Named(u)
  {
  }

  lemma ShutNamed(t: TurnState, h: nat, what: What)
    requires Named(t) && h < |t.handles| && Subject(what) == Some(NameIn(t, h))
    ensures Named(Shut(t, h, what)) && SameNames(t, Shut(t, h, what))
  {
    if t.handles[h].open { SendNamed(t, Shut(t, h, what), Sent(Some(h), what)); }
  }

  lemma SettledNamed(t: TurnState, h: nat, status: ToolStatus)
    requires Named(t) && h < |t.handles|
    ensures Named(Settled(t, h, status)) && SameNames(t, Settled(t, h, status))
  {
    NamesAreFixed(status);
    hide Named, Normalize, NameOf;
    ShutNamed(t, h, if t.handles[h].isStream then StreamDone(t.handles[h].id, None)
                    else ToolDone(t.handles[h].id, status, ExitCode(status, None)));
  }

  lemma {:induction false} SettleAllNamed(t: TurnState, hs: seq<nat>, status: ToolStatus)
    requires Named(t) && forall k :: 0 <= k < |hs| ==> hs[k] < |t.handles|
    ensures Named(SettleAll(t, hs, status)) && SameNames(t, SettleAll(t, hs, status))
  {
    if hs != [] {
      SettleAllNamed(t, hs[..|hs| - 1], status);
      hide Named;
      SettledNamed(SettleAll(t, hs[..|hs| - 1], status), hs[|hs| - 1], status);
    }
  }

  lemma EndNamed(t: TurnState, toolStatus: Option<string>, phase: Option<string>)
    requires Named(t)
    ensures Named(End(t, toolStatus, phase))
  {
    if !t.ended && StatusFor(t, toolStatus).Some? {
      var status := StatusFor(t, toolStatus).value;
      var a := SettleAll(t.(ended := true), OpenOf(t.handles), status);
      SettleAllNamed(t.(ended := true), OpenOf(t.handles), status);
      DenyAllWire(a, a.pending);
      var b := DenyAll(a, a.pending).(pending := []);
      assert Named(b);
      hide SettleAll, DenyAll, OpenOf;
      if phase.Some? { SendNamed(b, Sending(b, None, PhaseSet(phase.value)), Sent(None, PhaseSet(phase.value))); }
    }
  }

  lemma StepNamed(t: TurnState, c: Call)
    requires Named(t)
    ensures Named(Step(t, c))
  {
    match c
    case StreamOpened(id) =>
    case ToolOpened(id) =>
    case Wrote(h, chunk) =>
    case StreamEnded(h, text) => if h < |t.handles| && t.handles[h].isStream { ShutNamed(t, h, StreamDone(t.handles[h].id, text)); }
    case ToolFinished(h, status, exit) =>
      if h < |t.handles| && !t.handles[h].isStream && Normalize(status).Some? {
        ShutNamed(t, h, ToolDone(t.handles[h].id, Normalize(status).value, ExitCode(Normalize(status).value, exit)));
      }
    case PermissionAsked(request) =>
    case Answered(p, choice) =>
    case TurnEnded(toolStatus, phase) => EndNamed(t, toolStatus, phase);
  }

  lemma {:induction false} EveryRunIsNamed(status: ToolStatus, calls: seq<Call>)
    ensures Named(Run(status, calls))
  {
    if calls != [] {
      EveryRunIsNamed(status, calls[..|calls| - 1]);
      StepNamed(Run(status, calls[..|calls| - 1]), calls[|calls| - 1]);
    }
  }

  /** No two streams and no two tools of the turn have one id. */
  ghost predicate NoIdReused(t: TurnState) {
    forall i, j :: 0 <= i < j < |t.handles| ==> NameIn(t, i) != NameIn(t, j)
  }

  /** What the wire says of each id is bracketed: one start, deltas, and one finish at the end once
      its handle is closed. */
  ghost predicate BracketedById(t: TurnState) {
    forall h :: 0 <= h < |t.handles| ==> Bracketed(About(t.wire, NameIn(t, h)), t.handles[h])
  }

  lemma {:induction false} AboutIsOf(t: TurnState, wire: seq<Sent>, h: nat)
    requires NoIdReused(t) && h < |t.handles|
    requires forall k :: 0 <= k < |wire| ==>
               match wire[k].handle
               case None => Subject(wire[k].what) == None
               case Some(i) => i < |t.handles| && Subject(wire[k].what) == Some(NameIn(t, i))
    ensures About(wire, NameIn(t, h)) == Of(wire, h)
  {
    if wire != [] {
      AboutIsOf(t, wire[..|wire| - 1], h);
      var s := wire[|wire| - 1];
      if s.handle.Some? && s.handle.value != h {
        assert NameIn(t, if h < s.handle.value then h else s.handle.value) != NameIn(t, if h < s.handle.value then s.handle.value else h);
      }
    }
  }

  /** Two messages about one name are there, in order. */
  lemma {:induction false} AboutKeeps(wire: seq<Sent>, name: (bool, string), a: nat) returns (i: nat)
    requires a < |wire| && Subject(wire[a].what) == Some(name)
    ensures i < |About(wire, name)| && About(wire, name)[i] == wire[a].what && i == |About(wire[..a], name)|
  {
    var n := |wire| - 1;
    if a == n {
      i := |About(wire[..n], name)|;
    } else {
      i := AboutKeeps(wire[..n], name, a);
      assert wire[..n][..a] == wire[..a];
    }
  }

  lemma {:induction false} AboutGrows(wire: seq<Sent>, name: (bool, string), a: nat, b: nat)
    requires a < b <= |wire| && Subject(wire[a].what) == Some(name)
    ensures |About(wire[..a], name)| < |About(wire[..b], name)|
  {
    assert wire[..b][..a] == wire[..a];
    var i := AboutKeeps(wire[..b], name, a);
  }

  lemma {:induction false} StartIsThere(wire: seq<Sent>, h: nat) returns (a: nat)
    requires Of(wire, h) != []
    ensures a < |wire| && wire[a].handle == Some(h) && wire[a].what == Of(wire, h)[0]
  {
    var n := |wire| - 1;
    if Of(wire[..n], h) == [] { a := n; } else { a := StartIsThere(wire[..n], h); }
  }

  lemma StartsAt(t: TurnState, h: nat)
    requires WireOk(t) && h < |t.handles|
    ensures Of(t.wire, h) != [] && Of(t.wire, h)[0] == Started(t.handles[h].isStream, t.handles[h].id)
  {
    assert Bracketed(Of(t.wire, h), t.handles[h]);
  }

  lemma OneStart(l: seq<What>, h: HandleState, k: nat)
    requires 1 <= k < |l| && l[k].Started?
    ensures !Bracketed(l, h)
  {
  }

  /** On every run the messages of each id are bracketed exactly when no id is used twice. */
  lemma IdsAreBracketedIff(status: ToolStatus, calls: seq<Call>)
    ensures BracketedById(Run(status, calls)) <==> NoIdReused(Run(status, calls))
  {
    var t := Run(status, calls);
    EveryRunIsBracketed(status, calls);
    EveryRunIsNamed(status, calls);
    hide Run;
    if NoIdReused(t) {
      forall h | 0 <= h < |t.handles| ensures Bracketed(About(t.wire, NameIn(t, h)), t.handles[h]) { AboutIsOf(t, t.wire, h); }
    } else {
      var i, j :| 0 <= i < j < |t.handles| && NameIn(t, i) == NameIn(t, j);
      TwoStarts(t, i, j);
    }
  }

  lemma TwoStarts(t: TurnState, i: nat, j: nat)
    requires WireOk(t) && i < j < |t.handles| && NameIn(t, i) == NameIn(t, j)
    ensures !Bracketed(About(t.wire, NameIn(t, i)), t.handles[i])
  {
    hide WireOk, Of, About, Bracketed;
    StartsAt(t, i);
    StartsAt(t, j);
    var name := NameIn(t, i);
    var a := StartIsThere(t.wire, i);
    var b := StartIsThere(t.wire, j);
    var p := AboutKeeps(t.wire, name, a);
    var q := AboutKeeps(t.wire, name, b);
    if a < b { AboutGrows(t.wire, name, a, b); } else { AboutGrows(t.wire, name, b, a); }
    OneStart(About(t.wire, name), t.handles[i], if p < q then q else p);
  }

  // ----- promises --------------------------------------------------------------------------

  /** What is pending is unanswered, under its own id; no promise is answered twice. */
  ghost predicate PromisesOk(t: TurnState) {
    (forall i, j :: 0 <= i < j < |t.pending| ==> t.pending[i].0 != t.pending[j].0) &&
    (forall k :: 0 <= k < |t.pending| ==>
      var (r, p) := t.pending[k]; p < |t.promises| && t.promises[p] == PromiseState(r, [])) &&
    (forall p :: 0 <= p < |t.promises| ==> |t.promises[p].answers| <= 1) &&
    (t.ended ==> t.pending == [])
  }

  ghost predicate IsPending(t: TurnState, p: nat) { exists k :: 0 <= k < |t.pending| && t.pending[k].1 == p }

  /** Every promise not answered is pending: the end of the turn will find it. */
  ghost predicate NoneLost(t: TurnState) {
    forall p: nat :: p < |t.promises| && t.promises[p].answers == [] ==> IsPending(t, p)
  }

  ghost predicate AllAnsweredOnce(t: TurnState) { forall p :: 0 <= p < |t.promises| ==> |t.promises[p].answers| == 1 }

  lemma Dropped(pending: seq<(string, nat)>, request: string)
    requires forall i, j :: 0 <= i < j < |pending| ==> pending[i].0 != pending[j].0
    ensures var d := Drop(pending, request);
            (forall i, j :: 0 <= i < j < |d| ==> d[i].0 != d[j].0) &&
            (forall k :: 0 <= k < |d| ==> d[k] in pending && d[k].0 != request) && (|d| > 0 ==> pending != [])
  {
    var d, key := Drop(pending, request), Key(pending, request);
    forall k | 0 <= k < |d| ensures d[k] == pending[if key.Some? && k >= key.value then k + 1 else k] {}
    hide Drop, Key;
  }

  lemma AskOk(t: TurnState, request: string)
    requires PromisesOk(t) && !t.ended
    ensures PromisesOk(Ask(t, request))
    ensures Key(t.pending, request).None? && NoneLost(t) ==> NoneLost(Ask(t, request))
  {
    var a, n := Ask(t, request), |t.promises|;
    if Key(t.pending, request).None? && NoneLost(t) {
      assert a.pending[|t.pending|].1 == n;
      forall p: nat | p < |a.promises| && a.promises[p].answers == [] ensures IsPending(a, p) {
        if p < n {
          assert IsPending(t, p);
          var k :| 0 <= k < |t.pending| && t.pending[k].1 == p;
          assert a.pending[k].1 == p;
        }
      }
    }
  }

  lemma ResolveOk(t: TurnState, p: nat, choice: Choice)
    requires PromisesOk(t)
    ensures PromisesOk(Resolve(t, p, choice))
  {
    if p < |t.promises| && t.promises[p].answers == [] {
      var a, request := Resolve(t, p, choice), t.promises[p].request;
      Dropped(t.pending, request);
      assert a.pending == Drop(t.pending, request);
      assert a.promises == t.promises[p := t.promises[p].(answers := [choice])];
      hide Drop, Resolve;
      forall k | 0 <= k < |a.pending|
        ensures var (r, q) := a.pending[k]; q < |a.promises| && a.promises[q] == PromiseState(r, [])
      {
        assert a.pending[k] in t.pending && a.pending[k].0 != request;
      }
    }
  }

  /** Where the promise that is resolved was pending. */
  lemma ResolvedPlace(t: TurnState, p: nat, choice: Choice) returns (own: nat)
    requires PromisesOk(t) && NoneLost(t) && p < |t.promises| && t.promises[p].answers == []
    ensures own < |t.pending| && t.pending[own].1 == p
    ensures Resolve(t, p, choice).pending == t.pending[..own] + t.pending[own + 1..]
    ensures Resolve(t, p, choice).promises == t.promises[p := t.promises[p].(answers := [choice])]
  {
    assert IsPending(t, p);
    own :| 0 <= own < |t.pending| && t.pending[own].1 == p;
    assert Key(t.pending, t.promises[p].request) == Some(own);
  }

  lemma StillPending(t: TurnState, a: TurnState, own: nat, q: nat)
    requires own < |t.pending| && a.pending == t.pending[..own] + t.pending[own + 1..]
    requires t.pending[own].1 != q && IsPending(t, q)
    ensures IsPending(a, q)
  {
    var k :| 0 <= k < |t.pending| && t.pending[k].1 == q;
    assert a.pending[if k < own then k else k - 1] == t.pending[k];
  }

  /** An answer loses no other promise. */
  lemma ResolveLosesNone(t: TurnState, p: nat, choice: Choice)
    requires PromisesOk(t) && NoneLost(t)
    ensures NoneLost(Resolve(t, p, choice))
  {
    if p < |t.promises| && t.promises[p].answers == [] {
      var a := Resolve(t, p, choice);
      var own := ResolvedPlace(t, p, choice);
      hide Resolve, Key, PromisesOk;
      forall q: nat | q < |a.promises| && a.promises[q].answers == [] ensures IsPending(a, q) {
        assert q != p && t.promises[q].answers == [];
        StillPending(t, a, own, q);
      }
    }
  }

  /** Settling denies what was pending, and only that. */
  lemma {:induction false} DenyAllAnswers(t: TurnState, ps: seq<(string, nat)>)
    requires forall k :: 0 <= k < |ps| ==> ps[k].1 < |t.promises|
    ensures var d := DenyAll(t, ps);
            |d.promises| == |t.promises| &&
            forall p: nat :: p < |t.promises| ==>
              d.promises[p] == if t.promises[p].answers == [] && (exists k :: 0 <= k < |ps| && ps[k].1 == p)
                               then t.promises[p].(answers := [Deny]) else t.promises[p]
  {
    if ps != [] {
      var init, last := ps[..|ps| - 1], ps[|ps| - 1].1;
      DenyAllAnswers(t, init);
      var e, d := DenyAll(t, init), DenyAll(t, ps);
      forall p: nat | p < |t.promises|
        ensures d.promises[p] == if t.promises[p].answers == [] && (exists k :: 0 <= k < |ps| && ps[k].1 == p)
                                 then t.promises[p].(answers := [Deny]) else t.promises[p]
      {
        assert (exists k :: 0 <= k < |ps| && ps[k].1 == p) <==> p == last || exists k :: 0 <= k < |init| && init[k].1 == p by {
          assert ps[|ps| - 1].1 == last;
          assert forall k :: 0 <= k < |init| ==> init[k] == ps[k];
        }
      }
    }
  }

  lemma LinksOf(t: TurnState)
    requires WireOk(t)
    ensures Links(t.(ended := true))
  {
    hide Bracketed, Of;
  }

  lemma EndIs(t: TurnState, toolStatus: Option<string>, phase: Option<string>)
    requires !t.ended && StatusFor(t, toolStatus).Some?
    ensures var a, e := SettleAll(t.(ended := true), OpenOf(t.handles), StatusFor(t, toolStatus).value), End(t, toolStatus, phase);
            e.promises == DenyAll(a, a.pending).promises && e.pending == [] && e.ended == DenyAll(a, a.pending).ended
  {
    hide SettleAll, DenyAll, OpenOf, StatusFor;
  }

  /** A promise waits after the end of the turn exactly when it waited before and was lost. */
  lemma EndAnswers(t: TurnState, toolStatus: Option<string>, phase: Option<string>)
    requires PromisesOk(t) && WireOk(t) && !t.ended && StatusFor(t, toolStatus).Some?
    ensures var e := End(t, toolStatus, phase);
            e.ended && PromisesOk(e) && |e.promises| == |t.promises| &&
            forall p: nat :: p < |t.promises| ==> (e.promises[p].answers == [] <==> t.promises[p].answers == [] && !IsPending(t, p))
  {
    hide SettleAll, DenyAll, OpenOf, WireOk, Links, StatusFor, End;
    var start := t.(ended := true);
    var a := SettleAll(start, OpenOf(t.handles), StatusFor(t, toolStatus).value);
    LinksOf(t);
    SettleAllWire(start, OpenOf(t.handles), StatusFor(t, toolStatus).value);
    DenyAllAnswers(a, a.pending);
    DenyAllWire(a, a.pending);
    EndIs(t, toolStatus, phase);
    assert forall p: nat :: IsPending(a, p) == IsPending(t, p);
  }

  lemma AllAnsweredIff(t: TurnState)
    requires PromisesOk(t)
    ensures AllAnsweredOnce(t) <==> forall p: nat :: p < |t.promises| ==> t.promises[p].answers != []
  {
  }

  /** The promise whose place in `pending` a second request takes. */
  lemma LostPromise(t: TurnState, request: string) returns (lost: nat)
    requires PromisesOk(t) && Key(t.pending, request).Some?
    ensures var a := Ask(t, request); lost < |a.promises| && a.promises[lost].answers == [] && !IsPending(a, lost)
  {
    var a, key := Ask(t, request), Key(t.pending, request).value;
    lost := t.pending[key].1;
    forall k | 0 <= k < |a.pending| ensures a.pending[k].1 != lost {
      assert k != key ==> a.pending[k] == t.pending[k] && t.promises[t.pending[k].1].request == t.pending[k].0;
    }
  }

  lemma NoneWaits(t: TurnState)
    requires NoneLost(t)
    ensures forall p: nat :: p < |t.promises| ==> t.promises[p].answers != [] || IsPending(t, p)
  {
  }

  /** A second request under an id still pending loses the first: its promise is pending no
      longer, so the end of the turn leaves it unanswered.  With an id that is not pending the end
      answers every promise exactly once. */
  lemma EndAnswersAllIff(t: TurnState, request: string, phase: Option<string>)
    requires PromisesOk(t) && NoneLost(t) && WireOk(t) && !t.ended
    ensures AllAnsweredOnce(End(Ask(t, request), None, phase)) <==> Key(t.pending, request).None?
  {
    hide WireOk, End, PromisesOk, NoneLost, AllAnsweredOnce;
    var a := Ask(t, request);
    var e := End(a, None, phase);
    AskOk(t, request);
    StepWire(t, PermissionAsked(request));
    assert Step(t, PermissionAsked(request)) == a;
    EndAnswers(a, None, phase);
    AllAnsweredIff(e);
    hide Ask, Step, Put;
    if Key(t.pending, request).Some? {
      var lost := LostPromise(t, request);
      assert e.promises[lost].answers == [];
    } else {
      NoneWaits(a);
    }
  }

  /** No request is made under an id that is still pending. */
  ghost predicate NoClash(status: ToolStatus, calls: seq<Call>) {
    forall k :: 0 <= k < |calls| && calls[k].PermissionAsked? ==> Key(Run(status, calls[..k]).pending, calls[k].request).None?
  }

  lemma StepPromises(t: TurnState, c: Call)
    requires PromisesOk(t) && WireOk(t)
    ensures PromisesOk(Step(t, c))
  {
    hide WireOk, Links, PromisesOk;
    match c
    case StreamOpened(id) => SamePromises(t, Step(t, c));
    case ToolOpened(id) => SamePromises(t, Step(t, c));
    case Wrote(h, chunk) => SamePromises(t, Step(t, c));
    case StreamEnded(h, text) => SamePromises(t, Step(t, c));
    case ToolFinished(h, status, exit) => SamePromises(t, Step(t, c));
    case PermissionAsked(request) => if !t.ended { AskOk(t, request); }
    case Answered(p, choice) => ResolveOk(t, p, choice);
    case TurnEnded(toolStatus, phase) => if !t.ended && StatusFor(t, toolStatus).Some? { EndAnswers(t, toolStatus, phase); }
  }

  lemma SamePromises(t: TurnState, s: TurnState)
    requires s.promises == t.promises && s.pending == t.pending && s.ended == t.ended
    ensures PromisesOk(t) ==> PromisesOk(s)
    ensures NoneLost(t) ==> NoneLost(s)
    ensures AllAnsweredOnce(t) ==> AllAnsweredOnce(s)
  {
    assert NoneLost(t) ==> forall p: nat :: p < |s.promises| && s.promises[p].answers == [] ==> IsPending(t, p) && IsPending(s, p);
  }

  lemma StepLosesNone(t: TurnState, c: Call)
    requires PromisesOk(t) && WireOk(t) && NoneLost(t)
    requires c.PermissionAsked? && !t.ended ==> Key(t.pending, c.request).None?
    ensures NoneLost(Step(t, c))
  {
    match c
    case StreamOpened(id) => SamePromises(t, Step(t, c));
    case ToolOpened(id) => SamePromises(t, Step(t, c));
    case Wrote(h, chunk) => SamePromises(t, Step(t, c));
    case StreamEnded(h, text) => SamePromises(t, Step(t, c));
    case ToolFinished(h, status, exit) => SamePromises(t, Step(t, c));
    case PermissionAsked(request) => if !t.ended { AskOk(t, request); }
    case Answered(p, choice) => ResolveLosesNone(t, p, choice);
    case TurnEnded(toolStatus, phase) => if !t.ended && StatusFor(t, toolStatus).Some? { EndAnswers(t, toolStatus, phase); }
  }

  /** On every run in which no request id is asked for while it is pending, the end of the turn
      leaves every handle with its finish and every permission answered exactly once. */
  lemma {:induction false} EveryRunSettles(status: ToolStatus, calls: seq<Call>)
    requires NoClash(status, calls)
    ensures var t := Run(status, calls);
            PromisesOk(t) && NoneLost(t) &&
            (t.ended ==> AllAnsweredOnce(t) && forall h :: 0 <= h < |t.handles| ==> !t.handles[h].open)
  {
    EveryRunIsBracketed(status, calls);
    if calls != [] {
      var init, c := calls[..|calls| - 1], calls[|calls| - 1];
      forall k | 0 <= k < |init| ensures init[..k] == calls[..k] {}
      EveryRunSettles(status, init);
      EveryRunIsBracketed(status, init);
      StepPromises(Run(status, init), c);
      StepLosesNone(Run(status, init), c);
    }
    if Run(status, calls).ended { AtEnd(Run(status, calls)); }
  }

  lemma AtEnd(t: TurnState)
    requires PromisesOk(t) && NoneLost(t) && t.ended
    ensures AllAnsweredOnce(t)
  {
    forall p: nat | p < |t.promises| ensures |t.promises[p].answers| == 1 {
      assert t.promises[p].answers == [] ==> IsPending(t, p);
    }
  }

  // ----- closing one handle among many -----------------------------------------------------

  function Minus(l: seq<nat>, x: nat): seq<nat> {
    if l == [] then []
    else
      var init, y := Minus(l[..|l| - 1], x), l[|l| - 1];
      if y == x then init else init + [y]
  }

  lemma {:induction false} NothingMinus(l: seq<nat>, x: nat)
    requires x !in l
    ensures Minus(l, x) == l
  {
    if l != [] { NothingMinus(l[..|l| - 1], x); }
  }

  lemma {:induction false} OpenWithout(hs: seq<HandleState>, h: nat)
    requires h < |hs| && hs[h].open
    ensures OpenOf(hs[h := hs[h].(open := false)]) == Minus(OpenOf(hs), h)
  {
    var init, n := hs[..|hs| - 1], |hs| - 1;
    var to := hs[h := hs[h].(open := false)];
    if h == n {
      assert to[..n] == init;
      assert OpenOf(hs) == OpenOf(init) + [n] && OpenOf(to) == OpenOf(init);
      hide OpenOf;
      MinusLast(OpenOf(init), n, n);
      NothingMinus(OpenOf(init), n);
    } else {
      assert to[..n] == init[h := init[h].(open := false)];
      OpenWithout(init, h);
      assert OpenOf(to) == OpenOf(to[..n]) + (if hs[n].open then [n] else []);
      assert OpenOf(hs) == OpenOf(init) + (if hs[n].open then [n] else []);
      hide OpenOf;
      MinusLast(OpenOf(init), n, h);
    }
  }

  lemma MinusLast(l: seq<nat>, y: nat, x: nat)
    ensures Minus(l + [y], x) == Minus(l, x) + if y == x then [] else [y]
  {
    assert (l + [y])[..|l|] == l;
  }
}
