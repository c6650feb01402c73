/** What each call on the SDK's handles sends (sdk/node/src/lifecycle.js), said of the messages
    themselves: the texts written, the statuses and exit codes, and the order at the end of a turn. */
module Delivery {
  import opened Styles
  import opened Lifecycle
  import opened Filters

  // ----- statuses ----------------------------------------------------------------------------

  /** `s` spells a name in small or capital letters; the Kelvin sign is a capital K too. */
  ghost predicate Spells(s: string, name: string) {
    |s| == |name| && forall k :: 0 <= k < |name| ==>
      s[k] == name[k] || (s[k] < name[k] && 'a' <= name[k] <= 'z' && name[k] - s[k] == ' ' - '\0') || (s[k] == '\U{212A}' && name[k] == 'k')
  }

  lemma LowerSpells(s: string, name: string)
    requires forall k :: 0 <= k < |name| ==> 'a' <= name[k] <= 'z'
    ensures LowerAll(s) == name <==> Spells(s, name)
  {
    if LowerAll(s) == name {
      forall k | 0 <= k < |name|
        ensures s[k] == name[k] || (s[k] < name[k] && 'a' <= name[k] <= 'z' && name[k] - s[k] == ' ' - '\0') || (s[k] == '\U{212A}' && name[k] == 'k')
      {
        assert LowerAll(s)[k] == name[k];
      }
    }
    if Spells(s, name) {
      forall k | 0 <= k < |name| ensures LowerAll(s)[k] == name[k] {}
    }
  }

  /** A missing status, "ok" and "done" mean success, "error" and "failed" an error, "cancelled" and
      "canceled" a stop, "rejected" a refusal, in any case of the letters; every other throws. */
  lemma StatusMeans(status: Option<string>)
    ensures Normalize(status) == Some(Done) <==> status == None || Spells(status.value, "ok") || Spells(status.value, "done")
    ensures Normalize(status) == Some(Error) <==> status.Some? && (Spells(status.value, "error") || Spells(status.value, "failed"))
    ensures Normalize(status) == Some(Cancelled) <==> status.Some? && (Spells(status.value, "cancelled") || Spells(status.value, "canceled"))
    ensures Normalize(status) == Some(Rejected) <==> status.Some? && Spells(status.value, "rejected")
  {
    if status.Some? {
      var s := status.value;
      LowerSpells(s, "ok");
      LowerSpells(s, "done");
      LowerSpells(s, "error");
      LowerSpells(s, "failed");
      LowerSpells(s, "cancelled");
      LowerSpells(s, "canceled");
      LowerSpells(s, "rejected");
      hide LowerAll, Spells;
    }
  }

  // ----- one call ------------------------------------------------------------------------------

  /** The finish of a tool: the exit code given, or 1 for an error and 0 else. */
  function ToolFinish(id: string, status: ToolStatus, exit: Option<int>): What {
    ToolDone(id, status, if exit == None then (if status == Error then 1 else 0) else exit.value)
  }

  /** What the end of a turn sends for a handle still open: no final text, and the status given for the
      tools, or the turn's own. */
  function EndsWith(t: TurnState, h: nat, status: ToolStatus): What
    requires h < |t.handles|
  {
    if t.handles[h].isStream then StreamDone(t.handles[h].id, None) else ToolFinish(t.handles[h].id, status, None)
  }

  /** The message a call sends for an open handle, and that it closes it. */
  ghost predicate Closes(t: TurnState, c: Call, h: nat, w: What)
    requires h < |t.handles|
  {
    var s := t.handles[h];
    (c.StreamEnded? && c.h == h && s.isStream && w == StreamDone(s.id, c.text)) ||
    (c.ToolFinished? && c.h == h && !s.isStream && Normalize(c.status).Some? && w == ToolFinish(s.id, Normalize(c.status).value, c.exit)) ||
    (c.TurnEnded? && !t.ended && (c.toolStatus.Some? ==> Normalize(c.toolStatus).Some?) &&
     w == EndsWith(t, h, if c.toolStatus == None then t.settleStatus else Normalize(c.toolStatus).value))
  }

  /** What a call does for a handle: it sends what is written while the handle is open, closes it with
      a message, or does nothing; nothing is sent for a closed one. */
  ghost predicate Follows(t: TurnState, c: Call, h: nat, n: TurnState, w: What)
    requires h < |t.handles|
  {
    |n.handles| >= |t.handles| &&
    var s, said := t.handles[h], Of(t.wire, h);
    if s.open && Closes(t, c, h, w) then n.handles[h] == s.(open := false) && Of(n.wire, h) == said + [w]
    else
      n.handles[h] == s &&
      Of(n.wire, h) == said + if s.open && c.Wrote? && c.h == h then [Delta(s.isStream, s.id, c.chunk)] else []
  }

  /** The finish a call could mean for the handle. */
  ghost function Ending(t: TurnState, c: Call, h: nat): What
    requires h < |t.handles|
  {
    var s := t.handles[h];
    if c.StreamEnded? then StreamDone(s.id, c.text)
    else if c.ToolFinished? && Normalize(c.status).Some? then ToolFinish(s.id, Normalize(c.status).value, c.exit)
    else if c.TurnEnded? && (c.toolStatus.Some? ==> Normalize(c.toolStatus).Some?) then
      EndsWith(t, h, if c.toolStatus == None then t.settleStatus else Normalize(c.toolStatus).value)
    else PhaseSet("")
  }

  lemma {:induction false} OpenOfIs(hs: seq<HandleState>)
    ensures Rising(OpenOf(hs), |hs|) && forall h :: 0 <= h < |hs| ==> (h in OpenOf(hs) <==> hs[h].open)
  {
    if hs != [] {
      var init, n := hs[..|hs| - 1], |hs| - 1;
      OpenOfIs(init);
      var r := OpenOf(init);
      forall h | 0 <= h < |hs| ensures h in OpenOf(hs) <==> hs[h].open {
        if h < n { assert hs[h] == init[h]; }
      }
    }
  }

  /** What settling handles sends, one after the other. */
  function Finishes(t: TurnState, at: seq<nat>, status: ToolStatus): seq<Sent>
    requires forall k :: 0 <= k < |at| ==> at[k] < |t.handles|
  {
    seq(|at|, k requires 0 <= k < |at| => Sent(Some(at[k]), EndsWith(t, at[k], status)))
  }

  lemma SettledSends(t: TurnState, h: nat, status: ToolStatus)
    requires h < |t.handles| && t.handles[h].open
    ensures Settled(t, h, status) ==
            t.(handles := t.handles[h := t.handles[h].(open := false)], wire := t.wire + [Sent(Some(h), EndsWith(t, h, status))])
  {
    NamesAreFixed(status);
    hide Normalize;
  }

  /** The turn with the handles of `at` settled. */
  ghost predicate HasSettled(t: TurnState, n: TurnState, at: seq<nat>, status: ToolStatus)
    requires forall k :: 0 <= k < |at| ==> at[k] < |t.handles|
  {
    n == t.(handles := n.handles, wire := t.wire + Finishes(t, at, status)) && |n.handles| == |t.handles| &&
    forall h :: 0 <= h < |t.handles| ==> n.handles[h] == if h in at then t.handles[h].(open := false) else t.handles[h]
  }

  lemma OneMoreSettled(t: TurnState, m: TurnState, init: seq<nat>, h: nat, status: ToolStatus)
    requires (forall k :: 0 <= k < |init| ==> init[k] < h) && h < |t.handles| && t.handles[h].open && HasSettled(t, m, init, status)
    ensures HasSettled(t, Settled(m, h, status), init + [h], status)
  {
    assert m.handles[h] == t.handles[h] && EndsWith(m, h, status) == EndsWith(t, h, status);
    SettledSends(m, h, status);
    assert Finishes(t, init + [h], status) == Finishes(t, init, status) + [Sent(Some(h), EndsWith(t, h, status))];
    hide Settled, EndsWith;
  }

  lemma {:induction false} SettleSends(t: TurnState, at: seq<nat>, status: ToolStatus)
    requires Rising(at, |t.handles|) && forall k :: 0 <= k < |at| ==> t.handles[at[k]].open
    ensures HasSettled(t, SettleAll(t, at, status), at, status)
  {
    if at == [] {
      assert t.wire + Finishes(t, at, status) == t.wire;
    } else {
      var init, h := at[..|at| - 1], at[|at| - 1];
      SettleSends(t, init, status);
      hide HasSettled, Settled;
      OneMoreSettled(t, SettleAll(t, init, status), init, h, status);
      assert init + [h] == at;
    }
  }

  /** The end of a turn sends the finish of every open handle, oldest first, and then the phase. */
  lemma EndSends(t: TurnState, toolStatus: Option<string>, phase: Option<string>) returns (at: seq<nat>)
    requires !t.ended && (toolStatus.Some? ==> Normalize(toolStatus).Some?)
    ensures Rising(at, |t.handles|) && forall h :: 0 <= h < |t.handles| ==> (h in at <==> t.handles[h].open)
    ensures var n := End(t, toolStatus, phase);
            var status := if toolStatus == None then t.settleStatus else Normalize(toolStatus).value;
            n.wire == t.wire + Finishes(t, at, status) + (if phase == None then [] else [Sent(None, PhaseSet(phase.value))]) &&
            |n.handles| == |t.handles| && forall h :: 0 <= h < |t.handles| ==> n.handles[h] == t.handles[h].(open := false)
  {
    hide Normalize, EndsWith;
    OpenOfIs(t.handles);
    at := OpenOf(t.handles);
    var status := if toolStatus == None then t.settleStatus else Normalize(toolStatus).value;
    var from := t.(ended := true);
    SettleSends(from, at, status);
    var a := SettleAll(from, at, status);
    SameFinishes(t, at, status);
    DenyAllWire(a, a.pending);
    hide SettleAll, DenyAll, Finishes, Rising, OpenOf, NameOf;
    assert a.wire + [] == a.wire;
  }

  lemma SameFinishes(t: TurnState, at: seq<nat>, status: ToolStatus)
    requires forall k :: 0 <= k < |at| ==> at[k] < |t.handles|
    ensures Finishes(t.(ended := true), at, status) == Finishes(t, at, status)
  {
  }

  lemma FinishesSnoc(t: TurnState, init: seq<nat>, x: nat, status: ToolStatus)
    requires x < |t.handles| && forall k :: 0 <= k < |init| ==> init[k] < |t.handles|
    ensures Finishes(t, init + [x], status) == Finishes(t, init, status) + [Sent(Some(x), EndsWith(t, x, status))]
  {
    hide EndsWith;
  }

  lemma SentAssoc(x: seq<Sent>, y: seq<Sent>, z: seq<Sent>)
    ensures x + (y + z) == (x + y) + z
  {
  }

  lemma LastApart(init: seq<nat>, x: nat, n: nat)
    requires Rising(init + [x], n)
    ensures Rising(init, n) && x !in init && x < n
  {
    var at := init + [x];
    forall i | 0 <= i < |init| ensures init[i] != x { assert at[i] < at[|init|]; }
    forall i, j | 0 <= i < j < |init| ensures init[i] < init[j] { assert at[i] < at[j]; }
    forall i | 0 <= i < |init| ensures init[i] < n { assert at[i] < n; }
    assert at[|init|] < n;
  }

  lemma {:induction false} OfFinishes(t: TurnState, wire: seq<Sent>, at: seq<nat>, status: ToolStatus, h: nat)
    requires Rising(at, |t.handles|) && h < |t.handles|
    ensures Of(wire + Finishes(t, at, status), h) == Of(wire, h) + if h in at then [EndsWith(t, h, status)] else []
  {
    if at == [] {
      assert wire + Finishes(t, at, status) == wire;
    } else {
      var init, x := at[..|at| - 1], at[|at| - 1];
      assert at == init + [x];
      LastApart(init, x, |t.handles|);
      hide Of, EndsWith, Finishes;
      OfFinishes(t, wire, init, status, h);
      FinishesSnoc(t, init, x, status);
      SentAssoc(wire, Finishes(t, init, status), [Sent(Some(x), EndsWith(t, x, status))]);
      OfMore(wire + Finishes(t, init, status), Sent(Some(x), EndsWith(t, x, status)), h);
      hide Rising;
      assert h in at <==> h in init || h == x;
      NothingMore(Of(wire, h));
    }
  }

  lemma NothingMore(said: seq<What>)
    ensures said + [] == said
  {
  }

  lemma EndFollows(t: TurnState, c: Call, h: nat)
    requires c.TurnEnded? && h < |t.handles|
    ensures Follows(t, c, h, Step(t, c), Ending(t, c, h))
  {
    hide Normalize, Of, Finishes, EndsWith;
    NothingMore(Of(t.wire, h));
    if !t.ended && (c.toolStatus.Some? ==> Normalize(c.toolStatus).Some?) {
      var status := if c.toolStatus == None then t.settleStatus else Normalize(c.toolStatus).value;
      var at := EndSends(t, c.toolStatus, c.phase);
      OfFinishes(t, t.wire, at, status, h);
      var w := t.wire + Finishes(t, at, status);
      hide Rising;
      if c.phase.Some? { OfMore(w, Sent(None, PhaseSet(c.phase.value)), h); }
      NothingMore(Of(w, h));
      assert w + [] == w;
      hide End;
    }
  }

  lemma CallMeans(t: TurnState, c: Call, h: nat)
    requires h < |t.handles|
    ensures Follows(t, c, h, Step(t, c), Ending(t, c, h))
  {
    if c.TurnEnded? {
      EndFollows(t, c, h);
    } else if c.StreamEnded? || c.ToolFinished? {
      FinishFollows(t, c, h);
    } else {
      OtherFollows(t, c, h);
    }
  }

  lemma FinishFollows(t: TurnState, c: Call, h: nat)
    requires h < |t.handles| && (c.StreamEnded? || c.ToolFinished?)
    ensures Follows(t, c, h, Step(t, c), Ending(t, c, h))
  {
    hide Normalize, Of;
    assert Of(t.wire, h) + [] == Of(t.wire, h);
    if c.h < |t.handles| { OfMore(t.wire, Sent(Some(c.h), Ending(t, c, c.h)), h); }
  }

  lemma OtherFollows(t: TurnState, c: Call, h: nat)
    requires h < |t.handles| && !c.TurnEnded? && !c.StreamEnded? && !c.ToolFinished?
    ensures Follows(t, c, h, Step(t, c), Ending(t, c, h))
  {
    hide Normalize, Of, Key, Put, Drop;
    assert Of(t.wire, h) + [] == Of(t.wire, h);
    if c.Wrote? && c.h < |t.handles| {
      OfMore(t.wire, Sent(Some(c.h), Delta(t.handles[c.h].isStream, t.handles[c.h].id, c.chunk)), h);
    } else if c.PermissionAsked? {
      OfMore(t.wire, Sent(None, Requested(c.request)), h);
    } else if c.StreamOpened? || c.ToolOpened? {
      OfMore(t.wire, Sent(Some(|t.handles|), Started(c.StreamOpened?, c.id)), h);
    }
  }

  /** Opening sends the start of a new handle, under its id; nothing opens once the turn has ended. */
  lemma OpenMeans(t: TurnState, c: Call)
    requires WireOk(t) && (c.StreamOpened? || c.ToolOpened?)
    ensures var n, x := Step(t, c), |t.handles|;
            if t.ended then n == t
            else
              |n.handles| == x + 1 && n.handles[x] == HandleState(c.StreamOpened?, c.id, true) &&
              Of(n.wire, x) == [Started(c.StreamOpened?, c.id)]
  {
    if !t.ended {
      OfNew(t.wire, |t.handles|);
      OfMore(t.wire, Sent(Some(|t.handles|), Started(c.StreamOpened?, c.id)), |t.handles|);
    }
  }

  // ----- whole runs ------------------------------------------------------------------------------

  /** The texts written to a handle while it was open, in order. */
  ghost function Written(status: ToolStatus, calls: seq<Call>, h: nat): seq<string> {
    if calls == [] then []
    else
      var init, c := calls[..|calls| - 1], calls[|calls| - 1];
      var t := Run(status, init);
      Written(status, init, h) +
      if c.Wrote? && c.h == h && h < |t.handles| && t.handles[h].open then [c.chunk] else []
  }

  /** A handle's messages are its start, exactly what was written to it while it was open, in order, and
      then, once it is closed, the message that closed it. */
  ghost predicate Carries(l: seq<What>, s: HandleState, chunks: seq<string>) {
    |l| == |chunks| + (if s.open then 1 else 2) && l[0] == Started(s.isStream, s.id) &&
    forall k :: 0 <= k < |chunks| ==> l[k + 1] == Delta(s.isStream, s.id, chunks[k])
  }

  lemma CarriesOn(l: seq<What>, s: HandleState, chunks: seq<string>, chunk: string, w: What)
    requires Carries(l, s, chunks) && s.open
    ensures Carries(l + [Delta(s.isStream, s.id, chunk)], s, chunks + [chunk])
    ensures Carries(l + [w], s.(open := false), chunks)
  {
  }

  lemma {:induction false} NothingWritten(status: ToolStatus, calls: seq<Call>, h: nat)
    ensures h >= |Run(status, calls).handles| ==> Written(status, calls, h) == []
  {
    if calls != [] {
      var init, c := calls[..|calls| - 1], calls[|calls| - 1];
      HandlesGrow(Run(status, init), c);
      NothingWritten(status, init, h);
    }
  }

  lemma HandlesGrow(t: TurnState, c: Call)
    ensures |t.handles| <= |Step(t, c).handles| <= |t.handles| + if c.StreamOpened? || c.ToolOpened? then 1 else 0
  {
    hide Normalize;
    if c.TurnEnded? && !t.ended && (c.toolStatus.Some? ==> Normalize(c.toolStatus).Some?) {
      var at := EndSends(t, c.toolStatus, c.phase);
      hide End;
    }
  }

  /** On every run each handle delivers what was written to it. */
  lemma {:induction false} EveryRunDelivers(status: ToolStatus, calls: seq<Call>, h: nat)
    requires h < |Run(status, calls).handles|
    ensures var t := Run(status, calls); Carries(Of(t.wire, h), t.handles[h], Written(status, calls, h))
  {
    hide Run, Step, Of, Ending, Closes, Carries, WireOk, Follows, Written;
    NoHandles(status);
    if calls != [] {
      var init, c := calls[..|calls| - 1], calls[|calls| - 1];
      RunStep(status, calls);
      WrittenStep(status, calls, h);
      if h < |Run(status, init).handles| { EveryRunDelivers(status, init, h); }
      NothingWritten(status, init, h);
      EveryRunIsBracketed(status, init);
      DeliversOn(Run(status, init), c, h, Written(status, init, h));
    }
  }

  lemma NoHandles(status: ToolStatus)
    ensures Run(status, []).handles == []
  {
  }

  /** One more call. */
  lemma DeliversOn(t: TurnState, c: Call, h: nat, chunks: seq<string>)
    requires WireOk(t) && h < |Step(t, c).handles|
    requires if h < |t.handles| then Carries(Of(t.wire, h), t.handles[h], chunks) else chunks == []
    ensures var n := Step(t, c);
            Carries(Of(n.wire, h), n.handles[h], chunks + if c.Wrote? && c.h == h && h < |t.handles| && t.handles[h].open then [c.chunk] else [])
  {
    hide Step, Of, Ending, Closes, Carries, WireOk, Follows;
    HandlesGrow(t, c);
    if h < |t.handles| {
      CallMeans(t, c, h);
      CarryStep(t, c, h, Step(t, c), Ending(t, c, h), chunks);
    } else {
      CarriesNew(t, c);
      assert chunks + [] == [];
    }
  }

  lemma RunStep(status: ToolStatus, calls: seq<Call>)
    requires calls != []
    ensures Run(status, calls) == Step(Run(status, calls[..|calls| - 1]), calls[|calls| - 1])
  {
    hide Step;
  }

  lemma WrittenStep(status: ToolStatus, calls: seq<Call>, h: nat)
    requires calls != []
    ensures var init, c := calls[..|calls| - 1], calls[|calls| - 1];
            var t := Run(status, init);
            Written(status, calls, h) ==
            Written(status, init, h) + if c.Wrote? && c.h == h && h < |t.handles| && t.handles[h].open then [c.chunk] else []
  {
    hide Run;
  }

  /** A handle just opened. */
  lemma CarriesNew(t: TurnState, c: Call)
    requires WireOk(t) && (c.StreamOpened? || c.ToolOpened?) && |Step(t, c).handles| > |t.handles|
    ensures var n, h := Step(t, c), |t.handles|; |n.handles| == h + 1 && Carries(Of(n.wire, h), n.handles[h], [])
  {
    OpenMeans(t, c);
    hide Step, Of, WireOk;
  }

  lemma CarryStep(t: TurnState, c: Call, h: nat, n: TurnState, w: What, chunks: seq<string>)
    requires h < |t.handles| && Follows(t, c, h, n, w) && Carries(Of(t.wire, h), t.handles[h], chunks)
    ensures Carries(Of(n.wire, h), n.handles[h], chunks + if c.Wrote? && c.h == h && t.handles[h].open then [c.chunk] else [])
  {
    hide Of;
    var l, s := Of(t.wire, h), t.handles[h];
    if s.open { CarriesOn(l, s, chunks, if c.Wrote? then c.chunk else "", w); }
    assert chunks + [] == chunks && l + [] == l;
  }
}
