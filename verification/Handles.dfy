/** The handle and turn objects of the Node SDK (sdk/node/src/lifecycle.js): every method does to
    its object what Lifecycle.dfy says of a turn's state. */
module Handles {
  import opened Styles
  import L = Lifecycle

  function IndexesOf(cs: seq<Handle>): seq<nat> {
    seq(|cs|, k requires 0 <= k < |cs| => cs[k].index)
  }

  function Forgotten(cs: seq<Handle>, h: Handle): (r: seq<Handle>)
    ensures forall c :: c in r ==> c in cs
  {
    if cs == [] then []
    else
      var init, c := Forgotten(cs[..|cs| - 1], h), cs[|cs| - 1];
      if c == h then init else init + [c]
  }

  lemma {:induction false} ForgottenIndexes(cs: seq<Handle>, h: Handle)
    requires forall c :: c in cs && c.index == h.index ==> c == h
    ensures IndexesOf(Forgotten(cs, h)) == L.Minus(IndexesOf(cs), h.index)
  {
    if cs != [] {
      ForgottenIndexes(cs[..|cs| - 1], h);
      assert IndexesOf(cs)[..|cs| - 1] == IndexesOf(cs[..|cs| - 1]);
    }
  }

  /** A stream or tool handle. */
  class Handle {
    const turn: Turn
    const index: nat
    const isStream: bool
    const id: string
    var open: bool

    constructor (turn: Turn, index: nat, isStream: bool, id: string)
      ensures this.turn == turn && this.index == index && this.isStream == isStream && this.id == id && open
    {
      this.turn, this.index, this.isStream, this.id, open := turn, index, isStream, id, true;
    }

    method Write(chunk: string) returns (sent: bool)
      requires turn.Owns(this)
      modifies turn
      ensures turn.Owns(this) && turn.handles == old(turn.handles)
      ensures turn.Now() == L.Write(old(turn.Now()), index, chunk) && sent == open
    {
      hide L.OpenOf;
      if !open { return false; }
      turn.Send(Some(index), L.Delta(isStream, id, chunk));
      return true;
    }

    method Close()
      requires turn.Owns(this) && open
      modifies this, turn`children
      ensures turn.Owns(this) && turn.handles == old(turn.handles) && !open
      ensures turn.Now() == old(turn.Now()).(handles := old(turn.States())[index := old(turn.States())[index].(open := false)])
      ensures turn.children == Forgotten(old(turn.children), this)
    {
      ghost var before := turn.States();
      L.OpenWithout(before, index);
      ForgottenIndexes(turn.children, this);
      hide L.OpenOf, Forgotten, L.Minus;
      open := false;
      assert turn.States() == before[index := before[index].(open := false)];
      turn.Forget(this);
    }

    /** Closes the handle and tells the renderer, once. */
    method Shut(what: L.What) returns (sent: bool)
      requires turn.Owns(this)
      modifies this, turn
      ensures turn.Owns(this) && turn.handles == old(turn.handles)
      ensures turn.Now() == L.Shut(old(turn.Now()), index, what) && sent == old(open) && !open
      ensures turn.children == if old(open) then Forgotten(old(turn.children), this) else old(turn.children)
    {
      hide L.OpenOf, Forgotten;
      if !open { return false; }
      Close();
      turn.Send(Some(index), what);
      return true;
    }

    method EndStream(text: Option<string>) returns (sent: bool)
      requires turn.Owns(this) && isStream
      modifies this, turn
      ensures turn.Owns(this) && turn.handles == old(turn.handles)
      ensures turn.Now() == L.EndStream(old(turn.Now()), index, text) && sent == old(open)
      ensures turn.children == if old(open) then Forgotten(old(turn.children), this) else old(turn.children)
    {
      sent := Shut(L.StreamDone(id, text));
    }

    /** None: an unknown status throws, and the tool stays open. */
    method FinishTool(status: Option<string>, exit: Option<int>) returns (sent: Option<bool>)
      requires turn.Owns(this) && !isStream
      modifies this, turn
      ensures turn.Owns(this) && turn.handles == old(turn.handles)
      ensures turn.Now() == (if old(open) then L.FinishTool(old(turn.Now()), index, status, exit) else old(turn.Now()))
      ensures sent == if !old(open) then Some(false) else if L.Normalize(status).None? then None else Some(true)
      ensures turn.children == if old(open) && sent.Some? then Forgotten(old(turn.children), this) else old(turn.children)
    {
      if !open { return Some(false); }
      var normalized := L.Normalize(status);
      if normalized.None? { return None; }
      var done := Shut(L.ToolDone(id, normalized.value, L.ExitCode(normalized.value, exit)));
      sent := Some(done);
    }
  }

  class Turn {
    /** Every handle opened, in order; `count` of them. */
    ghost var handles: seq<Handle>
    var count: nat
    var children: seq<Handle>
    var promises: seq<L.PromiseState>
    var pending: seq<(string, nat)>
    var ended: bool
    var settleStatus: L.ToolStatus
    var wire: seq<L.Sent>

    ghost function States(): (r: seq<L.HandleState>)
      reads this, handles
      ensures |r| == |handles|
    {
      seq(|handles|, k requires 0 <= k < |handles| reads this, handles => L.HandleState(handles[k].isStream, handles[k].id, handles[k].open))
    }

    ghost function Now(): L.TurnState
      reads this, handles
    {
      L.TurnState(States(), promises, pending, ended, settleStatus, wire)
    }

    /** The children are the open handles, oldest first. */
    ghost predicate Valid()
      reads this, handles
    {
      count == |handles| &&
      (forall k :: 0 <= k < |handles| ==> handles[k].index == k && handles[k].turn == this) &&
      (forall c :: c in children ==> c.index < |handles| && handles[c.index] == c) && IndexesOf(children) == L.OpenOf(States())
    }

    ghost predicate Owns(h: Handle)
      reads this, handles
    {
      Valid() && h.index < |handles| && handles[h.index] == h
    }

    constructor (status: L.ToolStatus)
      ensures Valid() && Now() == L.NewTurn(status)
    {
      handles, children, promises, pending, ended, settleStatus, wire := [], [], [], [], false, status, [];
      count := 0;
    }

    method Send(h: Option<nat>, what: L.What)
      modifies `wire
      ensures Now() == L.Sending(old(Now()), h, what)
    {
      wire := wire + [L.Sent(h, what)];
      assert States() == old(States());
    }

    method Forget(h: Handle)
      modifies `children
      ensures children == Forgotten(old(children), h) && Now() == old(Now())
    {
      children := Forgotten(children, h);
      assert States() == old(States());
    }

    /** A new handle becomes a child. */
    method Adopt(h: Handle)
      requires Valid() && h !in handles && h.turn == this && h.index == count && h.open
      modifies `count, `handles, `children
      ensures Valid() && handles == old(handles) + [h] && States() == old(States()) + [L.HandleState(h.isStream, h.id, true)]
    {
      hide L.OpenOf;
      OpenMore(States(), L.HandleState(h.isStream, h.id, true));
      count := count + 1;
      handles := handles + [h];
      children := children + [h];
      assert States() == old(States()) + [L.HandleState(h.isStream, h.id, true)];
      assert IndexesOf(children) == IndexesOf(old(children)) + [h.index];
    }

    /** None when the turn has ended, which throws. */
    method Open(isStream: bool, id: string) returns (h: Option<Handle>)
      requires Valid()
      modifies this
      ensures Valid() && old(handles) <= handles
      ensures Now() == if isStream then L.Step(old(Now()), L.StreamOpened(id)) else L.Step(old(Now()), L.ToolOpened(id))
      ensures h.None? <==> old(ended)
      ensures h.Some? ==> Owns(h.value) && fresh(h.value) && h.value.open && h.value.isStream == isStream && h.value.id == id
    {
      hide L.OpenOf;
      if ended { return None; }
      var handle := new Handle(this, count, isStream, id);
      assert States() == old(States());
      Adopt(handle);
      Send(Some(handle.index), L.Started(isStream, id));
      h := Some(handle);
    }

    /** The promise asked for, or None when the turn has ended, which throws. */
    method Permission(request: string) returns (p: Option<nat>)
      requires Valid()
      modifies `promises, `pending, `wire
      ensures Valid() && Now() == L.Step(old(Now()), L.PermissionAsked(request))
      ensures p == if ended then None else Some(|old(promises)|)
    {
      hide L.OpenOf, L.Key;
      if ended { return None; }
      pending := L.Put(pending, request, |promises|);
      p := Some(|promises|);
      promises := promises + [L.PromiseState(request, [])];
      assert States() == old(States());
      Send(None, L.Requested(request));
    }

    /** The user's answer, or the denial when the turn ends: only the first counts. */
    method Answer(p: nat, choice: L.Choice)
      requires Valid()
      modifies `promises, `pending
      ensures Valid() && Now() == L.Resolve(old(Now()), p, choice)
    {
      hide L.OpenOf, L.Drop;
      if p < |promises| && promises[p].answers == [] {
        promises := promises[p := promises[p].(answers := [choice])];
        pending := L.Drop(pending, promises[p].request);
      }
      assert States() == old(States());
    }

    method SettleChild(child: Handle, status: L.ToolStatus)
      requires Owns(child)
      modifies this, child
      ensures Owns(child) && handles == old(handles) && ended == old(ended)
      ensures Now() == L.Settled(old(Now()), child.index, status)
    {
      hide L.OpenOf, L.Normalize, Forgotten;
      L.NamesAreFixed(status);
      if child.isStream {
        var _ := child.EndStream(None);
      } else {
        var _ := child.FinishTool(Some(L.NameOf(status)), None);
      }
    }

    method SettleChildren(status: L.ToolStatus)
      requires Valid()
      modifies this, handles
      ensures Valid() && handles == old(handles)
      ensures Now() == L.SettleAll(old(Now()), L.OpenOf(old(States())), status) && ended == old(ended)
    {
      ghost var start, hs := Now(), L.OpenOf(States());
      hide L.OpenOf, L.Settled;
      var all := children;
      forall i | 0 <= i < |all| ensures all[i] in handles && Owns(all[i]) && all[i].index == hs[i] {
        assert all[i] in children && IndexesOf(children)[i] == all[i].index;
      }
      var k := 0;
      while k < |all|
        invariant k <= |all| == |hs| && Valid() && handles == old(handles) && ended == old(ended)
        invariant forall i :: 0 <= i < |all| ==> all[i] in handles && Owns(all[i]) && all[i].index == hs[i]
        invariant forall i :: 0 <= i < |hs| ==> hs[i] < |start.handles|
        invariant Now() == L.SettleAll(start, hs[..k], status)
      {
        var child := all[k];
        assert hs[..k + 1][..k] == hs[..k];
        SettleChild(child, status);
        k := k + 1;
      }
      assert hs[..k] == hs;
    }

    method SettlePending()
      requires Valid()
      modifies `promises, `pending
      ensures Valid() && Now() == L.DenyAll(old(Now()), old(pending)).(pending := [])
    {
      hide L.OpenOf, L.Resolve;
      ghost var start := Now();
      var all := pending;
      for k := 0 to |all|
        invariant Valid() && Now() == L.DenyAll(start, all[..k])
      {
        assert all[..k + 1][..k] == all[..k];
        Answer(all[k].1, L.Deny);
      }
      assert all[..|all|] == all;
      pending := [];
      assert States() == old(States());
    }

    /** None when the status is unknown, which throws before anything is settled. */
    method End(toolStatus: Option<string>, phase: Option<string>) returns (done: Option<bool>)
      requires Valid()
      modifies this, handles
      ensures Valid() && handles == old(handles)
      ensures Now() == L.End(old(Now()), toolStatus, phase)
      ensures done.Some? ==> ended
      ensures done == if old(ended) then Some(false) else if L.StatusFor(old(Now()), toolStatus).None? then None else Some(true)
    {
      hide L.OpenOf, L.SettleAll, L.DenyAll, L.Normalize;
      if ended { return Some(false); }
      var status := if toolStatus.Some? then L.Normalize(toolStatus) else Some(settleStatus);
      if status.None? { return None; }
      ended := true;
      assert States() == old(States());
      SettleChildren(status.value);
      SettlePending();
      if phase.Some? { Send(None, L.PhaseSet(phase.value)); }
      done := Some(true);
    }
  }

  // ----- every turn of a connection ----------------------------------------------------------

  ghost function HandlesOf(turns: seq<Turn>): set<Handle>
    reads turns
  {
    set t, h | t in turns && h in t.handles :: h
  }

  lemma TheirOwn(a: Turn, b: Turn)
    requires a.Valid() && b.Valid() && a != b
    ensures forall h :: h in a.handles ==> h !in b.handles
  {
  }

  twostate lemma Untouched(t: Turn)
    requires unchanged(t) && forall h :: h in t.handles ==> allocated(h) && old(allocated(h)) && unchanged(h)
    ensures t.Now() == old(t.Now()) && (old(t.Valid()) ==> t.Valid()) && t.handles == old(t.handles) && t.ended == old(t.ended)
  {
    forall k | 0 <= k < |t.handles| ensures t.States()[k] == old(t.States())[k] {
      assert t.handles[k] in t.handles && unchanged(t.handles[k]);
    }
    assert t.States() == old(t.States());
  }

  /** The turns still open; a turn that ends leaves. */
  class Facade {
    var turns: seq<Turn>

    ghost predicate Valid()
      reads this, turns, HandlesOf(turns)
    {
      (forall t :: t in turns ==> (assert forall h :: h in t.handles ==> h in HandlesOf(turns); t.Valid() && !t.ended)) &&
      forall i, j :: 0 <= i < j < |turns| ==> turns[i] != turns[j]
    }

    constructor ()
      ensures Valid() && turns == []
    {
      turns := [];
    }

    /** None when the settle status is unknown, which throws. */
    method NewTurn(settleStatus: Option<string>) returns (t: Option<Turn>)
      requires Valid()
      modifies this
      ensures Valid() && (t.None? <==> L.Normalize(settleStatus).None?)
      ensures t.Some? ==> fresh(t.value) && t.value.Now() == L.NewTurn(L.Normalize(settleStatus).value) && turns == old(turns) + [t.value]
      ensures t.None? ==> turns == old(turns)
    {
      hide L.Normalize;
      var status := L.Normalize(settleStatus);
      if status.None? { return None; }
      var turn := new Turn(status.value);
      turns := turns + [turn];
      t := Some(turn);
    }

    /** The renderer has gone: every turn still open ends, with its own settle status. */
    method SettleAll()
      requires Valid()
      modifies this, turns, HandlesOf(turns)
      ensures Valid() && turns == []
      ensures forall t :: t in old(turns) ==> t.Valid() && t.ended && t.Now() == L.End(old(t.Now()), None, Some("idle"))
    {
      hide Turn.Valid, Turn.Now, L.End;
      var all := turns;
      var k := 0;
      while k < |all|
        invariant k <= |all| && turns == all
        invariant forall i :: 0 <= i < |all| ==> all[i].Valid() && all[i].handles == old(all[i].handles)
        invariant forall i :: k <= i < |all| ==> all[i].Now() == old(all[i].Now())
        invariant forall i :: 0 <= i < k ==> all[i].ended && all[i].Now() == L.End(old(all[i].Now()), None, Some("idle"))
      {
        forall i | 0 <= i < |all| && i != k ensures all[i] != all[k] && forall h :: h in all[i].handles ==> h !in all[k].handles {
          TheirOwn(all[i], all[k]);
        }
        assert forall h :: h in all[k].handles ==> h in old(HandlesOf(turns));
        label before:
        var _ := all[k].End(None, Some("idle"));
        forall i | 0 <= i < |all| && i != k
          ensures all[i].Now() == old@before(all[i].Now()) && (old@before(all[i].Valid()) ==> all[i].Valid())
          ensures all[i].handles == old@before(all[i].handles) && all[i].ended == old@before(all[i].ended)
        {
          Untouched@before(all[i]);
        }
        k := k + 1;
      }
      turns := [];
    }
  }

  lemma OpenMore(hs: seq<L.HandleState>, h: L.HandleState)
    ensures L.OpenOf(hs + [h]) == L.OpenOf(hs) + if h.open then [|hs|] else []
  {
    assert (hs + [h])[..|hs|] == hs;
  }
}
