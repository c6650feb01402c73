/** The bounded bead trail of a busy turn (crates/inline/src/compact.rs): it keeps the last 32
    beads and an index of the tools whose bead is still among them.

    The reference is a trail that never forgets.  The class carries it as a ghost and every
    method is proved to keep its fields equal to the last 32 beads of that trail and to the
    part of its index that points at them. */
module Compact {
  import opened Styles

  datatype TrailKind = Read | Search | Edit | Bash | Agent | Code | Error

  datatype Bead = Bead(kind: TrailKind, at: int, ok: bool)

  datatype LatestAction = LatestAction(text: string, at: int, isError: bool)

  /** An agent of the turn, by its number; `finishedAt` is set when it is done. */
  datatype AgentRun = AgentRun(n: nat, title: string, startedAt: int, finishedAt: Option<int>, ok: bool)

  const MAX_TRAIL_BEADS: nat := 32

  // ----- the trail that never forgets ------------------------------------------------

  /** All beads ever pushed, and where the bead of each running tool is. */
  datatype Trail = Trail(beads: seq<Bead>, byTool: map<string, nat>)

  const NO_TRAIL := Trail([], map[])

  /** No two running tools share a bead. */
  ghost predicate Ok(t: Trail) {
    (forall id :: id in t.byTool ==> t.byTool[id] < |t.beads|) &&
    (forall a, b :: a in t.byTool && b in t.byTool && t.byTool[a] == t.byTool[b] ==> a == b)
  }

  function Pushed(t: Trail, bead: Bead): Trail { t.(beads := t.beads + [bead]) }

  function Started(t: Trail, id: string, bead: Bead): Trail {
    Pushed(t, bead).(byTool := t.byTool[id := |t.beads|])
  }

  function Closed(b: Bead, ok: bool): Bead { Bead(if ok then b.kind else Error, b.at, ok) }

  function Finished(t: Trail, id: string, ok: bool): Trail {
    if id in t.byTool then
      var i := t.byTool[id];
      Trail(if i < |t.beads| then t.beads[i := Closed(t.beads[i], ok)] else t.beads, t.byTool - {id})
    else t
  }

  // ----- what the bounded trail shows of it ---------------------------------------------

  function Base(t: Trail): nat { if |t.beads| <= MAX_TRAIL_BEADS then 0 else |t.beads| - MAX_TRAIL_BEADS }

  function Window(t: Trail): seq<Bead> { t.beads[Base(t)..] }

  /** The index restricted to the window and shifted. */
  function Index(t: Trail): map<string, nat> {
    map id | id in t.byTool && t.byTool[id] >= Base(t) :: t.byTool[id] - Base(t)
  }

  /** The index of a reachable trail is injective and in range of the window, through
      evictions and reuse of ids. */
  lemma IndexPointsIntoWindow(t: Trail)
    requires Ok(t)
    ensures forall id :: id in Index(t) ==> Index(t)[id] < |Window(t)| && Window(t)[Index(t)[id]] == t.beads[t.byTool[id]]
    ensures forall a, b :: a in Index(t) && b in Index(t) && Index(t)[a] == Index(t)[b] ==> a == b
    ensures |Window(t)| <= MAX_TRAIL_BEADS
  {
    forall id | id in Index(t) ensures Window(t)[Index(t)[id]] == t.beads[t.byTool[id]] {
      assert Base(t) + Index(t)[id] == t.byTool[id];
    }
  }

  lemma WindowSize(t: Trail)
    ensures |Window(t)| == |t.beads| - Base(t) <= MAX_TRAIL_BEADS
    ensures |Window(t)| == MAX_TRAIL_BEADS <==> |t.beads| >= MAX_TRAIL_BEADS
  {
  }

  lemma IndexAt(t: Trail, id: string)
    requires id in t.byTool
    ensures id in Index(t) <==> t.byTool[id] >= Base(t)
    ensures id in Index(t) ==> Index(t)[id] == t.byTool[id] - Base(t)
  {
  }

  lemma FinishKeepsIndex(t: Trail, id: string, ok: bool)
    ensures Base(Finished(t, id, ok)) == Base(t) && Index(Finished(t, id, ok)) == Index(t) - {id}
    ensures id !in t.byTool ==> id !in Index(t)
  {
    hide Closed;
  }

  lemma StartIndexes(t: Trail, id: string, bead: Bead)
    requires Ok(t)
    ensures var p := Pushed(t, bead);
            Window(Started(t, id, bead)) == Window(p) && Index(Started(t, id, bead)) == Index(p)[id := |t.beads| - Base(p)]
  {
    var p, s := Pushed(t, bead), Started(t, id, bead);
    assert s.beads == p.beads && Base(s) == Base(p) && |t.beads| >= Base(p);
    var want := Index(p)[id := |t.beads| - Base(p)];
    forall x ensures x in Index(s) <==> x in want {
      assert x != id ==> (x in s.byTool <==> x in p.byTool);
    }
    forall x | x in want ensures Index(s)[x] == want[x] {
      assert x != id ==> s.byTool[x] == p.byTool[x];
    }
  }

  lemma FinishIndexes(t: Trail, id: string, ok: bool)
    requires Ok(t)
    ensures Index(Finished(t, id, ok)) == Index(t) - {id}
    ensures id in Index(t) ==>
              Index(t)[id] < |Window(t)| &&
              Window(Finished(t, id, ok)) == Window(t)[Index(t)[id] := Closed(Window(t)[Index(t)[id]], ok)]
    ensures id !in Index(t) ==> Window(Finished(t, id, ok)) == Window(t)
  {
    var f := Finished(t, id, ok);
    assert Base(f) == Base(t);
    FinishKeepsIndex(t, id, ok);
    if id in t.byTool {
      var i, b := t.byTool[id], Base(t);
      hide Closed, Index, Ok;
      if i >= b {
        IndexAt(t, id);
        assert Window(t)[i - b] == t.beads[i];
        assert Window(f) == Window(t)[i - b := Closed(t.beads[i], ok)];
      } else {
        IndexAt(t, id);
        assert Window(f) == Window(t);
      }
    }
  }

  lemma StepsKeepOk(t: Trail, id: string, bead: Bead, ok: bool)
    requires Ok(t)
    ensures Ok(Pushed(t, bead)) && Ok(Started(t, id, bead)) && Ok(Finished(t, id, ok))
  {
  }

  /** Pushing a bead onto a full window drops the oldest and shifts the index. */
  lemma PushShifts(t: Trail, bead: Bead)
    requires Ok(t)
    ensures Window(Pushed(t, bead)) ==
            (if |t.beads| >= MAX_TRAIL_BEADS then Window(t)[1..] else Window(t)) + [bead]
    ensures Index(Pushed(t, bead)) ==
            if |t.beads| >= MAX_TRAIL_BEADS then map id | id in Index(t) && Index(t)[id] > 0 :: Index(t)[id] - 1
            else Index(t)
  {
  }

  // ----- the state -------------------------------------------------------------------------

  class CompactState {
    var beads: seq<Bead>
    var byTool: map<string, nat>
    var latest: Option<LatestAction>
    var files: nat
    var agents: seq<AgentRun>
    /** Every bead of this turn. */
    ghost var trail: Trail

    ghost predicate Valid()
      reads this
    {
      Ok(trail) && beads == Window(trail) && byTool == Index(trail)
    }

    constructor ()
      ensures Valid() && trail == NO_TRAIL && files == 0 && latest == None && agents == []
    {
      beads, byTool, latest, files, agents := [], map[], None, 0, [];
      trail := NO_TRAIL;
      new;
      assert Index(NO_TRAIL) == map[];
    }

    method Clear()
      modifies this
      ensures Valid() && trail == NO_TRAIL && files == 0 && latest == None && agents == []
    {
      beads, byTool, latest, files, agents := [], map[], None, 0, [];
      trail := NO_TRAIL;
      assert Index(NO_TRAIL) == map[];
    }

    method PushBead(kind: TrailKind, at: int) returns (index: nat)
      requires Valid()
      modifies `beads, `byTool, `trail
      ensures Valid() && trail == Pushed(old(trail), Bead(kind, at, true))
      ensures index < |beads| && index == |old(trail).beads| - Base(trail)
    {
      hide Ok, Index, Window;
      PushShifts(trail, Bead(kind, at, true));
      WindowSize(trail);
      if |beads| == MAX_TRAIL_BEADS {
        beads := beads[1..];
        byTool := map id | id in byTool && byTool[id] > 0 :: byTool[id] - 1;
      }
      index := |beads|;
      beads := beads + [Bead(kind, at, true)];
      StepsKeepOk(trail, "", Bead(kind, at, true), true);
      trail := Pushed(trail, Bead(kind, at, true));
    }

    method ToolStarted(id: string, kind: TrailKind, text: string, now: int)
      requires Valid()
      modifies this
      ensures Valid() && trail == Started(old(trail), id, Bead(kind, now, true)) && files == old(files) && agents == old(agents)
      ensures latest == Some(LatestAction(text, now, false))
    {
      hide Ok, Index, Window;
      StepsKeepOk(trail, id, Bead(kind, now, true), true);
      StartIndexes(trail, id, Bead(kind, now, true));
      var index := PushBead(kind, now);
      byTool := byTool[id := index];
      trail := Started(old(trail), id, Bead(kind, now, true));
      latest := Some(LatestAction(text, now, false));
    }

    method ToolFinished(id: string, ok: bool, failure: string, hasDiff: bool, now: int)
      requires Valid()
      modifies this
      ensures Valid() && trail == Finished(old(trail), id, ok) && agents == old(agents)
      ensures latest == if ok then old(latest) else Some(LatestAction(failure, now, true))
      // A file counts only while its bead is in the window.
      ensures files == old(files) + if ok && hasDiff && id in old(byTool) && old(beads)[old(byTool)[id]].kind == Edit then 1 else 0
    {
      hide Ok, Index, Window, Finished;
      FinishIndexes(trail, id, ok);
      StepsKeepOk(trail, id, Bead(Read, 0, true), ok);
      if id in byTool {
        var i := byTool[id];
        byTool := byTool - {id};
        if i < |beads| {
          if ok && beads[i].kind == Edit && hasDiff { files := files + 1; }
          beads := beads[i := Bead(if ok then beads[i].kind else Error, beads[i].at, ok)];
        }
      }
      trail := Finished(trail, id, ok);
      if !ok { latest := Some(LatestAction(failure, now, true)); }
    }

    method AgentStart(n: nat, title: string, now: int)
      requires Valid()
      modifies this
      ensures Valid() && trail == Pushed(old(trail), Bead(Agent, now, true)) && files == old(files) && latest == old(latest)
      ensures agents == WithAgent(old(agents), n, title, now)
    {
      agents := agents + [AgentRun(n, title, now, None, true)];
      var _ := PushBead(Agent, now);
    }

    /** The first open agent of the number is done. */
    method AgentDone(n: nat, ok: bool, now: int)
      requires Valid()
      modifies `agents
      ensures Valid() && agents == DoneAgent(old(agents), n, ok, now)
    {
      for k := 0 to |agents|
        invariant FirstOpen(agents, n, 0) == FirstOpen(agents, n, k)
      {
        if agents[k].n == n && agents[k].finishedAt.None? {
          agents := agents[k := agents[k].(finishedAt := Some(now), ok := ok)];
          return;
        }
      }
    }
  }

  // ----- agents ------------------------------------------------------------------------------

  function WithAgent(agents: seq<AgentRun>, n: nat, title: string, now: int): seq<AgentRun> {
    agents + [AgentRun(n, title, now, None, true)]
  }

  function FirstOpen(agents: seq<AgentRun>, n: nat, k: nat): (r: Option<nat>)
    requires k <= |agents|
    ensures r.Some? ==> k <= r.value < |agents| && agents[r.value].n == n && agents[r.value].finishedAt.None?
    decreases |agents| - k
  {
    if k == |agents| then None
    else if agents[k].n == n && agents[k].finishedAt.None? then Some(k)
    else FirstOpen(agents, n, k + 1)
  }

  function DoneAgent(agents: seq<AgentRun>, n: nat, ok: bool, now: int): seq<AgentRun> {
    match FirstOpen(agents, n, 0)
    case None => agents
    case Some(k) => agents[k := agents[k].(finishedAt := Some(now), ok := ok)]
  }

  datatype AgentEvent = Begins(n: nat, title: string, now: int) | Ends(n: nat, ok: bool, now: int)

  function AgentsOf(events: seq<AgentEvent>): seq<AgentRun> {
    if events == [] then []
    else
      var agents := AgentsOf(events[..|events| - 1]);
      match events[|events| - 1]
      case Begins(n, title, now) => WithAgent(agents, n, title, now)
      case Ends(n, ok, now) => DoneAgent(agents, n, ok, now)
  }

  /** The agents of a number, oldest first. */
  function Numbered(agents: seq<AgentRun>, n: nat): seq<AgentRun> {
    if agents == [] then []
    else
      var init, a := Numbered(agents[..|agents| - 1], n), agents[|agents| - 1];
      if a.n == n then init + [a] else init
  }

  /** The reports of a number that find an open agent. */
  function Reports(events: seq<AgentEvent>, n: nat): seq<(bool, int)> {
    if events == [] then []
    else
      var init, e := events[..|events| - 1], events[|events| - 1];
      if e.Ends? && e.n == n && |Reports(init, n)| < |Numbered(AgentsOf(init), n)| then Reports(init, n) + [(e.ok, e.now)]
      else Reports(init, n)
  }

  /** The first agents of a number are finished, each as the report of its place says; the others
      are open. */
  ghost predicate Matched(agents: seq<AgentRun>, reports: seq<(bool, int)>) {
    |reports| <= |agents| &&
    forall k :: 0 <= k < |agents| ==>
      if k < |reports| then agents[k].finishedAt == Some(reports[k].1) && agents[k].ok == reports[k].0
      else agents[k].finishedAt.None? && agents[k].ok
  }

  /** Where the agents of a number that come before `k` end among those of the number. */
  lemma {:induction false} NumberedSet(agents: seq<AgentRun>, n: nat, k: nat, a: AgentRun)
    requires k < |agents| && agents[k].n == a.n
    ensures var i := |Numbered(agents[..k], n)|;
            if a.n == n
            then i < |Numbered(agents, n)| && Numbered(agents, n)[i] == agents[k] &&
                 Numbered(agents[k := a], n) == Numbered(agents, n)[i := a]
            else Numbered(agents[k := a], n) == Numbered(agents, n)
    decreases |agents|
  {
    var last := |agents| - 1;
    if k < last {
      NumberedSet(agents[..last], n, k, a);
      assert agents[..last][..k] == agents[..k];
      assert agents[k := a][..last] == agents[..last][k := a] && agents[k := a][last] == agents[last];
    } else {
      assert agents[k := a][..last] == agents[..last];
    }
  }

  lemma {:induction false} NoneOpen(agents: seq<AgentRun>, n: nat, k: nat)
    requires k <= |agents| && (FirstOpen(agents, n, 0).Some? ==> k <= FirstOpen(agents, n, 0).value)
    ensures forall i :: 0 <= i < |Numbered(agents[..k], n)| ==> Numbered(agents[..k], n)[i].finishedAt.Some?
    decreases k
  {
    if k > 0 {
      NoneOpen(agents, n, k - 1);
      assert agents[..k][..k - 1] == agents[..k - 1];
      NotOpen(agents, n, 0, k - 1);
    }
  }

  lemma {:induction false} FrontNumbered(agents: seq<AgentRun>, n: nat, k: nat)
    requires k <= |agents|
    ensures Numbered(agents[..k], n) <= Numbered(agents, n)
    decreases |agents|
  {
    if k < |agents| {
      FrontNumbered(agents[..|agents| - 1], n, k);
      assert agents[..|agents| - 1][..k] == agents[..k];
    } else {
      assert agents[..k] == agents;
    }
  }

  /** The first open agent of a number comes right after the finished ones. */
  lemma OpenPlace(agents: seq<AgentRun>, n: nat, k: nat, reports: seq<(bool, int)>)
    requires Matched(Numbered(agents, n), reports) && FirstOpen(agents, n, 0) == Some(k)
    ensures |Numbered(agents[..k], n)| == |reports| < |Numbered(agents, n)|
  {
    var l, front := Numbered(agents, n), Numbered(agents[..k], n);
    assert |reports| < |l| ==> l[|reports|].finishedAt.None?;
    NumberedSet(agents, n, k, agents[k]);
    FrontNumbered(agents, n, k);
    hide Numbered, FirstOpen;
    assert l[|front|].finishedAt.None?;
    assert forall i :: 0 <= i < |front| ==> front[i] == l[i];
    assert |reports| < |front| ==> front[|reports|].finishedAt.None?;
    NoneOpen(agents, n, k);
  }

  lemma {:induction false} NotOpen(agents: seq<AgentRun>, n: nat, from: nat, k: nat)
    requires from <= k < |agents| && (FirstOpen(agents, n, from).Some? ==> k < FirstOpen(agents, n, from).value)
    ensures agents[k].n == n ==> agents[k].finishedAt.Some?
    decreases k - from
  {
    if from < k { NotOpen(agents, n, from + 1, k); }
  }

  lemma DoneMatches(agents: seq<AgentRun>, n: nat, m: nat, ok: bool, now: int, reports: seq<(bool, int)>)
    requires Matched(Numbered(agents, n), reports)
    ensures Matched(Numbered(DoneAgent(agents, m, ok, now), n),
                    if m == n && |reports| < |Numbered(agents, n)| then reports + [(ok, now)] else reports)
  {
    hide Numbered, FirstOpen;
    var l, k := Numbered(agents, n), FirstOpen(agents, m, 0);
    if k.Some? {
      NumberedSet(agents, n, k.value, agents[k.value].(finishedAt := Some(now), ok := ok));
      if m == n { OpenPlace(agents, n, k.value, reports); }
    } else if m == n {
      assert |reports| < |l| ==> l[|reports|].finishedAt.None?;
      NoneOpen(agents, n, |agents|);
      assert agents[..|agents|] == agents;
    }
  }

  /** On every run the agents of a number are finished in the order in which they began, one for each
      report that finds one open. */
  lemma {:induction false} AgentsFinishInOrder(events: seq<AgentEvent>, n: nat)
    ensures Matched(Numbered(AgentsOf(events), n), Reports(events, n))
  {
    if events != [] {
      var init, e := events[..|events| - 1], events[|events| - 1];
      AgentsFinishInOrder(init, n);
      match e {
        case Begins(m, title, now) =>
          var a := AgentRun(m, title, now, None, true);
          assert (AgentsOf(init) + [a])[..|AgentsOf(init)|] == AgentsOf(init);
        case Ends(m, ok, now) => DoneMatches(AgentsOf(init), n, m, ok, now, Reports(init, n));
      }
    }
  }

  // ----- runs ------------------------------------------------------------------------------

  datatype Event = ToolStart(id: string, bead: Bead) | ToolEnd(id: string, ok: bool) | AgentBead(bead: Bead)

  function Next(t: Trail, e: Event): Trail {
    match e
    case ToolStart(id, bead) => Started(t, id, bead)
    case ToolEnd(id, ok) => Finished(t, id, ok)
    case AgentBead(bead) => Pushed(t, bead)
  }

  function TrailOf(events: seq<Event>): Trail {
    if events == [] then NO_TRAIL else Next(TrailOf(events[..|events| - 1]), events[|events| - 1])
  }

  predicate About(e: Event, id: string) { !e.AgentBead? && e.id == id }

  /** The last event about the tool `id` is its start, at `k`. */
  ghost predicate IsLastStart(events: seq<Event>, id: string, k: nat) {
    k < |events| && events[k].ToolStart? && events[k].id == id && forall j :: k < j < |events| ==> !About(events[j], id)
  }

  /** Beads pushed by the events. */
  function BeadCount(events: seq<Event>): nat {
    if events == [] then 0 else BeadCount(events[..|events| - 1]) + if events[|events| - 1].ToolEnd? then 0 else 1
  }

  /** What the trail holds for a tool whose last start is at `k`. */
  ghost predicate HoldsStart(events: seq<Event>, id: string, k: nat)
    requires k < |events| && events[k].ToolStart?
  {
    var t := TrailOf(events);
    id in t.byTool && t.byTool[id] == BeadCount(events[..k]) && t.byTool[id] < |t.beads| && t.beads[t.byTool[id]] == events[k].bead
  }

  ghost predicate IndexIsOfStarts(events: seq<Event>) {
    (forall id, k :: IsLastStart(events, id, k) ==> HoldsStart(events, id, k)) &&
    (forall id :: id in TrailOf(events).byTool ==> exists k :: IsLastStart(events, id, k))
  }

  /** In every reachable state the index is injective and in range, and its ids are exactly the tools
      whose last event is a start, each at the bead of that start, as it was pushed. */
  lemma {:induction false} EveryRunIsOk(events: seq<Event>)
    ensures Ok(TrailOf(events)) && |TrailOf(events).beads| == BeadCount(events) && IndexIsOfStarts(events)
  {
    if events != [] {
      var init, e := events[..|events| - 1], events[|events| - 1];
      EveryRunIsOk(init);
      assert events == init + [e];
      var t := TrailOf(init);
      StepsKeepOk(t, if e.AgentBead? then "" else e.id, if e.ToolEnd? then Bead(Read, 0, true) else e.bead, e.ToolEnd? && e.ok);
      forall id, k | IsLastStart(events, id, k) ensures HoldsStart(events, id, k) { LastStartHolds(init, e, id, k); }
      forall id | id in TrailOf(events).byTool ensures exists k :: IsLastStart(events, id, k) { HasLastStart(init, e, id); }
    }
  }

  lemma NextTrail(init: seq<Event>, e: Event)
    ensures TrailOf(init + [e]) == Next(TrailOf(init), e)
  {
    assert (init + [e])[..|init|] == init;
  }

  lemma LastStartHolds(init: seq<Event>, e: Event, id: string, k: nat)
    requires Ok(TrailOf(init)) && |TrailOf(init).beads| == BeadCount(init) && IndexIsOfStarts(init)
    requires IsLastStart(init + [e], id, k)
    ensures HoldsStart(init + [e], id, k)
  {
    var events := init + [e];
    NextTrail(init, e);
    hide TrailOf;
    if k == |init| {
      assert events[..k] == init && events[k] == e;
    } else {
      assert events[k] == init[k] && events[..k] == init[..k];
      assert !About(events[|init|], id);
      forall j | k < j < |init| ensures !About(init[j], id) { assert events[j] == init[j]; }
      assert IsLastStart(init, id, k) && HoldsStart(init, id, k);
    }
  }

  lemma HasLastStart(init: seq<Event>, e: Event, id: string)
    requires IndexIsOfStarts(init) && id in TrailOf(init + [e]).byTool
    ensures exists k :: IsLastStart(init + [e], id, k)
  {
    var events := init + [e];
    NextTrail(init, e);
    hide TrailOf;
    if About(e, id) {
      assert IsLastStart(events, id, |init|);
    } else {
      var k :| IsLastStart(init, id, k);
      assert IsLastStart(events, id, k);
    }
  }

  /** The bounded index holds a tool exactly when its last event is a start with fewer than 32 beads
      after its own. */
  lemma IndexedIffRecent(events: seq<Event>, id: string)
    ensures id in Index(TrailOf(events)) <==>
            exists k: nat :: IsLastStart(events, id, k) && BeadCount(events) - BeadCount(events[..k]) <= MAX_TRAIL_BEADS
  {
    EveryRunIsOk(events);
    var t := TrailOf(events);
    hide TrailOf, BeadCount, Ok;
    forall k: nat | IsLastStart(events, id, k)
      ensures id in Index(t) <==> BeadCount(events) - BeadCount(events[..k]) <= MAX_TRAIL_BEADS
    {
      assert HoldsStart(events, id, k);
    }
  }

  /** A later bead never disturbs a running tool's entry except by evicting it: after `n` more
      beads the entry has moved down by the number evicted, or is gone. */
  lemma {:induction false} EntrySurvives(events: seq<Event>, more: seq<Event>, id: string)
    requires id in TrailOf(events).byTool
    requires forall k :: 0 <= k < |more| ==> !more[k].AgentBead? ==> more[k].id != id
    ensures var t := TrailOf(events + more);
            id in t.byTool && t.byTool[id] == TrailOf(events).byTool[id] &&
            (id in Index(t) <==> TrailOf(events).byTool[id] >= Base(t))
    decreases |more|
  {
    if more == [] {
      assert events + more == events;
    } else {
      var init := more[..|more| - 1];
      EntrySurvives(events, init, id);
      assert (events + more)[..|events + more| - 1] == events + init;
    }
  }
}
