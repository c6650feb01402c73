/** What each event does to the trail of beads and to the agents (crates/inline/src/compact.rs:124-210),
    said bead by bead. */
module Trails {
  import opened Styles
  import opened Compact
  import opened Filters

  /** The window is the last 32 beads, and the index says where in it the running tools are. */
  lemma WindowIs(t: Trail, id: string, k: nat)
    requires Ok(t)
    ensures var w, n := Window(t), |t.beads|;
            |w| == (if n < 32 then n else 32) && (k < |w| ==> w[k] == t.beads[n - |w| + k]) &&
            (id in Index(t) <==> id in t.byTool && t.byTool[id] + |w| >= n) &&
            (id in Index(t) ==> Index(t)[id] < |w| && Index(t)[id] == t.byTool[id] - (n - |w|))
  {
    WindowSize(t);
    if id in t.byTool { IndexAt(t, id); }
  }

  /** A tool that starts has the newest bead, of its kind and not failed; the others stay. */
  lemma StartMeans(t: Trail, id: string, kind: TrailKind, now: int, other: string)
    requires Ok(t)
    ensures var n, bead := Started(t, id, Bead(kind, now, true)), Bead(kind, now, true);
            n.beads == t.beads + [bead] && n.byTool == t.byTool[id := |t.beads|] &&
            var w := Window(n);
            w != [] && w[|w| - 1] == bead && id in Index(n) && Index(n)[id] == |w| - 1 &&
            (other != id ==> (other in Index(n) <==> other in Index(t) && (Index(t)[other] > 0 || |t.beads| < 32)))
  {
    var n := Started(t, id, Bead(kind, now, true));
    StepsKeepOk(t, id, Bead(kind, now, true), true);
    WindowIs(n, id, |Window(n)| - 1);
    WindowIs(n, other, 0);
    WindowIs(t, other, 0);
  }

  /** The bead of a tool that fails becomes an error; that of one that succeeds keeps its kind and is
      good; either keeps its time and its place, and the tool leaves the index.  Nothing else changes,
      and nothing at all for a tool that is not running. */
  lemma FinishMeans(t: Trail, id: string, ok: bool, k: nat, other: string)
    requires Ok(t)
    ensures var n := Finished(t, id, ok);
            |Window(n)| == |Window(t)| && id !in Index(n) &&
            (other != id ==> (other in Index(n) <==> other in Index(t)) && (other in Index(t) ==> Index(n)[other] == Index(t)[other])) &&
            (k < |Window(t)| ==>
               var was, now := Window(t)[k], Window(n)[k];
               if id in Index(t) && Index(t)[id] == k then
                 now.at == was.at && now.ok == ok && now.kind == if ok then was.kind else TrailKind.Error
               else now == was) &&
            (id !in t.byTool ==> n == t)
  {
    FinishIndexes(t, id, ok);
    hide Window, Index, Ok;
  }

  /** An agent that starts comes last, open; a report is of the first open agent of its number, and of
      no other. */
  lemma AgentsMean(agents: seq<AgentRun>, n: nat, title: string, ok: bool, now: int, k: nat)
    ensures WithAgent(agents, n, title, now) == agents + [AgentRun(n, title, now, None, true)]
    ensures var after := DoneAgent(agents, n, ok, now);
            |after| == |agents| &&
            (k < |agents| ==>
               var a := agents[k];
               after[k] == if a.n == n && a.finishedAt == None && (forall j :: 0 <= j < k ==> agents[j].n != n || agents[j].finishedAt.Some?)
                           then AgentRun(n, a.title, a.startedAt, Some(now), ok) else a)
  {
    FirstOpenIs(agents, n, 0);
  }

  lemma {:induction false} FirstOpenIs(agents: seq<AgentRun>, n: nat, from: nat)
    requires from <= |agents|
    ensures var r := FirstOpen(agents, n, from);
            forall j :: from <= j < (if r.Some? then r.value else |agents|) ==> agents[j].n != n || agents[j].finishedAt.Some?
    decreases |agents| - from
  {
    if from < |agents| && !(agents[from].n == n && agents[from].finishedAt.None?) { FirstOpenIs(agents, n, from + 1); }
  }

  /** On every run the agents are those that began, in order, each with its number, title and time. */
  lemma {:induction false} AgentsAreStarts(events: seq<AgentEvent>) returns (starts: seq<AgentEvent>, at: seq<nat>)
    ensures IsFilter(events, starts, (e: AgentEvent) => e.Begins?, at) && |AgentsOf(events)| == |starts|
    ensures forall k :: 0 <= k < |starts| ==>
              var a := AgentsOf(events)[k]; starts[k] == Begins(a.n, a.title, a.startedAt)
  {
    hide IsFilter;
    var begins := (e: AgentEvent) => e.Begins?;
    if events == [] {
      FilterNone(begins);
      starts, at := [], [];
    } else {
      var init, e := events[..|events| - 1], events[|events| - 1];
      starts, at := AgentsAreStarts(init);
      FilterLast(init, starts, begins, at, e);
      assert init + [e] == events;
      if e.Begins? { starts, at := starts + [e], at + [|init|]; }
    }
  }
}
