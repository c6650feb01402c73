/** What the coalescer does with each event, said of single runs (crates/tui/src/persist.rs). */
module Saving {
  import opened Persist
  import opened Filters

  /** The run of a key as it is saved: under the number of its first piece, with all its text. */
  function RunFor(s: State, key: Key): seq<Event> {
    if key in s.pending then [s.pending[key].0.(text := s.pending[key].1)] else []
  }

  ghost predicate SameRun(s: State, t: State, key: Key) {
    (key in t.pending <==> key in s.pending) && (key in s.pending ==> t.pending[key] == s.pending[key])
  }

  /** The finish of a tool saves its output, then its errors, then itself; the finish of a message
      its reasoning, then its reply, then itself. */
  lemma FinishSaves(s: State, ev: Event)
    requires ev.kind == ToolFinished || ev.kind == MessageCompleted
    ensures var (t, out) := Step(s, Push(ev));
            var a: Key := if ev.kind == ToolFinished then (ToolStdout, ev.id) else (ReasoningDelta, ev.id);
            var b: Key := if ev.kind == ToolFinished then (ToolStderr, ev.id) else (TokenDelta, ev.id);
            out == RunFor(s, a) + RunFor(s, b) + [ev] && t.last == s.last &&
            a !in t.pending && b !in t.pending && forall key :: key != a && key != b ==> SameRun(s, t, key)
  {
    var a: Key := if ev.kind == ToolFinished then (ToolStdout, ev.id) else (ReasoningDelta, ev.id);
    var b: Key := if ev.kind == ToolFinished then (ToolStderr, ev.id) else (TokenDelta, ev.id);
    assert TakenBy(ev) == [a, b];
    TwoReleased(s.pending, a, b);
    assert SetOf([a, b]) == {a, b};
  }

  lemma TwoReleased(pending: map<Key, (Event, Text)>, a: Key, b: Key)
    requires a != b
    ensures Released(pending, [a, b]) ==
            (if a in pending then [pending[a].0.(text := pending[a].1)] else []) +
            (if b in pending then [pending[b].0.(text := pending[b].1)] else [])
  {
    assert [a, b][1..] == [b] && [b][1..] == [];
    var left := if a in pending then pending - {a} else pending;
    assert Released(left, [b]) == if b in left then [left[b].0.(text := left[b].1)] + Released(left - {b}, []) else Released(left, []);
  }

  /** The runs that stay keep their order. */
  lemma FinishKeepsOrder(s: State, ev: Event) returns (at: seq<nat>)
    requires Listed(s) && (ev.kind == ToolFinished || ev.kind == MessageCompleted)
    ensures var a: Key := if ev.kind == ToolFinished then (ToolStdout, ev.id) else (ReasoningDelta, ev.id);
            var b: Key := if ev.kind == ToolFinished then (ToolStderr, ev.id) else (TokenDelta, ev.id);
            IsFilter(s.order, Step(s, Push(ev)).0.order, (k: Key) => k != a && k != b, at)
  {
    var a: Key := if ev.kind == ToolFinished then (ToolStdout, ev.id) else (ReasoningDelta, ev.id);
    var b: Key := if ev.kind == ToolFinished then (ToolStderr, ev.id) else (TokenDelta, ev.id);
    FinishSaves(s, ev);
    var t := Step(s, Push(ev)).0;
    assert t.order == Retain(s.order, t.pending);
    at := RetainIs(s.order, t.pending);
    hide Step, Retain, IsFilter;
    forall k | k in s.order ensures k in t.pending <==> k != a && k != b { assert k != a && k != b ==> SameRun(s, t, k); }
    FilterAlike(s.order, t.order, (k: Key) => k in t.pending, (k: Key) => k != a && k != b, at);
  }

  lemma {:induction false} RetainIs(order: seq<Key>, left: map<Key, (Event, Text)>) returns (at: seq<nat>)
    ensures IsFilter(order, Retain(order, left), (k: Key) => k in left, at)
  {
    if order == [] {
      at := [];
    } else {
      at := RetainIs(order[1..], left);
      at := FilterFirst(order[1..], Retain(order[1..], left), (k: Key) => k in left, at, order[0]);
      assert [order[0]] + order[1..] == order;
    }
  }

  /** A piece of a reply, of reasoning or of a tool's output saves nothing.  It begins a run, as the
      newest, or goes to the end of its run: whole for a stream, for a tool the longest end of whole
      characters within 64 KB.  No other run changes. */
  lemma PieceIsKept(s: State, ev: Event, from: nat)
    requires ev.kind in {TokenDelta, ReasoningDelta, ToolStdout, ToolStderr}
    ensures var (t, out) := Step(s, Push(ev));
            var key: Key := (ev.kind, ev.id);
            out == [] && t.last == s.last && key in t.pending && (forall k :: k != key ==> SameRun(s, t, k)) &&
            if key !in s.pending then t.pending[key] == (ev, ev.text) && t.order == s.order + [key]
            else
              var text, now := s.pending[key].1 + ev.text, t.pending[key].1;
              t.order == s.order && t.pending[key].0 == s.pending[key].0 &&
              if ev.kind in {TokenDelta, ReasoningDelta} || |text| <= 65536 then now == text
              else
                |now| <= 65536 && now == text[|text| - |now|..] && IsBoundary(text, |text| - |now|) &&
                (from <= |text| && IsBoundary(text, from) && |text| - from <= 65536 ==> |text| - from <= |now|)
  {
    var key: Key := (ev.kind, ev.id);
    PieceAppends(s, ev);
    hide IsBoundary, Step;
    if key in s.pending {
      var text := Joined(s.pending[key].1, ev.text);
      if from <= |text| { TailIsLongest(text, TOOL_OUTPUT_BYTES, from); }
      TailIsLongest(text, TOOL_OUTPUT_BYTES, 0);
      hide Tail;
    }
  }

  lemma PieceAppends(s: State, ev: Event)
    requires ev.kind in {TokenDelta, ReasoningDelta, ToolStdout, ToolStderr}
    ensures Step(s, Push(ev)) == (Append(s, ev), []) && KeyOf(ev) == (ev.kind, ev.id)
    ensures IsChunk(ev.kind) <==> ev.kind in {ToolStdout, ToolStderr}
  {
    hide Append;
  }

  /** A place in a text is a boundary unless the byte there continues a character: from 128 up to 191. */
  lemma BoundaryMeans(t: seq<Byte>, i: nat)
    requires i <= |t|
    ensures IsBoundary(t, i) <==> i == 0 || i == |t| || t[i] < 128 || t[i] > 191
  {
  }

  /** A flush saves every run, oldest first. */
  lemma FlushSaves(s: State)
    requires Listed(s)
    ensures var (t, out) := Step(s, Flush);
            t.pending == map[] && t.order == [] && t.last == s.last && |out| == |s.order| &&
            forall i :: 0 <= i < |out| ==> s.order[i] in s.pending && out[i] == s.pending[s.order[i]].0.(text := s.pending[s.order[i]].1)
  {
    ReleasedAll(s.pending, s.order);
    assert forall k :: k in s.pending ==> k in SetOf(s.order);
    assert s.pending - SetOf(s.order) == map[];
    NothingRetained(s.order);
  }

  lemma {:induction false} NothingRetained(order: seq<Key>)
    ensures Retain(order, map[]) == []
  {
    if order != [] { NothingRetained(order[1..]); }
  }

  lemma {:induction false} ReleasedAll(pending: map<Key, (Event, Text)>, keys: seq<Key>)
    requires Distinct(keys) && forall k :: k in keys ==> k in pending
    ensures var out := Released(pending, keys);
            |out| == |keys| && forall i :: 0 <= i < |out| ==> out[i] == pending[keys[i]].0.(text := pending[keys[i]].1)
  {
    if keys != [] {
      forall k | k in keys[1..] ensures k in pending - {keys[0]} {}
      ReleasedAll(pending - {keys[0]}, keys[1..]);
    }
  }

  /** Commands, mention lists and statuses are saved unless the last one saved of their type was the
      same. */
  lemma RegistrationSaves(s: State, ev: Event)
    requires ev.kind == SlashCommands || ev.kind == StatusUpdate || (ev.kind == MentionCandidates && !ev.forQuery)
    ensures var (t, out) := Step(s, Push(ev));
            t.pending == s.pending && t.order == s.order &&
            out == (if ev.kind in s.last && s.last[ev.kind] == ev.body then [] else [ev]) && t.last == s.last[ev.kind := ev.body]
  {
  }

  /** Logs of background items, mention queries and the lists that answer them are never saved; every
      event that is neither these, nor a piece, a finish or a registration is saved as it is. */
  lemma OthersPass(s: State, ev: Event)
    requires ev.kind.OtherType? || ev.kind in {ActivityLog, MentionQuery} || (ev.kind == MentionCandidates && ev.forQuery)
    ensures Step(s, Push(ev)) == (s, if ev.kind.OtherType? then [ev] else [])
  {
  }
}
