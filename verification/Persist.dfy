/** The stream of events on its way to the store (crates/tui/src/persist.rs).

    `Coalescer` merges streamed deltas into one event per run and skips repeated
    registrations.  The lemmas say what a whole history of pushes and flushes leaves saved
    and buffered, in terms of that history alone, and that a replay sorted by `seq` shows
    the same text. */
module Persist {

  // ----- text as UTF-8 bytes ---------------------------------------------------

  type Byte = b: int | 0 <= b < 256 witness 0

  predicate IsContinuation(b: Byte) { 128 <= b < 192 }

  /** Of UTF-8 well-formedness only this is needed: no text starts inside a character. */
  predicate StartsCleanly(t: seq<Byte>) { t == [] || !IsContinuation(t[0]) }

  type Text = t: seq<Byte> | StartsCleanly(t) witness []

  predicate IsBoundary(t: seq<Byte>, i: nat)
    requires i <= |t|
  {
    i == 0 || i == |t| || !IsContinuation(t[i])
  }

  /** The first character boundary at or after `c`. */
  function CutAt(t: seq<Byte>, c: nat): (r: nat)
    requires c <= |t|
    ensures c <= r <= |t| && IsBoundary(t, r)
    ensures forall j :: c <= j < r ==> !IsBoundary(t, j)
    decreases |t| - c
  {
    if IsBoundary(t, c) then c else CutAt(t, c + 1)
  }

  /** The end of `t` that fits in `cap` bytes without splitting a character. */
  function Tail(t: Text, cap: nat): (r: Text) {
    if |t| <= cap then t else
      var c := CutAt(t, |t| - cap);
      assert c == |t| || t[c..][0] == t[c];
      t[c..]
  }

  // ----- events ------------------------------------------------------------------

  datatype EventType =
    | TokenDelta | ReasoningDelta
    | ToolStdout | ToolStderr
    | MessageCompleted | ToolFinished
    | ActivityLog | MentionQuery
    | SlashCommands | MentionCandidates | StatusUpdate
    | OtherType(name: string)

  /** `id` is the stream or tool id, `text` the token or chunk, `body` the rest of the
      payload, `forQuery` whether a mention list answers a typed path. */
  datatype Event = Event(seqNo: int, kind: EventType, id: string, text: Text, body: string, forQuery: bool)

  type Key = (EventType, string)

  function KeyOf(ev: Event): Key { (ev.kind, ev.id) }

  predicate IsToken(t: EventType) { t.TokenDelta? || t.ReasoningDelta? }

  predicate IsChunk(t: EventType) { t.ToolStdout? || t.ToolStderr? }

  predicate IsDelta(t: EventType) { IsToken(t) || IsChunk(t) }

  predicate IsRegistration(ev: Event) {
    ev.kind.SlashCommands? || ev.kind.StatusUpdate? || (ev.kind.MentionCandidates? && !ev.forQuery)
  }

  predicate IsDropped(ev: Event) {
    ev.kind.ActivityLog? || ev.kind.MentionQuery? || (ev.kind.MentionCandidates? && ev.forQuery)
  }

  /** Cap on the saved output of a tool; replies have none. */
  const TOOL_OUTPUT_BYTES: nat := 64 * 1024

  // ----- the state and its transitions --------------------------------------------

  datatype State = State(pending: map<Key, (Event, Text)>, order: seq<Key>, last: map<EventType, string>)

  const EMPTY := State(map[], [], map[])

  function Joined(t: Text, piece: Text): Text {
    assert t + piece == [] || (t + piece)[0] == (if t == [] then piece[0] else t[0]);
    t + piece
  }

  function Append(s: State, ev: Event): State {
    var key := KeyOf(ev);
    if key in s.pending then
      var grown := Joined(s.pending[key].1, ev.text);
      s.(pending := s.pending[key := (s.pending[key].0, if IsChunk(ev.kind) then Tail(grown, TOOL_OUTPUT_BYTES) else grown)])
    else
      s.(order := s.order + [key], pending := s.pending[key := (ev, ev.text)])
  }

  /** The events saved for `keys`, in that order, each once. */
  function Released(pending: map<Key, (Event, Text)>, keys: seq<Key>): seq<Event> {
    if keys == [] then []
    else if keys[0] in pending then
      [pending[keys[0]].0.(text := pending[keys[0]].1)] + Released(pending - {keys[0]}, keys[1..])
    else Released(pending, keys[1..])
  }

  function SetOf(keys: seq<Key>): set<Key> { set k | k in keys }

  function Retain(order: seq<Key>, pending: map<Key, (Event, Text)>): seq<Key> {
    if order == [] then []
    else if order[0] in pending then [order[0]] + Retain(order[1..], pending)
    else Retain(order[1..], pending)
  }

  function Take(s: State, keys: seq<Key>): (State, seq<Event>) {
    var left := s.pending - SetOf(keys);
    (s.(pending := left, order := Retain(s.order, left)), Released(s.pending, keys))
  }

  function TakenBy(ev: Event): seq<Key> {
    match ev.kind
    case MessageCompleted => [(ReasoningDelta, ev.id), (TokenDelta, ev.id)]
    case ToolFinished => [(ToolStdout, ev.id), (ToolStderr, ev.id)]
    case _ => []
  }

  datatype Input = Push(ev: Event) | Flush

  function Step(s: State, x: Input): (State, seq<Event>) {
    match x
    case Flush => Take(s, s.order)
    case Push(ev) =>
      if IsDelta(ev.kind) then (Append(s, ev), [])
      else if ev.kind.MessageCompleted? || ev.kind.ToolFinished? then
        var (t, out) := Take(s, TakenBy(ev));
        (t, out + [ev])
      else if IsDropped(ev) then (s, [])
      else if IsRegistration(ev) then
        if ev.kind in s.last && s.last[ev.kind] == ev.body then (s, [])
        else (s.(last := s.last[ev.kind := ev.body]), [ev])
      else (s, [ev])
  }

  // ----- the class ---------------------------------------------------------------------

  class Coalescer {
    /** For each open run the event it began with and its text. */
    var pending: map<Key, (Event, Text)>
    /** The keys of the open runs, oldest first. */
    var order: seq<Key>
    /** By registration type, the body saved last. */
    var last: map<EventType, string>

    ghost function View(): State
      reads this
    {
      State(pending, order, last)
    }

    constructor ()
      ensures View() == EMPTY
    {
      pending, order, last := map[], [], map[];
    }

    /** What one event makes ready to be saved. */
    method Push(ev: Event) returns (out: seq<Event>)
      modifies this
      ensures (View(), out) == Step(old(View()), Input.Push(ev))
    {
      out := [];
      match ev.kind {
        case TokenDelta | ReasoningDelta => AppendText(ev, false);
        case ToolStdout | ToolStderr => AppendText(ev, true);
        case MessageCompleted =>
          out := TakeKeys([(ReasoningDelta, ev.id), (TokenDelta, ev.id)]);
          out := out + [ev];
        case ToolFinished =>
          out := TakeKeys([(ToolStdout, ev.id), (ToolStderr, ev.id)]);
          out := out + [ev];
        case ActivityLog | MentionQuery =>
        case SlashCommands | MentionCandidates | StatusUpdate =>
          if ev.kind.MentionCandidates? && ev.forQuery { return; }
          if ev.kind in last && last[ev.kind] == ev.body { return; }
          last := last[ev.kind := ev.body];
          out := [ev];
        case OtherType(_) => out := [ev];
      }
    }

    /** Everything still buffered, e.g. on shutdown. */
    method FlushAll() returns (out: seq<Event>)
      modifies this
      ensures (View(), out) == Step(old(View()), Flush)
    {
      out := TakeKeys(order);
    }

    method AppendText(ev: Event, capped: bool)
      requires IsDelta(ev.kind) && capped == IsChunk(ev.kind)
      modifies this
      ensures View() == Append(old(View()), ev)
    {
      var key := (ev.kind, ev.id);
      if key in pending {
        var (first, text) := pending[key];
        text := Joined(text, ev.text);
        if capped && |text| > TOOL_OUTPUT_BYTES {
          var cut := |text| - TOOL_OUTPUT_BYTES;
          while !IsBoundary(text, cut)
            invariant cut <= |text|
            invariant CutAt(text, |text| - TOOL_OUTPUT_BYTES) == CutAt(text, cut)
            decreases |text| - cut
          {
            cut := cut + 1;
          }
          text := text[cut..];
        }
        pending := pending[key := (first, text)];
      } else {
        order := order + [key];
        pending := pending[key := (ev, ev.text)];
      }
    }

    method TakeKeys(keys: seq<Key>) returns (out: seq<Event>)
      modifies this
      ensures (View(), out) == Take(old(View()), keys)
    {
      out := [];
      for n := 0 to |keys|
        invariant order == old(order) && last == old(last)
        invariant pending == old(pending) - SetOf(keys[..n])
        invariant out + Released(pending, keys[n..]) == Released(old(pending), keys)
      {
        var key := keys[n];
        ghost var rest := Released(pending, keys[n..]);
        assert keys[n..][1..] == keys[n + 1..];
        assert keys[..n + 1] == keys[..n] + [key];
        if key in pending {
          var (first, text) := pending[key];
          pending := pending - {key};
          assert rest == [first.(text := text)] + Released(pending, keys[n + 1..]);
          out := out + [first.(text := text)];
        }
      }
      assert keys[..|keys|] == keys;
      assert out == out + Released(pending, keys[|keys|..]) == Released(old(pending), keys);
      var kept: seq<Key> := [];
      for n := 0 to |order|
        invariant kept + Retain(order[n..], pending) == Retain(order, pending)
      {
        assert order[n..][1..] == order[n + 1..];
        if order[n] in pending { kept := kept + [order[n]]; }
      }
      assert kept == kept + Retain(order[|order|..], pending) == Retain(order, pending);
      order := kept;
    }
  }

  // ----- whole histories ------------------------------------------------------------------

  function After(ins: seq<Input>): State {
    if ins == [] then EMPTY else Step(After(ins[..|ins| - 1]), ins[|ins| - 1]).0
  }

  function Saved(ins: seq<Input>): seq<Event> {
    if ins == [] then []
    else Saved(ins[..|ins| - 1]) + Step(After(ins[..|ins| - 1]), ins[|ins| - 1]).1
  }

  /** Does input `x` end the run of `k`? */
  predicate Ends(x: Input, k: Key) { x.Flush? || k in TakenBy(x.ev) }

  /** What the current run of `k` received, from the history alone: the texts pushed for
      `k` since the last input that ended its run. */
  function Pieces(ins: seq<Input>, k: Key): seq<Event> {
    if ins == [] then []
    else
      var x, before := ins[|ins| - 1], Pieces(ins[..|ins| - 1], k);
      if Ends(x, k) then []
      else if IsDelta(x.ev.kind) && KeyOf(x.ev) == k then before + [x.ev]
      else before
  }

  function Concat(evs: seq<Event>): Text {
    if evs == [] then [] else Joined(Concat(evs[..|evs| - 1]), evs[|evs| - 1].text)
  }

  /** What a run is saved as: reply text whole; a tool's single chunk whole, several
      chunks as the longest tail of everything received that fits the cap. */
  function RunText(k: Key, pieces: seq<Event>): Text {
    if IsToken(k.0) || |pieces| == 1 then Concat(pieces) else Tail(Concat(pieces), TOOL_OUTPUT_BYTES)
  }

  // ----- capping chunk by chunk is capping once ------------------------------------------------

  /** Cutting a suffix that starts at a boundary `c` is cutting the whole, shifted. */
  lemma CutInSuffix(t: seq<Byte>, c: nat, x: nat)
    requires c <= |t| && IsBoundary(t, c) && 0 < x <= |t| - c
    ensures CutAt(t[c..], x) + c == CutAt(t, c + x)
  {
    var k := t[c..];
    assert forall j :: 0 < j <= |k| ==> IsBoundary(k, j) == IsBoundary(t, c + j);
    var e, d := CutAt(k, x), CutAt(t, c + x);
    assert IsBoundary(t, c + e) && IsBoundary(k, d - c);
  }

  /** A cut found in `t` is the cut from there in any extension of it. */
  lemma CutInPrefix(t: Text, piece: Text, x: nat)
    requires x <= |t|
    ensures IsBoundary(Joined(t, piece), CutAt(t, x))
    ensures forall y :: x <= y <= CutAt(t, x) ==> CutAt(Joined(t, piece), y) == CutAt(t, x)
  {
    var whole, c := Joined(t, piece), CutAt(t, x);
    assert forall j :: 0 <= j < |t| ==> IsBoundary(t, j) == IsBoundary(whole, j);
    assert IsBoundary(whole, |t|);
  }

  /** Text before a cut that the cap would drop makes no difference. */
  lemma TailFromCut(whole: Text, c: nat, cap: nat)
    requires c <= |whole| && |whole| > cap && IsBoundary(whole, c)
    requires |whole| - cap <= c ==> CutAt(whole, |whole| - cap) == c
    ensures Tail(whole[c..], cap) == Tail(whole, cap)
  {
    var kept := whole[c..];
    if |kept| > cap {
      CutInSuffix(whole, c, |kept| - cap);
      hide CutAt, IsBoundary;
      assert kept[CutAt(kept, |kept| - cap)..] == whole[c + CutAt(kept, |kept| - cap)..];
    }
  }

  /** Trimming as the text grows gives the same tail as trimming at the end. */
  lemma TailOfTail(t: Text, piece: Text, cap: nat)
    ensures Tail(Joined(Tail(t, cap), piece), cap) == Tail(Joined(t, piece), cap)
  {
    if |t| > cap {
      var whole, c := Joined(t, piece), CutAt(t, |t| - cap);
      CutInPrefix(t, piece, |t| - cap);
      assert Joined(t[c..], piece) == whole[c..];
      hide CutAt, IsBoundary;
      assert |whole| - cap <= c ==> CutAt(whole, |whole| - cap) == c;
      TailFromCut(whole, c, cap);
    }
  }

  /** The run of a tool is saved over the cap exactly when it is a single chunk over the cap: the
      first chunk of a run is taken as it is. */
  lemma RunFitsIff(k: Key, pieces: seq<Event>)
    requires IsChunk(k.0) && pieces != []
    ensures |RunText(k, pieces)| <= TOOL_OUTPUT_BYTES <==> |pieces| != 1 || |pieces[0].text| <= TOOL_OUTPUT_BYTES
  {
    if |pieces| == 1 {
      assert Concat(pieces) == Joined(Concat([]), pieces[0].text);
    } else {
      TailIsLongest(Concat(pieces), TOOL_OUTPUT_BYTES, 0);
    }
  }

  /** `Tail` is the longest suffix within the cap that starts at a character. */
  lemma TailIsLongest(t: Text, cap: nat, from: nat)
    requires from <= |t|
    ensures |Tail(t, cap)| <= cap && Tail(t, cap) == t[|t| - |Tail(t, cap)|..]
    ensures IsBoundary(t, |t| - |Tail(t, cap)|)
    ensures IsBoundary(t, from) && |t| - from <= cap ==> |t| - from <= |Tail(t, cap)|
  {
  }

  // ----- what is buffered ------------------------------------------------------------------------

  /** After any history, exactly the runs with pieces are buffered, under their first event,
      holding what the run is to be saved as. */
  lemma {:induction false} PendingIsPieces(ins: seq<Input>, k: Key)
    ensures k in After(ins).pending <==> Pieces(ins, k) != []
    ensures k in After(ins).pending ==>
              IsDelta(k.0) && KeyOf(Pieces(ins, k)[0]) == k &&
              After(ins).pending[k] == (Pieces(ins, k)[0], RunText(k, Pieces(ins, k)))
  {
    if ins == [] { return; }
    var init, x := ins[..|ins| - 1], ins[|ins| - 1];
    PendingIsPieces(init, k);
    OrderListsPending(init);
    StepPending(After(init), x, k);
    if x.Push? && IsDelta(x.ev.kind) && KeyOf(x.ev) == k {
      OnePieceMore(k, Pieces(init, k), x.ev);
    }
  }

  /** One input seen from run `k`: it ends the run, extends it, or leaves it alone. */
  lemma StepPending(s: State, x: Input, k: Key)
    requires Listed(s)
    ensures var p := Step(s, x).0.pending;
            if Ends(x, k) then k !in p
            else if x.Push? && IsDelta(x.ev.kind) && KeyOf(x.ev) == k then
              k in p && p[k] == Append(s, x.ev).pending[k]
            else (k in p <==> k in s.pending) && (k in p ==> p[k] == s.pending[k])
  {
    assert x.Push? && KeyOf(x.ev) == k && IsDelta(x.ev.kind) ==> !Ends(x, k);
  }

  lemma OnePieceMore(k: Key, ps: seq<Event>, ev: Event)
    requires IsDelta(k.0)
    ensures RunText(k, ps + [ev]) ==
            if ps == [] then ev.text
            else if IsChunk(k.0) then Tail(Joined(RunText(k, ps), ev.text), TOOL_OUTPUT_BYTES)
            else Joined(RunText(k, ps), ev.text)
  {
    assert (ps + [ev])[..|ps|] == ps;
    assert Concat(ps + [ev]) == Joined(Concat(ps), ev.text);
    if ps == [] {
      assert Concat([]) == [] && Joined([], ev.text) == ev.text;
    } else {
      TailOfTail(Concat(ps), ev.text, TOOL_OUTPUT_BYTES);
    }
  }

  lemma {:induction false} RetainIs(order: seq<Key>, pending: map<Key, (Event, Text)>)
    requires Distinct(order)
    ensures Distinct(Retain(order, pending))
    ensures forall k :: k in Retain(order, pending) <==> k in order && k in pending
  {
    if order != [] {
      RetainIs(order[1..], pending);
    }
  }

  ghost predicate Distinct(keys: seq<Key>) { forall i, j :: 0 <= i < j < |keys| ==> keys[i] != keys[j] }

  /** `order` lists exactly the buffered runs, each once. */
  ghost predicate Listed(s: State) {
    Distinct(s.order) && forall k :: k in s.order <==> k in s.pending
  }

  lemma StepKeepsListed(s: State, x: Input)
    requires Listed(s)
    ensures Listed(Step(s, x).0)
  {
    if x.Push? && IsDelta(x.ev.kind) {
      var t := Append(s, x.ev);
      assert forall k :: k in t.order <==> k in s.order || k == KeyOf(x.ev);
    } else {
      var keys := if x.Flush? then s.order else TakenBy(x.ev);
      RetainIs(s.order, s.pending - SetOf(keys));
    }
  }

  lemma {:induction false} OrderListsPending(ins: seq<Input>)
    ensures Listed(After(ins))
  {
    if ins != [] {
      OrderListsPending(ins[..|ins| - 1]);
      StepKeepsListed(After(ins[..|ins| - 1]), ins[|ins| - 1]);
    }
  }

  lemma NonEmptyHasMember(keys: seq<Key>)
    ensures keys != [] ==> exists k :: k in keys
  {
    if keys != [] { assert keys[0] in keys; }
  }

  /** A flush leaves nothing behind. */
  lemma FlushEmpties(ins: seq<Input>)
    ensures After(ins + [Flush]).pending == map[] && After(ins + [Flush]).order == []
  {
    OrderListsPending(ins);
    OrderListsPending(ins + [Flush]);
    assert (ins + [Flush])[..|ins|] == ins;
    var was, s := After(ins), After(ins + [Flush]);
    assert s == Step(was, Flush).0;
    hide After, Retain;
    assert forall k :: k in was.order <==> k in was.pending;
    assert forall k :: k !in s.pending;
    NonEmptyHasMember(s.order);
  }

  // ----- what is saved -------------------------------------------------------------------------------

  /** The events of `evs` for key `k`. */
  function Of(evs: seq<Event>, k: Key): seq<Event> {
    if evs == [] then []
    else if KeyOf(evs[|evs| - 1]) == k then Of(evs[..|evs| - 1], k) + [evs[|evs| - 1]]
    else Of(evs[..|evs| - 1], k)
  }

  lemma {:induction false} OfAppend(x: seq<Event>, y: seq<Event>, k: Key)
    ensures Of(x + y, k) == Of(x, k) + Of(y, k)
  {
    if y == [] {
      assert x + y == x;
    } else {
      OfAppend(x, y[..|y| - 1], k);
      assert (x + y)[..|x + y| - 1] == x + y[..|y| - 1];
      assert (x + y)[|x + y| - 1] == y[|y| - 1];
    }
  }

  lemma OfOne(e: Event, k: Key)
    ensures Of([e], k) == if KeyOf(e) == k then [e] else []
  {
    assert [e][..0] == [];
  }

  ghost predicate Keyed(pending: map<Key, (Event, Text)>) {
    forall k :: k in pending ==> KeyOf(pending[k].0) == k
  }

  lemma {:induction false} ReleasedOf(pending: map<Key, (Event, Text)>, keys: seq<Key>, k: Key)
    requires Keyed(pending)
    ensures Of(Released(pending, keys), k) ==
            if k in keys && k in pending then [pending[k].0.(text := pending[k].1)] else []
  {
    if keys != [] {
      var key := keys[0];
      if key in pending {
        var e := pending[key].0.(text := pending[key].1);
        ReleasedOf(pending - {key}, keys[1..], k);
        OfAppend([e], Released(pending - {key}, keys[1..]), k);
        OfOne(e, k);
      } else {
        ReleasedOf(pending, keys[1..], k);
      }
    }
  }

  lemma PendingIsKeyed(ins: seq<Input>)
    ensures Keyed(After(ins).pending)
  {
    forall k | k in After(ins).pending ensures KeyOf(After(ins).pending[k].0) == k {
      PendingIsPieces(ins, k);
    }
  }

  /** What one more input saves for the run of `k`: nothing, or the whole run as one event
      that carries the run's first `seq`. */
  lemma SavedForRun(ins: seq<Input>, x: Input, k: Key)
    requires IsDelta(k.0)
    ensures var ps := Pieces(ins, k);
            Of(Saved(ins + [x]), k) ==
            Of(Saved(ins), k) + if Ends(x, k) && ps != [] then [ps[0].(text := RunText(k, ps))] else []
  {
    hide Step, RunText, Keyed, Listed;
    var s := After(ins);
    assert (ins + [x])[..|ins|] == ins;
    PendingIsPieces(ins, k);
    PendingIsKeyed(ins);
    OrderListsPending(ins);
    assert Saved(ins + [x]) == Saved(ins) + Step(s, x).1;
    hide After, Saved, Of, Pieces;
    OfAppend(Saved(ins), Step(s, x).1, k);
    StepSaves(s, x, k);
  }

  lemma StepSaves(s: State, x: Input, k: Key)
    requires IsDelta(k.0) && Keyed(s.pending)
    requires Listed(s)
    ensures Of(Step(s, x).1, k) == if Ends(x, k) && k in s.pending then [s.pending[k].0.(text := s.pending[k].1)] else []
  {
    var keys := if x.Flush? then s.order else TakenBy(x.ev);
    ReleasedOf(s.pending, keys, k);
    if x.Push? && !IsDelta(x.ev.kind) {
      OfOne(x.ev, k);
      OfAppend(Released(s.pending, keys), [x.ev], k);
    }
  }

  /** All the text pushed for `k` over a history. */
  function Received(ins: seq<Input>, k: Key): Text {
    if ins == [] then []
    else
      var x := ins[|ins| - 1];
      if x.Push? && KeyOf(x.ev) == k then Joined(Received(ins[..|ins| - 1], k), x.ev.text)
      else Received(ins[..|ins| - 1], k)
  }

  lemma PiecesStep(ins: seq<Input>, x: Input, k: Key)
    ensures Pieces(ins + [x], k) ==
            if Ends(x, k) then []
            else if IsDelta(x.ev.kind) && KeyOf(x.ev) == k then Pieces(ins, k) + [x.ev]
            else Pieces(ins, k)
    ensures Received(ins + [x], k) ==
            if x.Push? && KeyOf(x.ev) == k then Joined(Received(ins, k), x.ev.text) else Received(ins, k)
  {
    assert (ins + [x])[..|ins|] == ins;
  }

  lemma NothingYet(k: Key)
    ensures Concat(Of(Saved([]), k)) + Concat(Pieces([], k)) == Received([], k)
  {
  }

  /** Conservation: for every reply and reasoning stream, the text saved plus the text still
      buffered is all the text received, whatever flushes and completions came between. */
  lemma {:induction false} TextConserved(ins: seq<Input>, k: Key)
    requires IsToken(k.0)
    ensures Concat(Of(Saved(ins), k)) + Concat(Pieces(ins, k)) == Received(ins, k)
  {
    hide Saved, Of, Concat, RunText, Pieces, Received, TakenBy;
    if ins == [] {
      NothingYet(k);
      return;
    }
    var init, x := ins[..|ins| - 1], ins[|ins| - 1];
    TextConserved(init, k);
    assert ins == init + [x];
    SavedForRun(init, x, k);
    PiecesStep(init, x, k);
    ConcatMore(Of(Saved(init), k), Pieces(init, k), x, k);
  }

  lemma ConcatMore(had: seq<Event>, ps: seq<Event>, x: Input, k: Key)
    requires IsToken(k.0)
    ensures Ends(x, k) && ps != [] ==> Concat(had + [ps[0].(text := RunText(k, ps))]) == Concat(had) + Concat(ps)
    ensures x.Push? ==> Concat(had) + Concat(ps + [x.ev]) == (Concat(had) + Concat(ps)) + x.ev.text
    ensures x.Push? && Ends(x, k) ==> KeyOf(x.ev) != k
    ensures Concat([]) == [] && had + [] == had
  {
    if ps != [] {
      var e := ps[0].(text := RunText(k, ps));
      assert (had + [e])[..|had|] == had;
    }
    if x.Push? {
      assert (ps + [x.ev])[..|ps|] == ps;
      assert Concat(had) + (Concat(ps) + x.ev.text) == (Concat(had) + Concat(ps)) + x.ev.text;
    }
  }

  // ----- replay: sorting what was saved by `seq` ---------------------------------------------------------

  ghost predicate Increasing(evs: seq<Event>) { forall i, j :: 0 <= i < j < |evs| ==> evs[i].seqNo < evs[j].seqNo }

  ghost predicate SortedBySeq(evs: seq<Event>) { forall i, j :: 0 <= i < j < |evs| ==> evs[i].seqNo <= evs[j].seqNo }

  /** The host's events arrive with strictly increasing `seq`. */
  ghost predicate InSeqOrder(ins: seq<Input>) {
    forall i, j :: 0 <= i < j < |ins| && ins[i].Push? && ins[j].Push? ==> ins[i].ev.seqNo < ins[j].ev.seqNo
  }

  ghost predicate Below(evs: seq<Event>, n: int) { forall i :: 0 <= i < |evs| ==> evs[i].seqNo < n }

  lemma {:induction false} PiecesAreInputs(ins: seq<Input>, k: Key, n: int)
    requires forall i :: 0 <= i < |ins| && ins[i].Push? ==> ins[i].ev.seqNo < n
    ensures Below(Pieces(ins, k), n)
  {
    if ins != [] { PiecesAreInputs(ins[..|ins| - 1], k, n); }
  }

  ghost predicate InputsBelow(ins: seq<Input>, n: int) {
    forall i :: 0 <= i < |ins| && ins[i].Push? ==> ins[i].ev.seqNo < n
  }

  lemma {:induction false} SavedBelow(ins: seq<Input>, k: Key, n: int)
    requires IsDelta(k.0) && InputsBelow(ins, n)
    ensures Below(Of(Saved(ins), k), n)
  {
    if ins == [] { return; }
    var init, x := ins[..|ins| - 1], ins[|ins| - 1];
    assert forall i :: 0 <= i < |init| ==> init[i] == ins[i];
    SavedBelow(init, k, n);
    PiecesAreInputs(init, k, n);
    assert ins == init + [x];
    SavedForRun(init, x, k);
  }

  /** Saved runs of one stream carry increasing `seq`, all below the run being buffered. */
  lemma {:induction false} RunsIncrease(ins: seq<Input>, k: Key)
    requires IsDelta(k.0) && InSeqOrder(ins)
    ensures Increasing(Of(Saved(ins), k))
    ensures Pieces(ins, k) != [] ==> Below(Of(Saved(ins), k), Pieces(ins, k)[0].seqNo)
  {
    if ins == [] { return; }
    var init, x := ins[..|ins| - 1], ins[|ins| - 1];
    assert forall i :: 0 <= i < |init| ==> init[i] == ins[i];
    RunsIncrease(init, k);
    assert ins == init + [x];
    SavedForRun(init, x, k);
    if x.Push? {
      assert InputsBelow(init, x.ev.seqNo);
      SavedBelow(init, k, x.ev.seqNo);
    }
  }

  lemma {:induction false} OfSorted(evs: seq<Event>, k: Key)
    requires SortedBySeq(evs)
    ensures SortedBySeq(Of(evs, k))
    ensures forall e :: e in Of(evs, k) ==> e in evs
  {
    if evs != [] {
      OfSorted(evs[..|evs| - 1], k);
      var last := evs[|evs| - 1];
      assert forall e :: e in evs[..|evs| - 1] ==> e.seqNo <= last.seqNo;
    }
  }

  lemma {:induction false} OfCounts(evs: seq<Event>, k: Key, e: Event)
    ensures multiset(Of(evs, k))[e] == if KeyOf(e) == k then multiset(evs)[e] else 0
  {
    if evs != [] {
      OfCounts(evs[..|evs| - 1], k, e);
      assert evs == evs[..|evs| - 1] + [evs[|evs| - 1]];
    }
  }

  lemma LastIsLargest(x: seq<Event>, y: seq<Event>)
    requires Increasing(x) && SortedBySeq(y) && multiset(x) == multiset(y) && x != [] && y != []
    ensures x[|x| - 1] == y[|y| - 1]
  {
    var a, b := x[|x| - 1], y[|y| - 1];
    assert b in multiset(x) && a in multiset(y);
    assert b in x && a in y;
  }

  lemma DropLast(x: seq<Event>)
    requires x != []
    ensures multiset(x[..|x| - 1]) == multiset(x) - multiset{x[|x| - 1]}
  {
    assert x == x[..|x| - 1] + [x[|x| - 1]];
  }

  /** A strictly sorted sequence is the only sorted arrangement of its elements. */
  lemma {:induction false} SortedIsUnique(x: seq<Event>, y: seq<Event>)
    requires Increasing(x) && SortedBySeq(y) && multiset(x) == multiset(y)
    ensures x == y
  {
    assert |x| == |multiset(x)| == |multiset(y)| == |y|;
    if x != [] {
      LastIsLargest(x, y);
      DropLast(x);
      DropLast(y);
      SortedIsUnique(x[..|x| - 1], y[..|y| - 1]);
      assert forall i :: 0 <= i < |x| - 1 ==> x[i] == x[..|x| - 1][i] && y[i] == y[..|y| - 1][i];
    }
  }

  /** Replay: once everything is flushed, the store's events sorted by `seq` give each
      reply and reasoning stream exactly the text the host sent. */
  lemma ReplayShowsSameText(ins: seq<Input>, loaded: seq<Event>, k: Key)
    requires IsToken(k.0) && InSeqOrder(ins)
    requires multiset(loaded) == multiset(Saved(ins + [Flush])) && SortedBySeq(loaded)
    ensures Concat(Of(loaded, k)) == Received(ins, k)
  {
    var all := ins + [Flush];
    assert all[..|ins|] == ins;
    RunsIncrease(all, k);
    OfSorted(loaded, k);
    forall e: Event ensures multiset(Of(loaded, k))[e] == multiset(Of(Saved(all), k))[e] {
      OfCounts(loaded, k, e);
      OfCounts(Saved(all), k, e);
    }
    assert multiset(Of(loaded, k)) == multiset(Of(Saved(all), k));
    SortedIsUnique(Of(Saved(all), k), Of(loaded, k));
    TextConserved(all, k);
    assert Concat([]) == [];
  }

  /** The runs of `order` started one after another, after `lo` and before `hi`. */
  ghost predicate Ascending(order: seq<Key>, pending: map<Key, (Event, Text)>, lo: int, hi: int) {
    if order == [] then lo < hi
    else order[0] in pending && lo < pending[order[0]].0.seqNo &&
         Ascending(order[1..], pending, pending[order[0]].0.seqNo, hi)
  }

  lemma {:induction false} AscendingRetain(order: seq<Key>, pending: map<Key, (Event, Text)>,
                                           left: map<Key, (Event, Text)>, lo: int, from: int, hi: int)
    requires Ascending(order, pending, from, hi) && lo <= from
    requires forall k :: k in left ==> k in pending && left[k].0 == pending[k].0
    ensures Ascending(Retain(order, left), left, lo, hi)
  {
    if order != [] {
      var at := pending[order[0]].0.seqNo;
      if order[0] in left {
        AscendingRetain(order[1..], pending, left, at, at, hi);
        assert ([order[0]] + Retain(order[1..], left))[1..] == Retain(order[1..], left);
      } else {
        AscendingRetain(order[1..], pending, left, lo, at, hi);
      }
    }
  }

  lemma {:induction false} AscendingAppend(order: seq<Key>, pending: map<Key, (Event, Text)>,
                                           grown: map<Key, (Event, Text)>, key: Key, lo: int, hi: int)
    requires Ascending(order, pending, lo, hi)
    requires forall k :: k in pending ==> k in grown && grown[k].0 == pending[k].0
    requires key in grown && hi <= grown[key].0.seqNo
    ensures Ascending(order + [key], grown, lo, grown[key].0.seqNo + 1)
  {
    if order == [] {
      assert ([] + [key])[1..] == [];
    } else {
      AscendingAppend(order[1..], pending, grown, key, pending[order[0]].0.seqNo, hi);
      assert (order + [key])[1..] == order[1..] + [key];
    }
  }

  lemma {:induction false} AscendingWiden(order: seq<Key>, pending: map<Key, (Event, Text)>,
                                          grown: map<Key, (Event, Text)>, lo: int, hi: int, higher: int)
    requires Ascending(order, pending, lo, hi) && hi <= higher
    requires forall k :: k in pending ==> k in grown && grown[k].0 == pending[k].0
    ensures Ascending(order, grown, lo, higher)
  {
    if order != [] { AscendingWiden(order[1..], pending, grown, pending[order[0]].0.seqNo, hi, higher); }
  }

  lemma StepKeepsAscending(s: State, x: Input, lo: int, n: int, m: int)
    requires Listed(s) && Ascending(s.order, s.pending, lo, n)
    requires n <= m && (x.Push? ==> n <= x.ev.seqNo < m)
    ensures var t := Step(s, x).0; Ascending(t.order, t.pending, lo, m)
  {
    var t := Step(s, x).0;
    if x.Push? && IsDelta(x.ev.kind) {
      if KeyOf(x.ev) in s.pending {
        AscendingWiden(s.order, s.pending, t.pending, lo, n, m);
      } else {
        AscendingAppend(s.order, s.pending, t.pending, KeyOf(x.ev), lo, n);
        AscendingWiden(t.order, t.pending, t.pending, lo, x.ev.seqNo + 1, m);
      }
    } else if x.Flush? || x.ev.kind.MessageCompleted? || x.ev.kind.ToolFinished? {
      AscendingRetain(s.order, s.pending, t.pending, lo, lo, n);
      AscendingWiden(t.order, t.pending, t.pending, lo, n, m);
    } else {
      AscendingWiden(t.order, s.pending, t.pending, lo, n, m);
    }
  }

  lemma {:induction false} StartsAscend(ins: seq<Input>, lo: int, n: int)
    requires InSeqOrder(ins) && InputsBelow(ins, n) && lo < n
    requires forall i :: 0 <= i < |ins| && ins[i].Push? ==> lo < ins[i].ev.seqNo
    ensures Ascending(After(ins).order, After(ins).pending, lo, n)
  {
    if ins == [] { return; }
    var init, x := ins[..|ins| - 1], ins[|ins| - 1];
    assert forall i :: 0 <= i < |init| ==> init[i] == ins[i];
    var m := if x.Push? then x.ev.seqNo else n;
    StartsAscend(init, lo, m);
    OrderListsPending(init);
    StepKeepsAscending(After(init), x, lo, m, n);
  }

  lemma {:induction false} ReleasedAscends(pending: map<Key, (Event, Text)>, keys: seq<Key>, lo: int, hi: int)
    requires Distinct(keys) && Ascending(keys, pending, lo, hi)
    ensures Increasing(Released(pending, keys)) && |Released(pending, keys)| == |keys|
    ensures forall i :: 0 <= i < |keys| ==> lo < Released(pending, keys)[i].seqNo
  {
    if keys != [] {
      AscendingWithout(keys[1..], pending, keys[0], pending[keys[0]].0.seqNo, hi);
      ReleasedAscends(pending - {keys[0]}, keys[1..], pending[keys[0]].0.seqNo, hi);
    }
  }

  lemma {:induction false} AscendingWithout(keys: seq<Key>, pending: map<Key, (Event, Text)>, gone: Key, lo: int, hi: int)
    requires Ascending(keys, pending, lo, hi) && gone !in keys
    ensures Ascending(keys, pending - {gone}, lo, hi)
  {
    if keys != [] { AscendingWithout(keys[1..], pending, gone, pending[keys[0]].0.seqNo, hi); }
  }

  /** A flush saves every unfinished run, in the order the runs started. */
  lemma FlushKeepsArrivalOrder(ins: seq<Input>, lo: int, n: int)
    requires InSeqOrder(ins) && InputsBelow(ins, n) && lo < n
    requires forall i :: 0 <= i < |ins| && ins[i].Push? ==> lo < ins[i].ev.seqNo
    ensures Increasing(Step(After(ins), Flush).1)
    ensures |Step(After(ins), Flush).1| == |After(ins).pending|
  {
    var s := After(ins);
    StartsAscend(ins, lo, n);
    OrderListsPending(ins);
    ReleasedAscends(s.pending, s.order, lo, n);
    CountDistinct(s.order);
    assert SetOf(s.order) == s.pending.Keys;
  }

  lemma {:induction false} CountDistinct(keys: seq<Key>)
    requires Distinct(keys)
    ensures |SetOf(keys)| == |keys|
  {
    if keys != [] {
      CountDistinct(keys[1..]);
      assert SetOf(keys) == {keys[0]} + SetOf(keys[1..]);
    }
  }

  // ----- everything else is saved once, in order, repeats skipped ---------------------------------------

  /** The last payload of registration type `t` in a history. */
  function LastBody(ins: seq<Input>, t: EventType): set<string> {
    if ins == [] then {}
    else
      var x := ins[|ins| - 1];
      if x.Push? && IsRegistration(x.ev) && x.ev.kind == t then {x.ev.body}
      else LastBody(ins[..|ins| - 1], t)
  }

  /** The events of a history that are saved as they are: not deltas, not dropped, and not
      a registration that repeats the one before it of its type. */
  function Kept(ins: seq<Input>): seq<Event> {
    if ins == [] then []
    else
      var init, x := ins[..|ins| - 1], ins[|ins| - 1];
      if x.Flush? || IsDelta(x.ev.kind) || IsDropped(x.ev) || (IsRegistration(x.ev) && x.ev.body in LastBody(init, x.ev.kind))
      then Kept(init)
      else Kept(init) + [x.ev]
  }

  function Plain(evs: seq<Event>): seq<Event> {
    if evs == [] then []
    else if IsDelta(evs[|evs| - 1].kind) then Plain(evs[..|evs| - 1])
    else Plain(evs[..|evs| - 1]) + [evs[|evs| - 1]]
  }

  lemma {:induction false} PlainAppend(x: seq<Event>, y: seq<Event>)
    ensures Plain(x + y) == Plain(x) + Plain(y)
  {
    if y == [] {
      assert x + y == x;
    } else {
      PlainAppend(x, y[..|y| - 1]);
      assert (x + y)[..|x + y| - 1] == x + y[..|y| - 1];
      assert (x + y)[|x + y| - 1] == y[|y| - 1];
    }
  }

  lemma {:induction false} ReleasedIsDeltas(pending: map<Key, (Event, Text)>, keys: seq<Key>)
    requires Keyed(pending) && forall k :: k in pending ==> IsDelta(k.0)
    ensures Plain(Released(pending, keys)) == []
  {
    if keys != [] {
      if keys[0] in pending {
        var e := pending[keys[0]].0.(text := pending[keys[0]].1);
        ReleasedIsDeltas(pending - {keys[0]}, keys[1..]);
        assert IsDelta(KeyOf(pending[keys[0]].0).0);
        assert Plain([e]) == Plain([e][..0]) == [];
        PlainAppend([e], Released(pending - {keys[0]}, keys[1..]));
      } else {
        ReleasedIsDeltas(pending, keys[1..]);
      }
    }
  }

  lemma {:induction false} LastIsLastBody(ins: seq<Input>, t: EventType)
    ensures LastBody(ins, t) == if t in After(ins).last then {After(ins).last[t]} else {}
  {
    if ins != [] { LastIsLastBody(ins[..|ins| - 1], t); }
  }

  lemma StepSavesPlain(s: State, x: Input)
    requires Keyed(s.pending) && forall k :: k in s.pending ==> IsDelta(k.0)
    ensures Plain(Step(s, x).1) ==
            if x.Flush? || IsDelta(x.ev.kind) || IsDropped(x.ev) ||
               (IsRegistration(x.ev) && x.ev.kind in s.last && s.last[x.ev.kind] == x.ev.body)
            then [] else [x.ev]
  {
    hide Released, TakenBy, Append, Plain;
    PlainThenOne([], x);
    if x.Flush? {
      ReleasedIsDeltas(s.pending, s.order);
    } else if x.ev.kind.MessageCompleted? || x.ev.kind.ToolFinished? {
      ReleasedIsDeltas(s.pending, TakenBy(x.ev));
      PlainThenOne(Released(s.pending, TakenBy(x.ev)), x);
      assert Step(s, x).1 == Released(s.pending, TakenBy(x.ev)) + [x.ev];
    } else {
      assert Step(s, x).1 == [] || Step(s, x).1 == [x.ev];
    }
  }

  lemma PlainThenOne(evs: seq<Event>, x: Input)
    ensures x.Push? ==> Plain(evs + [x.ev]) == if IsDelta(x.ev.kind) then Plain(evs) else Plain(evs) + [x.ev]
    ensures Plain([]) == [] && (x.Push? ==> [] + [x.ev] == [x.ev])
  {
    if x.Push? { assert (evs + [x.ev])[..|evs|] == evs; }
  }

  /** Apart from deltas, the store gets the host's events in order, each once. */
  lemma {:induction false} OthersSavedOnce(ins: seq<Input>)
    ensures Plain(Saved(ins)) == Kept(ins)
  {
    if ins == [] { return; }
    var init, x := ins[..|ins| - 1], ins[|ins| - 1];
    OthersSavedOnce(init);
    PendingIsKeyed(init);
    forall k | k in After(init).pending ensures IsDelta(k.0) { PendingIsPieces(init, k); }
    PlainAppend(Saved(init), Step(After(init), x).1);
    StepSavesPlain(After(init), x);
    if x.Push? { LastIsLastBody(init, x.ev.kind); }
  }
}
