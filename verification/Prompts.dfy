/** Permission requests, select lists and confirmations (crates/inline/src/session.rs): which one
    is open, which wait behind it, and which key may answer.

    A desk is the part of the session that holds prompts.  Each prompt carries the number of its
    arrival; nothing is decided by it, it only lets runs be described. */
module Prompts {
  import opened Styles

  datatype Kind =
    | Permission(request: string)
    | Select(id: string, values: seq<string>, allowCancel: bool, filterable: bool)
    | Confirm(id: string, allowCancel: bool)

  datatype Prompt = Prompt(serial: nat, kind: Kind, options: nat, selected: nat, filter: string, shownAt: Option<int>)

  datatype Desk = Desk(prompt: Option<Prompt>, queue: seq<Prompt>, form: bool)

  datatype Choice = AllowOnce | AllowSession | Deny

  datatype Answer =
    | Permitted(request: string, choice: Choice)
    | Selected(id: string, value: string)
    | Confirmed(id: string, yes: bool)
    | Dismissed(id: string)

  datatype Key = Up | Down | Enter | Cancel | Text(text: string) | Backspace | Other

  const PERMISSION_ARM_MS: int := 400

  predicate Armed(p: Prompt, now: int) {
    !p.kind.Permission? || (p.shownAt.Some? && now - p.shownAt.value >= PERMISSION_ARM_MS)
  }

  // ----- opening and answering ---------------------------------------------------------

  /** A prompt replaces the open one unless one of the two is a permission; then it waits. */
  function Open(d: Desk, p: Prompt): Desk {
    if d.prompt.Some? && (d.prompt.value.kind.Permission? || p.kind.Permission?) then d.(queue := d.queue + [p])
    else d.(prompt := Some(p))
  }

  function ShowQueued(d: Desk): Desk {
    if d.prompt.None? && d.queue != [] then d.(prompt := Some(d.queue[0]), queue := d.queue[1..]) else d
  }

  function NoPermissions(q: seq<Prompt>): (r: seq<Prompt>)
    ensures forall p :: p in r <==> p in q && !p.kind.Permission?
  {
    if q == [] then []
    else
      var init := NoPermissions(q[..|q| - 1]);
      if q[|q| - 1].kind.Permission? then init else init + [q[|q| - 1]]
  }

  /** The turn is over: permissions are dropped, other prompts stay. */
  function Settle(d: Desk): Desk {
    ShowQueued(d.(prompt := if d.prompt.Some? && d.prompt.value.kind.Permission? then None else d.prompt,
                  queue := NoPermissions(d.queue)))
  }

  function FrameDrawn(d: Desk, now: int): Desk {
    if d.form || d.prompt.None? || d.prompt.value.shownAt.Some? then d
    else d.(prompt := Some(d.prompt.value.(shownAt := Some(now))))
  }

  function ChoiceOf(choice: Option<nat>): Choice {
    if choice == Some(0) then AllowOnce else if choice == Some(1) then AllowSession else Deny
  }

  /** What answering sends; nothing when the prompt cannot be cancelled. */
  function AnswerTo(kind: Kind, choice: Option<nat>): Option<Answer> {
    match kind
    case Permission(request) => Some(Permitted(request, ChoiceOf(choice)))
    case Select(id, values, allowCancel, _) =>
      if choice.Some? then Some(Selected(id, if choice.value < |values| then values[choice.value] else ""))
      else if allowCancel then Some(Dismissed(id)) else None
    case Confirm(id, allowCancel) =>
      if choice.Some? then Some(Confirmed(id, choice.value == 0))
      else if allowCancel then Some(Dismissed(id)) else None
  }

  /** A prompt that refuses to be cancelled; a list becomes filterable. */
  function Refused(p: Prompt): Prompt {
    if p.kind.Select? then p.(kind := p.kind.(filterable := true)) else p
  }

  predicate Interrupts(kind: Kind, choice: Option<nat>) { kind.Permission? && choice.None? }

  function Resolve(d: Desk, choice: Option<nat>): Desk {
    if d.prompt.None? then d
    else
      var p := d.prompt.value;
      if AnswerTo(p.kind, choice).None? then d.(prompt := Some(Refused(p)))
      else
        var a := d.(prompt := None);
        ShowQueued(if Interrupts(p.kind, choice) then Settle(a) else a)
  }

  // ----- keys --------------------------------------------------------------------------

  function AllOptions(p: Prompt): (v: seq<nat>)
    ensures |v| == p.options && forall k :: 0 <= k < |v| ==> v[k] == k
  {
    seq(p.options, k => k)
  }

  /** The options shown: all, or those the ranking of the filter gives. */
  function VisibleOf(p: Prompt, ranking: seq<nat>): seq<nat> { if p.filter == "" then AllOptions(p) else ranking }

  function IndexOf(v: seq<nat>, x: nat): nat {
    if v == [] || v[0] == x then 0 else if x in v then 1 + IndexOf(v[1..], x) else 0
  }

  function Moved(p: Prompt, v: seq<nat>, step: int): Prompt
    requires -1 <= step <= 1
  {
    if v == [] then p
    else
      var k := (IndexOf(v, p.selected) + |v| + step) % |v|;
      p.(selected := v[k])
  }

  predicate IsYes(t: string) { t == "y" || t == "Y" }
  predicate IsNo(t: string) { t == "n" || t == "N" }

  /** The option a typed text picks by its leading digit. */
  function DigitChoice(t: string, options: nat): Option<nat> {
    if t != "" && '1' <= t[0] <= '9' && (t[0] - '0') as int <= options then Some((t[0] - '0') as int - 1) else None
  }

  predicate Filterable(kind: Kind) { kind.Select? && kind.filterable }

  /** A typed text: the choice it makes, if any. */
  function TextChoice(p: Prompt, t: string): Option<nat> {
    if p.kind.Confirm? && IsYes(t) then Some(0)
    else if p.kind.Confirm? && IsNo(t) then Some(1)
    else if Filterable(p.kind) then None
    else DigitChoice(t, p.options)
  }

  function Filtered(p: Prompt, t: string, ranking: seq<nat>): Prompt {
    var q := p.(filter := p.filter + t);
    var v := VisibleOf(q, ranking);
    if v != [] then q.(selected := v[0]) else q
  }

  /** Whether a key answers the open prompt, and how: `Some(None)` cancels it. */
  function Decision(p: Prompt, key: Key, ranking: seq<nat>, now: int): Option<Option<nat>> {
    if key.Cancel? then Some(None)
    else if !Armed(p, now) then None
    else if key.Enter? && p.selected in VisibleOf(p, ranking) then Some(Some(p.selected))
    else if key.Text? && TextChoice(p, key.text).Some? then Some(TextChoice(p, key.text))
    else None
  }

  /** What a key that does not answer changes in the open prompt. */
  function Edited(p: Prompt, key: Key, ranking: seq<nat>, after: seq<nat>, now: int): Prompt {
    if !Armed(p, now) then p
    else match key
      case Up => Moved(p, VisibleOf(p, ranking), -1)
      case Down => Moved(p, VisibleOf(p, ranking), 1)
      case Text(t) => if Filterable(p.kind) then Filtered(p, t, after) else p
      case Backspace => p.(filter := if p.filter == "" then "" else p.filter[..|p.filter| - 1])
      case _ => p
  }

  /** `ranking` ranks the options for the filter as it is, `after` for the filter with the typed
      text.  A form over the prompt takes the key. */
  function KeyPressed(d: Desk, key: Key, ranking: seq<nat>, after: seq<nat>, now: int): Desk {
    if d.form || d.prompt.None? then d
    else
      var p := d.prompt.value;
      var decision := Decision(p, key, ranking, now);
      if decision.Some? then Resolve(d, decision.value)
      else d.(prompt := Some(Edited(p, key, ranking, after, now)))
  }

  // ----- runs --------------------------------------------------------------------------

  datatype Event =
    | Asked(kind: Kind, options: nat, selected: nat)
    | Keyed(key: Key, ranking: seq<nat>, after: seq<nat>)
    | Drawn
    | FormOpened
    | FormClosed
    | TurnSettled

  datatype Timed = Timed(event: Event, now: int)

  datatype Sent = Sent(serial: nat, answer: Answer, now: int)

  /** A desk with what happened: prompts asked for, answers sent, frames drawn with a prompt in
      them, permissions dropped at the end of a turn. */
  datatype Trace = Trace(d: Desk, asked: seq<Kind>, sent: seq<Sent>, drawn: seq<(nat, int)>, dropped: seq<nat>)

  const BEGIN := Trace(Desk(None, [], false), [], [], [], [])

  /** Serials of the permissions of a list. */
  function Pending(q: seq<Prompt>): seq<nat> {
    if q == [] then []
    else
      var init, p := Pending(q[..|q| - 1]), q[|q| - 1];
      if p.kind.Permission? then init + [p.serial] else init
  }

  function Held(d: Desk): seq<Prompt> { (if d.prompt.Some? then [d.prompt.value] else []) + d.queue }

  /** The answer a key sends, if it answers. */
  function Reply(d: Desk, key: Key, ranking: seq<nat>, now: int): Option<Answer> {
    if d.form || d.prompt.None? || Decision(d.prompt.value, key, ranking, now).None? then None
    else AnswerTo(d.prompt.value.kind, Decision(d.prompt.value, key, ranking, now).value)
  }

  lemma KeyDecides(d: Desk, key: Key, ranking: seq<nat>, after: seq<nat>, now: int)
    requires d.prompt.Some? && !d.form
    ensures var p, k := d.prompt.value, KeyPressed(d, key, ranking, after, now);
            match Decision(p, key, ranking, now) {
              case None => k == d.(prompt := Some(Edited(p, key, ranking, after, now))) && Reply(d, key, ranking, now).None?
              case Some(c) => k == Resolve(d, c) && Reply(d, key, ranking, now) == AnswerTo(p.kind, c)
            }
  {
    hide Decision, Edited, Resolve, AnswerTo;
  }

  function Next(t: Trace, e: Event, now: int): Trace {
    match e
    case Asked(kind, options, selected) =>
      t.(d := Open(t.d, Prompt(|t.asked|, kind, options, selected, "", None)), asked := t.asked + [kind])
    case Keyed(key, ranking, after) =>
      var reply := Reply(t.d, key, ranking, now);
      var after := KeyPressed(t.d, key, ranking, after, now);
      if reply.None? then t.(d := after)
      else
        var p := t.d.prompt.value;
        var ended := Interrupts(p.kind, Decision(p, key, ranking, now).value);
        t.(d := after, sent := t.sent + [Sent(p.serial, reply.value, now)],
           dropped := t.dropped + if ended then Pending(t.d.queue) else [])
    case Drawn =>
      t.(d := FrameDrawn(t.d, now),
         drawn := t.drawn + if t.d.form || t.d.prompt.None? then [] else [(t.d.prompt.value.serial, now)])
    case FormOpened => t.(d := t.d.(form := true))
    case FormClosed => t.(d := t.d.(form := false))
    case TurnSettled => t.(d := Settle(t.d), dropped := t.dropped + Pending(Held(t.d)))
  }

  function Run(events: seq<Timed>): Trace {
    if events == [] then BEGIN
    else Next(Run(events[..|events| - 1]), events[|events| - 1].event, events[|events| - 1].now)
  }

  // ----- what every event keeps -----------------------------------------------------------

  /** Nothing waits behind an empty place, and what waits has not been drawn. */
  ghost predicate DeskOk(d: Desk) {
    (d.prompt.None? ==> d.queue == []) && forall k :: 0 <= k < |d.queue| ==> d.queue[k].shownAt.None?
  }

  lemma OpenOk(d: Desk, p: Prompt)
    requires DeskOk(d) && p.shownAt.None?
    ensures DeskOk(Open(d, p))
  {
  }

  lemma SettleOk(d: Desk)
    requires DeskOk(d)
    ensures DeskOk(Settle(d)) && forall p :: p in Held(Settle(d)) ==> !p.kind.Permission?
  {
    var q := NoPermissions(d.queue);
    forall k | 0 <= k < |q| ensures q[k] in d.queue {}
  }

  lemma KeyOk(d: Desk, key: Key, ranking: seq<nat>, after: seq<nat>, now: int)
    requires DeskOk(d)
    ensures DeskOk(KeyPressed(d, key, ranking, after, now))
  {
    if d.prompt.Some? {
      var a := d.(prompt := None);
      var q := NoPermissions(d.queue);
      forall k | 0 <= k < |q| ensures q[k] in d.queue {}
    }
  }

  // ----- each permission has one fate, in order -------------------------------------------

  /** The permissions among the prompts asked for. */
  function PermissionsOf(asked: seq<Kind>): seq<nat> {
    if asked == [] then []
    else
      var init, n := PermissionsOf(asked[..|asked| - 1]), |asked| - 1;
      if asked[n].Permission? then init + [n] else init
  }

  lemma {:induction false} PermissionsAreAll(asked: seq<Kind>)
    ensures var r := PermissionsOf(asked);
            Increasing(r, |asked|) && forall x :: x in r <==> 0 <= x < |asked| && asked[x].Permission?
  {
    if asked != [] { PermissionsAreAll(asked[..|asked| - 1]); }
  }

  /** The permissions answered, in the order of the answers. */
  function Answered(sent: seq<Sent>): seq<nat> {
    if sent == [] then []
    else
      var init, a := Answered(sent[..|sent| - 1]), sent[|sent| - 1];
      if a.answer.Permitted? then init + [a.serial] else init
  }

  ghost predicate Increasing(l: seq<nat>, n: nat) {
    (forall i, j :: 0 <= i < j < |l| ==> l[i] < l[j]) && forall k :: 0 <= k < |l| ==> l[k] < n
  }

  /** Permissions answered and then pending: every one once, in order of arrival. */
  function Line(t: Trace): seq<nat> { Answered(t.sent) + Pending(Held(t.d)) }

  /** Every permission asked for is pending, answered or dropped: exactly one of them, once. */
  ghost predicate OneFate(t: Trace) {
    multiset(Answered(t.sent)) + multiset(Pending(Held(t.d))) + multiset(t.dropped) == multiset(PermissionsOf(t.asked))
  }

  /** Answers leave in the order of arrival, ahead of everything still pending. */
  ghost predicate InOrder(t: Trace) { Increasing(Line(t), |t.asked|) }

  lemma {:induction false} PendingAppend(a: seq<Prompt>, b: seq<Prompt>)
    ensures Pending(a + b) == Pending(a) + Pending(b)
  {
    if b == [] {
      assert a + b == a;
    } else {
      assert (a + b)[..|a + b| - 1] == a + b[..|b| - 1];
      PendingAppend(a, b[..|b| - 1]);
    }
  }

  lemma {:induction false} NonePending(q: seq<Prompt>)
    requires forall p :: p in q ==> !p.kind.Permission?
    ensures Pending(q) == []
  {
    if q != [] { NonePending(q[..|q| - 1]); }
  }

  lemma PendingOne(p: Prompt)
    ensures Pending([p]) == if p.kind.Permission? then [p.serial] else []
  {
    assert [p][..0] == [];
  }

  lemma HeldPending(d: Desk)
    ensures Pending(Held(d)) ==
            (if d.prompt.Some? && d.prompt.value.kind.Permission? then [d.prompt.value.serial] else []) + Pending(d.queue)
  {
    if d.prompt.Some? {
      PendingAppend([d.prompt.value], d.queue);
      PendingOne(d.prompt.value);
    } else {
      assert Held(d) == d.queue;
    }
  }

  lemma ShownHeld(d: Desk)
    ensures Held(ShowQueued(d)) == Held(d)
  {
  }

  lemma AnsweredMore(sent: seq<Sent>, s: Sent)
    ensures Answered(sent + [s]) == Answered(sent) + if s.answer.Permitted? then [s.serial] else []
  {
    assert (sent + [s])[..|sent|] == sent;
  }

  lemma PermissionsMore(asked: seq<Kind>, kind: Kind)
    ensures PermissionsOf(asked + [kind]) == PermissionsOf(asked) + if kind.Permission? then [|asked|] else []
  {
    assert (asked + [kind])[..|asked|] == asked;
  }

  /** A prompt asked for joins the line at its end when it is a permission. */
  lemma AskedLine(t: Trace, kind: Kind, options: nat, selected: nat, now: int)
    requires DeskOk(t.d)
    ensures Pending(Held(Next(t, Asked(kind, options, selected), now).d)) ==
            Pending(Held(t.d)) + if kind.Permission? then [|t.asked|] else []
  {
    var p, more := Prompt(|t.asked|, kind, options, selected, "", None), if kind.Permission? then [|t.asked|] else [];
    HeldPending(t.d);
    HeldPending(Open(t.d, p));
    PendingAppend(t.d.queue, [p]);
    PendingOne(p);
    NonePending([]);
    hide Pending, Held;
    if t.d.prompt.Some? && (t.d.prompt.value.kind.Permission? || kind.Permission?) {
      var head := if t.d.prompt.value.kind.Permission? then [t.d.prompt.value.serial] else [];
      JoinParts(head, Pending(t.d.queue), more);
    }
  }

  /** Answering takes the open prompt off the line; cancelling a permission empties it. */
  lemma ResolvedLine(d: Desk, choice: Option<nat>)
    requires d.prompt.Some?
    ensures var kind := d.prompt.value.kind;
            Pending(Held(Resolve(d, choice))) ==
              if AnswerTo(kind, choice).None? then Pending(Held(d))
              else if Interrupts(kind, choice) then [] else Pending(d.queue)
  {
    var p, a := d.prompt.value, d.(prompt := None);
    HeldPending(d);
    if AnswerTo(p.kind, choice).None? {
      HeldPending(Resolve(d, choice));
    } else if Interrupts(p.kind, choice) {
      ShownHeld(a.(queue := NoPermissions(d.queue)));
      ShownHeld(Settle(a));
      NonePending(NoPermissions(d.queue));
      assert Held(Resolve(d, choice)) == NoPermissions(d.queue);
    } else {
      ShownHeld(a);
      assert Held(a) == d.queue;
    }
  }

  lemma SettledLine(d: Desk)
    ensures Pending(Held(Settle(d))) == []
  {
    var a := d.(prompt := if d.prompt.Some? && d.prompt.value.kind.Permission? then None else d.prompt,
                queue := NoPermissions(d.queue));
    ShownHeld(a);
    HeldPending(a);
    NonePending(a.queue);
  }

  lemma DrawnLine(d: Desk, now: int)
    ensures Pending(Held(FrameDrawn(d, now))) == Pending(Held(d))
  {
    HeldPending(d);
    HeldPending(FrameDrawn(d, now));
  }

  lemma EditedLine(d: Desk, p: Prompt)
    requires d.prompt.Some? && p.kind == d.prompt.value.kind && p.serial == d.prompt.value.serial
    ensures Pending(Held(d.(prompt := Some(p)))) == Pending(Held(d))
  {
    HeldPending(d);
    HeldPending(d.(prompt := Some(p)));
  }

  lemma ReplyParts(t: Trace, key: Key, ranking: seq<nat>, after: seq<nat>, now: int)
    requires Reply(t.d, key, ranking, now).Some?
    ensures var n, p := Next(t, Keyed(key, ranking, after), now), t.d.prompt.value;
            var ended := Interrupts(p.kind, Decision(p, key, ranking, now).value);
            Answered(n.sent) == Answered(t.sent) + (if p.kind.Permission? then [p.serial] else []) &&
            Pending(Held(n.d)) == (if ended then [] else Pending(t.d.queue)) &&
            n.dropped == t.dropped + if ended then Pending(t.d.queue) else []
  {
    var n, p := Next(t, Keyed(key, ranking, after), now), t.d.prompt.value;
    var choice := Decision(p, key, ranking, now).value;
    var s := Sent(p.serial, Reply(t.d, key, ranking, now).value, now);
    assert n.d == Resolve(t.d, choice) && n.sent == t.sent + [s] && s.answer.Permitted? == p.kind.Permission?;
    AnsweredMore(t.sent, s);
    ResolvedLine(t.d, choice);
    hide Pending, Answered, Resolve, Decision;
  }

  /** The head of the line is answered; the rest stays or is dropped. */
  lemma LineShifts(answered: seq<nat>, head: seq<nat>, rest: seq<nat>, ended: bool, dropped: seq<nat>)
    ensures var line, after := answered + (head + rest), (answered + head) + if ended then [] else rest;
            after <= line &&
            multiset(after) + multiset(dropped + if ended then rest else []) == multiset(line) + multiset(dropped)
  {
    JoinParts(answered, head, rest);
    JoinParts([], answered + head, rest);
    JoinParts([], dropped, rest);
  }

  lemma ReplyFromOpen(t: Trace, key: Key, ranking: seq<nat>, after: seq<nat>, now: int)
    requires Reply(t.d, key, ranking, now).Some?
    ensures var n := Next(t, Keyed(key, ranking, after), now);
            Line(n) <= Line(t) && multiset(Line(n)) + multiset(n.dropped) == multiset(Line(t)) + multiset(t.dropped)
  {
    var p := t.d.prompt.value;
    var head, rest := (if p.kind.Permission? then [p.serial] else []), Pending(t.d.queue);
    ReplyParts(t, key, ranking, after, now);
    HeldPending(t.d);
    LineShifts(Answered(t.sent), head, rest, Interrupts(p.kind, Decision(p, key, ranking, now).value), t.dropped);
    hide Next, Pending, Answered, Decision, Reply, Held;
  }

  lemma NoReplyLine(t: Trace, key: Key, ranking: seq<nat>, after: seq<nat>, now: int)
    requires Reply(t.d, key, ranking, now).None?
    ensures var n := Next(t, Keyed(key, ranking, after), now); Line(n) == Line(t) && n.dropped == t.dropped
  {
    if !t.d.form && t.d.prompt.Some? {
      var p := t.d.prompt.value;
      if Decision(p, key, ranking, now).Some? {
        ResolvedLine(t.d, Decision(p, key, ranking, now).value);
      } else {
        EditedLine(t.d, Edited(p, key, ranking, after, now));
      }
    }
  }

  /** A key only shortens the line, and what leaves it is answered or dropped. */
  lemma KeyedLine(t: Trace, key: Key, ranking: seq<nat>, after: seq<nat>, now: int)
    ensures var n := Next(t, Keyed(key, ranking, after), now);
            Line(n) <= Line(t) && multiset(Line(n)) + multiset(n.dropped) == multiset(Line(t)) + multiset(t.dropped)
  {
    hide Resolve, Pending, Answered;
    if Reply(t.d, key, ranking, now).Some? {
      ReplyFromOpen(t, key, ranking, after, now);
    } else {
      NoReplyLine(t, key, ranking, after, now);
    }
  }

  lemma ShorterIncreasing(a: seq<nat>, b: seq<nat>, n: nat)
    requires a <= b && Increasing(b, n)
    ensures Increasing(a, n)
  {
    assert forall k :: 0 <= k < |a| ==> a[k] == b[k];
  }

  lemma LineParts(t: Trace)
    ensures multiset(Line(t)) == multiset(Answered(t.sent)) + multiset(Pending(Held(t.d)))
  {
  }

  lemma KeyedAsked(t: Trace, e: Event, now: int)
    requires e.Keyed?
    ensures Next(t, e, now).asked == t.asked
  {
  }

  lemma IncreasingMore(l: seq<nat>, n: nat)
    requires Increasing(l, n)
    ensures Increasing(l, n + 1) && Increasing(l + [n], n + 1) && l + [] == l
  {
  }

  lemma JoinParts(a: seq<nat>, b: seq<nat>, c: seq<nat>)
    ensures a + (b + c) == a + b + c && multiset(b + c) == multiset(b) + multiset(c)
  {
  }

  lemma AskedOrder(t: Trace, e: Event, now: int)
    requires DeskOk(t.d) && InOrder(t) && OneFate(t) && e.Asked?
    ensures InOrder(Next(t, e, now)) && OneFate(Next(t, e, now))
  {
    var n := Next(t, e, now);
    AskedLine(t, e.kind, e.options, e.selected, now);
    PermissionsMore(t.asked, e.kind);
    assert n.sent == t.sent && n.dropped == t.dropped && n.asked == t.asked + [e.kind];
    hide Next;
    JoinOrder(t, n, e.kind);
    JoinFate(t, n, e.kind);
  }

  /** A permission joins the line under the next number. */
  lemma JoinOrder(t: Trace, n: Trace, kind: Kind)
    requires InOrder(t) && n.sent == t.sent && n.asked == t.asked + [kind]
    requires Pending(Held(n.d)) == Pending(Held(t.d)) + if kind.Permission? then [|t.asked|] else []
    ensures InOrder(n)
  {
    hide Pending, Answered, Held;
    IncreasingMore(Line(t), |t.asked|);
    JoinParts(Answered(t.sent), Pending(Held(t.d)), if kind.Permission? then [|t.asked|] else []);
  }

  lemma JoinFate(t: Trace, n: Trace, kind: Kind)
    requires OneFate(t) && n.sent == t.sent && n.dropped == t.dropped
    requires Pending(Held(n.d)) == Pending(Held(t.d)) + if kind.Permission? then [|t.asked|] else []
    requires PermissionsOf(n.asked) == PermissionsOf(t.asked) + if kind.Permission? then [|t.asked|] else []
    ensures OneFate(n)
  {
    hide Pending, Answered, Held, PermissionsOf;
    var more := if kind.Permission? then [|t.asked|] else [];
    JoinParts([], Pending(Held(t.d)), more);
    JoinParts([], PermissionsOf(t.asked), more);
  }

  lemma SettledOrder(t: Trace, now: int)
    requires InOrder(t) && OneFate(t)
    ensures InOrder(Next(t, TurnSettled, now)) && OneFate(Next(t, TurnSettled, now))
  {
    var n := Next(t, TurnSettled, now);
    SettledLine(t.d);
    assert n.sent == t.sent && n.asked == t.asked && n.dropped == t.dropped + Pending(Held(t.d));
    hide Next, Pending, Answered, PermissionsOf;
    assert Line(n) <= Line(t);
    ShorterIncreasing(Line(n), Line(t), |t.asked|);
  }

  lemma OtherOrder(t: Trace, e: Event, now: int)
    requires InOrder(t) && OneFate(t) && (e.Drawn? || e.FormOpened? || e.FormClosed?)
    ensures InOrder(Next(t, e, now)) && OneFate(Next(t, e, now))
  {
    var n := Next(t, e, now);
    DrawnLine(t.d, now);
    HeldPending(t.d);
    HeldPending(n.d);
    assert n.sent == t.sent && n.asked == t.asked && n.dropped == t.dropped;
    hide Pending, Answered, PermissionsOf;
  }

  lemma NextKeepsOrder(t: Trace, e: Event, now: int)
    requires DeskOk(t.d) && InOrder(t) && OneFate(t)
    ensures InOrder(Next(t, e, now)) && OneFate(Next(t, e, now))
  {
    var n := Next(t, e, now);
    LineParts(t);
    LineParts(n);
    if e.Asked? {
      AskedOrder(t, e, now);
    } else if e.Keyed? {
      KeyedLine(t, e.key, e.ranking, e.after, now);
      KeyedAsked(t, e, now);
      hide Next, Pending, Answered, PermissionsOf, Line;
      ShorterIncreasing(Line(n), Line(t), |t.asked|);
    } else if e.TurnSettled? {
      SettledOrder(t, now);
    } else {
      OtherOrder(t, e, now);
    }
  }

  // ----- an answer that allows was read -----------------------------------------------------

  /** What is open was asked for as what it is, and is shown since a frame that had it. */
  ghost predicate PromptOk(t: Trace, p: Prompt) {
    p.serial < |t.asked| && (p.kind.Permission? ==> t.asked[p.serial] == p.kind) &&
    (p.shownAt.Some? ==> (p.serial, p.shownAt.value) in t.drawn)
  }

  ghost predicate PromptsOk(t: Trace) { forall p :: p in Held(t.d) ==> PromptOk(t, p) }

  /** An answer to a permission names the request asked for; one that allows follows a frame
      with that prompt in it and no form over it by at least the arming delay. */
  ghost predicate AnswerOk(t: Trace, s: Sent) {
    s.answer.Permitted? ==>
      s.serial < |t.asked| && t.asked[s.serial] == Permission(s.answer.request) &&
      (s.answer.choice != Deny ==> exists d :: d in t.drawn && d.0 == s.serial && s.now - d.1 >= PERMISSION_ARM_MS)
  }

  ghost predicate AnswersOk(t: Trace) { forall k :: 0 <= k < |t.sent| ==> AnswerOk(t, t.sent[k]) }

  /** More was asked and drawn. */
  lemma LaterOk(t: Trace, n: Trace)
    requires t.asked <= n.asked && t.drawn <= n.drawn
    ensures forall p :: PromptOk(t, p) ==> PromptOk(n, p)
    ensures forall s :: AnswerOk(t, s) ==> AnswerOk(n, s)
  {
    assert forall k :: 0 <= k < |t.drawn| ==> n.drawn[k] == t.drawn[k];
  }

  lemma ResolveHolds(d: Desk, choice: Option<nat>)
    requires d.prompt.Some?
    ensures forall p :: p in Held(Resolve(d, choice)) ==>
              p in Held(d) || (p == Refused(d.prompt.value) && AnswerTo(d.prompt.value.kind, choice).None?)
  {
    var a := d.(prompt := None);
    ShownHeld(a);
    ShownHeld(a.(queue := NoPermissions(d.queue)));
    ShownHeld(Settle(a));
  }

  lemma SettleHolds(d: Desk)
    ensures forall p :: p in Held(Settle(d)) ==> p in Held(d)
  {
    ShownHeld(d.(prompt := if d.prompt.Some? && d.prompt.value.kind.Permission? then None else d.prompt,
                 queue := NoPermissions(d.queue)));
  }

  lemma KeyHolds(t: Trace, key: Key, ranking: seq<nat>, after: seq<nat>, now: int)
    requires PromptsOk(t)
    ensures PromptsOk(Next(t, Keyed(key, ranking, after), now))
  {
    var n := Next(t, Keyed(key, ranking, after), now);
    LaterOk(t, n);
    if !t.d.form && t.d.prompt.Some? {
      var p := t.d.prompt.value;
      assert p in Held(t.d);
      if Decision(p, key, ranking, now).Some? {
        ResolveHolds(t.d, Decision(p, key, ranking, now).value);
      } else {
        assert PromptOk(n, Edited(p, key, ranking, after, now));
      }
    }
  }

  lemma ReplyIsRead(t: Trace, key: Key, ranking: seq<nat>, after: seq<nat>, now: int)
    requires PromptsOk(t) && AnswersOk(t)
    ensures AnswersOk(Next(t, Keyed(key, ranking, after), now))
  {
    var n := Next(t, Keyed(key, ranking, after), now);
    LaterOk(t, n);
    var reply := Reply(t.d, key, ranking, now);
    if reply.Some? {
      var p := t.d.prompt.value;
      assert p in Held(t.d) && PromptOk(t, p);
      var s := Sent(p.serial, reply.value, now);
      if s.answer.Permitted? && s.answer.choice != Deny {
        assert Armed(p, now);
        assert (p.serial, p.shownAt.value) in n.drawn;
      }
      assert AnswerOk(n, s);
    }
  }

  lemma NextIsRead(t: Trace, e: Event, now: int)
    requires PromptsOk(t) && AnswersOk(t)
    ensures PromptsOk(Next(t, e, now)) && AnswersOk(Next(t, e, now))
  {
    var n := Next(t, e, now);
    LaterOk(t, n);
    hide PromptOk, AnswerOk;
    if e.Keyed? {
      KeyHolds(t, e.key, e.ranking, e.after, now);
      ReplyIsRead(t, e.key, e.ranking, e.after, now);
    } else if e.TurnSettled? {
      SettleHolds(t.d);
    } else if e.Asked? {
      AskHolds(t, e, now);
    } else if e.Drawn? {
      DrawHolds(t, now);
    }
  }

  lemma AskHolds(t: Trace, e: Event, now: int)
    requires PromptsOk(t) && e.Asked?
    ensures PromptsOk(Next(t, e, now))
  {
    var n := Next(t, e, now);
    LaterOk(t, n);
    assert PromptOk(n, Prompt(|t.asked|, e.kind, e.options, e.selected, "", None));
  }

  lemma DrawHolds(t: Trace, now: int)
    requires PromptsOk(t)
    ensures PromptsOk(Next(t, Drawn, now))
  {
    var n := Next(t, Drawn, now);
    LaterOk(t, n);
    if !t.d.form && t.d.prompt.Some? {
      var p := t.d.prompt.value;
      assert p in Held(t.d);
      assert n.drawn[|t.drawn|] == (p.serial, now);
      assert PromptOk(n, n.d.prompt.value);
    }
  }

  lemma NextDeskOk(t: Trace, e: Event, now: int)
    requires DeskOk(t.d)
    ensures DeskOk(Next(t, e, now).d)
  {
    hide DeskOk;
    match e
    case Asked(kind, options, selected) => OpenOk(t.d, Prompt(|t.asked|, kind, options, selected, "", None));
    case Keyed(key, ranking, after) => KeyOk(t.d, key, ranking, after, now);
    case Drawn => DrawnOk(t.d, now);
    case FormOpened => FormOk(t.d, true);
    case FormClosed => FormOk(t.d, false);
    case TurnSettled => SettleOk(t.d);
  }

  lemma DrawnOk(d: Desk, now: int)
    requires DeskOk(d)
    ensures DeskOk(FrameDrawn(d, now))
  {
  }

  lemma FormOk(d: Desk, form: bool)
    requires DeskOk(d)
    ensures DeskOk(d.(form := form))
  {
  }

  /** All of it, over every run of asking, keys, frames, forms and settled turns. */
  ghost predicate Sound(t: Trace) { DeskOk(t.d) && InOrder(t) && OneFate(t) && PromptsOk(t) && AnswersOk(t) }

  lemma {:induction false} EveryRunIsSound(events: seq<Timed>)
    ensures Sound(Run(events))
  {
    if events != [] {
      var init, e := events[..|events| - 1], events[|events| - 1];
      EveryRunIsSound(init);
      var t := Run(init);
      hide DeskOk, InOrder, OneFate, PromptsOk, AnswersOk, Next;
      NextDeskOk(t, e.event, e.now);
      NextKeepsOrder(t, e.event, e.now);
      NextIsRead(t, e.event, e.now);
    }
  }

  lemma {:induction false} IncreasingOnce(l: seq<nat>, n: nat, x: nat)
    requires Increasing(l, n)
    ensures multiset(l)[x] == if x in l then 1 else 0
  {
    if l != [] {
      var init := l[..|l| - 1];
      assert l == init + [l[|l| - 1]];
      IncreasingOnce(init, n, x);
    }
  }

  /** On every run each permission is pending, answered or dropped, exactly one of these and
      exactly once. */
  lemma EachPermissionHasOneFate(events: seq<Timed>, x: nat)
    requires x < |Run(events).asked| && Run(events).asked[x].Permission?
    ensures var t := Run(events);
            multiset(Answered(t.sent))[x] + multiset(Pending(Held(t.d)))[x] + multiset(t.dropped)[x] == 1
  {
    EveryRunIsSound(events);
    var t := Run(events);
    PermissionsAreAll(t.asked);
    IncreasingOnce(PermissionsOf(t.asked), |t.asked|, x);
  }

  /** A key that comes before a permission has been read long enough changes nothing, unless it
      cancels. */
  lemma UnreadKeysAreDropped(d: Desk, key: Key, ranking: seq<nat>, after: seq<nat>, now: int)
    requires !d.form && d.prompt.Some? && !Armed(d.prompt.value, now)
    ensures KeyPressed(d, key, ranking, after, now) == d <==> !key.Cancel?
    ensures Reply(d, key, ranking, now) == if key.Cancel? then Some(Permitted(d.prompt.value.kind.request, Deny)) else None
  {
    if key.Cancel? {
      var a := d.(prompt := None);
      SettledLine(a);
      ResolvedLine(d, None);
      HeldPending(d);
    }
  }

  /** Opening replaces the open prompt exactly when neither is a permission. */
  lemma OnlyPlainPromptsAreReplaced(d: Desk, p: Prompt)
    requires DeskOk(d) && d.prompt.Some? && d.prompt.value != p && d.prompt.value !in d.queue
    ensures d.prompt.value !in Held(Open(d, p)) <==> !d.prompt.value.kind.Permission? && !p.kind.Permission?
  {
  }

  /** A new prompt is shown before queued ones exactly when some are queued and neither it nor the
      open one is a permission. */
  lemma QueueIsOvertakenIff(d: Desk, p: Prompt)
    requires DeskOk(d) && d.prompt != Some(p)
    ensures Open(d, p).prompt == Some(p) && Open(d, p).queue != [] <==>
            d.queue != [] && !d.prompt.value.kind.Permission? && !p.kind.Permission?
  {
  }

  /** A permission queued behind a list waits for a list opened after it. */
  lemma ListOvertakesPermission(d: Desk, first: Prompt, asked: Prompt, second: Prompt)
    requires DeskOk(d) && d.prompt.None? && first != second
    requires asked.kind.Permission? && !first.kind.Permission? && !second.kind.Permission?
    ensures var e := Open(Open(Open(d, first), asked), second);
            e.prompt == Some(second) && e.queue == [asked] && first !in Held(e)
  {
  }

  /** On a permission that was read, 1, 2 and 3 answer what the options say, Enter answers the
      option selected, and no other text answers. */
  lemma PermissionKeys(d: Desk, text: string, ranking: seq<nat>, now: int)
    requires !d.form && d.prompt.Some? && d.prompt.value.kind.Permission? && Armed(d.prompt.value, now)
    requires d.prompt.value.options == 3 && d.prompt.value.filter == "" && d.prompt.value.selected < 3
    ensures var request := d.prompt.value.kind.request;
            Reply(d, Text("1"), ranking, now) == Some(Permitted(request, AllowOnce)) &&
            Reply(d, Text("2"), ranking, now) == Some(Permitted(request, AllowSession)) &&
            Reply(d, Text("3"), ranking, now) == Some(Permitted(request, Deny)) &&
            Reply(d, Cancel, ranking, now) == Some(Permitted(request, Deny)) &&
            (Reply(d, Text(text), ranking, now).Some? <==> text != "" && '1' <= text[0] <= '3')
    ensures var k := d.prompt.value.selected;
            Reply(d, Enter, ranking, now) == Reply(d, Text(if k == 0 then "1" else if k == 1 then "2" else "3"), ranking, now)
  {
    var p := d.prompt.value;
    assert VisibleOf(p, ranking)[p.selected] == p.selected;
  }

  /** A permission is never filtered, so its options are always all shown. */
  lemma {:induction false} PermissionsAreNotFiltered(events: seq<Timed>)
    ensures forall p :: p in Held(Run(events).d) && p.kind.Permission? ==> p.filter == ""
  {
    if events != [] {
      var init, e := events[..|events| - 1], events[|events| - 1];
      PermissionsAreNotFiltered(init);
      var t := Run(init);
      if e.event.Keyed? {
        if !t.d.form && t.d.prompt.Some? {
          var d := Decision(t.d.prompt.value, e.event.key, e.event.ranking, e.now);
          assert t.d.prompt.value in Held(t.d);
          if d.Some? { ResolveHolds(t.d, d.value); }
        }
      } else if e.event.TurnSettled? {
        SettleHolds(t.d);
      } else if e.event.Drawn? && t.d.prompt.Some? {
        assert t.d.prompt.value in Held(t.d);
      }
    }
  }
}
