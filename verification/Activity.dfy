/** Background jobs and agents and the browser over them (crates/inline/src/activity.rs, with
    `open_browser`, `fix_browser` and the browser part of `handle_key`,
    crates/inline/src/session.rs). */
module Activity {
  import opened Styles
  import opened Nats
  import Output

  datatype Kind = Job | Agent

  datatype Status = Running | Waiting | NeedsAttention | Done | Failed | Stopped

  predicate Active(s: Status) { s.Running? || s.Waiting? || s.NeedsAttention? }

  datatype TaskStep = TaskStep(title: string, status: string)

  /** What is only shown of an item. */
  datatype Details = Details(summary: Option<string>, progress: Option<real>, startedAt: Option<int>, updatedAt: Option<int>,
                             steps: seq<TaskStep>)

  datatype Item = Item(id: string, kind: Kind, title: string, status: Status, stoppable: bool, log: seq<string>, stopRequested: bool,
                       details: Details)

  /** What the host says of an item; absent fields keep their values.  A summary or a progress may be
      given as nothing. */
  datatype Update = Update(id: Option<string>, kind: Option<Kind>, title: Option<string>, status: Option<Status>, stoppable: Option<bool>,
                           summary: Option<Option<string>>, progress: Option<Option<real>>, startedAt: Option<int>, updatedAt: Option<int>,
                           steps: Option<seq<TaskStep>>)

  datatype View =
    | List(sel: nat)
    | Detail(id: string, backSel: nat, scroll: nat, follow: bool)
    | Confirm(id: string, backSel: nat, detail: bool)

  /** What the host is told of the browser. */
  datatype Shown = Closed | Listed | Detailed(id: string)

  datatype Message = ViewChanged(shown: Shown) | StopRequested(id: string)

  datatype Transition = Started | Finished | Failing | Attention | Stopping

  datatype State = State(items: seq<Item>, view: Option<View>, sent: seq<Message>)

  const START := State([], None, [])

  // ----- items ---------------------------------------------------------------------------

  function Position(items: seq<Item>, id: string): (r: Option<nat>)
    ensures r.Some? ==> r.value < |items| && items[r.value].id == id
    ensures r.None? ==> forall k :: 0 <= k < |items| ==> items[k].id != id
  {
    if items == [] then None
    else if items[0].id == id then Some(0)
    else
      var r := Position(items[1..], id);
      if r.Some? then Some(r.value + 1) else None
  }

  function Get(items: seq<Item>, id: string): (r: Option<Item>)
    ensures r.Some? ==> r.value in items && r.value.id == id
    ensures r.None? ==> forall k :: 0 <= k < |items| ==> items[k].id != id
  {
    var p := Position(items, id);
    if p.Some? then Some(items[p.value]) else None
  }

  function Fresh(id: string): Item { Item(id, Job, id, Running, false, [], false, Details(None, None, None, None, [])) }

  function Clamped(x: real): real { if x < 0.0 then 0.0 else if x > 1.0 then 1.0 else x }

  function Newer<T>(given: Option<T>, was: Option<T>): Option<T> { if given.Some? then given else was }

  function Or<T>(given: Option<T>, was: T): T { if given.Some? then given.value else was }

  function Refreshed(d: Details, u: Update): Details {
    Details(if u.summary.Some? then (if u.summary.value == Some("") then None else u.summary.value) else d.summary,
            match u.progress {
              case None => d.progress
              case Some(None) => None
              case Some(Some(x)) => Some(Clamped(x))
            },
            Newer(u.startedAt, d.startedAt), Newer(u.updatedAt, d.updatedAt), Or(u.steps, d.steps))
  }

  /** A new status clears a stop asked for. */
  function Updated(item: Item, u: Update, known: bool): Item {
    var status := Or(u.status, item.status);
    var clears := u.status.Some? && (!known || status != item.status);
    Item(item.id, Or(u.kind, item.kind), Or(u.title, item.title), status, Or(u.stoppable, item.stoppable), item.log,
         if clears then false else item.stopRequested, Refreshed(item.details, u))
  }

  function Upserted(items: seq<Item>, u: Update): seq<Item> {
    if u.id.None? then items
    else
      var p := Position(items, u.id.value);
      if p.Some? then items[p.value := Updated(items[p.value], u, true)]
      else items + [Updated(Fresh(u.id.value), u, false)]
  }

  /** What of an update the transcript reports. */
  function ChangeOf(items: seq<Item>, u: Update, announceNew: bool): Option<Transition> {
    if u.id.None? then None
    else
      var was, now := Get(items, u.id.value), Get(Upserted(items, u), u.id.value);
      if now.None? then None
      else
        var s := now.value.status;
        if was.None? && Active(s) && announceNew then Some(Started)
        else if was.Some? && Active(was.value.status) && s == Done then Some(Finished)
        else if was.Some? && Active(was.value.status) && s == Failed then Some(Failing)
        else if was.Some? && Active(was.value.status) && s == Stopped then Some(Stopping)
        else if s == NeedsAttention && (was.None? || was.value.status != NeedsAttention) && (was.Some? || announceNew) then Some(Attention)
        else None
  }

  function Retained(items: seq<Item>, keep: set<string>): seq<Item> {
    if items == [] then []
    else
      var init, i := Retained(items[..|items| - 1], keep), items[|items| - 1];
      if i.id in keep then init + [i] else init
  }

  function Without(items: seq<Item>, id: string): seq<Item> {
    if items == [] then []
    else
      var init, i := Without(items[..|items| - 1], id), items[|items| - 1];
      if i.id != id then init + [i] else init
  }

  function UpsertAll(items: seq<Item>, us: seq<Update>): seq<Item> {
    if us == [] then items else Upserted(UpsertAll(items, us[..|us| - 1]), us[|us| - 1])
  }

  function IdsOf(us: seq<Update>): set<string> { set k | 0 <= k < |us| && us[k].id.Some? :: us[k].id.value }

  function Logged(items: seq<Item>, id: string, chunk: string): seq<Item> {
    var p := Position(items, id);
    if p.None? then items
    else items[p.value := items[p.value].(log := Output.Appended(items[p.value].log, chunk, Output.LOG_LINES))]
  }

  function StopAsked(items: seq<Item>, id: string): seq<Item> {
    var p := Position(items, id);
    if p.None? then items else items[p.value := items[p.value].(stopRequested := true)]
  }

  // ----- display order ---------------------------------------------------------------------

  /** Agents before jobs; within each, those needing attention, then other active ones. */
  function Rank(i: Item): nat {
    (if i.kind.Agent? then 0 else 3) + if i.status.NeedsAttention? then 0 else if Active(i.status) then 1 else 2
  }

  function OfRank(items: seq<Item>, rank: nat): (r: seq<Item>)
    ensures forall i :: i in r ==> i in items
  {
    if items == [] then []
    else
      var init, i := OfRank(items[..|items| - 1], rank), items[|items| - 1];
      if Rank(i) == rank then init + [i] else init
  }

  /** Items by rank; those of one rank keep their order. */
  function Ordered(items: seq<Item>): (r: seq<Item>)
    ensures forall i :: i in r ==> i in items
  {
    OfRank(items, 0) + OfRank(items, 1) + OfRank(items, 2) + OfRank(items, 3) + OfRank(items, 4) + OfRank(items, 5)
  }

  lemma OneRank(i: Item)
    ensures Rank(i) < 6
  {
  }

  lemma {:induction false} OfRankIs(items: seq<Item>, rank: nat)
    ensures forall i :: i in OfRank(items, rank) ==> Rank(i) == rank
  {
    if items != [] { OfRankIs(items[..|items| - 1], rank); }
  }

  lemma {:induction false} RanksAreAll(items: seq<Item>)
    ensures multiset(OfRank(items, 0)) + multiset(OfRank(items, 1)) + multiset(OfRank(items, 2)) +
            multiset(OfRank(items, 3)) + multiset(OfRank(items, 4)) + multiset(OfRank(items, 5)) == multiset(items)
  {
    if items != [] {
      var init, i := items[..|items| - 1], items[|items| - 1];
      RanksAreAll(init);
      assert items == init + [i];
      OneRank(i);
      forall rank: nat ensures OfRank(items, rank) == OfRank(init, rank) + (if Rank(i) == rank then [i] else []) {}
      hide OfRank, Rank;
      assert multiset(items) == multiset(init) + multiset([i]);
    }
  }

  ghost predicate RankedTo(shown: seq<Item>, r: int) {
    (forall i, j :: 0 <= i < j < |shown| ==> Rank(shown[i]) <= Rank(shown[j])) && forall i :: 0 <= i < |shown| ==> Rank(shown[i]) <= r
  }

  lemma RankMore(shown: seq<Item>, items: seq<Item>, r: nat)
    requires RankedTo(shown, r - 1)
    ensures RankedTo(shown + OfRank(items, r), r)
  {
    OfRankIs(items, r);
    var more := OfRank(items, r);
    forall i | 0 <= i < |more| ensures Rank(more[i]) == r { assert more[i] in more; }
    hide OfRank, Rank;
  }

  /** Every item is shown once, in order of rank. */
  lemma OrderedIsSorted(items: seq<Item>)
    ensures multiset(Ordered(items)) == multiset(items)
    ensures forall i, j :: 0 <= i < j < |Ordered(items)| ==> Rank(Ordered(items)[i]) <= Rank(Ordered(items)[j])
  {
    RanksAreAll(items);
    hide OfRank, Rank;
    RankMore([], items, 0);
    assert [] + OfRank(items, 0) == OfRank(items, 0);
    RankMore(OfRank(items, 0), items, 1);
    RankMore(OfRank(items, 0) + OfRank(items, 1), items, 2);
    RankMore(OfRank(items, 0) + OfRank(items, 1) + OfRank(items, 2), items, 3);
    RankMore(OfRank(items, 0) + OfRank(items, 1) + OfRank(items, 2) + OfRank(items, 3), items, 4);
    RankMore(OfRank(items, 0) + OfRank(items, 1) + OfRank(items, 2) + OfRank(items, 3) + OfRank(items, 4), items, 5);
  }

  // ----- keys --------------------------------------------------------------------------------

  datatype Key = Esc | CtrlC | CtrlB | Up | Down | Tab | Enter | Left | Right | Backspace | PageUp | PageDown | Home | End | Text(text: string) | Other

  datatype Outcome = Tell(shown: Shown) | Stop(id: string) | Close

  predicate AsksStop(key: Key) { key == Text("s") || key == Text("x") }

  predicate MayStop(i: Item) { i.stoppable && Active(i.status) }

  function ListKey(items: seq<Item>, sel: nat, key: Key): (View, seq<Outcome>) {
    var shown := Ordered(items);
    var n := |shown|;
    var at := Min(sel, Less(n, 1));
    if key.Esc? || key.CtrlC? || key.CtrlB? then (List(sel), [Tell(Closed), Close])
    else if key.Up? && n > 0 then (List((at + n - 1) % n), [])
    else if (key.Down? || key.Tab?) && n > 0 then (List((at + 1) % n), [])
    else if (key.Enter? || key.Right?) && at < n then (Detail(shown[at].id, at, 0, true), [Tell(Detailed(shown[at].id))])
    else if AsksStop(key) && at < n && MayStop(shown[at]) then (Confirm(shown[at].id, at, false), [])
    else (List(sel), [])
  }

  function Scrolled(v: View, scroll: nat, most: nat): View
    requires v.Detail?
  {
    v.(scroll := Min(scroll, most), follow := scroll == 0)
  }

  function DetailKey(items: seq<Item>, v: View, key: Key, page: nat): (View, seq<Outcome>)
    requires v.Detail?
  {
    var item := Get(items, v.id);
    var step := if page >= 1 then page else 1;
    var most := Less(if item.Some? then |item.value.log| else 0, step);
    var cur := if v.follow then 0 else v.scroll;
    if key.Esc? || key.Left? || key.Backspace? then (List(v.backSel), [Tell(Listed)])
    else if key.CtrlC? || key.CtrlB? then (v, [Tell(Closed), Close])
    else if key.Up? then (Scrolled(v, cur + 1, most), [])
    else if key.Down? then (Scrolled(v, Less(cur, 1), most), [])
    else if key.PageUp? then (Scrolled(v, cur + step, most), [])
    else if key.PageDown? then (Scrolled(v, Less(cur, step), most), [])
    else if key.Home? then (Scrolled(v, most, most), [])
    else if key.End? then (Scrolled(v, 0, most), [])
    else if AsksStop(key) && item.Some? && MayStop(item.value) then (Confirm(v.id, v.backSel, true), [])
    else (v, [])
  }

  /** Where a confirmation goes back to. */
  function Back(v: View): View
    requires v.Confirm?
  {
    if v.detail then Detail(v.id, v.backSel, 0, true) else List(v.backSel)
  }

  function ConfirmKey(v: View, key: Key): (View, seq<Outcome>)
    requires v.Confirm?
  {
    if key == Text("y") || key == Text("Y") || key.Enter? then (Back(v), [Stop(v.id)])
    else if key.Esc? || key.CtrlC? || key == Text("n") || key == Text("N") then (Back(v), [])
    else (v, [])
  }

  function ViewKey(items: seq<Item>, v: View, key: Key, page: nat): (View, seq<Outcome>) {
    match v
    case List(sel) => ListKey(items, sel, key)
    case Detail(_, _, _, _) => DetailKey(items, v, key, page)
    case Confirm(_, _, _) => ConfirmKey(v, key)
  }

  function Act(s: State, o: Outcome): State {
    match o
    case Tell(shown) => s.(sent := s.sent + [ViewChanged(shown)])
    case Stop(id) => s.(items := StopAsked(s.items, id), sent := s.sent + [StopRequested(id)])
    case Close => s.(view := None)
  }

  function ActAll(s: State, os: seq<Outcome>): State
    decreases |os|
  {
    if os == [] then s else ActAll(Act(s, os[0]), os[1..])
  }

  function Pressed(s: State, key: Key, page: nat): State {
    if s.view.None? then s
    else
      var (v, os) := ViewKey(s.items, s.view.value, key, page);
      ActAll(s.(view := Some(v)), os)
  }

  function ItemOf(v: View): Option<string> { if v.List? then None else Some(v.id) }

  function Opened(s: State): State {
    if s.view.None? then s.(view := Some(List(0)), sent := s.sent + [ViewChanged(Listed)]) else s
  }

  /** A view of an item that is gone becomes the list. */
  function Fixed(s: State): State {
    if s.view.Some? && ItemOf(s.view.value).Some? && Get(s.items, ItemOf(s.view.value).value).None?
    then s.(view := Some(List(0)), sent := s.sent + [ViewChanged(Listed)])
    else s
  }

  // ----- events --------------------------------------------------------------------------------

  datatype Event =
    | Reported(u: Update)
    | Replaced(us: seq<Update>)
    | LogAdded(id: string, chunk: string)
    | Removed(id: string)
    | BrowserOpened
    | KeyPressed(key: Key, page: nat)

  function Step(s: State, e: Event): State {
    match e
    case Reported(u) => Fixed(s.(items := Upserted(s.items, u)))
    case Replaced(us) => Fixed(s.(items := UpsertAll(Retained(s.items, IdsOf(us)), us)))
    case LogAdded(id, chunk) => s.(items := Logged(s.items, id, chunk))
    case Removed(id) => Fixed(s.(items := Without(s.items, id)))
    case BrowserOpened => Opened(s)
    case KeyPressed(key, page) => Pressed(s, key, page)
  }

  /** The item a key opens a confirmation for. */
  function Confirming(s: State, e: Event): Option<Item> {
    if e.KeyPressed? && s.view.Some? && !s.view.value.Confirm? && Step(s, e).view.Some? && Step(s, e).view.value.Confirm?
    then Get(s.items, Step(s, e).view.value.id)
    else None
  }

  /** A run with the items for which a confirmation was opened, as they were then. */
  datatype Trace = Trace(s: State, asked: seq<Item>)

  function Next(t: Trace, e: Event): Trace {
    var c := Confirming(t.s, e);
    Trace(Step(t.s, e), if c.Some? then t.asked + [c.value] else t.asked)
  }

  function Run(events: seq<Event>): Trace {
    if events == [] then Trace(START, []) else Next(Run(events[..|events| - 1]), events[|events| - 1])
  }

  // ----- the host's picture of the browser -------------------------------------------------------

  /** What lies under a confirmation. */
  function BaseView(v: Option<View>): Shown {
    if v.None? then Closed
    else match v.value
      case List(_) => Listed
      case Detail(id, _, _, _) => Detailed(id)
      case Confirm(id, _, detail) => if detail then Detailed(id) else Listed
  }

  /** The last view the host was told of. */
  function LastTold(sent: seq<Message>): Shown {
    if sent == [] then Closed
    else if sent[|sent| - 1].ViewChanged? then sent[|sent| - 1].shown
    else LastTold(sent[..|sent| - 1])
  }

  /** The stop requests sent. */
  function Stops(sent: seq<Message>): seq<string> {
    if sent == [] then []
    else
      var init, m := Stops(sent[..|sent| - 1]), sent[|sent| - 1];
      if m.StopRequested? then init + [m.id] else init
  }

  /** The host knows the view, and the item in it exists. */
  ghost predicate Mirrored(s: State) {
    LastTold(s.sent) == BaseView(s.view) &&
    (s.view.Some? && ItemOf(s.view.value).Some? ==> Get(s.items, ItemOf(s.view.value).value).Some?)
  }

  /** `a` can be picked, in order, out of the ids of `b`. */
  predicate Within(a: seq<string>, b: seq<Item>) {
    a == [] || (b != [] && (if a[|a| - 1] == b[|b| - 1].id && Within(a[..|a| - 1], b[..|b| - 1]) then true else Within(a, b[..|b| - 1])))
  }

  /** Each stop sent came from a confirmation of its own, opened on that item while it could be
      stopped; an open confirmation is one not used yet. */
  ghost predicate StopsOk(t: Trace) {
    (forall k :: 0 <= k < |t.asked| ==> MayStop(t.asked[k])) &&
    if t.s.view.Some? && t.s.view.value.Confirm?
    then t.asked != [] && t.asked[|t.asked| - 1].id == t.s.view.value.id && Within(Stops(t.s.sent), t.asked[..|t.asked| - 1])
    else Within(Stops(t.s.sent), t.asked)
  }

  lemma ToldMore(sent: seq<Message>, m: Message)
    ensures LastTold(sent + [m]) == if m.ViewChanged? then m.shown else LastTold(sent)
    ensures Stops(sent + [m]) == Stops(sent) + if m.StopRequested? then [m.id] else []
  {
    assert (sent + [m])[..|sent|] == sent;
  }

  lemma WithinMore(a: seq<string>, b: seq<Item>, i: Item)
    requires Within(a, b)
    ensures Within(a, b + [i]) && Within(a + [i.id], b + [i])
  {
    assert (b + [i])[..|b|] == b && (a + [i.id])[..|a|] == a;
  }

  /** Ids do not come and go by updates, logs or stop requests. */
  lemma SetKeeps(items: seq<Item>, k: nat, i: Item, id: string)
    requires k < |items| && i.id == items[k].id
    ensures Get(items[k := i], id).Some? <==> Get(items, id).Some?
  {
    var to := items[k := i];
    if Get(items, id).Some? {
      var p := Position(items, id).value;
      assert to[p].id == id;
    }
    if Get(to, id).Some? {
      var p := Position(to, id).value;
      assert items[p].id == id;
    }
  }

  lemma StopKeeps(items: seq<Item>, stop: string, id: string)
    ensures Get(StopAsked(items, stop), id).Some? <==> Get(items, id).Some?
  {
    var p := Position(items, stop);
    if p.Some? { SetKeeps(items, p.value, items[p.value].(stopRequested := true), id); }
  }

  lemma LogKeeps(items: seq<Item>, log: string, chunk: string, id: string)
    ensures Get(Logged(items, log, chunk), id).Some? <==> Get(items, id).Some?
  {
    var p := Position(items, log);
    hide Output.Appended;
    if p.Some? {
      SetKeeps(items, p.value, items[p.value].(log := Output.Appended(items[p.value].log, chunk, Output.LOG_LINES)), id);
    }
  }

  lemma FixedMirrors(s: State, items: seq<Item>)
    requires Mirrored(s)
    ensures Mirrored(Fixed(s.(items := items)))
  {
    ToldMore(s.sent, ViewChanged(Listed));
  }

  lemma ItemIsHeld(items: seq<Item>, i: Item)
    requires i in items
    ensures Get(items, i.id).Some?
  {
    var k :| 0 <= k < |items| && items[k] == i;
  }

  lemma OneOutcome(s: State, o: Outcome)
    ensures ActAll(s, [o]) == Act(s, o)
  {
    assert [o][1..] == [];
  }

  lemma TwoOutcomes(s: State, o: Outcome, p: Outcome)
    ensures ActAll(s, [o, p]) == Act(Act(s, o), p)
  {
    assert [o, p][1..] == [p];
    OneOutcome(Act(s, o), p);
  }

  ghost predicate Exists(items: seq<Item>, v: View) { ItemOf(v).Some? ==> Get(items, ItemOf(v).value).Some? }

  /** A key in the browser tells the host a view, closes, stops, or keeps the base view. */
  lemma KeyMeans(items: seq<Item>, v: View, key: Key, page: nat)
    requires Exists(items, v)
    ensures var (w, os) := ViewKey(items, v, key, page);
            os == [Tell(Closed), Close] ||
            (Exists(items, w) &&
             (os == [] ==> BaseView(Some(w)) == BaseView(Some(v))) &&
             (os != [] ==> !w.Confirm?) &&
             (os != [] ==> os == [Tell(BaseView(Some(w)))] || (v.Confirm? && os == [Stop(v.id)] && w == Back(v))))
  {
    match v
    case List(sel) =>
      forall i | i in Ordered(items) ensures Get(items, i.id).Some? { ItemIsHeld(items, i); }
      hide Ordered, Get;
    case Detail(_, _, _, _) => hide Get;
    case Confirm(_, _, _) => hide Get;
  }

  lemma PressedMirrors(s: State, key: Key, page: nat)
    requires Mirrored(s)
    ensures Mirrored(Pressed(s, key, page))
  {
    if s.view.Some? {
      KeyMeans(s.items, s.view.value, key, page);
      var (v, os) := ViewKey(s.items, s.view.value, key, page);
      var a := s.(view := Some(v));
      hide ViewKey, Get, LastTold, StopAsked, Stops;
      if os == [Tell(Closed), Close] {
        TwoOutcomes(a, Tell(Closed), Close);
        ToldMore(s.sent, ViewChanged(Closed));
      } else if os != [] {
        OneOutcome(a, os[0]);
        if os[0].Tell? {
          ToldMore(s.sent, ViewChanged(os[0].shown));
        } else {
          ToldMore(s.sent, StopRequested(os[0].id));
          StopKeeps(s.items, os[0].id, os[0].id);
        }
      }
    }
  }

  lemma NextMirrors(t: Trace, e: Event)
    requires Mirrored(t.s)
    ensures Mirrored(Next(t, e).s)
  {
    hide Mirrored, Fixed, Pressed, Upserted, UpsertAll, Retained, Without, Logged;
    match e
    case Reported(u) => FixedMirrors(t.s, Upserted(t.s.items, u));
    case Replaced(us) => FixedMirrors(t.s, UpsertAll(Retained(t.s.items, IdsOf(us)), us));
    case LogAdded(id, chunk) => LogMirrors(t.s, id, chunk);
    case Removed(id) => FixedMirrors(t.s, Without(t.s.items, id));
    case BrowserOpened => OpenedMirrors(t.s);
    case KeyPressed(key, page) => PressedMirrors(t.s, key, page);
  }

  lemma LogMirrors(s: State, id: string, chunk: string)
    requires Mirrored(s)
    ensures Mirrored(s.(items := Logged(s.items, id, chunk)))
  {
    if s.view.Some? && ItemOf(s.view.value).Some? { LogKeeps(s.items, id, chunk, ItemOf(s.view.value).value); }
  }

  lemma OpenedMirrors(s: State)
    requires Mirrored(s)
    ensures Mirrored(Opened(s))
  {
    ToldMore(s.sent, ViewChanged(Listed));
  }

  // ----- stop requests ------------------------------------------------------------------------

  lemma FixedStops(t: Trace, items: seq<Item>)
    requires StopsOk(t)
    ensures StopsOk(Trace(Fixed(t.s.(items := items)), t.asked))
  {
    ToldMore(t.s.sent, ViewChanged(Listed));
    assert Stops(t.s.sent) + [] == Stops(t.s.sent);
    Unused(t);
    hide Get;
  }

  /** A confirmation that goes away unused. */
  lemma Unused(t: Trace)
    requires StopsOk(t)
    ensures Within(Stops(t.s.sent), t.asked)
  {
    if t.s.view.Some? && t.s.view.value.Confirm? {
      var n := |t.asked| - 1;
      WithinMore(Stops(t.s.sent), t.asked[..n], t.asked[n]);
      assert t.asked[..n] + [t.asked[n]] == t.asked;
    }
  }

  /** Only the s and x keys open a confirmation, for an item that may be stopped. */
  lemma OpensForStoppable(items: seq<Item>, v: View, key: Key, page: nat)
    requires Exists(items, v) && UniqueIds(items)
    ensures var w := ViewKey(items, v, key, page).0;
            w.Confirm? && !v.Confirm? ==> Get(items, w.id).Some? && MayStop(Get(items, w.id).value)
    ensures v.Confirm? && ViewKey(items, v, key, page).0.Confirm? ==> ViewKey(items, v, key, page).0 == v
  {
    match v
    case List(sel) =>
      forall i | i in Ordered(items) ensures Get(items, i.id) == Some(i) { ItemIsGot(items, i); }
      hide Ordered, Get;
    case Detail(_, _, _, _) => hide Get;
    case Confirm(_, _, _) => hide Get;
  }

  ghost predicate UniqueIds(items: seq<Item>) { forall i, j :: 0 <= i < j < |items| ==> items[i].id != items[j].id }

  lemma ItemIsGot(items: seq<Item>, i: Item)
    requires UniqueIds(items) && i in items
    ensures Get(items, i.id) == Some(i)
  {
    var k :| 0 <= k < |items| && items[k] == i;
  }

  lemma PressedStops(t: Trace, key: Key, page: nat)
    requires StopsOk(t) && Mirrored(t.s) && UniqueIds(t.s.items)
    ensures StopsOk(Next(t, KeyPressed(key, page)))
  {
    if t.s.view.Some? {
      KeyMeans(t.s.items, t.s.view.value, key, page);
      var (v, os) := ViewKey(t.s.items, t.s.view.value, key, page);
      hide ViewKey, Get, LastTold, Stops, Within, Mirrored, StopsOk;
      if os == [] { KeptStops(t, v, key, page); } else { OutcomeStops(t, v, os, key, page); }
    }
  }

  lemma StopsAre(t: Trace)
    requires StopsOk(t)
    ensures forall k :: 0 <= k < |t.asked| ==> MayStop(t.asked[k])
  {
  }

  lemma StopsFit(t: Trace)
    requires forall k :: 0 <= k < |t.asked| ==> MayStop(t.asked[k])
    requires (t.s.view.Some? ==> !t.s.view.value.Confirm?) && Within(Stops(t.s.sent), t.asked)
    ensures StopsOk(t)
  {
  }

  lemma SentStops(t: Trace, v: View, os: seq<Outcome>)
    requires StopsOk(t) && t.s.view.Some?
    requires os == [Tell(Closed), Close] ||
             (!v.Confirm? && (os == [Tell(BaseView(Some(v)))] || (t.s.view.value.Confirm? && os == [Stop(t.s.view.value.id)])))
    ensures var after := ActAll(t.s.(view := Some(v)), os);
            (after.view.Some? ==> !after.view.value.Confirm?) && Within(Stops(after.sent), t.asked)
  {
    Unused(t);
    var a := t.s.(view := Some(v));
    hide StopAsked, Stops, Within, StopsOk, LastTold;
    assert Stops(t.s.sent) + [] == Stops(t.s.sent);
    if os == [Tell(Closed), Close] {
      TwoOutcomes(a, Tell(Closed), Close);
      ToldMore(t.s.sent, ViewChanged(Closed));
    } else {
      OneOutcome(a, os[0]);
      if os[0].Tell? {
        ToldMore(t.s.sent, ViewChanged(os[0].shown));
      } else {
        ToldMore(t.s.sent, StopRequested(os[0].id));
        UsedStops(t);
      }
    }
  }

  lemma OutcomeStops(t: Trace, v: View, os: seq<Outcome>, key: Key, page: nat)
    requires StopsOk(t) && t.s.view.Some? && ViewKey(t.s.items, t.s.view.value, key, page) == (v, os)
    requires os == [Tell(Closed), Close] ||
             (!v.Confirm? && (os == [Tell(BaseView(Some(v)))] || (t.s.view.value.Confirm? && os == [Stop(t.s.view.value.id)])))
    ensures StopsOk(Next(t, KeyPressed(key, page)))
  {
    hide Get, ActAll, Stops, Within, MayStop, StopsOk;
    SentStops(t, v, os);
    assert Next(t, KeyPressed(key, page)) == Trace(ActAll(t.s.(view := Some(v)), os), t.asked) by { hide ViewKey; }
    StopsAre(t);
    hide ViewKey;
    StopsFit(Next(t, KeyPressed(key, page)));
  }

  /** The open confirmation is used for its item. */
  lemma UsedStops(t: Trace)
    requires StopsOk(t) && t.s.view.Some? && t.s.view.value.Confirm?
    ensures Within(Stops(t.s.sent) + [t.s.view.value.id], t.asked)
  {
    var n := |t.asked| - 1;
    WithinMore(Stops(t.s.sent), t.asked[..n], t.asked[n]);
    assert t.asked[..n] + [t.asked[n]] == t.asked;
  }

  lemma KeptStops(t: Trace, v: View, key: Key, page: nat)
    requires StopsOk(t) && Mirrored(t.s) && UniqueIds(t.s.items) && t.s.view.Some?
    requires ViewKey(t.s.items, t.s.view.value, key, page) == (v, [])
    ensures StopsOk(Next(t, KeyPressed(key, page)))
  {
    hide ViewKey, Get, Stops, Within, MayStop;
    OpensForStoppable(t.s.items, t.s.view.value, key, page);
    Unused(t);
    var after := Pressed(t.s, key, page);
    assert after == t.s.(view := Some(v));
    hide Pressed;
    if v.Confirm? && !t.s.view.value.Confirm? {
      var i := Get(t.s.items, v.id).value;
      assert Next(t, KeyPressed(key, page)).asked == t.asked + [i];
      assert (t.asked + [i])[..|t.asked|] == t.asked;
    }
  }

  // ----- ids stay unique ---------------------------------------------------------------------

  lemma UpsertedUnique(items: seq<Item>, u: Update)
    requires UniqueIds(items)
    ensures UniqueIds(Upserted(items, u))
  {
  }

  lemma {:induction false} RetainedUnique(items: seq<Item>, keep: set<string>)
    requires UniqueIds(items)
    ensures UniqueIds(Retained(items, keep)) && forall i :: i in Retained(items, keep) ==> i in items
  {
    if items != [] {
      var init := items[..|items| - 1];
      RetainedUnique(init, keep);
      LastIsNew(items);
    }
  }

  lemma {:induction false} WithoutUnique(items: seq<Item>, id: string)
    requires UniqueIds(items)
    ensures UniqueIds(Without(items, id)) && forall i :: i in Without(items, id) ==> i in items
  {
    if items != [] {
      var init := items[..|items| - 1];
      WithoutUnique(init, id);
      LastIsNew(items);
    }
  }

  lemma LastIsNew(items: seq<Item>)
    requires UniqueIds(items) && items != []
    ensures forall i :: i in items[..|items| - 1] ==> i.id != items[|items| - 1].id && i in items
  {
    var init := items[..|items| - 1];
    forall i | i in init ensures i.id != items[|items| - 1].id && i in items {
      var k :| 0 <= k < |init| && init[k] == i;
      assert items[k] == i;
    }
  }

  lemma {:induction false} UpsertAllUnique(items: seq<Item>, us: seq<Update>)
    requires UniqueIds(items)
    ensures UniqueIds(UpsertAll(items, us))
  {
    if us != [] {
      UpsertAllUnique(items, us[..|us| - 1]);
      UpsertedUnique(UpsertAll(items, us[..|us| - 1]), us[|us| - 1]);
    }
  }

  lemma ActUnique(s: State, o: Outcome)
    requires UniqueIds(s.items)
    ensures UniqueIds(Act(s, o).items)
  {
  }

  lemma {:induction false} ActAllUnique(s: State, os: seq<Outcome>)
    requires UniqueIds(s.items)
    ensures UniqueIds(ActAll(s, os).items)
    decreases |os|
  {
    if os != [] {
      ActUnique(s, os[0]);
      ActAllUnique(Act(s, os[0]), os[1..]);
    }
  }

  lemma StepUnique(s: State, e: Event)
    requires UniqueIds(s.items)
    ensures UniqueIds(Step(s, e).items)
  {
    hide UniqueIds, Upserted, UpsertAll, Retained, Without, Logged, ViewKey, ActAll;
    match e
    case Reported(u) => UpsertedUnique(s.items, u);
    case Replaced(us) =>
      RetainedUnique(s.items, IdsOf(us));
      UpsertAllUnique(Retained(s.items, IdsOf(us)), us);
    case LogAdded(id, chunk) => LoggedUnique(s.items, id, chunk);
    case Removed(id) => WithoutUnique(s.items, id);
    case BrowserOpened =>
    case KeyPressed(key, page) =>
      if s.view.Some? {
        var (v, os) := ViewKey(s.items, s.view.value, key, page);
        ActAllUnique(s.(view := Some(v)), os);
      }
  }

  lemma LoggedUnique(items: seq<Item>, id: string, chunk: string)
    requires UniqueIds(items)
    ensures UniqueIds(Logged(items, id, chunk))
  {
    hide Output.Appended;
  }

  lemma NextStops(t: Trace, e: Event)
    requires StopsOk(t) && Mirrored(t.s) && UniqueIds(t.s.items)
    ensures StopsOk(Next(t, e))
  {
    hide StopsOk, Mirrored, Fixed, Pressed, Upserted, UpsertAll, Retained, Without, Logged, UniqueIds;
    match e
    case Reported(u) => FixedStops(t, Upserted(t.s.items, u));
    case Replaced(us) => FixedStops(t, UpsertAll(Retained(t.s.items, IdsOf(us)), us));
    case LogAdded(id, chunk) => LogStops(t, id, chunk);
    case Removed(id) => FixedStops(t, Without(t.s.items, id));
    case BrowserOpened => OpenedStops(t);
    case KeyPressed(key, page) => PressedStops(t, key, page);
  }

  lemma LogStops(t: Trace, id: string, chunk: string)
    requires StopsOk(t)
    ensures StopsOk(Trace(t.s.(items := Logged(t.s.items, id, chunk)), t.asked))
  {
    hide Logged, Stops, Within;
  }

  lemma OpenedStops(t: Trace)
    requires StopsOk(t)
    ensures StopsOk(Trace(Opened(t.s), t.asked))
  {
    ToldMore(t.s.sent, ViewChanged(Listed));
    assert Stops(t.s.sent) + [] == Stops(t.s.sent);
  }

  /** Over every run: the host's last word on the view is what is under any confirmation, details
      are of an item that exists, and the stop requests are, in order, from confirmations each
      opened on that item while it was stoppable and active. */
  lemma {:induction false} EveryRunIsSound(events: seq<Event>)
    ensures Mirrored(Run(events).s) && StopsOk(Run(events)) && UniqueIds(Run(events).s.items)
  {
    if events != [] {
      var init, e := events[..|events| - 1], events[|events| - 1];
      EveryRunIsSound(init);
      hide Mirrored, StopsOk, UniqueIds, Step;
      NextMirrors(Run(init), e);
      NextStops(Run(init), e);
      StepUnique(Run(init).s, e);
    }
  }

  // ----- the browser in place --------------------------------------------------------------------

  class Browser {
    var items: seq<Item>
    var view: Option<View>
    var sent: seq<Message>

    function Now(): State
      reads this
    {
      State(items, view, sent)
    }

    constructor ()
      ensures Now() == START
    {
      items, view, sent := [], None, [];
    }

    method Find(id: string) returns (r: Option<nat>)
      ensures r == Position(items, id)
    {
      var k := 0;
      while k < |items|
        invariant k <= |items|
        invariant Position(items, id) ==
                  var p := Position(items[k..], id); if p.Some? then Some(p.value + k) else None
      {
        assert items[k..][1..] == items[k + 1..];
        if items[k].id == id { return Some(k); }
        k := k + 1;
      }
      return None;
    }

    method Upsert(u: Update, announceNew: bool) returns (change: Option<Transition>)
      modifies `items
      ensures items == Upserted(old(items), u) && change == ChangeOf(old(items), u, announceNew)
    {
      if u.id.None? { return None; }
      var id := u.id.value;
      var p := Find(id);
      var was := if p.Some? then Some(items[p.value].status) else None;
      ghost var before := items;
      if p.Some? {
        items := items[p.value := Updated(items[p.value], u, true)];
        FoundAgain(before, p.value, items[p.value]);
      } else {
        items := items + [Updated(Fresh(id), u, false)];
        FoundLast(before, Updated(Fresh(id), u, false));
      }
      var now := if p.Some? then items[p.value].status else items[|items| - 1].status;
      if was.None? && Active(now) && announceNew {
        change := Some(Started);
      } else if was.Some? && Active(was.value) && (now == Done || now == Failed || now == Stopped) {
        change := Some(if now == Done then Finished else if now == Failed then Failing else Stopping);
      } else if now == NeedsAttention && was != Some(NeedsAttention) && (was.Some? || announceNew) {
        change := Some(Attention);
      } else {
        change := None;
      }
    }

    method Retain(keep: set<string>)
      modifies `items
      ensures items == Retained(old(items), keep)
    {
      var kept, all := [], items;
      for k := 0 to |all|
        invariant kept == Retained(all[..k], keep)
      {
        assert all[..k + 1][..k] == all[..k];
        if all[k].id in keep { kept := kept + [all[k]]; }
      }
      assert all[..|all|] == all;
      items := kept;
    }

    method FixBrowser()
      modifies `view, `sent
      ensures Now() == Fixed(old(Now()))
    {
      if view.Some? && ItemOf(view.value).Some? {
        var p := Find(ItemOf(view.value).value);
        if p.None? {
          view := Some(List(0));
          sent := sent + [ViewChanged(Listed)];
        }
      }
    }

    method Snapshot(us: seq<Update>)
      modifies this
      ensures Now() == Step(old(Now()), Replaced(us))
    {
      hide Upserted, Retained, Fixed, Get;
      Retain(IdsOf(us));
      for k := 0 to |us|
        invariant items == UpsertAll(Retained(old(items), IdsOf(us)), us[..k]) && view == old(view) && sent == old(sent)
      {
        assert us[..k + 1][..k] == us[..k];
        var _ := Upsert(us[k], false);
      }
      assert us[..|us|] == us;
      FixBrowser();
    }

    method Update(u: Update) returns (change: Option<Transition>)
      modifies this
      ensures Now() == Step(old(Now()), Reported(u)) && change == ChangeOf(old(items), u, true)
    {
      hide Upserted, Fixed, Get, ChangeOf;
      change := Upsert(u, true);
      FixBrowser();
    }

    method Log(id: string, chunk: string)
      modifies `items
      ensures Now() == Step(old(Now()), LogAdded(id, chunk))
    {
      hide Output.Appended;
      var p := Find(id);
      if p.Some? {
        var log := Output.AppendOutput(items[p.value].log, chunk, Output.LOG_LINES);
        items := items[p.value := items[p.value].(log := log)];
      }
    }

    method Remove(id: string)
      modifies this
      ensures Now() == Step(old(Now()), Removed(id))
    {
      hide Fixed, Get;
      var kept, all := [], items;
      for k := 0 to |all|
        invariant kept == Without(all[..k], id)
      {
        assert all[..k + 1][..k] == all[..k];
        if all[k].id != id { kept := kept + [all[k]]; }
      }
      assert all[..|all|] == all;
      items := kept;
      FixBrowser();
    }

    method Open()
      modifies `view, `sent
      ensures Now() == Opened(old(Now()))
    {
      if view.None? {
        view := Some(List(0));
        sent := sent + [ViewChanged(Listed)];
      }
    }

    method Press(key: Key, page: nat)
      modifies this
      ensures Now() == Pressed(old(Now()), key, page)
    {
      hide ViewKey;
      if view.None? { return; }
      var (v, os) := ViewKey(items, view.value, key, page);
      view := Some(v);
      ghost var start := Now();
      var k := 0;
      while k < |os|
        invariant k <= |os| && ActAll(Now(), os[k..]) == ActAll(start, os)
      {
        assert os[k..][1..] == os[k + 1..];
        match os[k] {
          case Tell(shown) => sent := sent + [ViewChanged(shown)];
          case Stop(id) =>
            var p := Find(id);
            if p.Some? { items := items[p.value := items[p.value].(stopRequested := true)]; }
            sent := sent + [StopRequested(id)];
          case Close => view := None;
        }
        k := k + 1;
      }
    }
  }

  lemma {:induction false} FoundAgain(items: seq<Item>, k: nat, i: Item)
    requires Position(items, i.id) == Some(k) && k < |items|
    ensures Position(items[k := i], i.id) == Some(k)
  {
    if k > 0 {
      assert items[k := i][1..] == items[1..][k - 1 := i];
      FoundAgain(items[1..], k - 1, i);
    }
  }

  lemma {:induction false} FoundLast(items: seq<Item>, i: Item)
    requires Position(items, i.id) == None
    ensures Position(items + [i], i.id) == Some(|items|)
  {
    if items == [] {
      assert items + [i] == [i];
    } else {
      assert (items + [i])[1..] == items[1..] + [i];
      FoundLast(items[1..], i);
    }
  }

  lemma UpsertedGet(items: seq<Item>, u: Update)
    requires u.id.Some?
    ensures var was := Get(items, u.id.value);
            Get(Upserted(items, u), u.id.value) ==
              Some(if was.Some? then Updated(was.value, u, true) else Updated(Fresh(u.id.value), u, false))
  {
    var id := u.id.value;
    var p := Position(items, id);
    if p.Some? {
      FoundAgain(items, p.value, Updated(items[p.value], u, true));
    } else {
      FoundLast(items, Updated(Fresh(id), u, false));
    }
  }

  /** One update that says what two say, the later of which wins. */
  function Later(u: Update, v: Update): Update {
    Update(v.id, Newer(v.kind, u.kind), Newer(v.title, u.title), Newer(v.status, u.status), Newer(v.stoppable, u.stoppable),
           Newer(v.summary, u.summary), Newer(v.progress, u.progress), Newer(v.startedAt, u.startedAt),
           Newer(v.updatedAt, u.updatedAt), Newer(v.steps, u.steps))
  }

  lemma SetApart(items: seq<Item>, k: nat, a: Item, b: Item)
    requires k < |items|
    ensures items[k := a] == items[k := b] <==> a == b
  {
    if items[k := a] == items[k := b] { assert items[k := a][k] == items[k := b][k]; }
  }

  lemma UpdatedTwice(i: Item, u: Update, v: Update, known: bool)
    requires known || !i.stopRequested
    ensures Updated(Updated(i, u, known), v, true) == Updated(i, Later(u, v), known) <==>
            !(i.stopRequested && u.status.Some? && u.status.value != i.status && v.status == Some(i.status))
  {
    SameDetails(i.details, u, v);
    hide Refreshed;
  }

  lemma SameDetails(d: Details, u: Update, v: Update)
    ensures Refreshed(Refreshed(d, u), v) == Refreshed(d, Later(u, v))
  {
  }

  lemma UpdatedId(i: Item, u: Update, known: bool)
    ensures Updated(i, u, known).id == i.id
  {
  }

  lemma UpsertedKnown(items: seq<Item>, k: nat, u: Update)
    requires u.id.Some? && k < |items| && Position(items, u.id.value) == Some(k)
    ensures Upserted(items, u) == items[k := Updated(items[k], u, true)]
  {
    hide Updated;
  }

  lemma FreshIs(id: string)
    ensures Fresh(id).id == id && !Fresh(id).stopRequested
  {
  }

  lemma KnownMerge(items: seq<Item>, k: nat, u: Update, v: Update)
    requires u.id.Some? && u.id == v.id && Position(items, u.id.value) == Some(k) && k < |items|
    ensures Upserted(Upserted(items, u), v) == Upserted(items, Later(u, v)) <==>
            !(items[k].stopRequested && u.status.Some? && u.status.value != items[k].status && v.status == Some(items[k].status))
  {
    hide Updated, Position, Upserted;
    var i := items[k];
    var once := Updated(i, u, true);
    UpdatedTwice(i, u, v, true);
    UpdatedId(i, u, true);
    FoundAgain(items, k, once);
    UpsertedKnown(items, k, u);
    UpsertedKnown(items, k, Later(u, v));
    UpsertedKnown(items[k := once], k, v);
    assert items[k := once][k := Updated(once, v, true)] == items[k := Updated(once, v, true)];
    SetApart(items, k, Updated(once, v, true), Updated(i, Later(u, v), true));
  }

  lemma NewMerge(items: seq<Item>, u: Update, v: Update)
    requires u.id.Some? && u.id == v.id && Position(items, u.id.value).None?
    ensures Upserted(Upserted(items, u), v) == Upserted(items, Later(u, v))
  {
    var f := Fresh(u.id.value);
    FreshIs(u.id.value);
    hide Updated, Fresh;
    UpdatedTwice(f, u, v, false);
    UpdatedId(f, u, false);
    FoundLast(items, Updated(f, u, false));
    assert Upserted(items, u) == items + [Updated(f, u, false)];
    SetLast(items, Updated(f, u, false), Updated(Updated(f, u, false), v, true));
  }

  lemma SetLast(items: seq<Item>, a: Item, b: Item)
    ensures (items + [a])[|items| := b] == items + [b] && (items + [a])[|items|] == a
  {
  }

  /** Two updates of an item are one exactly unless a stop was asked for, the first changes the status
      and the second changes it back: the request is then forgotten. */
  lemma UpdatesMergeIff(items: seq<Item>, u: Update, v: Update)
    requires u.id.Some? && u.id == v.id
    ensures Upserted(Upserted(items, u), v) == Upserted(items, Later(u, v)) <==>
            var p := Position(items, u.id.value);
            !(p.Some? && items[p.value].stopRequested && u.status.Some? && u.status.value != items[p.value].status &&
              v.status == Some(items[p.value].status))
  {
    var p := Position(items, u.id.value);
    if p.Some? { KnownMerge(items, p.value, u, v); } else { NewMerge(items, u, v); }
  }

  /** A change is reported once: the same update again reports nothing. */
  lemma ChangesAreReportedOnce(items: seq<Item>, u: Update, announceNew: bool)
    ensures ChangeOf(Upserted(items, u), u, announceNew) == None
  {
    if u.id.Some? {
      UpsertedGet(items, u);
      UpsertedGet(Upserted(items, u), u);
      hide Get, Upserted;
    }
  }
}
