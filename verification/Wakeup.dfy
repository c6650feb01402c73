/** When the next frame is due (`next_wakeup` and `ctx`, crates/inline/src/session.rs, with
    crates/inline/src/anim.rs). */
module Wakeup {
  import opened Styles

  const FRAME_MS: int := 80
  const UNFOCUSED_FRAME_MS: int := 1000
  const CTRL_C_WINDOW_MS: int := 1600

  /** The parts of the session that can ask for a frame. */
  datatype Clock = Clock(
    busy: bool, promptOpen: bool, tasks: bool, focused: bool, busySince: Option<int>,
    browserTicks: bool, statusUntil: Option<int>, footUntil: Option<int>, ctrlC: Option<int>)

  /** Something on screen animates; a question to the user does not. */
  predicate Spinning(c: Clock) { (c.busy && !c.promptOpen) || c.tasks }

  function Max(a: int, b: int): int { if a >= b then a else b }

  /** Division of the source: toward zero. */
  function Truncated(a: int, b: int): int
    requires b > 0
  {
    if a >= 0 then a / b else -((-a) / b)
  }

  /** The spinner frame drawn at a time. */
  function Frame(c: Clock, now: int): int {
    if !c.focused then 0
    else if c.busySince.Some? then Max(now - c.busySince.value, 0) / FRAME_MS
    else Max(Truncated(now, FRAME_MS), 0)
  }

  /** Whole seconds of work shown. */
  function Seconds(c: Clock, now: int): int {
    if c.busySince.Some? then Max(now - c.busySince.value, 0) / 1000 else 0
  }

  /** The tick that the spinner asks for. */
  function Tick(c: Clock, now: int): int {
    var step := if c.focused then FRAME_MS else UNFOCUSED_FRAME_MS;
    if c.busySince.Some? then c.busySince.value + (Max(now - c.busySince.value, 0) / step + 1) * step
    else now + step - now % step
  }

  /** A time asked for while it is still to come. */
  function Later(t: Option<int>, now: int): Option<int> { if t.Some? && t.value > now then t else None }

  /** The times asked for by the spinner, the browser, the status, the notice and the exit hint. */
  function Asked(c: Clock, now: int): seq<Option<int>> {
    [if Spinning(c) then Some(Tick(c, now)) else None,
     if c.browserTicks then Some(now + 1000 - now % 1000) else None,
     if c.busy then None else Later(c.statusUntil, now),
     Later(c.footUntil, now),
     if c.ctrlC.Some? then Later(Some(c.ctrlC.value + CTRL_C_WINDOW_MS), now) else None]
  }

  function Sooner(next: Option<int>, t: int): Option<int> {
    if next.Some? && next.value <= t then next else Some(t)
  }

  /** The earliest of some times, if any. */
  ghost predicate Earliest(next: Option<int>, asked: seq<Option<int>>) {
    (next.Some? ==> next in asked) &&
    forall k :: 0 <= k < |asked| && asked[k].Some? ==> next.Some? && next.value <= asked[k].value
  }

  lemma EarliestMore(next: Option<int>, asked: seq<Option<int>>, k: nat)
    requires k < |asked| && Earliest(next, asked[..k])
    ensures Earliest(if asked[k].Some? then Sooner(next, asked[k].value) else next, asked[..k + 1])
  {
    var less, more := asked[..k], asked[..k + 1];
    assert more[k] == asked[k];
    assert forall i :: 0 <= i < k ==> more[i] == less[i];
    assert next in less ==> next in more;
  }

  method SpinnerTick(c: Clock, now: int) returns (t: int)
    ensures t == Tick(c, now)
  {
    if !c.focused {
      if c.busySince.Some? {
        var elapsed := Max(now - c.busySince.value, 0);
        t := c.busySince.value + (elapsed / 1000 + 1) * 1000;
      } else {
        t := now + UNFOCUSED_FRAME_MS - now % UNFOCUSED_FRAME_MS;
      }
    } else if c.busySince.Some? {
      var elapsed := Max(now - c.busySince.value, 0);
      t := c.busySince.value + (elapsed / FRAME_MS + 1) * FRAME_MS;
    } else {
      t := now + FRAME_MS - now % FRAME_MS;
    }
  }

  method NextWakeup(c: Clock, now: int) returns (next: Option<int>)
    ensures Earliest(next, Asked(c, now))
  {
    hide Tick, Earliest;
    ghost var a := Asked(c, now);
    next := None;
    NoneIsEarliest(a);
    EarliestMore(next, a, 0);
    if (c.busy && !c.promptOpen) || c.tasks {
      var t := SpinnerTick(c, now);
      next := Sooner(next, t);
    }
    EarliestMore(next, a, 1);
    if c.browserTicks { next := Sooner(next, now + 1000 - now % 1000); }
    EarliestMore(next, a, 2);
    if c.statusUntil.Some? && c.statusUntil.value > now && !c.busy { next := Sooner(next, c.statusUntil.value); }
    EarliestMore(next, a, 3);
    if c.footUntil.Some? && c.footUntil.value > now { next := Sooner(next, c.footUntil.value); }
    EarliestMore(next, a, 4);
    if c.ctrlC.Some? && c.ctrlC.value + CTRL_C_WINDOW_MS > now { next := Sooner(next, c.ctrlC.value + CTRL_C_WINDOW_MS); }
    assert a[..5] == a;
  }

  lemma NoneIsEarliest(asked: seq<Option<int>>)
    ensures Earliest(None, asked[..0])
  {
  }

  lemma TickIsLater(c: Clock, now: int)
    ensures Tick(c, now) > now
  {
  }

  lemma NothingMovesBeforeTick(c: Clock, now: int, t: int)
    requires now <= t < Tick(c, now)
    ensures Frame(c, t) == Frame(c, now)
    ensures !c.focused ==> Seconds(c, t) == Seconds(c, now)
  {
  }

  /** A wakeup is strictly later than now.  While something spins there is one, and until it the
      spinner's frame (unfocused: the seconds shown) does not change. */
  lemma WakeupIsSoonEnough(c: Clock, now: int, next: Option<int>)
    requires Earliest(next, Asked(c, now))
    ensures next.Some? ==> next.value > now
    ensures Spinning(c) ==>
              next.Some? && forall t :: now <= t < next.value ==>
                Frame(c, t) == Frame(c, now) && (!c.focused ==> Seconds(c, t) == Seconds(c, now))
  {
    hide Tick, Frame, Seconds;
    TickIsLater(c, now);
    if Spinning(c) {
      assert Asked(c, now)[0] == Some(Tick(c, now));
      forall t | now <= t < next.value
        ensures Frame(c, t) == Frame(c, now) && (!c.focused ==> Seconds(c, t) == Seconds(c, now))
      {
        NothingMovesBeforeTick(c, now, t);
      }
    }
  }

  /** With a turn under way, or after the epoch, the tick is exactly the next frame: no wakeup is
      wasted on a spinner that has not moved. */
  lemma TickIsNextFrame(c: Clock, now: int)
    requires c.focused
    ensures Frame(c, Tick(c, now)) == Frame(c, now) + 1 <==> c.busySince.Some? || now >= 0
  {
  }

  // ----- what is asked for, said of the times --------------------------------------------------

  /** `t` is the first multiple of `step` behind `now`, counted from `since`; while that is to come, the
      first behind it. */
  predicate IsTick(t: int, now: int, since: int, step: int)
    requires step > 0
  {
    if since > now then t == since + step else now < t <= now + step && (t - since) % step == 0
  }

  /** The spinner asks for its next step, 80 ms or, out of focus, a second long, while tasks run or work
      goes on without a question; the browser for the next second; the status, while nothing goes on,
      the notice and the exit hint for their ends. */
  predicate AsksFor(c: Clock, now: int, t: int) {
    ((c.tasks || (c.busy && !c.promptOpen)) &&
       IsTick(t, now, if c.busySince.Some? then c.busySince.value else if c.focused then now - now % 80 else now - now % 1000,
              if c.focused then 80 else 1000)) ||
    (c.browserTicks && now < t <= now + 1000 && t % 1000 == 0) ||
    (!c.busy && c.statusUntil == Some(t) && now < t) ||
    (c.footUntil == Some(t) && now < t) ||
    (c.ctrlC == Some(t - 1600) && now < t)
  }

  lemma TickIs(now: int, since: int, focused: bool)
    requires since <= now
    ensures var step := if focused then 80 else 1000;
            var t := since + ((now - since) / step + 1) * step; now < t <= now + step && (t - since) % step == 0
  {
  }

  lemma OneTick(t: int, u: int, now: int, since: int, focused: bool)
    requires var step := if focused then 80 else 1000; IsTick(t, now, since, step) && IsTick(u, now, since, step)
    ensures t == u
  {
    if focused { OneFrame(t, u, now, since); } else { OneSecond(t, u, now, since); }
  }

  lemma OneFrame(t: int, u: int, now: int, since: int)
    requires IsTick(t, now, since, 80) && IsTick(u, now, since, 80)
    ensures t == u
  {
  }

  lemma OneSecond(t: int, u: int, now: int, since: int)
    requires IsTick(t, now, since, 1000) && IsTick(u, now, since, 1000)
    ensures t == u
  {
  }

  lemma SecondIs(t: int, now: int)
    ensures now < t <= now + 1000 && t % 1000 == 0 <==> t == now + 1000 - now % 1000
  {
  }

  lemma SpinnerAsks(c: Clock, now: int, t: int)
    requires Spinning(c)
    ensures var step := if c.focused then 80 else 1000;
            IsTick(t, now, if c.busySince.Some? then c.busySince.value else now - now % step, step) <==> t == Tick(c, now)
  {
    var step := if c.focused then 80 else 1000;
    var since := if c.busySince.Some? then c.busySince.value else now - now % step;
    if since <= now { TickIs(now, since, c.focused); }
    if c.busySince.None? { assert (now - since) / step == 0; }
    assert IsTick(Tick(c, now), now, since, step);
    if IsTick(t, now, since, step) { OneTick(t, Tick(c, now), now, since, c.focused); }
  }

  /** The next wakeup is the earliest time asked for; there is none exactly when nothing asks. */
  lemma WakeupMeans(c: Clock, now: int, next: Option<int>, t: int)
    requires Earliest(next, Asked(c, now))
    ensures next.Some? ==> AsksFor(c, now, next.value)
    ensures AsksFor(c, now, t) ==> next.Some? && next.value <= t
  {
    var a := Asked(c, now);
    AskedIs(c, now, t);
    if next.Some? {
      AskedIs(c, now, next.value);
      var k :| 0 <= k < |a| && a[k] == next;
    }
    hide Asked, AsksFor;
    if AsksFor(c, now, t) { var k :| 0 <= k < |a| && a[k] == Some(t); }
  }

  lemma AskedIs(c: Clock, now: int, t: int)
    ensures AsksFor(c, now, t) <==> Some(t) in Asked(c, now)
  {
    if Spinning(c) { SpinnerAsks(c, now, t); }
    SecondIs(t, now);
    hide Tick, IsTick;
    var a := Asked(c, now);
    assert Some(t) in a <==> a[0] == Some(t) || a[1] == Some(t) || a[2] == Some(t) || a[3] == Some(t) || a[4] == Some(t);
  }

  /** What is shown: out of focus always the first frame, else one more for every 80 ms of work, or of
      the day; and the whole seconds of work. */
  lemma FrameMeans(c: Clock, now: int)
    ensures !c.focused ==> Frame(c, now) == 0
    ensures c.focused ==>
              var since := if c.busySince.Some? then c.busySince.value else 0;
              if now <= since then Frame(c, now) == 0 else Frame(c, now) * 80 <= now - since < (Frame(c, now) + 1) * 80
    ensures c.busySince == None || now <= c.busySince.value ==> Seconds(c, now) == 0
    ensures c.busySince.Some? && now >= c.busySince.value ==>
              Seconds(c, now) * 1000 <= now - c.busySince.value < (Seconds(c, now) + 1) * 1000
  {
  }
}
