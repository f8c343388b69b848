/**
 The timing of the send loop, with exact timers: a sleeping loop that nothing wakes
 runs again at the very moment its timer fires. Times are in milliseconds.

 `resent` is a history variable: when the oldest fragment was retransmitted since the
 last forward progress.
 */
module SendLoop {
  import opened Wire

  const ACK_TIMEOUT := 300
  const ACK_TIMEOUT_MAX := 5000
  const LINK_DEAD_DEADLINE := 6000

  datatype Phase =
    | Ready
    | Asleep(resendAt: int, until: int)
    | Idling
    | Silent

  /** `busy`: some fragment is in flight. `notified`: a wake-up is waiting for the loop. */
  datatype Loop = Loop(
    now: int,
    phase: Phase,
    timeout: int,
    tracked: Option<int>,
    lastProgress: int,
    busy: bool,
    notified: bool,
    resent: seq<int>)

  datatype Event =
    | Pass(until: int)
    | Notify
    | Progress(stillBusy: bool)
    | SendFragment
    | Settle(ackDeadline: Option<int>)
    | Wake
    | Expire

  function Start(now: int): Loop {
    Loop(now, Ready, ACK_TIMEOUT, None, now, false, false, [])
  }

  /** The loop found nothing to send. */
  function Wait(l: Loop, ackDeadline: Option<int>): Loop {
    if !l.busy then l.(phase := Idling)
    else
      var t := if l.tracked.Some? && l.tracked.value != l.lastProgress then ACK_TIMEOUT else l.timeout;
      var m := l.(timeout := t, tracked := Some(l.lastProgress));
      var deadAt := l.lastProgress + LINK_DEAD_DEADLINE;
      if l.now >= deadAt then m.(phase := Silent)
      else
        var resendAt := l.now + t;
        var until := Min(resendAt, deadAt);
        m.(phase := Asleep(resendAt, if ackDeadline.Some? then Min(ackDeadline.value, until) else until))
  }

  /** The timer fired: an early one only loops, a full one retransmits and doubles the timeout. */
  function Fire(l: Loop): Loop
    requires l.phase.Asleep?
  {
    if l.now < l.phase.resendAt then l.(phase := Ready)
    else l.(phase := Ready, timeout := Min(2 * l.timeout, ACK_TIMEOUT_MAX), resent := l.resent + [l.now])
  }

  /** Once silence is declared the loop has returned. */
  function Next(l: Loop, ev: Event): Loop {
    if l.phase.Silent? then l
    else
      match ev
      case Pass(t) =>
        if t <= l.now || (l.phase.Asleep? && !l.notified && t > l.phase.until) then l else l.(now := t)
      case Notify => l.(notified := true)
      case Progress(stillBusy) =>
        if l.busy then l.(lastProgress := l.now, busy := stillBusy, notified := true, resent := []) else l
      case SendFragment =>
        if !l.phase.Ready? then l
        else if l.busy then l
        else l.(busy := true, lastProgress := l.now, resent := [])
      case Settle(ackDeadline) => if l.phase.Ready? then Wait(l, ackDeadline) else l
      case Wake =>
        if l.notified && l.phase.Asleep? then l.(notified := false, phase := Ready)
        else if l.phase.Idling? then l.(notified := false, phase := Ready, timeout := ACK_TIMEOUT, tracked := None)
        else l
      case Expire =>
        if l.phase.Asleep? && !l.notified && l.now >= l.phase.until then Fire(l) else l
  }

  function Run(l: Loop, events: seq<Event>): Loop {
    if events == [] then l else Next(Run(l, events[..|events| - 1]), events[|events| - 1])
  }

  /** The sum of the first `k` timeouts. */
  function Waited(k: nat): int {
    ACK_TIMEOUT * (Pow2(k) - 1)
  }

  lemma SmallPowers()
    ensures Pow2(0) == 1 && Pow2(1) == 2 && Pow2(2) == 4 && Pow2(3) == 8 && Pow2(4) == 16 && Pow2(5) == 32
  {
    assert Pow2(2) == 2 * Pow2(1) && Pow2(4) == 2 * Pow2(3) && Pow2(3) == 2 * Pow2(2) && Pow2(5) == 2 * Pow2(4);
  }

  /** When the current silence last saw something: its start, or the latest retransmission. */
  function LastEvent(l: Loop): int {
    if l.resent == [] then l.lastProgress else l.resent[|l.resent| - 1]
  }

  /** Retransmissions come no faster than the doubling timeouts allow. */
  ghost predicate Spaced(l: Loop) {
    && (forall i :: 0 <= i < |l.resent| ==> l.lastProgress + Waited(i + 1) <= l.resent[i])
    && (forall i :: 0 < i < |l.resent| ==> l.resent[i - 1] + ACK_TIMEOUT * Pow2(i) <= l.resent[i])
  }

  ghost predicate Doubled(timeout: int) {
    exists k: nat :: k <= 4 && timeout == ACK_TIMEOUT * Pow2(k)
  }

  /** The timeout belongs to the current silence, or to one that has ended and is about to be reset. */
  ghost predicate TimeoutOk(l: Loop) {
    && Doubled(l.timeout)
    && (l.tracked.None? ==> l.timeout == ACK_TIMEOUT && l.resent == [])
    && (l.tracked.Some? ==> l.tracked.value <= l.lastProgress)
    && (if l.tracked == Some(l.lastProgress) then l.timeout == ACK_TIMEOUT * Pow2(|l.resent|) else l.resent == [])
  }

  /** A sleeping loop wakes in time to declare the link dead, and no sooner than a full timeout to retransmit. */
  ghost predicate AsleepOk(l: Loop) {
    l.phase.Asleep? && !l.notified ==>
      && l.busy && l.tracked == Some(l.lastProgress)
      && l.now <= l.lastProgress + LINK_DEAD_DEADLINE && l.phase.until <= l.lastProgress + LINK_DEAD_DEADLINE
      && LastEvent(l) + l.timeout <= l.phase.resendAt
  }

  ghost predicate Inv(l: Loop) {
    && |l.resent| <= 4 && LastEvent(l) <= l.now && Spaced(l) && TimeoutOk(l) && AsleepOk(l)
    && (!l.busy ==> l.resent == []) && (l.phase.Idling? ==> !l.busy)
    && (l.phase.Silent? ==> l.busy && l.now - l.lastProgress >= LINK_DEAD_DEADLINE)
  }

  lemma WaitedStep(k: nat)
    ensures Waited(k + 1) == Waited(k) + ACK_TIMEOUT * Pow2(k)
  {
  }

  lemma DoubledBase()
    ensures Doubled(ACK_TIMEOUT)
  {
    assert ACK_TIMEOUT == ACK_TIMEOUT * Pow2(0);
  }

  lemma WaitInv(l: Loop, ackDeadline: Option<int>)
    requires Inv(l) && l.phase.Ready?
    ensures Inv(Wait(l, ackDeadline))
  {
    DoubledBase();
  }

  /** A full timer before the deadline is at most the fourth. */
  lemma FireInv(l: Loop)
    requires Inv(l) && l.phase.Asleep? && !l.notified
    ensures Inv(Fire(l))
  {
    if l.now >= l.phase.resendAt {
      var n, m := |l.resent|, Fire(l);
      SmallPowers();
      WaitedStep(n);
      assert l.lastProgress + Waited(n) <= LastEvent(l);
      assert n < 4;
      assert m.timeout == ACK_TIMEOUT * Pow2(n + 1);
      assert forall i :: 0 <= i < n ==> m.resent[i] == l.resent[i];
    }
  }

  /** Once something was retransmitted, progress comes strictly later than the last progress. */
  lemma ProgressIsLater(l: Loop)
    requires Inv(l)
    ensures l.resent != [] ==> l.lastProgress < l.now
    ensures l.tracked == Some(l.now) ==> l.timeout == ACK_TIMEOUT
    ensures l.tracked.Some? ==> l.tracked.value <= l.now
  {
    SmallPowers();
    if l.resent != [] {
      assert l.lastProgress + Waited(1) <= l.resent[0];
      WaitedGrows(|l.resent|);
    }
  }

  lemma ProgressInv(l: Loop, ev: Event)
    requires Inv(l) && (ev.Progress? || ev.SendFragment?)
    ensures Inv(Next(l, ev))
  {
    ProgressIsLater(l);
    SmallPowers();
  }

  lemma QuietInv(l: Loop, ev: Event)
    requires Inv(l) && (ev.Pass? || ev.Notify? || ev.Wake?)
    ensures Inv(Next(l, ev))
  {
    DoubledBase();
  }

  lemma InvNext(l: Loop, ev: Event)
    requires Inv(l)
    ensures Inv(Next(l, ev))
  {
    match ev
    case Settle(ackDeadline) =>
      if l.phase.Ready? {
        WaitInv(l, ackDeadline);
      }
    case Expire =>
      if l.phase.Asleep? && !l.notified && l.now >= l.phase.until {
        FireInv(l);
      }
    case Progress(_) => ProgressInv(l, ev);
    case SendFragment => ProgressInv(l, ev);
    case _ => QuietInv(l, ev);
  }

  lemma {:induction false} WaitedGrows(n: nat)
    requires 1 <= n
    ensures Waited(1) <= Waited(n)
  {
    if n > 1 {
      WaitedGrows(n - 1);
      WaitedStep(n - 1);
    }
  }

  /**
   Send-loop timing over every run: the timeout is 300 ms doubled at most four times, at
   most four retransmissions are chosen between two progress events, the i-th of them no
   earlier than 300 (2^i - 1) ms after the last progress, and the loop never sleeps past
   the silence deadline.
   */
  lemma {:induction false} Timing(now: int, events: seq<Event>)
    ensures Inv(Run(Start(now), events))
  {
    if events == [] {
      DoubledBase();
    } else {
      Timing(now, events[..|events| - 1]);
      InvNext(Run(Start(now), events[..|events| - 1]), events[|events| - 1]);
    }
  }

  /** In every run a timer that has run its full length resends the oldest fragment at that moment and doubles the timeout. */
  lemma FullTimerResends(now: int, events: seq<Event>)
    requires var l := Run(Start(now), events); l.phase.Asleep? && !l.notified && l.phase.until <= l.now
    ensures var l := Run(Start(now), events);
            var m := Next(l, Expire);
            && m.phase.Ready?
            && (if l.now < l.phase.resendAt then m.resent == l.resent && m.timeout == l.timeout
                else m.resent == l.resent + [l.now] && m.timeout == 2 * l.timeout)
  {
    Timing(now, events);
    var l := Run(Start(now), events);
    if l.phase.resendAt <= l.now {
      FireDoubles(l);
    }
  }

  /** The ceiling does not interfere. */
  lemma FireDoubles(l: Loop)
    requires Inv(l) && l.phase.Asleep? && !l.notified && l.phase.resendAt <= l.now
    ensures 2 * l.timeout <= ACK_TIMEOUT_MAX
  {
    SmallPowers();
    FireInv(l);
    assert |Fire(l).resent| == |l.resent| + 1;
  }

  /**
   In every run, a loop with nothing to send idles if nothing is in flight, gives the link
   up after six silent seconds, and otherwise sleeps until the first of the ACK deadline,
   the silence deadline and the retransmission, which is 300 ms away, doubled once for each
   retransmission since the last progress.
   */
  lemma SettlesExactly(now: int, events: seq<Event>, ackDeadline: Option<int>)
    requires Run(Start(now), events).phase.Ready?
    ensures var l := Run(Start(now), events);
            var m := Next(l, Settle(ackDeadline));
            if !l.busy then m.phase.Idling?
            else if l.now - l.lastProgress >= 6000 then m.phase.Silent?
            else
              && m.phase.Asleep? && m.phase.resendAt == l.now + 300 * Pow2(|l.resent|)
              && m.phase.until == Min(if ackDeadline.Some? then ackDeadline.value else m.phase.resendAt, Min(m.phase.resendAt, l.lastProgress + 6000))
  {
    Timing(now, events);
    WaitExactly(Run(Start(now), events), ackDeadline);
  }

  lemma WaitExactly(l: Loop, ackDeadline: Option<int>)
    requires Inv(l) && l.phase.Ready?
    ensures var m := Wait(l, ackDeadline);
            if !l.busy then m.phase.Idling?
            else if l.now - l.lastProgress >= LINK_DEAD_DEADLINE then m.phase.Silent?
            else
              && m.phase.Asleep? && m.phase.resendAt == l.now + ACK_TIMEOUT * Pow2(|l.resent|)
              && m.phase.until == Min(if ackDeadline.Some? then ackDeadline.value else m.phase.resendAt,
                                      Min(m.phase.resendAt, l.lastProgress + LINK_DEAD_DEADLINE))
  {
    SmallPowers();
  }

  /** A wake-up is never lost: whatever the loop was waiting for, it runs again. */
  lemma WakesExactly(now: int, events: seq<Event>)
    ensures var l := Run(Start(now), events);
            var m := Next(l, Wake);
            if l.phase.Idling? || (l.phase.Asleep? && l.notified)
            then m.phase.Ready? && !m.notified && m.resent == l.resent && (l.phase.Idling? ==> m.timeout == 300)
            else m == l
  {
    Timing(now, events);
  }

  // ---------- the exact schedule of a silence ----------

  /** A fragment has just gone out, or an ACK has just come in with more to wait for, at time `t`. */
  ghost predicate SilenceBegins(l: Loop, t: int) {
    Inv(l) && l.phase.Ready? && l.busy && !l.notified && l.now == l.lastProgress == t && l.resent == []
  }

  /** Nothing but exact timers: the loop goes to sleep at once, and time passes only while it sleeps. */
  predicate TimersOnly(l: Loop, ev: Event) {
    ev == Settle(None) || ev.Expire? || (ev.Pass? && l.phase.Asleep?)
  }

  predicate TimersOnlyAll(l: Loop, events: seq<Event>) {
    events == [] || (TimersOnlyAll(l, events[..|events| - 1]) && TimersOnly(Run(l, events[..|events| - 1]), events[|events| - 1]))
  }

  /** When the i-th retransmission of a silence that begins at `t` is due. */
  function DueAt(t: int, i: nat): int {
    t + Waited(i + 1)
  }

  lemma DueTimes(t: int)
    ensures DueAt(t, 0) == t + 300 && DueAt(t, 1) == t + 900 && DueAt(t, 2) == t + 2100 && DueAt(t, 3) == t + 4500 && DueAt(t, 4) == t + 9300
  {
    SmallPowers();
  }

  /** Exactly the retransmissions that are due have been made, each at its time. */
  ghost predicate OnSchedule(l: Loop, t: int) {
    var n := |l.resent|;
    && n <= 4 && l.busy && !l.notified && l.lastProgress == t && t <= l.now <= t + LINK_DEAD_DEADLINE
    && (forall i :: 0 <= i < n ==> l.resent[i] == DueAt(t, i))
    && (l.tracked == Some(t) || (n == 0 && (l.tracked.None? ==> l.timeout == ACK_TIMEOUT)))
    && (l.tracked == Some(t) ==> l.timeout == ACK_TIMEOUT * Pow2(n))
    && match l.phase
       case Ready => l.now == LastEvent(l) || l.now == t + LINK_DEAD_DEADLINE
       case Asleep(resendAt, until) =>
         resendAt == DueAt(t, n) && until == Min(resendAt, t + LINK_DEAD_DEADLINE) && LastEvent(l) <= l.now <= until && l.tracked == Some(t)
       case Idling => false
       case Silent => l.now == t + LINK_DEAD_DEADLINE && n == 4
  }

  lemma ScheduleBegins(l: Loop, t: int)
    requires SilenceBegins(l, t)
    ensures OnSchedule(l, t)
  {
    SmallPowers();
  }

  lemma ScheduleSettles(l: Loop, t: int)
    requires OnSchedule(l, t) && l.phase.Ready? && (l.now == t + LINK_DEAD_DEADLINE ==> |l.resent| == 4)
    ensures OnSchedule(Wait(l, None), t)
  {
    DueTimes(t);
    SmallPowers();
    WaitedStep(|l.resent|);
    var n := |l.resent|;
    assert n == 0 || n == 1 || n == 2 || n == 3 || n == 4;
    assert n > 0 ==> l.resent[n - 1] == DueAt(t, n - 1);
  }

  lemma ScheduleFires(l: Loop, t: int)
    requires OnSchedule(l, t) && l.phase.Asleep? && l.now >= l.phase.until
    ensures OnSchedule(Fire(l), t)
    ensures Fire(l).now == t + LINK_DEAD_DEADLINE ==> |Fire(l).resent| == 4
  {
    DueTimes(t);
    SmallPowers();
    var n := |l.resent|;
    assert n == 0 || n == 1 || n == 2 || n == 3 || n == 4;
  }

  /** Before the deadline the loop is still to fire; at the deadline all four are made. */
  ghost predicate AllMade(l: Loop, t: int) {
    l.phase.Ready? && l.now == t + LINK_DEAD_DEADLINE ==> |l.resent| == 4
  }

  lemma {:induction false} ScheduleRun(l: Loop, t: int, events: seq<Event>)
    requires SilenceBegins(l, t) && TimersOnlyAll(l, events)
    ensures OnSchedule(Run(l, events), t) && AllMade(Run(l, events), t)
  {
    if events == [] {
      ScheduleBegins(l, t);
    } else {
      var init, ev := events[..|events| - 1], events[|events| - 1];
      ScheduleRun(l, t, init);
      var m := Run(l, init);
      if ev.Settle? && m.phase.Ready? {
        ScheduleSettles(m, t);
      } else if ev.Expire? && m.phase.Asleep? && m.now >= m.phase.until {
        ScheduleFires(m, t);
      }
    }
  }

  function Resends(t: int): seq<int> {
    [t + 300, t + 900, t + 2100, t + 4500]
  }

  /**
   The schedule, exactly. From any reachable point at which a silence begins, and with
   nothing but exact timers, the oldest fragment is retransmitted 300, 900, 2100 and
   4500 ms later and at no other time; the loop never lives past 6000 ms, and when it
   declares silence it is 6000 ms exactly.
   */
  lemma ExactSchedule(start: int, before: seq<Event>, t: int, events: seq<Event>)
    requires SilenceBegins(Run(Start(start), before), t) && TimersOnlyAll(Run(Start(start), before), events)
    ensures var l := Run(Run(Start(start), before), events);
            && l.resent <= Resends(t) && l.now <= t + 6000
            && (forall i :: 0 <= i < 4 && Resends(t)[i] < l.now ==> i < |l.resent|)
            && (l.phase.Silent? ==> l.now == t + 6000 && l.resent == Resends(t))
  {
    ScheduleRun(Run(Start(start), before), t, events);
    ScheduleSays(Run(Run(Start(start), before), events), t);
  }

  lemma ScheduleSays(l: Loop, t: int)
    requires OnSchedule(l, t) && AllMade(l, t)
    ensures l.resent <= Resends(t) && forall i :: 0 <= i < 4 && Resends(t)[i] < l.now ==> i < |l.resent|
  {
    DueTimes(t);
    forall i | 0 <= i < 4
      ensures Resends(t)[i] == DueAt(t, i)
    {
      assert i == 0 || i == 1 || i == 2 || i == 3;
    }
    if |l.resent| < 4 {
      assert Resends(t)[|l.resent|] == DueAt(t, |l.resent|);
    }
    ResendsGrow(t);
  }

  lemma ResendsGrow(t: int)
    ensures forall i, j :: 0 <= i < j < 4 ==> Resends(t)[i] < Resends(t)[j]
  {
  }

  /** Sleep until `at`, and let the timer fire. */
  function Sleep(at: int): seq<Event> {
    [Settle(None), Pass(at), Expire]
  }

  /** One sleep of an on-schedule loop that ends in a retransmission. */
  lemma OneSleep(l: Loop, t: int, n: nat)
    requires OnSchedule(l, t) && l.phase.Ready? && |l.resent| == n < 4 && l.now == LastEvent(l)
    ensures var m := Run(l, Sleep(DueAt(t, n)));
            OnSchedule(m, t) && m.phase.Ready? && m.resent == l.resent + [DueAt(t, n)] && m.now == DueAt(t, n)
    ensures TimersOnlyAll(l, Sleep(DueAt(t, n)))
  {
    DueTimes(t);
    SmallPowers();
    var at := DueAt(t, n);
    var e := Sleep(at);
    var l1 := Next(l, e[0]);
    ScheduleSettles(l, t);
    assert n == 0 || n == 1 || n == 2 || n == 3;
    var l2 := Next(l1, e[1]);
    RunThree(l, e, l1, l2);
    ScheduleFires(l2, t);
  }

  lemma RunThree(l: Loop, e: seq<Event>, l1: Loop, l2: Loop)
    requires |e| == 3 && l1 == Next(l, e[0]) && l2 == Next(l1, e[1])
    requires TimersOnly(l, e[0]) && TimersOnly(l1, e[1]) && TimersOnly(l2, e[2])
    ensures Run(l, e) == Next(l2, e[2]) && TimersOnlyAll(l, e)
  {
    assert e[..2][..1] == e[..1] && e[..1][..0] == [];
    assert Run(l, e[..1]) == l1 && Run(l, e[..2]) == l2;
    assert TimersOnlyAll(l, e[..1]) && TimersOnlyAll(l, e[..2]);
  }

  /** And such a run exists: left alone, the loop makes all four and declares silence. */
  lemma FallsSilent(l: Loop, t: int)
    requires SilenceBegins(l, t)
    ensures var l4 := Run(Run(Run(Run(l, Sleep(t + 300)), Sleep(t + 900)), Sleep(t + 2100)), Sleep(t + 4500));
            var last := Next(Run(l4, Sleep(t + 6000)), Settle(None));
            last.phase.Silent? && last.resent == Resends(t) && last.now == t + 6000
  {
    DueTimes(t);
    ScheduleBegins(l, t);
    OneSleep(l, t, 0);
    var l1 := Run(l, Sleep(t + 300));
    OneSleep(l1, t, 1);
    var l2 := Run(l1, Sleep(t + 900));
    LaterSleeps(l2, t);
  }

  lemma LaterSleeps(l: Loop, t: int)
    requires OnSchedule(l, t) && l.phase.Ready? && l.resent == Resends(t)[..2] && l.now == t + 900
    ensures var l4 := Run(Run(l, Sleep(t + 2100)), Sleep(t + 4500));
            var last := Next(Run(l4, Sleep(t + 6000)), Settle(None));
            last.phase.Silent? && last.resent == Resends(t) && last.now == t + 6000
  {
    DueTimes(t);
    OneSleep(l, t, 2);
    var l3 := Run(l, Sleep(t + 2100));
    OneSleep(l3, t, 3);
    var l4 := Run(l3, Sleep(t + 4500));
    assert l4.resent == Resends(t);
    LastSleep(l4, t);
  }

  lemma LastSleep(l: Loop, t: int)
    requires OnSchedule(l, t) && l.phase.Ready? && |l.resent| == 4 && l.now == t + 4500
    ensures var last := Next(Run(l, Sleep(t + 6000)), Settle(None));
            last.phase.Silent? && last.resent == l.resent && last.now == t + 6000
  {
    DueTimes(t);
    var e := Sleep(t + 6000);
    var l1 := Next(l, e[0]);
    ScheduleSettles(l, t);
    var l2 := Next(l1, e[1]);
    RunThree(l, e, l1, l2);
  }

  /** The 5 s ceiling on the timeout is never reached. */
  lemma CeilingUnreached(now: int, events: seq<Event>)
    ensures Run(Start(now), events).timeout <= 4800 < ACK_TIMEOUT_MAX
  {
    Timing(now, events);
    SmallPowers();
    var l := Run(Start(now), events);
    var k: nat :| k <= 4 && l.timeout == ACK_TIMEOUT * Pow2(k);
    assert k == 0 || k == 1 || k == 2 || k == 3 || k == 4;
  }

  /** In every run silence is declared only with a fragment in flight and six seconds after the last progress. */
  lemma SilenceIsReal(now: int, events: seq<Event>)
    ensures var l := Run(Start(now), events);
            l.phase.Silent? ==> l.busy && l.now - l.lastProgress >= LINK_DEAD_DEADLINE
  {
    Timing(now, events);
  }
}
