/** Every link that ends is taken down: the cleanup is asked for, and it runs. */
module Cleanup {
  import opened Wire
  import opened Peers
  import Identity
  import R = RegistrySpec
  import opened Monitor
  import opened RegistryRun
  import opened Lanes
  import opened LaneSafety
  import opened ActionLaws

  /** How long device `d` has been silent, as a tick sees it. */
  function SilentFor(now: int, lastRx: map<DeviceId, int>, d: DeviceId): int {
    now - if d in lastRx then lastRx[d] else now
  }

  /** The command ends the dial or the connection that device `d` has at the moment. */
  predicate EndsLink(r: R.Registry, now: int, cmd: R.Command, d: DeviceId) {
    && d in r.peers
    && var e := r.peers[d];
       match cmd
       case ConnectFailed(x, lc) => x == d && e.phase.Connecting? && e.lifecycle == lc
       case Stalled(x, _) => x == d && e.phase.Connected?
       case Forget(x) => x == d && e.phase.Connected?
       case CentralDisconnected(x, _) => x == d && e.phase.Connected?
       case VersionMismatch(x, lc) => x == d && e.phase.Connected? && e.lifecycle == lc
       case VerifiedEndpoint(_, _, replaced, _) => replaced == Some(d) && e.phase.Connected?
       case Tick(order, lastRx) =>
         d in order && e.phase.Connected? && e.pipe.Some? && SilentFor(now, lastRx, d) > R.CONNECTED_IDLE_DEADLINE
       case _ => false
  }

  ghost predicate AsksClose(acts: seq<Action>, d: DeviceId, lc: nat) {
    exists k :: 0 <= k < |acts| && Closes(acts[k]) && acts[k].device == d && acts[k].lifecycle == lc
  }

  lemma StepCloses(ms: Mons, r: R.Registry, d: DeviceId, t: R.Task)
    requires Consistent(ms, r) && d in r.peers && ClosesNow(t, r.peers[d])
    ensures AsksClose(R.WithPeer(r, d, t).actions, d, r.peers[d].lifecycle)
  {
    assert PeerOk(MonOf(ms, d), d, r.peers[d], r.nextLifecycle);
    TaskCloses(t, r.peers[d], r.nextLifecycle, R.UpgradeOnConnect(r, r.peers[d]));
  }

  lemma TaskCloses(t: R.Task, e: Entry, n: nat, up: bool)
    requires e.lifecycle < n && ClosesNow(t, e)
    ensures AsksClose(R.Do(t, e, n, up).actions, e.device, e.lifecycle)
  {
    EveryActionExactly(t, e, n, up);
    var acts := R.Do(t, e, n, up).actions;
    var a :| a in acts && Closes(a) && a.device == e.device && a.lifecycle == e.lifecycle;
    var k :| 0 <= k < |acts| && acts[k] == a;
  }

  lemma AsksConcat(a: seq<Action>, b: seq<Action>, d: DeviceId, lc: nat)
    requires AsksClose(a, d, lc) || AsksClose(b, d, lc)
    ensures AsksClose(a + b, d, lc)
  {
    if AsksClose(a, d, lc) {
      var k :| 0 <= k < |a| && Closes(a[k]) && a[k].device == d && a[k].lifecycle == lc;
      assert (a + b)[k] == a[k];
    } else {
      var k :| 0 <= k < |b| && Closes(b[k]) && b[k].device == d && b[k].lifecycle == lc;
      assert (a + b)[|a| + k] == b[k];
    }
  }

  lemma {:induction false} WalkSpares(r: R.Registry, order: seq<DeviceId>, t: R.Task, d: DeviceId)
    requires d in r.peers && d !in order
    ensures var s := R.Walk(r, order, t).reg; d in s.peers && s.peers[d] == r.peers[d]
  {
    if order != [] {
      WalkSpares(r, order[..|order| - 1], t, d);
    }
  }

  lemma {:induction false} WalkCloses(ms: Mons, r: R.Registry, order: seq<DeviceId>, t: R.Task, d: DeviceId)
    requires Consistent(ms, r) && d in r.peers && d in order && ClosesNow(t, r.peers[d])
    ensures AsksClose(R.Walk(r, order, t).actions, d, r.peers[d].lifecycle)
  {
    var init, last := order[..|order| - 1], order[|order| - 1];
    var before := R.Walk(r, init, t);
    if d in init {
      WalkCloses(ms, r, init, t, d);
    } else {
      WalkSpares(r, init, t, d);
      WalkGood(ms, r, init, t);
      StepCloses(WatchAll(ms, before.actions), before.reg, d, t);
    }
    AsksConcat(before.actions, R.WithPeer(before.reg, last, t).actions, d, r.peers[d].lifecycle);
  }

  lemma OneCloses(ms: Mons, r: R.Registry, now: int, cmd: R.Command, d: DeviceId)
    requires Consistent(ms, r) && EndsLink(r, now, cmd, d) && !R.Walks(cmd)
    ensures AsksClose(R.Handle(r, now, cmd).actions, d, r.peers[d].lifecycle)
  {
    R.HandleOne(r, now, cmd);
    StepCloses(ms, r, d, R.TaskOf(r, now, cmd));
  }

  /** Handling such a command asks for the cleanup of the lifecycle the device had. */
  lemma CommandCloses(ms: Mons, r: R.Registry, now: int, cmd: R.Command, d: DeviceId)
    requires Consistent(ms, r) && EndsLink(r, now, cmd, d)
    ensures AsksClose(R.Handle(r, now, cmd).actions, d, r.peers[d].lifecycle)
  {
    if cmd.Tick? {
      assert PeerOk(MonOf(ms, d), d, r.peers[d], r.nextLifecycle);
      WalkCloses(ms, r, cmd.order, R.Age(now, cmd.lastRx), d);
    } else if cmd.VerifiedEndpoint? {
      StepCloses(ms, r, d, R.Drop(now));
      var o := R.Replace(r, now, cmd.replaced);
      AsksConcat(o.actions, R.HandleVerified(o.reg, now, cmd.endpoint, cmd.exact, cmd.order).actions, d, r.peers[d].lifecycle);
    } else {
      OneCloses(ms, r, now, cmd, d);
    }
  }

  // ---------- from the action list to the lane ----------

  /** The cleanup has been executed, or is still in the list of actions to execute. */
  ghost predicate Owed(s: Sys, d: DeviceId, lc: nat) {
    lc in ClosesOf(s, d) || AsksClose(s.todo, d, lc)
  }

  lemma OwedNext(s: Sys, ev: Event, d: DeviceId, lc: nat)
    requires Owed(s, d, lc)
    ensures Owed(Next(s, ev), d, lc)
  {
    if ev.Exec? && s.todo != [] && lc !in ClosesOf(s, d) {
      var k :| 0 <= k < |s.todo| && Closes(s.todo[k]) && s.todo[k].device == d && s.todo[k].lifecycle == lc;
      if k > 0 {
        assert s.todo[1..][k - 1] == s.todo[k];
      } else {
        assert lc in ClosesOf(s, d) + [lc];
      }
    }
  }

  lemma {:induction false} OwedRun(s: Sys, events: seq<Event>, d: DeviceId, lc: nat)
    requires Owed(s, d, lc)
    ensures Owed(Run(s, events), d, lc)
  {
    if events != [] {
      OwedRun(s, events[..|events| - 1], d, lc);
      OwedNext(Run(s, events[..|events| - 1]), events[|events| - 1], d, lc);
    }
  }

  lemma {:induction false} RunConcat(s: Sys, a: seq<Event>, b: seq<Event>)
    ensures Run(s, a + b) == Run(Run(s, a), b)
    decreases |b|
  {
    if b == [] {
      assert a + b == a;
    } else {
      assert (a + b)[..|a + b| - 1] == a + b[..|b| - 1];
      RunConcat(s, a, b[..|b| - 1]);
    }
  }

  /** The whole system after `before`, the command, and whatever else. */
  function Later(prefer: bool, me: Identity.EndpointId, before: seq<Event>, ev: Event, after: seq<Event>): Sys {
    Reached(prefer, me, before + [ev] + after)
  }

  lemma LaterOwed(prefer: bool, me: Identity.EndpointId, before: seq<Event>, now: int, cmd: R.Command, after: seq<Event>, d: DeviceId)
    requires var s := Reached(prefer, me, before); s.todo == [] && EndsLink(s.reg, now, cmd, d)
    ensures Owed(Later(prefer, me, before, Command(now, cmd), after), d, Reached(prefer, me, before).reg.peers[d].lifecycle)
  {
    var s, ev := Reached(prefer, me, before), Command(now, cmd);
    var start := Start(R.NewRegistry(prefer, me));
    ReachedInv(prefer, me, before);
    CommandCloses(s.mons, s.reg, now, cmd, d);
    assert Owed(Next(s, ev), d, s.reg.peers[d].lifecycle);
    OwedRun(Next(s, ev), after, d, s.reg.peers[d].lifecycle);
    RunConcat(start, before + [ev], after);
    assert (before + [ev])[..|before|] == before;
  }

  /**
   Every dial that fails and every connection that ends is taken down. Whatever happens
   after such a command: once its actions are executed the cleanup of that lifecycle has
   been asked for; once the lane has drained it has run; and nothing of a newer lifecycle
   ran on the device before it.
   */
  lemma EndedLinkIsTakenDown(prefer: bool, me: Identity.EndpointId, before: seq<Event>, now: int, cmd: R.Command, after: seq<Event>, d: DeviceId)
    requires var s := Reached(prefer, me, before); s.todo == [] && EndsLink(s.reg, now, cmd, d)
    requires Later(prefer, me, before, Command(now, cmd), after).todo == []
    ensures var lc := Reached(prefer, me, before).reg.peers[d].lifecycle;
            var t := Later(prefer, me, before, Command(now, cmd), after);
            && lc in ClosesOf(t, d)
            && (d !in t.lanes || t.lanes[d].jobs == [] ==> lc in Disconnects(LogOf(t, d)))
            && (forall j :: 0 <= j < |LogOf(t, d)| && lc < LogOf(t, d)[j].lifecycle ==>
                  exists i :: 0 <= i < j && LogOf(t, d)[i] == Native(Disconnecting, lc))
  {
    var lc := Reached(prefer, me, before).reg.peers[d].lifecycle;
    var events := before + [Command(now, cmd)] + after;
    var t := Reached(prefer, me, events);
    LaterOwed(prefer, me, before, now, cmd, after, d);
    EveryCleanupRuns(prefer, me, events, d);
    forall j | 0 <= j < |LogOf(t, d)| && lc < LogOf(t, d)[j].lifecycle
      ensures exists i :: 0 <= i < j && LogOf(t, d)[i] == Native(Disconnecting, lc)
    {
      TeardownBeforeRedial(prefer, me, events, d, lc, j);
    }
  }
}
