/**
 Registry, action queue and lanes together. The actor handles a command only after
 it has executed every action of the previous one; lane workers run at any time in
 between.

 History variables: `mons` (the automata fed with the executed actions), `closes`
 (per device, the lifecycles whose cleanup was executed) and `log` (per device, the
 native operations started).
 */
module LaneSafety {
  import opened Wire
  import opened Peers
  import Identity
  import RegistrySpec
  import opened Monitor
  import opened RegistryRun
  import opened Lanes

  datatype Sys = Sys(
    reg: RegistrySpec.Registry,
    todo: seq<Action>,
    lanes: LaneMap,
    mons: Mons,
    closes: map<DeviceId, seq<nat>>,
    log: map<DeviceId, seq<Native>>)

  datatype Event =
    | Command(now: int, command: RegistrySpec.Command)
    | Exec
    | TakeJob(device: DeviceId)
    | FinishJob(device: DeviceId)

  function Start(r: RegistrySpec.Registry): Sys {
    Sys(r, [], map[], map[], map[], map[])
  }

  function LogOf(s: Sys, d: DeviceId): seq<Native> {
    if d in s.log then s.log[d] else []
  }

  function ClosesOf(s: Sys, d: DeviceId): seq<nat> {
    if d in s.closes then s.closes[d] else []
  }

  function Next(s: Sys, ev: Event): Sys {
    match ev
    case Command(now, cmd) =>
      if s.todo != [] then s
      else
        var o := RegistrySpec.Handle(s.reg, now, cmd);
        s.(reg := o.reg, todo := o.actions)
    case Exec =>
      if s.todo == [] then s
      else
        var a := s.todo[0];
        s.(todo := s.todo[1..],
           lanes := Execute(s.lanes, a),
           mons := Watch(s.mons, a),
           closes := if Closes(a) then s.closes[a.device := ClosesOf(s, a.device) + [a.lifecycle]] else s.closes)
    case TakeJob(d) =>
      if d !in s.lanes then s
      else
        var (lane, started) := Take(s.lanes[d]);
        s.(lanes := s.lanes[d := lane], log := s.log[d := LogOf(s, d) + started])
    case FinishJob(d) =>
      if d !in s.lanes then s else s.(lanes := s.lanes[d := Finish(s.lanes[d])])
  }

  function Run(s: Sys, events: seq<Event>): Sys {
    if events == [] then s else Next(Run(s, events[..|events| - 1]), events[|events| - 1])
  }

  // ---------- the invariant ----------

  /** A point on a device's timeline: an operation started, or a job still waiting. */
  datatype Point = Point(closing: bool, refreshing: bool, lifecycle: nat)

  function PointOf(j: LaneJob): Point {
    Point(j.Work? && j.op == Disconnecting, j.Work? && j.op == Refreshing, j.lifecycle)
  }

  function Started(log: seq<Native>): seq<Point> {
    seq(|log|, i requires 0 <= i < |log| => Point(log[i].op == Disconnecting, log[i].op == Refreshing, log[i].lifecycle))
  }

  function Queued(jobs: seq<LaneJob>): seq<Point> {
    seq(|jobs|, i requires 0 <= i < |jobs| => PointOf(jobs[i]))
  }

  /** Lifecycles never go back, and after a disconnect only a refresh may still name the same one. */
  predicate InOrder(p: Point, q: Point) {
    p.lifecycle <= q.lifecycle && (p.closing ==> p.lifecycle < q.lifecycle || q.refreshing)
  }

  ghost predicate Ordered(t: seq<Point>) {
    forall i, j :: 0 <= i < j < |t| ==> InOrder(t[i], t[j])
  }

  ghost predicate TimelineOk(t: seq<Point>, m: Mon) {
    && Ordered(t)
    && (forall i :: 0 <= i < |t| ==> t[i].lifecycle <= m.top && (t[i].closing ==> t[i].lifecycle <= m.act && (t[i].lifecycle == m.act ==> m.closed)))
  }

  ghost predicate ClosesOk(closes: seq<nat>, m: Mon) {
    && (forall i, j :: 0 <= i < j < |closes| ==> closes[i] < closes[j])
    && (forall i :: 0 <= i < |closes| ==> closes[i] <= m.act && (closes[i] == m.act ==> m.closed))
  }

  ghost predicate MonOk(m: Mon) {
    m.act <= m.top && (m.lost ==> m.retired)
  }

  /** A lane, its automaton and its history. */
  ghost predicate LaneOk(m: Mon, lane: Lane, closes: seq<nat>, log: seq<Native>) {
    && 0 < m.act && !(lane.running && lane.jobs == [])
    && (lane.running ==> lane.jobs[0].Work?)
    && FinalOwner(lane.owner, Waiting(lane)) == Some(m.act)
    && lane.current == (if m.retired then None else Some(m.act))
    && WillRun(lane.owner, Waiting(lane))
    && Disconnects(log) + QueuedDisconnects(Waiting(lane)) == closes
    && TimelineOk(Started(log) + Queued(Waiting(lane)), m)
  }

  /** A device without a lane: never activated, or collected with nothing left to do. */
  ghost predicate NoLaneOk(m: Mon, closes: seq<nat>, log: seq<Native>) {
    (m.act == 0 || m.lost) && Disconnects(log) == closes && TimelineOk(Started(log), m)
  }

  ghost predicate DeviceOk(m: Mon, lanes: LaneMap, d: DeviceId, closes: seq<nat>, log: seq<Native>) {
    && MonOk(m) && ClosesOk(closes, m)
    && (if d in lanes then LaneOk(m, lanes[d], closes, log) else NoLaneOk(m, closes, log))
  }

  ghost predicate Inv(s: Sys) {
    && Accepts(s.mons, s.todo)
    && Consistent(WatchAll(s.mons, s.todo), s.reg)
    && (forall d :: DeviceOk(MonOf(s.mons, d), s.lanes, d, ClosesOf(s, d), LogOf(s, d)))
  }

  lemma InvStart(prefer: bool, me: Identity.EndpointId)
    ensures Inv(Start(RegistrySpec.NewRegistry(prefer, me)))
  {
  }

  lemma InvCommand(s: Sys, now: int, cmd: RegistrySpec.Command)
    requires Inv(s)
    ensures Inv(Next(s, Command(now, cmd)))
  {
    if s.todo == [] {
      HandleGood(s.mons, s.reg, now, cmd);
      var t := Next(s, Command(now, cmd));
      forall d
        ensures DeviceOk(MonOf(t.mons, d), t.lanes, d, ClosesOf(t, d), LogOf(t, d))
      {
        assert DeviceOk(MonOf(s.mons, d), s.lanes, d, ClosesOf(s, d), LogOf(s, d));
      }
    }
  }

  // ---------- lane workers ----------

  lemma {:induction false} DisconnectsSnoc(log: seq<Native>, n: Native)
    ensures Disconnects(log + [n]) == Disconnects(log) + if n.op == Disconnecting then [n.lifecycle] else []
  {
    assert (log + [n])[..|log|] == log;
  }

  /** Dropping points keeps a timeline ordered. */
  lemma TimelineDrop(t: seq<Point>, k: nat, m: Mon)
    requires TimelineOk(t, m) && k < |t|
    ensures TimelineOk(t[..k] + t[k + 1..], m)
  {
    var u := t[..k] + t[k + 1..];
    forall i | 0 <= i < |u|
      ensures u[i] == t[if i < k then i else i + 1]
    {
    }
  }

  lemma TakeOk(m: Mon, lane: Lane, closes: seq<nat>, log: seq<Native>)
    requires LaneOk(m, lane, closes, log)
    ensures LaneOk(m, Take(lane).0, closes, log + Take(lane).1)
  {
    if lane.running || lane.jobs == [] {
      assert log + [] == log;
    } else if Runs(lane, lane.jobs[0]) {
      StartOk(m, lane, closes, log);
    } else {
      var job, rest := lane.jobs[0], lane.jobs[1..];
      assert !(job.Work? && job.op == Disconnecting);
      assert QueuedDisconnects(lane.jobs) == [] + QueuedDisconnects(rest);
      var t := Started(log) + Queued(lane.jobs);
      TimelineDrop(t, |log|, m);
      assert t[..|log|] + t[|log| + 1..] == Started(log) + Queued(rest);
      assert log + [] == log;
    }
  }

  /** The head of the queue starts: it moves from the queue to the log. */
  lemma StartOk(m: Mon, lane: Lane, closes: seq<nat>, log: seq<Native>)
    requires LaneOk(m, lane, closes, log) && !lane.running && lane.jobs != [] && Runs(lane, lane.jobs[0])
    ensures LaneOk(m, lane.(running := true), closes, log + [Native(lane.jobs[0].op, lane.jobs[0].lifecycle)])
  {
    var job, rest := lane.jobs[0], lane.jobs[1..];
    var n := Native(job.op, job.lifecycle);
    DisconnectsSnoc(log, n);
    assert Started(log + [n]) + Queued(rest) == Started(log) + Queued(lane.jobs);
  }

  lemma FinishOk(m: Mon, lane: Lane, closes: seq<nat>, log: seq<Native>)
    requires LaneOk(m, lane, closes, log)
    ensures LaneOk(m, Finish(lane), closes, log)
  {
  }

  ghost predicate SameLane(lanes: LaneMap, lanes': LaneMap, d: DeviceId) {
    (d in lanes <==> d in lanes') && (d in lanes && d in lanes' ==> lanes[d] == lanes'[d])
  }

  lemma DeviceFrame(m: Mon, lanes: LaneMap, lanes': LaneMap, d: DeviceId, closes: seq<nat>, log: seq<Native>)
    requires DeviceOk(m, lanes, d, closes, log) && SameLane(lanes, lanes', d)
    ensures DeviceOk(m, lanes', d, closes, log)
  {
  }

  /** Lane workers change lanes and the log only. */
  lemma InvWorker(s: Sys, lanes: LaneMap, log: map<DeviceId, seq<Native>>)
    requires Inv(s)
    requires forall x :: DeviceOk(MonOf(s.mons, x), lanes, x, ClosesOf(s, x), if x in log then log[x] else [])
    ensures Inv(s.(lanes := lanes, log := log))
  {
    var t := s.(lanes := lanes, log := log);
    forall x
      ensures DeviceOk(MonOf(t.mons, x), t.lanes, x, ClosesOf(t, x), LogOf(t, x))
    {
      assert DeviceOk(MonOf(s.mons, x), lanes, x, ClosesOf(s, x), if x in log then log[x] else []);
    }
  }

  lemma TakeDevice(s: Sys, d: DeviceId, x: DeviceId)
    requires DeviceOk(MonOf(s.mons, x), s.lanes, x, ClosesOf(s, x), LogOf(s, x)) && d in s.lanes
    ensures var log := s.log[d := LogOf(s, d) + Take(s.lanes[d]).1];
            DeviceOk(MonOf(s.mons, x), s.lanes[d := Take(s.lanes[d]).0], x, ClosesOf(s, x), if x in log then log[x] else [])
  {
    if x == d {
      TakeOk(MonOf(s.mons, d), s.lanes[d], ClosesOf(s, d), LogOf(s, d));
    } else {
      DeviceFrame(MonOf(s.mons, x), s.lanes, s.lanes[d := Take(s.lanes[d]).0], x, ClosesOf(s, x), LogOf(s, x));
    }
  }

  lemma InvTake(s: Sys, d: DeviceId)
    requires Inv(s)
    ensures Inv(Next(s, TakeJob(d)))
  {
    if d in s.lanes {
      var lanes, log := s.lanes[d := Take(s.lanes[d]).0], s.log[d := LogOf(s, d) + Take(s.lanes[d]).1];
      forall x
        ensures DeviceOk(MonOf(s.mons, x), lanes, x, ClosesOf(s, x), if x in log then log[x] else [])
      {
        TakeDevice(s, d, x);
      }
      InvWorker(s, lanes, log);
    }
  }

  lemma FinishDevice(s: Sys, d: DeviceId, x: DeviceId)
    requires DeviceOk(MonOf(s.mons, x), s.lanes, x, ClosesOf(s, x), LogOf(s, x)) && d in s.lanes
    ensures DeviceOk(MonOf(s.mons, x), s.lanes[d := Finish(s.lanes[d])], x, ClosesOf(s, x), LogOf(s, x))
  {
    if x == d {
      FinishOk(MonOf(s.mons, d), s.lanes[d], ClosesOf(s, d), LogOf(s, d));
    } else {
      DeviceFrame(MonOf(s.mons, x), s.lanes, s.lanes[d := Finish(s.lanes[d])], x, ClosesOf(s, x), LogOf(s, x));
    }
  }

  lemma InvFinish(s: Sys, d: DeviceId)
    requires Inv(s)
    ensures Inv(Next(s, FinishJob(d)))
  {
    if d in s.lanes {
      var lanes := s.lanes[d := Finish(s.lanes[d])];
      forall x
        ensures DeviceOk(MonOf(s.mons, x), lanes, x, ClosesOf(s, x), if x in s.log then s.log[x] else [])
      {
        FinishDevice(s, d, x);
      }
      InvWorker(s, lanes, s.log);
    }
  }

  // ---------- executing an action ----------

  /** A point may be added when it names a lifecycle at least as new as everything before. */
  lemma TimelineAdd(t: seq<Point>, p: Point, m: Mon, n: Mon)
    requires TimelineOk(t, m) && MonOk(m) && m.top <= p.lifecycle <= n.top && m.act <= n.act
    requires p.closing ==> p.lifecycle == n.act && n.closed
    requires m.closed && p.lifecycle == m.act ==> p.refreshing
    requires n.act == m.act && m.closed ==> n.closed
    ensures TimelineOk(t + [p], n)
  {
    var u := t + [p];
    forall i, j | 0 <= i < j < |u|
      ensures InOrder(u[i], u[j])
    {
      assert i < |t| && (j < |t| ==> InOrder(t[i], t[j]));
    }
  }

  lemma WaitingAppend(lane: Lane, job: LaneJob)
    requires !(lane.running && lane.jobs == [])
    ensures Waiting(lane.(jobs := lane.jobs + [job])) == Waiting(lane) + [job]
  {
  }

  /** One more job on an existing lane, with the automaton moving from `m` to `n`. */
  lemma AppendOk(m: Mon, n: Mon, lane: Lane, job: LaneJob, current: Option<nat>, closes: seq<nat>, log: seq<Native>)
    requires LaneOk(m, lane, closes, log) && MonOk(m) && MonOk(n)
    requires m.top <= job.lifecycle <= n.top && m.act <= n.act && 0 < n.act
    requires if job.Activate? then n.act == job.lifecycle else n.act == m.act
    requires KindOk(job) && (job.Work? && job.op != Refreshing ==> job.lifecycle == m.act)
    requires job.Work? && job.op == Disconnecting ==> n.closed
    requires m.closed && job.lifecycle == m.act ==> job.Work? && job.op == Refreshing
    requires n.act == m.act && m.closed ==> n.closed
    requires current == (if n.retired then None else Some(n.act))
    ensures LaneOk(n, lane.(jobs := lane.jobs + [job], current := current),
                   closes + if job.Work? && job.op == Disconnecting then [job.lifecycle] else [], log)
  {
    var w := Waiting(lane);
    WaitingAppend(lane.(current := current), job);
    AppendJob(lane.owner, w, job);
    TimelineAdd(Started(log) + Queued(w), PointOf(job), m, n);
    assert Started(log) + Queued(w + [job]) == Started(log) + Queued(w) + [PointOf(job)];
    assert Disconnects(log) + QueuedDisconnects(w + [job])
           == closes + if job.Work? && job.op == Disconnecting then [job.lifecycle] else [];
  }

  lemma TimelineMon(t: seq<Point>, m: Mon, n: Mon)
    requires TimelineOk(t, m) && m.top <= n.top && m.act <= n.act && (n.act == m.act && m.closed ==> n.closed)
    ensures TimelineOk(t, n)
  {
  }

  /** A device's first lane, or the first after its old one was collected. */
  lemma NewLaneOk(m: Mon, n: Mon, lifecycle: nat, closes: seq<nat>, log: seq<Native>)
    requires NoLaneOk(m, closes, log) && MonOk(m) && m.top <= lifecycle && m.act < lifecycle
    requires n == Mon(lifecycle, false, false, false, false, lifecycle)
    ensures LaneOk(n, NEW_LANE.(current := Some(lifecycle), jobs := [Activate(lifecycle)]), closes, log)
  {
    TimelineAdd(Started(log), PointOf(Activate(lifecycle)), m, n);
    assert Started(log) + Queued([Activate(lifecycle)]) == Started(log) + [PointOf(Activate(lifecycle))];
    assert FinalOwner(None, [Activate(lifecycle)]) == Some(lifecycle) by {
      assert [Activate(lifecycle)][1..] == [];
    }
    assert QueuedDisconnects([Activate(lifecycle)]) == [];
    assert WillRun(None, [Activate(lifecycle)]);
    assert closes + [] == closes;
  }

  function ClosesAfter(closes: seq<nat>, a: Action): seq<nat> {
    if Closes(a) then closes + [a.lifecycle] else closes
  }

  lemma ClosesKeep(closes: seq<nat>, m: Mon, a: Action)
    requires ClosesOk(closes, m) && MonOk(m) && Allowed(m, a)
    ensures ClosesOk(ClosesAfter(closes, a), Observe(m, a)) && MonOk(Observe(m, a))
  {
  }

  lemma ActivateOk(m: Mon, lanes: LaneMap, d: DeviceId, lc: nat, a: Action, closes: seq<nat>, log: seq<Native>)
    requires DeviceOk(m, lanes, d, closes, log) && Activates(a) && a.lifecycle == lc && Allowed(m, a)
    ensures DeviceOk(Observe(m, a), ActivateLane(lanes, d, lc), d, closes, log) && d in ActivateLane(lanes, d, lc)
  {
    var n := Observe(m, a);
    ClosesKeep(closes, m, a);
    if d in lanes {
      AppendOk(m, n, lanes[d], Activate(lc), Some(lc), closes, log);
      assert closes + [] == closes;
    } else {
      NewLaneOk(m, n, lc, closes, log);
      assert [] + [Activate(lc)] == [Activate(lc)];
    }
  }

  lemma DispatchOk(m: Mon, lanes: LaneMap, d: DeviceId, job: LaneJob, closes: seq<nat>, log: seq<Native>)
    requires DeviceOk(m, lanes, d, closes, log) && d in lanes
    requires job.Work? && job.op in {Dialing, ReadingVersion, OpeningL2cap} && KindOk(job)
    requires job.lifecycle == m.act == m.top && !m.closed
    ensures DeviceOk(m, Dispatch(lanes, d, job), d, closes, log)
  {
    AppendOk(m, m, lanes[d], job, lanes[d].current, closes, log);
    assert closes + [] == closes;
  }

  lemma WorkQueued(m: Mon, lane: Lane, a: Action, job: LaneJob, closes: seq<nat>, log: seq<Native>)
    requires LaneOk(m, lane, closes, log) && MonOk(m) && Allowed(m, a)
    requires Closes(a) || a.ReadVersion? || a.UpgradeToL2cap? || a.Refresh?
    requires job.Work? && job.lifecycle == a.lifecycle
    requires job.op == Disconnecting <==> Closes(a)
    requires job.op == Refreshing <==> a.Refresh?
    requires KindOk(job)
    ensures LaneOk(Observe(m, a), lane.(jobs := lane.jobs + [job]), ClosesAfter(closes, a), log)
  {
    AppendOk(m, Observe(m, a), lane, job, lane.current, closes, log);
    assert closes + [] == closes;
  }

  lemma WorkOk(m: Mon, lanes: LaneMap, d: DeviceId, a: Action, job: LaneJob, closes: seq<nat>, log: seq<Native>)
    requires DeviceOk(m, lanes, d, closes, log) && Allowed(m, a)
    requires Closes(a) || a.ReadVersion? || a.UpgradeToL2cap? || a.Refresh?
    requires job.Work? && job.lifecycle == a.lifecycle
    requires job.op == Disconnecting <==> Closes(a)
    requires job.op == Refreshing <==> a.Refresh?
    requires KindOk(job)
    ensures DeviceOk(Observe(m, a), Dispatch(lanes, d, job), d, ClosesAfter(closes, a), log)
  {
    ClosesKeep(closes, m, a);
    if d in lanes {
      WorkQueued(m, lanes[d], a, job, closes, log);
    } else {
      TimelineMon(Started(log), m, Observe(m, a));
    }
  }

  lemma RetireOk(m: Mon, lanes: LaneMap, d: DeviceId, a: Action, closes: seq<nat>, log: seq<Native>)
    requires DeviceOk(m, lanes, d, closes, log) && a.RetireLifecycle?
    ensures DeviceOk(Observe(m, a), RetireLane(lanes, d, a.lifecycle), d, closes, log)
  {
    if d in lanes {
      TimelineMon(Started(log) + Queued(Waiting(lanes[d])), m, Observe(m, a));
    } else {
      TimelineMon(Started(log), m, Observe(m, a));
    }
  }

  lemma OwnActivation(m: Mon, lanes: LaneMap, a: Action, closes: seq<nat>, log: seq<Native>)
    requires DeviceOk(m, lanes, a.device, closes, log) && Allowed(m, a) && Activates(a)
    ensures DeviceOk(Observe(m, a), Execute(lanes, a), a.device, closes, log)
  {
    var d, lc := a.device, a.lifecycle;
    ActivateOk(m, lanes, d, lc, a, closes, log);
    if a.StartConnect? {
      DispatchOk(Observe(m, a), ActivateLane(lanes, d, lc), d, Work(lc, Dialing, WhileQueued), closes, log);
    }
  }

  lemma OwnWork(m: Mon, lanes: LaneMap, a: Action, closes: seq<nat>, log: seq<Native>)
    requires DeviceOk(m, lanes, a.device, closes, log) && Allowed(m, a) && (a.ReadVersion? || a.UpgradeToL2cap? || a.Refresh? || Closes(a))
    ensures DeviceOk(Observe(m, a), Execute(lanes, a), a.device, ClosesAfter(closes, a), log)
  {
    match a
    case ReadVersion(d, lc) => WorkOk(m, lanes, d, a, Work(lc, ReadingVersion, Immediate), closes, log);
    case UpgradeToL2cap(d, lc, _) => WorkOk(m, lanes, d, a, Work(lc, OpeningL2cap, Immediate), closes, log);
    case CloseChannel(d, lc, _, _) => WorkOk(m, lanes, d, a, Work(lc, Disconnecting, Never), closes, log);
    case CloseNativeConnection(d, lc) => WorkOk(m, lanes, d, a, Work(lc, Disconnecting, Never), closes, log);
    case Refresh(d, lc) => WorkOk(m, lanes, d, a, Work(lc, Refreshing, Never), closes, log);
  }

  lemma OwnDevice(m: Mon, lanes: LaneMap, a: Action, closes: seq<nat>, log: seq<Native>)
    requires DeviceOk(m, lanes, a.device, closes, log) && Allowed(m, a)
    ensures DeviceOk(Observe(m, a), Execute(lanes, a), a.device, ClosesAfter(closes, a), log)
  {
    if Activates(a) {
      OwnActivation(m, lanes, a, closes, log);
    } else if a.RetireLifecycle? {
      RetireOk(m, lanes, a.device, a, closes, log);
    } else if OnLane(a) {
      OwnWork(m, lanes, a, closes, log);
    }
  }

  /** Activating one device collects only lanes that have nothing left to do. */
  lemma OtherDevice(m: Mon, lanes: LaneMap, a: Action, x: DeviceId, closes: seq<nat>, log: seq<Native>)
    requires DeviceOk(m, lanes, x, closes, log) && x != a.device
    ensures DeviceOk(if Activates(a) then Weaken(m) else m, Execute(lanes, a), x, closes, log)
  {
    var after := Execute(lanes, a);
    if !Activates(a) {
      DeviceFrame(m, lanes, after, x, closes, log);
    } else {
      assert x in after <==> x in lanes && Retained(lanes[x]);
      if x in lanes {
        TimelineMon(Started(log) + Queued(Waiting(lanes[x])), m, Weaken(m));
        if x !in after {
          assert Started(log) + Queued([]) == Started(log);
          assert Disconnects(log) + QueuedDisconnects([]) == Disconnects(log);
        }
      } else {
        TimelineMon(Started(log), m, Weaken(m));
      }
    }
  }

  /** What executing the next action does to one device's history and automaton. */
  lemma ExecFields(s: Sys, x: DeviceId)
    requires s.todo != []
    ensures var a, t := s.todo[0], Next(s, Exec);
            && t.lanes == Execute(s.lanes, a) && LogOf(t, x) == LogOf(s, x)
            && ClosesOf(t, x) == (if x == a.device then ClosesAfter(ClosesOf(s, x), a) else ClosesOf(s, x))
            && MonOf(t.mons, x)
               == if x == a.device then Observe(MonOf(s.mons, x), a)
                  else if Activates(a) then Weaken(MonOf(s.mons, x))
                  else MonOf(s.mons, x)
  {
  }

  lemma InvExec(s: Sys)
    requires Inv(s)
    ensures Inv(Next(s, Exec))
  {
    if s.todo != [] {
      var t := Next(s, Exec);
      forall x
        ensures DeviceOk(MonOf(t.mons, x), t.lanes, x, ClosesOf(t, x), LogOf(t, x))
      {
        assert DeviceOk(MonOf(s.mons, x), s.lanes, x, ClosesOf(s, x), LogOf(s, x));
        ExecFields(s, x);
        if x == s.todo[0].device {
          OwnDevice(MonOf(s.mons, x), s.lanes, s.todo[0], ClosesOf(s, x), LogOf(s, x));
        } else {
          OtherDevice(MonOf(s.mons, x), s.lanes, s.todo[0], x, ClosesOf(s, x), LogOf(s, x));
        }
      }
    }
  }

  lemma InvNext(s: Sys, ev: Event)
    requires Inv(s)
    ensures Inv(Next(s, ev))
  {
    match ev
    case Command(now, cmd) => InvCommand(s, now, cmd);
    case Exec => InvExec(s);
    case TakeJob(d) => InvTake(s, d);
    case FinishJob(d) => InvFinish(s, d);
  }

  lemma {:induction false} InvRun(s: Sys, events: seq<Event>)
    requires Inv(s)
    ensures Inv(Run(s, events))
  {
    if events != [] {
      InvRun(s, events[..|events| - 1]);
      InvNext(Run(s, events[..|events| - 1]), events[|events| - 1]);
    }
  }

  // ---------- what every run guarantees ----------

  function Reached(prefer: bool, me: Identity.EndpointId, events: seq<Event>): Sys {
    Run(Start(RegistrySpec.NewRegistry(prefer, me)), events)
  }

  lemma ReachedInv(prefer: bool, me: Identity.EndpointId, events: seq<Event>)
    ensures Inv(Reached(prefer, me, events))
  {
    InvStart(prefer, me);
    InvRun(Start(RegistrySpec.NewRegistry(prefer, me)), events);
  }

  /**
   Cleanup is emitted at most once per lifecycle, and only for the lifecycle last
   activated on its device, which still has its lane.
   */
  lemma CleanupNamesLastActivation(prefer: bool, me: Identity.EndpointId, events: seq<Event>)
    ensures var s := Reached(prefer, me, events);
            s.todo != [] && Closes(s.todo[0]) ==>
              var d, lc := s.todo[0].device, s.todo[0].lifecycle;
              && d in s.lanes
              && FinalOwner(s.lanes[d].owner, Waiting(s.lanes[d])) == Some(lc)
              && lc !in ClosesOf(s, d)
  {
    ReachedInv(prefer, me, events);
    var s := Reached(prefer, me, events);
    if s.todo != [] && Closes(s.todo[0]) {
      var d := s.todo[0].device;
      assert DeviceOk(MonOf(s.mons, d), s.lanes, d, ClosesOf(s, d), LogOf(s, d));
    }
  }

  /**
   On every device the native disconnects started so far are a prefix, in order, of
   the cleanups executed; and once its lane has drained or been collected, they are
   exactly those. Each lifecycle is cleaned up at most once.
   */
  lemma EveryCleanupRuns(prefer: bool, me: Identity.EndpointId, events: seq<Event>, d: DeviceId)
    ensures var s := Reached(prefer, me, events);
            && Disconnects(LogOf(s, d)) <= ClosesOf(s, d)
            && (d !in s.lanes || s.lanes[d].jobs == [] ==> Disconnects(LogOf(s, d)) == ClosesOf(s, d))
            && (forall i, j :: 0 <= i < j < |ClosesOf(s, d)| ==> ClosesOf(s, d)[i] < ClosesOf(s, d)[j])
  {
    ReachedInv(prefer, me, events);
    var s := Reached(prefer, me, events);
    assert DeviceOk(MonOf(s.mons, d), s.lanes, d, ClosesOf(s, d), LogOf(s, d));
  }

  /**
   What a lane worker starts, by what the registry has told the driver and not by the
   lane's own bookkeeping. A disconnect always starts. A dial, a version read or an
   L2CAP open starts exactly if its lifecycle is the one last activated on the device
   and has not been retired since; otherwise it is dropped.
   */
  lemma StartsExactly(prefer: bool, me: Identity.EndpointId, events: seq<Event>, d: DeviceId)
    requires var s := Reached(prefer, me, events);
             d in s.lanes && !s.lanes[d].running && s.lanes[d].jobs != [] && s.lanes[d].jobs[0].Work? && s.lanes[d].jobs[0].op != Refreshing
    ensures var s := Reached(prefer, me, events);
            var job, m := s.lanes[d].jobs[0], MonOf(s.mons, d);
            var starts := job.op == Disconnecting || (m.act == job.lifecycle && !m.retired);
            LogOf(Next(s, TakeJob(d)), d) == LogOf(s, d) + if starts then [Native(job.op, job.lifecycle)] else []
  {
    ReachedInv(prefer, me, events);
    var s := Reached(prefer, me, events);
    assert DeviceOk(MonOf(s.mons, d), s.lanes, d, ClosesOf(s, d), LogOf(s, d));
  }

  /** Native operations follow activation order, and nothing but a refresh follows a disconnect of the same lifecycle. */
  lemma NativeOrder(prefer: bool, me: Identity.EndpointId, events: seq<Event>, d: DeviceId, i: nat, j: nat)
    requires i < j < |LogOf(Reached(prefer, me, events), d)|
    ensures var log := LogOf(Reached(prefer, me, events), d);
            && log[i].lifecycle <= log[j].lifecycle
            && (log[i].op == Disconnecting ==> log[i].lifecycle < log[j].lifecycle || log[j].op == Refreshing)
  {
    ReachedInv(prefer, me, events);
    var s := Reached(prefer, me, events);
    var log := LogOf(s, d);
    assert DeviceOk(MonOf(s.mons, d), s.lanes, d, ClosesOf(s, d), log);
    var t := Started(log) + if d in s.lanes then Queued(Waiting(s.lanes[d])) else [];
    assert Started(log) + [] == Started(log);
    assert InOrder(t[i], t[j]);
  }

  /** Whatever runs for a newer lifecycle runs after the cleanup of every older one that was asked for. */
  lemma TeardownBeforeRedial(prefer: bool, me: Identity.EndpointId, events: seq<Event>, d: DeviceId, lc: nat, j: nat)
    requires var s := Reached(prefer, me, events);
             lc in ClosesOf(s, d) && j < |LogOf(s, d)| && lc < LogOf(s, d)[j].lifecycle
    ensures var log := LogOf(Reached(prefer, me, events), d);
            exists i :: 0 <= i < j && log[i] == Native(Disconnecting, lc)
  {
    ReachedInv(prefer, me, events);
    var s := Reached(prefer, me, events);
    assert DeviceOk(MonOf(s.mons, d), s.lanes, d, ClosesOf(s, d), LogOf(s, d));
    if d in s.lanes {
      var w := Waiting(s.lanes[d]);
      ClosedEarlier(LogOf(s, d), w, lc, j);
    } else {
      assert Started(LogOf(s, d)) + Queued([]) == Started(LogOf(s, d));
      ClosedEarlier(LogOf(s, d), [], lc, j);
    }
  }

  lemma ClosedEarlier(log: seq<Native>, jobs: seq<LaneJob>, lc: nat, j: nat)
    requires Ordered(Started(log) + Queued(jobs)) && lc in Disconnects(log) + QueuedDisconnects(jobs)
    requires j < |log| && lc < log[j].lifecycle
    ensures exists i :: 0 <= i < j && log[i] == Native(Disconnecting, lc)
  {
    if lc in QueuedDisconnects(jobs) {
      var k := QueuedAt(jobs, lc);
      QueuedIsLater(log, jobs, j, k);
      assert false;
    }
    var i := DisconnectAt(log, lc);
    if j < i {
      LogInOrder(log, jobs, j, i);
      assert false;
    }
  }

  lemma LogInOrder(log: seq<Native>, jobs: seq<LaneJob>, i: nat, j: nat)
    requires Ordered(Started(log) + Queued(jobs)) && i < j < |log|
    ensures log[i].lifecycle <= log[j].lifecycle
  {
    var t := Started(log) + Queued(jobs);
    assert InOrder(t[i], t[j]);
  }

  lemma QueuedIsLater(log: seq<Native>, jobs: seq<LaneJob>, j: nat, k: nat)
    requires Ordered(Started(log) + Queued(jobs)) && j < |log| && k < |jobs|
    ensures log[j].lifecycle <= jobs[k].lifecycle
  {
    var t := Started(log) + Queued(jobs);
    assert InOrder(t[j], t[|log| + k]);
  }

  lemma {:induction false} QueuedAt(jobs: seq<LaneJob>, lc: nat) returns (k: nat)
    requires lc in QueuedDisconnects(jobs)
    ensures k < |jobs| && jobs[k].lifecycle == lc
  {
    if jobs[0].Work? && jobs[0].op == Disconnecting && jobs[0].lifecycle == lc {
      k := 0;
    } else {
      var r := QueuedAt(jobs[1..], lc);
      k := r + 1;
    }
  }

  lemma {:induction false} DisconnectAt(log: seq<Native>, lc: nat) returns (i: nat)
    requires lc in Disconnects(log)
    ensures i < |log| && log[i] == Native(Disconnecting, lc)
  {
    var last := log[|log| - 1];
    if last.op == Disconnecting && last.lifecycle == lc {
      i := |log| - 1;
    } else {
      i := DisconnectAt(log[..|log| - 1], lc);
    }
  }
}
