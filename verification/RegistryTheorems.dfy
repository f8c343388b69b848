/** What holds over every run of the registry. */
module RegistryTheorems {
  import opened Wire
  import opened Identity
  import opened Dedup
  import opened Peers
  import opened RegistrySpec
  import opened Monitor
  import opened RegistryRun

  datatype Timed = Timed(now: int, command: Command)

  /** The registry after a list of commands, with everything it emitted. */
  function Trace(r: Registry, cmds: seq<Timed>): Out {
    if cmds == [] then Out(r, [])
    else
      var before := Trace(r, cmds[..|cmds| - 1]);
      var last := Handle(before.reg, cmds[|cmds| - 1].now, cmds[|cmds| - 1].command);
      Out(last.reg, before.actions + last.actions)
  }

  lemma {:induction false} TraceGood(ms: Mons, r: Registry, cmds: seq<Timed>)
    requires Consistent(ms, r)
    ensures Good(ms, Trace(r, cmds))
  {
    if cmds != [] {
      var init, c := cmds[..|cmds| - 1], cmds[|cmds| - 1];
      TraceGood(ms, r, init);
      var before := Trace(r, init);
      HandleGood(WatchAll(ms, before.actions), before.reg, c.now, c.command);
      GoodThen(ms, before, Handle(before.reg, c.now, c.command));
    }
  }

  lemma {:induction false} TraceConcat(r: Registry, a: seq<Timed>, b: seq<Timed>)
    ensures Trace(r, a + b).reg == Trace(Trace(r, a).reg, b).reg
    decreases |b|
  {
    if b == [] {
      assert a + b == a;
    } else {
      assert (a + b)[..|a + b| - 1] == a + b[..|b| - 1];
      TraceConcat(r, a, b[..|b| - 1]);
    }
  }

  function Reached(prefer: bool, me: EndpointId, cmds: seq<Timed>): Out {
    Trace(NewRegistry(prefer, me), cmds)
  }

  lemma ReachedGood(prefer: bool, me: EndpointId, cmds: seq<Timed>)
    ensures Good(map[], Reached(prefer, me, cmds))
  {
    TraceGood(map[], NewRegistry(prefer, me), cmds);
  }

  // ---------- lifecycle freshness ----------

  /** The counter only grows, and a peer keeps its lifecycle or gets one never used before. */
  ghost predicate Advances(r: Registry, s: Registry) {
    && r.nextLifecycle <= s.nextLifecycle
    && (forall d :: d in s.peers ==>
          (d in r.peers && s.peers[d].lifecycle == r.peers[d].lifecycle) || r.nextLifecycle <= s.peers[d].lifecycle)
  }

  lemma AdvancesTrans(r: Registry, s: Registry, t: Registry)
    requires Advances(r, s) && Advances(s, t)
    ensures Advances(r, t)
  {
  }

  ghost predicate StepAdvances(e: Entry, n: nat, r: Eff) {
    n <= r.next && (r.entry.lifecycle == e.lifecycle || n <= r.entry.lifecycle)
  }

  lemma SubmitAdvances(t: Task, e: Entry, n: nat, up: bool)
    requires t.Submit?
    ensures StepAdvances(e, n, Do(t, e, n, up))
  {
  }

  lemma DialAdvances(t: Task, e: Entry, n: nat, up: bool)
    requires t.Advertise? || t.Mark?
    ensures StepAdvances(e, n, Do(t, e, n, up))
  {
  }

  lemma AgeAdvances(t: Task, e: Entry, n: nat, up: bool)
    requires t.Age?
    ensures StepAdvances(e, n, Do(t, e, n, up))
  {
  }

  lemma LinkAdvances(t: Task, e: Entry, n: nat, up: bool)
    requires t.Succeed? || t.Fail? || t.TakeGatt? || t.TakeL2cap? || t.Opened? || t.OpenFailed? || t.Handover? || t.Subscribe?
    ensures StepAdvances(e, n, Do(t, e, n, up))
  {
  }

  lemma TaskAdvances(t: Task, e: Entry, n: nat, up: bool)
    ensures StepAdvances(e, n, Do(t, e, n, up))
  {
    if t.Submit? {
      SubmitAdvances(t, e, n, up);
    } else if t.Advertise? || t.Mark? {
      DialAdvances(t, e, n, up);
    } else if t.Age? {
      AgeAdvances(t, e, n, up);
    } else if t.Succeed? || t.Fail? || t.TakeGatt? || t.TakeL2cap? || t.Opened? || t.OpenFailed? || t.Handover? || t.Subscribe? {
      LinkAdvances(t, e, n, up);
    }
  }

  lemma WithPeerAdvances(r: Registry, d: DeviceId, t: Task)
    ensures Advances(r, WithPeer(r, d, t).reg)
  {
    if d in r.peers {
      TaskAdvances(t, r.peers[d], r.nextLifecycle, UpgradeOnConnect(r, r.peers[d]));
    }
  }

  lemma {:induction false} WalkAdvances(r: Registry, order: seq<DeviceId>, t: Task)
    ensures Advances(r, Walk(r, order, t).reg)
  {
    if order != [] {
      var init := order[..|order| - 1];
      WalkAdvances(r, init, t);
      WithPeerAdvances(Walk(r, init, t).reg, order[|order| - 1], t);
      AdvancesTrans(r, Walk(r, init, t).reg, Walk(r, order, t).reg);
    }
  }

  lemma VerifiedAdvances(r: Registry, now: int, ep: EndpointId, exact: Option<DeviceId>, order: seq<DeviceId>)
    ensures Advances(r, HandleVerified(r, now, ep, exact, order).reg)
  {
    var r1 := Stamp(r, ep, exact);
    assert Advances(r, r1);
    var r2 := Walk(r1, order, Cancel(now, PrefixOf(ep))).reg;
    WalkAdvances(r1, order, Cancel(now, PrefixOf(ep)));
    AdvancesTrans(r, r1, r2);
    var r3 := DrainLosers(r2, now, ep, order).reg;
    var c := Candidates(r2, order, PrefixOf(ep));
    if |c| >= 2 {
      WalkAdvances(r2, order, Lose(now, PrefixOf(ep), Winner(r2, c, ep)));
    }
    AdvancesTrans(r, r2, r3);
    if r3.preferL2cap {
      var task := Raise(ConnectedCount(r3.peers, PrefixOf(ep)), r3.me, ep);
      WalkAdvances(r3, order, task);
      AdvancesTrans(r, r3, Walk(r3, order, task).reg);
    }
  }

  lemma OneAdvances(r: Registry, now: int, cmd: Command)
    requires !Walks(cmd) && !Arrives(r, cmd)
    ensures Advances(r, Handle(r, now, cmd).reg)
  {
    HandleOne(r, now, cmd);
    var s, t := Before(r, cmd), TaskOf(r, now, cmd);
    assert Advances(r, s);
    WithPeerAdvances(s, cmd.device, t);
    AdvancesTrans(r, s, WithPeer(s, cmd.device, t).reg);
  }

  lemma EndpointAdvances(r: Registry, now: int, ep: EndpointId, exact: Option<DeviceId>, replaced: Option<DeviceId>, order: seq<DeviceId>)
    ensures Advances(r, HandleEndpoint(r, now, ep, exact, replaced, order).reg)
  {
    var o1 := Replace(r, now, replaced);
    if replaced.Some? {
      WithPeerAdvances(r, replaced.value, Drop(now));
    }
    VerifiedAdvances(o1.reg, now, ep, exact, order);
    AdvancesTrans(r, o1.reg, HandleVerified(o1.reg, now, ep, exact, order).reg);
  }

  lemma HandleAdvances(r: Registry, now: int, cmd: Command)
    ensures Advances(r, Handle(r, now, cmd).reg)
  {
    if Walks(cmd) {
      match cmd
      case AdapterState(powered, order) => WalkAdvances(r, order, Power(now, powered));
      case Tick(order, lastRx) => WalkAdvances(r, order, Age(now, lastRx));
      case VerifiedEndpoint(ep, exact, replaced, order) => EndpointAdvances(r, now, ep, exact, replaced, order);
    } else if !Arrives(r, cmd) {
      OneAdvances(r, now, cmd);
    }
  }

  lemma {:induction false} TraceAdvances(r: Registry, cmds: seq<Timed>)
    ensures Advances(r, Trace(r, cmds).reg)
  {
    if cmds != [] {
      var init, c := cmds[..|cmds| - 1], cmds[|cmds| - 1];
      TraceAdvances(r, init);
      HandleAdvances(Trace(r, init).reg, c.now, c.command);
      AdvancesTrans(r, Trace(r, init).reg, Trace(r, cmds).reg);
    }
  }

  /** A lifecycle that was handed out and is no longer the device's current one. */
  predicate Past(r: Registry, d: DeviceId, lc: nat) {
    lc < r.nextLifecycle && (d in r.peers ==> r.peers[d].lifecycle != lc)
  }

  /** The five completions that carry a lifecycle. */
  predicate TaggedWith(cmd: Command, d: DeviceId, lc: nat) {
    match cmd
    case ConnectSucceeded(x, l, _) => x == d && l == lc
    case ConnectFailed(x, l) => x == d && l == lc
    case L2capOpened(x, l, _) => x == d && l == lc
    case L2capFailed(x, l, _) => x == d && l == lc
    case VersionMismatch(x, l) => x == d && l == lc
    case _ => false
  }

  lemma PastIsIgnored(r: Registry, d: DeviceId, lc: nat, now: int, cmd: Command)
    requires Past(r, d, lc) && TaggedWith(cmd, d, lc)
    ensures Handle(r, now, cmd) == Out(r, [])
  {
    if d in r.peers {
      assert r.peers[d := r.peers[d]] == r.peers;
    }
  }

  /**
   Freshness. Once a device has moved past a lifecycle, through retries, teardown or
   collection and re-creation of its entry, a completion tagged with it changes
   nothing and emits nothing, in every later state.
   */
  lemma StaleCompletionsIgnored(r: Registry, d: DeviceId, lc: nat, cmds: seq<Timed>, now: int, cmd: Command)
    requires Past(r, d, lc) && TaggedWith(cmd, d, lc)
    ensures var s := Trace(r, cmds).reg; Handle(s, now, cmd) == Out(s, [])
  {
    TraceAdvances(r, cmds);
    PastIsIgnored(Trace(r, cmds).reg, d, lc, now, cmd);
  }

  /** No two peers ever share a lifecycle, and none is handed out twice. */
  lemma LifecyclesUnique(prefer: bool, me: EndpointId, cmds: seq<Timed>, c: DeviceId, d: DeviceId)
    ensures var r := Reached(prefer, me, cmds).reg;
            && (c in r.peers ==> 0 < r.peers[c].lifecycle < r.nextLifecycle)
            && (c in r.peers && d in r.peers && c != d ==> r.peers[c].lifecycle != r.peers[d].lifecycle)
  {
    ReachedGood(prefer, me, cmds);
    var o := Reached(prefer, me, cmds);
    assert c in o.reg.peers ==> PeerOk(MonOf(WatchAll(map[], o.actions), c), c, o.reg.peers[c], o.reg.nextLifecycle);
  }

  // ---------- upgrades and cleanups, over the whole trace ----------

  /** The device has moved past `lc`, or has spent its upgrade. */
  predicate UpgradeSpent(m: Mon, lc: nat) {
    lc < m.act || (lc == m.act && m.upgraded)
  }

  lemma {:induction false} SpentStays(ms: Mons, acts: seq<Action>, d: DeviceId, lc: nat, j: nat)
    requires Accepts(ms, acts) && UpgradeSpent(MonOf(ms, d), lc) && j < |acts|
    requires acts[j].UpgradeToL2cap? && acts[j].device == d
    ensures lc < acts[j].lifecycle
    decreases |acts|
  {
    if j > 0 {
      SpentStays(Watch(ms, acts[0]), acts[1..], d, lc, j - 1);
    }
  }

  lemma {:induction false} UpgradesDistinct(ms: Mons, acts: seq<Action>, i: nat, j: nat)
    requires Accepts(ms, acts) && i < j < |acts|
    requires acts[i].UpgradeToL2cap? && acts[j].UpgradeToL2cap? && acts[i].device == acts[j].device
    ensures acts[i].lifecycle < acts[j].lifecycle
    decreases |acts|
  {
    if i == 0 {
      SpentStays(Watch(ms, acts[0]), acts[1..], acts[0].device, acts[0].lifecycle, j - 1);
    } else {
      UpgradesDistinct(Watch(ms, acts[0]), acts[1..], i - 1, j - 1);
    }
  }

  lemma {:induction false} UpgradesAreFirst(ms: Mons, acts: seq<Action>, i: nat)
    requires Accepts(ms, acts) && i < |acts| && acts[i].UpgradeToL2cap?
    ensures acts[i].upgradeGen == 1
    decreases |acts|
  {
    if i > 0 {
      UpgradesAreFirst(Watch(ms, acts[0]), acts[1..], i - 1);
    }
  }

  /** What every entry satisfies in every reachable state. */
  lemma ReachableEntry(prefer: bool, me: EndpointId, cmds: seq<Timed>, d: DeviceId)
    requires d in Reached(prefer, me, cmds).reg.peers
    ensures var e := Reached(prefer, me, cmds).reg.peers[d];
            && e.device == d && !e.phase.Handshaking?
            && e.upgradeGen <= 1
            && (e.phase.Connected? && e.phase.upgrading ==> e.upgradeGen == 1 && e.phase.channel.path == Gatt)
            && (e.phase.Connected? ==> e.phase.txGen == e.txGen)
            && (e.pipe.Some? ==> e.pipe.value <= e.txGen)
            && (e.phase.Connecting? || e.phase.Reconnecting? ==> e.phase.attempt < MAX_CONNECT_ATTEMPTS)
  {
    ReachedGood(prefer, me, cmds);
    var o := Reached(prefer, me, cmds);
    assert PeerOk(MonOf(WatchAll(map[], o.actions), d), d, o.reg.peers[d], o.reg.nextLifecycle);
  }
}
