/** In every run, over all devices, each lifecycle is asked to upgrade to L2CAP at most once. */
module UpgradeOnce {
  import opened Wire
  import opened Identity
  import opened Dedup
  import opened Peers
  import opened RegistrySpec
  import opened Monitor
  import opened RegistryRun
  import opened RegistryTheorems
  import opened PeerLife

  // ---------- only two handlers ask for an upgrade, for the entry's own lifecycle ----------

  predicate Upgrades(t: Task) {
    t.Succeed? || t.Raise?
  }

  ghost predicate NoUpgrade(acts: seq<Action>) {
    forall k :: 0 <= k < |acts| ==> !acts[k].UpgradeToL2cap?
  }

  lemma AgeTask(t: Task, e: Entry, n: nat, up: bool)
    requires t.Age?
    ensures NoUpgrade(Do(t, e, n, up).actions)
  {
  }

  lemma DialTask(t: Task, e: Entry, n: nat, up: bool)
    requires t.Mark? || t.Advertise?
    ensures NoUpgrade(Do(t, e, n, up).actions)
  {
  }

  lemma SubmitTask(t: Task, e: Entry, n: nat, up: bool)
    requires t.Submit?
    ensures NoUpgrade(Do(t, e, n, up).actions)
  {
    if !e.phase.Discovered? {
      SendIsQuiet(e, n, t.now, t.target, t.send, t.queue);
      var acts := Do(t, e, n, up).actions;
      assert forall k :: 0 <= k < |acts| ==> !OnLane(acts[k]);
    }
  }

  lemma EndingTask(t: Task, e: Entry, n: nat, up: bool)
    requires Ends(t) || t.Fail? || t.Power?
    ensures NoUpgrade(Do(t, e, n, up).actions)
  {
  }

  lemma CarryingTask(t: Task, e: Entry, n: nat, up: bool)
    requires Carries(t)
    ensures NoUpgrade(Do(t, e, n, up).actions)
  {
  }

  lemma OtherTask(t: Task, e: Entry, n: nat, up: bool)
    requires t.Install? || t.Opened? || t.OpenFailed? || t.Handover? || t.Unsubscribe? || t.Cancel? || t.Lose?
    ensures NoUpgrade(Do(t, e, n, up).actions)
  {
  }

  /** An upgrade names the lifecycle of the entry it leaves behind. */
  ghost predicate NamesEntry(r: Eff) {
    forall k :: 0 <= k < |r.actions| && r.actions[k].UpgradeToL2cap? ==> r.actions[k].lifecycle == r.entry.lifecycle
  }

  lemma UpgradeNamesEntry(t: Task, e: Entry, n: nat, up: bool)
    ensures NamesEntry(Do(t, e, n, up))
  {
    if t.Age? {
      AgeTask(t, e, n, up);
    } else if t.Mark? || t.Advertise? {
      DialTask(t, e, n, up);
    } else if t.Submit? {
      SubmitTask(t, e, n, up);
    } else if Ends(t) || t.Fail? || t.Power? {
      EndingTask(t, e, n, up);
    } else if Carries(t) {
      CarryingTask(t, e, n, up);
    } else if !Upgrades(t) {
      OtherTask(t, e, n, up);
    }
  }

  // ---------- an upgraded lifecycle belongs to one device for ever ----------

  ghost predicate OwnedBy(r: Registry, lc: nat, d: DeviceId) {
    lc < r.nextLifecycle && forall c :: c in r.peers && c != d ==> r.peers[c].lifecycle != lc
  }

  ghost predicate Owned(r: Registry, acts: seq<Action>) {
    && (forall k :: 0 <= k < |acts| && acts[k].UpgradeToL2cap? ==> OwnedBy(r, acts[k].lifecycle, acts[k].device))
    && (forall i, j :: 0 <= i < j < |acts| && acts[i].UpgradeToL2cap? && acts[j].UpgradeToL2cap? && acts[i].device != acts[j].device ==>
          acts[i].lifecycle != acts[j].lifecycle)
  }

  lemma OwnedFrame(r: Registry, s: Registry, acts: seq<Action>)
    requires Owned(r, acts) && Advances(r, s)
    ensures Owned(s, acts)
  {
    forall k | 0 <= k < |acts| && acts[k].UpgradeToL2cap?
      ensures OwnedBy(s, acts[k].lifecycle, acts[k].device)
    {
      assert OwnedBy(r, acts[k].lifecycle, acts[k].device);
    }
  }

  /** One device acts on its own lifecycle. */
  lemma OwnedAdd(r: Registry, s: Registry, acts: seq<Action>, more: seq<Action>, d: DeviceId)
    requires Owned(r, acts) && Advances(r, s) && OnlyFor(more, d) && d in s.peers
    requires s.peers[d].lifecycle < s.nextLifecycle
    requires forall c :: c in s.peers && c != d ==> s.peers[c].lifecycle != s.peers[d].lifecycle
    requires forall k :: 0 <= k < |more| && more[k].UpgradeToL2cap? ==> more[k].lifecycle == s.peers[d].lifecycle
    ensures Owned(s, acts + more)
  {
    OwnedFrame(r, s, acts);
    var all := acts + more;
    forall i, j | 0 <= i < j < |all| && all[i].UpgradeToL2cap? && all[j].UpgradeToL2cap? && all[i].device != all[j].device
      ensures all[i].lifecycle != all[j].lifecycle
    {
      if i < |acts| {
        assert OwnedBy(s, acts[i].lifecycle, acts[i].device);
      }
    }
  }

  lemma WithPeerOwned(ms: Mons, r: Registry, acts: seq<Action>, d: DeviceId, t: Task)
    requires Consistent(ms, r) && Owned(r, acts)
    ensures var o := WithPeer(r, d, t); Owned(o.reg, acts + o.actions)
  {
    var o := WithPeer(r, d, t);
    if d in r.peers {
      var up := UpgradeOnConnect(r, r.peers[d]);
      assert PeerOk(MonOf(ms, d), d, r.peers[d], r.nextLifecycle);
      TaskOk(t, MonOf(ms, d), r.peers[d], r.nextLifecycle, up);
      WithPeerGood(ms, r, d, t);
      assert PeerOk(MonOf(WatchAll(ms, o.actions), d), d, o.reg.peers[d], o.reg.nextLifecycle);
      WithPeerAdvances(r, d, t);
      UpgradeNamesEntry(t, r.peers[d], r.nextLifecycle, up);
      OwnedAdd(r, o.reg, acts, o.actions, d);
    } else {
      assert acts + [] == acts;
    }
  }

  lemma OwnedAssoc(r: Registry, a: seq<Action>, b: seq<Action>, c: seq<Action>)
    requires Owned(r, a + b + c)
    ensures Owned(r, a + (b + c))
  {
    assert a + (b + c) == a + b + c;
  }

  lemma {:induction false} WalkOwned(ms: Mons, r: Registry, acts: seq<Action>, order: seq<DeviceId>, t: Task)
    requires Consistent(ms, r) && Owned(r, acts)
    ensures var o := Walk(r, order, t); Owned(o.reg, acts + o.actions)
  {
    if order == [] {
      assert acts + [] == acts;
    } else {
      var init, last := order[..|order| - 1], order[|order| - 1];
      WalkOwned(ms, r, acts, init, t);
      WalkGood(ms, r, init, t);
      ThenOwned(ms, acts, Walk(r, init, t), last, t);
    }
  }

  lemma ThenOwned(ms: Mons, acts: seq<Action>, before: Out, d: DeviceId, t: Task)
    requires Good(ms, before) && Owned(before.reg, acts + before.actions)
    ensures var o := WithPeer(before.reg, d, t); Owned(o.reg, acts + (before.actions + o.actions))
  {
    var o := WithPeer(before.reg, d, t);
    WithPeerOwned(WatchAll(ms, before.actions), before.reg, acts + before.actions, d, t);
    OwnedAssoc(o.reg, acts, before.actions, o.actions);
  }

  lemma LosersOwned(ms: Mons, r: Registry, acts: seq<Action>, now: int, ep: EndpointId, order: seq<DeviceId>)
    requires Consistent(ms, r) && Owned(r, acts)
    ensures var o := DrainLosers(r, now, ep, order); Owned(o.reg, acts + o.actions)
  {
    var c := Candidates(r, order, PrefixOf(ep));
    assert acts + [] == acts;
    if |c| >= 2 {
      WalkOwned(ms, r, acts, order, Lose(now, PrefixOf(ep), Winner(r, c, ep)));
    }
  }

  lemma RaiseOwned(ms: Mons, r: Registry, acts: seq<Action>, ep: EndpointId, order: seq<DeviceId>)
    requires Consistent(ms, r) && Owned(r, acts)
    ensures var o := RaiseAll(r, ep, order); Owned(o.reg, acts + o.actions)
  {
    assert acts + [] == acts;
    if r.preferL2cap {
      WalkOwned(ms, r, acts, order, Raise(ConnectedCount(r.peers, PrefixOf(ep)), r.me, ep));
    }
  }

  lemma SettleOwned(ms: Mons, r: Registry, acts: seq<Action>, now: int, ep: EndpointId, order: seq<DeviceId>)
    requires Consistent(ms, r) && Owned(r, acts)
    ensures var o := Settle(r, now, ep, order); Owned(o.reg, acts + o.actions)
  {
    var o := DrainLosers(r, now, ep, order);
    LosersOwned(ms, r, acts, now, ep, order);
    LosersGood(ms, r, now, ep, order);
    RaiseOwned(WatchAll(ms, o.actions), o.reg, acts + o.actions, ep, order);
    OwnedAssoc(RaiseAll(o.reg, ep, order).reg, acts, o.actions, RaiseAll(o.reg, ep, order).actions);
  }

  lemma CancelOwned(ms: Mons, r: Registry, acts: seq<Action>, now: int, ep: EndpointId, exact: Option<DeviceId>, order: seq<DeviceId>)
    requires Consistent(ms, r) && Owned(r, acts)
    ensures var o := Walk(Stamp(r, ep, exact), order, Cancel(now, PrefixOf(ep))); Good(ms, o) && Owned(o.reg, acts + o.actions)
  {
    var r1, t := Stamp(r, ep, exact), Cancel(now, PrefixOf(ep));
    StampConsistent(ms, r, ep, exact);
    OwnedFrame(r, r1, acts);
    WalkOwned(ms, r1, acts, order, t);
    WalkGood(ms, r1, order, t);
  }

  lemma VerifiedOwned(ms: Mons, r: Registry, acts: seq<Action>, now: int, ep: EndpointId, exact: Option<DeviceId>, order: seq<DeviceId>)
    requires Consistent(ms, r) && Owned(r, acts)
    ensures var o := HandleVerified(r, now, ep, exact, order); Owned(o.reg, acts + o.actions)
  {
    var o1 := Walk(Stamp(r, ep, exact), order, Cancel(now, PrefixOf(ep)));
    CancelOwned(ms, r, acts, now, ep, exact, order);
    var o2 := Settle(o1.reg, now, ep, order);
    SettleOwned(WatchAll(ms, o1.actions), o1.reg, acts + o1.actions, now, ep, order);
    OwnedAssoc(o2.reg, acts, o1.actions, o2.actions);
  }

  lemma EndpointOwned(ms: Mons, r: Registry, acts: seq<Action>, now: int, ep: EndpointId, exact: Option<DeviceId>,
                      replaced: Option<DeviceId>, order: seq<DeviceId>)
    requires Consistent(ms, r) && Owned(r, acts)
    ensures var o := HandleEndpoint(r, now, ep, exact, replaced, order); Owned(o.reg, acts + o.actions)
  {
    var o1 := Replace(r, now, replaced);
    ReplaceGood(ms, r, now, replaced);
    ReplaceOwned(ms, r, acts, now, replaced);
    VerifiedOwned(WatchAll(ms, o1.actions), o1.reg, acts + o1.actions, now, ep, exact, order);
    var o2 := HandleVerified(o1.reg, now, ep, exact, order);
    OwnedAssoc(o2.reg, acts, o1.actions, o2.actions);
  }

  lemma ReplaceOwned(ms: Mons, r: Registry, acts: seq<Action>, now: int, replaced: Option<DeviceId>)
    requires Consistent(ms, r) && Owned(r, acts)
    ensures var o := Replace(r, now, replaced); Owned(o.reg, acts + o.actions)
  {
    assert acts + [] == acts;
    if replaced.Some? {
      WithPeerOwned(ms, r, acts, replaced.value, Drop(now));
    }
  }

  lemma OneOwned(ms: Mons, r: Registry, acts: seq<Action>, now: int, cmd: Command)
    requires Consistent(ms, r) && Owned(r, acts) && !Walks(cmd) && !Arrives(r, cmd)
    ensures var o := Handle(r, now, cmd); Owned(o.reg, acts + o.actions)
  {
    HandleOne(r, now, cmd);
    EnsureConsistent(ms, r, cmd.device);
    OwnedFrame(r, Before(r, cmd), acts);
    WithPeerOwned(ms, Before(r, cmd), acts, cmd.device, TaskOf(r, now, cmd));
    OwnedPeers(WithPeer(Before(r, cmd), cmd.device, TaskOf(r, now, cmd)).reg, Handle(r, now, cmd).reg, acts + Handle(r, now, cmd).actions);
  }

  lemma OwnedPeers(r: Registry, s: Registry, acts: seq<Action>)
    requires Owned(r, acts) && r.nextLifecycle == s.nextLifecycle
    requires forall d :: d in s.peers ==> d in r.peers && s.peers[d] == r.peers[d]
    ensures Owned(s, acts)
  {
    OwnedFrame(r, s, acts);
  }

  lemma ArrivesOwned(ms: Mons, r: Registry, acts: seq<Action>, now: int, cmd: Command)
    requires Consistent(ms, r) && Owned(r, acts) && Arrives(r, cmd)
    ensures var o := Handle(r, now, cmd); Owned(o.reg, acts + o.actions)
  {
    var o := Handle(r, now, cmd);
    HandleAdvances(r, now, cmd);
    HandleGood(ms, r, now, cmd);
    OwnedAdd(r, o.reg, acts, o.actions, cmd.device);
  }

  lemma HandleOwned(ms: Mons, r: Registry, acts: seq<Action>, now: int, cmd: Command)
    requires Consistent(ms, r) && Owned(r, acts)
    ensures var o := Handle(r, now, cmd); Owned(o.reg, acts + o.actions)
  {
    if Walks(cmd) {
      match cmd
      case AdapterState(powered, order) => WalkOwned(ms, r, acts, order, Power(now, powered));
      case Tick(order, lastRx) =>
        WalkOwned(ms, r, acts, order, Age(now, lastRx));
        OwnedPeers(Walk(r, order, Age(now, lastRx)).reg, Handle(r, now, cmd).reg, acts + Handle(r, now, cmd).actions);
      case VerifiedEndpoint(ep, exact, replaced, order) => EndpointOwned(ms, r, acts, now, ep, exact, replaced, order);
    } else if Arrives(r, cmd) {
      ArrivesOwned(ms, r, acts, now, cmd);
    } else {
      OneOwned(ms, r, acts, now, cmd);
    }
  }

  lemma {:induction false} TraceOwned(prefer: bool, me: EndpointId, cmds: seq<Timed>)
    ensures var o := Reached(prefer, me, cmds); Owned(o.reg, o.actions)
  {
    if cmds != [] {
      var init, c := cmds[..|cmds| - 1], cmds[|cmds| - 1];
      TraceOwned(prefer, me, init);
      ReachedGood(prefer, me, init);
      var before := Reached(prefer, me, init);
      HandleOwned(WatchAll(map[], before.actions), before.reg, before.actions, c.now, c.command);
    }
  }

  /** Any two upgrades of a run, of one device or of two, name different lifecycles, and both are the first of theirs. */
  lemma OneUpgradePerLifecycle(prefer: bool, me: EndpointId, cmds: seq<Timed>, i: nat, j: nat)
    requires var acts := Reached(prefer, me, cmds).actions;
             i < j < |acts| && acts[i].UpgradeToL2cap? && acts[j].UpgradeToL2cap?
    ensures var acts := Reached(prefer, me, cmds).actions;
            acts[i].lifecycle != acts[j].lifecycle && acts[i].upgradeGen == acts[j].upgradeGen == 1
  {
    ReachedGood(prefer, me, cmds);
    TraceOwned(prefer, me, cmds);
    var acts := Reached(prefer, me, cmds).actions;
    if acts[i].device == acts[j].device {
      UpgradesDistinct(map[], acts, i, j);
    }
    UpgradesAreFirst(map[], acts, i);
    UpgradesAreFirst(map[], acts, j);
  }
}
