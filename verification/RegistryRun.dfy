/**
 From one peer to the whole registry: handling any command, in any state that
 agrees with the per-device automata, emits only actions they accept and ends in
 agreement again.
 */
module RegistryRun {
  import opened Wire
  import opened Identity
  import opened Dedup
  import opened Peers
  import opened RegistrySpec
  import opened Monitor

  type Mons = map<DeviceId, Mon>

  function MonOf(ms: Mons, d: DeviceId): Mon {
    if d in ms then ms[d] else IDLE
  }

  /** Another device was activated: an idle lane whose lifecycle is retired may be collected. */
  function Weaken(m: Mon): Mon {
    m.(lost := m.lost || m.retired)
  }

  function Watch(ms: Mons, a: Action): Mons {
    map d | d in ms.Keys + {a.device} ::
      if d == a.device then Observe(MonOf(ms, d), a)
      else if Activates(a) then Weaken(MonOf(ms, d))
      else MonOf(ms, d)
  }

  function WatchAll(ms: Mons, acts: seq<Action>): Mons
    decreases |acts|
  {
    if acts == [] then ms else WatchAll(Watch(ms, acts[0]), acts[1..])
  }

  /** Every action is accepted by its device's automaton when its turn comes. */
  predicate Accepts(ms: Mons, acts: seq<Action>)
    decreases |acts|
  {
    acts == [] || (Allowed(MonOf(ms, acts[0].device), acts[0]) && Accepts(Watch(ms, acts[0]), acts[1..]))
  }

  ghost predicate PeerOk(m: Mon, d: DeviceId, e: Entry, next: nat) {
    e.device == d && e.lifecycle < next && Agrees(m, e)
  }

  ghost predicate Consistent(ms: Mons, r: Registry) {
    && 0 < r.nextLifecycle
    && (forall d :: d in r.peers ==> PeerOk(MonOf(ms, d), d, r.peers[d], r.nextLifecycle))
    && (forall d :: d !in r.peers ==> MonOf(ms, d).act <= MonOf(ms, d).top < r.nextLifecycle)
    && (forall c, d :: c in r.peers && d in r.peers && c != d ==> r.peers[c].lifecycle != r.peers[d].lifecycle)
  }

  lemma {:induction false} WatchConcat(ms: Mons, a: seq<Action>, b: seq<Action>)
    ensures WatchAll(ms, a + b) == WatchAll(WatchAll(ms, a), b)
    ensures Accepts(ms, a + b) <==> Accepts(ms, a) && Accepts(WatchAll(ms, a), b)
    decreases |a|
  {
    if a == [] {
      assert a + b == b;
    } else {
      assert (a + b)[1..] == a[1..] + b;
      WatchConcat(Watch(ms, a[0]), a[1..], b);
    }
  }

  /** Actions for one device run its automaton and at most weaken the others. */
  lemma {:induction false} WatchBlock(ms: Mons, acts: seq<Action>, d: DeviceId, x: DeviceId)
    requires OnlyFor(acts, d)
    ensures MonOf(WatchAll(ms, acts), d) == ObserveAll(MonOf(ms, d), acts)
    ensures x != d ==> MonOf(WatchAll(ms, acts), x) in {MonOf(ms, x), Weaken(MonOf(ms, x))}
    ensures Accepts(ms, acts) <==> AllAllowed(MonOf(ms, d), acts)
    decreases |acts|
  {
    if acts != [] {
      WatchBlock(Watch(ms, acts[0]), acts[1..], d, x);
    }
  }

  ghost predicate Good(ms: Mons, o: Out) {
    Accepts(ms, o.actions) && Consistent(WatchAll(ms, o.actions), o.reg)
  }

  lemma AgreesWeaken(m: Mon, e: Entry)
    requires Agrees(m, e)
    ensures Agrees(Weaken(m), e)
  {
  }

  lemma ApplyGood(ms: Mons, r: Registry, d: DeviceId, eff: Eff)
    requires Consistent(ms, r) && d in r.peers
    requires Disciplined(MonOf(ms, d), r.peers[d], r.nextLifecycle, eff)
    ensures Good(ms, Apply(r, d, eff))
  {
    var o := Apply(r, d, eff);
    var ns := WatchAll(ms, o.actions);
    WatchBlock(ms, eff.actions, d, d);
    forall x
      ensures x in o.reg.peers ==> PeerOk(MonOf(ns, x), x, o.reg.peers[x], o.reg.nextLifecycle)
      ensures x !in o.reg.peers ==> MonOf(ns, x).act <= MonOf(ns, x).top < o.reg.nextLifecycle
    {
      WatchBlock(ms, eff.actions, d, x);
      if x != d && x in r.peers {
        AgreesWeaken(MonOf(ms, x), r.peers[x]);
      }
    }
  }

  lemma NewGood(ms: Mons, r: Registry, d: DeviceId, now: int, path: ConnectPath)
    requires Consistent(ms, r) && d !in r.peers
    ensures Good(ms, Apply(r, d, InboundNew(d, r.nextLifecycle, now, path)))
  {
    var eff := InboundNew(d, r.nextLifecycle, now, path);
    InboundNewOk(MonOf(ms, d), d, r.nextLifecycle, now, path);
    var o := Apply(r, d, eff);
    var ns := WatchAll(ms, o.actions);
    WatchBlock(ms, eff.actions, d, d);
    forall x
      ensures x in o.reg.peers ==> PeerOk(MonOf(ns, x), x, o.reg.peers[x], o.reg.nextLifecycle)
      ensures x !in o.reg.peers ==> MonOf(ns, x).act <= MonOf(ns, x).top < o.reg.nextLifecycle
    {
      WatchBlock(ms, eff.actions, d, x);
      if x != d && x in r.peers {
        AgreesWeaken(MonOf(ms, x), r.peers[x]);
      }
    }
  }

  lemma EnsureConsistent(ms: Mons, r: Registry, d: DeviceId)
    requires Consistent(ms, r)
    ensures Consistent(ms, Ensure(r, d)) && d in Ensure(r, d).peers
  {
  }

  lemma LinkTaskOk(t: Task, m: Mon, e: Entry, n: nat, upgrade: bool)
    requires Agrees(m, e) && e.lifecycle < n
    requires t.Succeed? || t.Fail? || t.TakeGatt? || t.TakeL2cap? || t.Opened? || t.OpenFailed? || t.Handover? || t.Mismatch?
    ensures Disciplined(m, e, n, Do(t, e, n, upgrade))
  {
    match t
    case Succeed(now, lc, ch) => ConnectSucceededOk(m, e, n, now, lc, ch, upgrade);
    case Fail(now, lc) => ConnectFailedOk(m, e, n, now, lc);
    case TakeGatt(now, source) => InboundGattOk(m, e, n, now, source);
    case TakeL2cap(now) => InboundL2capOk(m, e, n, now);
    case Opened(now, lc, g) => L2capOpenedOk(m, e, n, now, lc, g);
    case OpenFailed(now, lc, g) => L2capFailedOk(m, e, n, now, lc, g);
    case Handover => HandoverOk(m, e, n);
    case Mismatch(now, lc) => VersionMismatchOk(m, e, n, now, lc);
  }

  lemma RaiseTaskOk(t: Task, m: Mon, e: Entry, n: nat, upgrade: bool)
    requires Agrees(m, e) && e.lifecycle < n && t.Raise?
    ensures Disciplined(m, e, n, Do(t, e, n, upgrade))
  {
    SilentOk(m, e, e, n);
    if WantsUpgrade(e, t.count, t.me, t.peer) {
      UpgradeDisciplined(m, e, n);
    }
  }

  lemma PassTaskOk(t: Task, m: Mon, e: Entry, n: nat, upgrade: bool)
    requires Agrees(m, e) && e.lifecycle < n && (t.Cancel? || t.Lose? || t.Raise? || t.Mark?)
    ensures Disciplined(m, e, n, Do(t, e, n, upgrade))
  {
    match t
    case Mark(prefix) => SilentOk(m, e, e.(prefix := Some(prefix)), n);
    case Cancel(now, _) =>
      SilentOk(m, e, e, n);
      DrainOk(m, e, n, now, ByDedupLoser);
    case Lose(now, _, _) =>
      SilentOk(m, e, e, n);
      DrainOk(m, e, n, now, ByDedupLoser);
    case Raise(_, _, _) => RaiseTaskOk(t, m, e, n, upgrade);
  }

  /** Every task is disciplined. */
  lemma TaskOk(t: Task, m: Mon, e: Entry, n: nat, upgrade: bool)
    requires Agrees(m, e) && e.lifecycle < n
    ensures Disciplined(m, e, n, Do(t, e, n, upgrade))
  {
    match t
    case Advertise(now, prefix, defer) => AdvertisedOk(m, e, n, now, prefix, defer);
    case Submit(now, target, send, q) => SendOk(m, e, n, now, target, send, q);
    case Disconnect(now, reason) => CentralDisconnectedOk(m, e, n, now, reason);
    case Power(now, powered) => AdapterOk(m, e, n, now, powered);
    case Age(now, lastRx) => TickOk(m, e, n, now, if e.device in lastRx then lastRx[e.device] else now);
    case Drop(now) => ForgetOk(m, e, n, now);
    case Stall(now, cause) => StalledOk(m, e, n, now, cause);
    case Install(g, q) => PipeReadyOk(m, e, n, g, q);
    case Subscribe(now, c, seen, known) => SubscribedOk(m, e, n, now, c, seen, known);
    case Unsubscribe(now, c) => UnsubscribedOk(m, e, n, now, c);
    case Mark(_) => PassTaskOk(t, m, e, n, upgrade);
    case Cancel(_, _) => PassTaskOk(t, m, e, n, upgrade);
    case Lose(_, _, _) => PassTaskOk(t, m, e, n, upgrade);
    case Raise(_, _, _) => PassTaskOk(t, m, e, n, upgrade);
    case _ => LinkTaskOk(t, m, e, n, upgrade);
  }

  lemma WithPeerGood(ms: Mons, r: Registry, d: DeviceId, t: Task)
    requires Consistent(ms, r)
    ensures Good(ms, WithPeer(r, d, t))
  {
    if d in r.peers {
      var e, up := r.peers[d], UpgradeOnConnect(r, r.peers[d]);
      assert PeerOk(MonOf(ms, d), d, e, r.nextLifecycle);
      TaskOk(t, MonOf(ms, d), e, r.nextLifecycle, up);
      ApplyGood(ms, r, d, Do(t, e, r.nextLifecycle, up));
    }
  }

  lemma {:induction false} WalkGood(ms: Mons, r: Registry, order: seq<DeviceId>, t: Task)
    requires Consistent(ms, r)
    ensures Good(ms, Walk(r, order, t))
  {
    if order != [] {
      var init := order[..|order| - 1];
      WalkGood(ms, r, init, t);
      var before := Walk(r, init, t);
      var ns := WatchAll(ms, before.actions);
      WithPeerGood(ns, before.reg, order[|order| - 1], t);
      WatchConcat(ms, before.actions, WithPeer(before.reg, order[|order| - 1], t).actions);
    }
  }

  /** One handling after another. */
  lemma GoodThen(ms: Mons, a: Out, b: Out)
    requires Good(ms, a) && Good(WatchAll(ms, a.actions), b)
    ensures Good(ms, Out(b.reg, a.actions + b.actions))
  {
    WatchConcat(ms, a.actions, b.actions);
  }

  lemma PruneGood(ms: Mons, r: Registry)
    requires Consistent(ms, r)
    ensures Consistent(ms, Prune(r))
  {
  }

  lemma PruneIfGood(ms: Mons, b: bool, o: Out)
    requires Good(ms, o)
    ensures Good(ms, PruneIf(b, o))
  {
    PruneGood(WatchAll(ms, o.actions), o.reg);
  }

  lemma StampConsistent(ms: Mons, r: Registry, ep: EndpointId, exact: Option<DeviceId>)
    requires Consistent(ms, r)
    ensures Consistent(ms, Stamp(r, ep, exact))
  {
    var s := Stamp(r, ep, exact);
    forall d | d in s.peers
      ensures PeerOk(MonOf(ms, d), d, s.peers[d], s.nextLifecycle) && s.peers[d].lifecycle == r.peers[d].lifecycle
    {
      StampOk(MonOf(ms, d), d, r.peers[d], r.nextLifecycle, ep, exact == Some(d));
    }
  }

  lemma StampOk(m: Mon, d: DeviceId, e: Entry, next: nat, ep: EndpointId, exact: bool)
    requires PeerOk(m, d, e, next)
    ensures PeerOk(m, d, StampEntry(e, ep, exact), next) && StampEntry(e, ep, exact).lifecycle == e.lifecycle
  {
  }

  lemma CollectConsistent(ms: Mons, r: Registry, now: int)
    requires Consistent(ms, r)
    ensures Consistent(ms, r.(peers := map d | d in r.peers && !Collected(r.peers[d], now) :: r.peers[d]))
  {
    forall d | d in r.peers
      ensures MonOf(ms, d).act <= MonOf(ms, d).top < r.nextLifecycle
    {
      assert PeerOk(MonOf(ms, d), d, r.peers[d], r.nextLifecycle);
    }
  }

  lemma TickGood(ms: Mons, r: Registry, now: int, order: seq<DeviceId>, lastRx: map<DeviceId, int>)
    requires Consistent(ms, r)
    ensures Good(ms, HandleTick(r, now, order, lastRx))
  {
    WalkGood(ms, r, order, Age(now, lastRx));
    var o := Walk(r, order, Age(now, lastRx));
    var ns := WatchAll(ms, o.actions);
    CollectConsistent(ns, o.reg, now);
    PruneGood(ns, o.reg.(peers := map d | d in o.reg.peers && !Collected(o.reg.peers[d], now) :: o.reg.peers[d]));
  }

  lemma SettleGood(ms: Mons, r: Registry, now: int, ep: EndpointId, order: seq<DeviceId>)
    requires Consistent(ms, r)
    ensures Good(ms, Settle(r, now, ep, order))
  {
    var o := DrainLosers(r, now, ep, order);
    LosersGood(ms, r, now, ep, order);
    RaiseGood(WatchAll(ms, o.actions), o.reg, ep, order);
    GoodThen(ms, o, RaiseAll(o.reg, ep, order));
  }

  lemma RaiseGood(ms: Mons, r: Registry, ep: EndpointId, order: seq<DeviceId>)
    requires Consistent(ms, r)
    ensures Good(ms, RaiseAll(r, ep, order))
  {
    if r.preferL2cap {
      WalkGood(ms, r, order, Raise(ConnectedCount(r.peers, PrefixOf(ep)), r.me, ep));
    }
  }

  lemma VerifiedGood(ms: Mons, r: Registry, now: int, ep: EndpointId, exact: Option<DeviceId>, order: seq<DeviceId>)
    requires Consistent(ms, r)
    ensures Good(ms, HandleVerified(r, now, ep, exact, order))
  {
    var r1 := Stamp(r, ep, exact);
    StampConsistent(ms, r, ep, exact);
    var o1 := Walk(r1, order, Cancel(now, PrefixOf(ep)));
    WalkGood(ms, r1, order, Cancel(now, PrefixOf(ep)));
    SettleGood(WatchAll(ms, o1.actions), o1.reg, now, ep, order);
    GoodThen(ms, o1, Settle(o1.reg, now, ep, order));
  }

  lemma LosersGood(ms: Mons, r: Registry, now: int, ep: EndpointId, order: seq<DeviceId>)
    requires Consistent(ms, r)
    ensures Good(ms, DrainLosers(r, now, ep, order))
  {
    var c := Candidates(r, order, PrefixOf(ep));
    if |c| >= 2 {
      WalkGood(ms, r, order, Lose(now, PrefixOf(ep), Winner(r, c, ep)));
    }
  }

  lemma ForgetGood(ms: Mons, r: Registry, now: int, d: DeviceId)
    requires Consistent(ms, r)
    ensures Good(ms, HandleForget(r, now, d))
  {
    WithPeerGood(ms, r, d, Drop(now));
    PruneIfGood(ms, d in r.peers, WithPeer(r, d, Drop(now)));
  }

  /** Only the peers and the counter matter. */
  lemma GoodSame(ms: Mons, o: Out, w: Out)
    requires Good(ms, w) && o.reg.peers == w.reg.peers && o.reg.nextLifecycle == w.reg.nextLifecycle && o.actions == w.actions
    ensures Good(ms, o)
  {
  }

  lemma ReplaceGood(ms: Mons, r: Registry, now: int, replaced: Option<DeviceId>)
    requires Consistent(ms, r)
    ensures Good(ms, Replace(r, now, replaced))
  {
    if replaced.Some? {
      ForgetGood(ms, r, now, replaced.value);
    }
  }

  lemma EndpointGood(ms: Mons, r: Registry, now: int, ep: EndpointId, exact: Option<DeviceId>, replaced: Option<DeviceId>, order: seq<DeviceId>)
    requires Consistent(ms, r)
    ensures Good(ms, HandleEndpoint(r, now, ep, exact, replaced, order))
  {
    var o1 := Replace(r, now, replaced);
    ReplaceGood(ms, r, now, replaced);
    VerifiedGood(WatchAll(ms, o1.actions), o1.reg, now, ep, exact, order);
    GoodThen(ms, o1, HandleVerified(o1.reg, now, ep, exact, order));
  }

  lemma OneGood(ms: Mons, r: Registry, now: int, cmd: Command)
    requires Consistent(ms, r) && !Walks(cmd) && !Arrives(r, cmd)
    ensures Good(ms, Handle(r, now, cmd))
  {
    HandleOne(r, now, cmd);
    EnsureConsistent(ms, r, cmd.device);
    var t := TaskOf(r, now, cmd);
    WithPeerGood(ms, Before(r, cmd), cmd.device, t);
    GoodSame(ms, Handle(r, now, cmd), WithPeer(Before(r, cmd), cmd.device, t));
  }

  /** Every command, in every consistent state. */
  lemma HandleGood(ms: Mons, r: Registry, now: int, cmd: Command)
    requires Consistent(ms, r)
    ensures Good(ms, Handle(r, now, cmd))
  {
    if Walks(cmd) {
      match cmd
      case AdapterState(powered, order) => WalkGood(ms, r, order, Power(now, powered));
      case Tick(order, lastRx) => TickGood(ms, r, now, order, lastRx);
      case VerifiedEndpoint(ep, exact, replaced, order) => EndpointGood(ms, r, now, ep, exact, replaced, order);
    } else if Arrives(r, cmd) {
      NewGood(ms, r, cmd.device, now, if cmd.InboundGatt? then Gatt else L2cap);
    } else {
      OneGood(ms, r, now, cmd);
    }
  }
}
