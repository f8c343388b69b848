/**
 Which verified identities the registry still knows. A peer whose prefix is known skips
 the fairness window; one that is forgotten is a stranger again.
 */
module VerifiedPrefixes {
  import opened Wire
  import opened Identity
  import opened Dedup
  import opened Peers
  import opened RegistrySpec
  import opened Monitor
  import opened RegistryRun
  import opened RegistryTheorems
  import opened ActionLaws
  import opened SendLaws
  import opened PhaseLaws

  /** The dial in progress was the last one allowed. */
  predicate LastDial(e: Entry) {
    e.phase.Connecting? && e.phase.attempt + 1 >= 15
  }

  /** The command ends something for good, judged from the state before. */
  predicate Buries(r: Registry, now: int, cmd: Command) {
    || cmd.Tick?
    || (cmd.Forget? && cmd.device in r.peers)
    || (cmd.VersionMismatch? && cmd.device in r.peers && r.peers[cmd.device].lifecycle == cmd.lifecycle)
    || (cmd.Unsubscribed? && cmd.device in r.peers && Drops(Unsubscribe(now, cmd.char_), r.peers[cmd.device]))
    || (cmd.ConnectFailed? && cmd.device in r.peers && r.peers[cmd.device].lifecycle == cmd.lifecycle && LastDial(r.peers[cmd.device]))
    || (cmd.CentralDisconnected? && cmd.device in r.peers && LastDial(r.peers[cmd.device]))
  }

  ghost predicate LivingCarrier(peers: map<DeviceId, Entry>, ep: EndpointId) {
    exists d :: d in peers && peers[d].verified == Some(ep) && !peers[d].phase.Dead?
  }

  /** Known afterwards are exactly those known before that still have a living carrier, if anything was buried. */
  ghost predicate Sifted(r: Registry, s: Registry, buries: bool) {
    s.verified == if buries then Prune(s.(verified := r.verified)).verified else r.verified
  }

  lemma SiftedSays(r: Registry, s: Registry, buries: bool, p: KeyPrefix)
    requires Sifted(r, s, buries) && p in r.verified
    ensures p in s.verified <==> !buries || LivingCarrier(s.peers, r.verified[p])
    ensures p in s.verified ==> s.verified[p] == r.verified[p]
  {
  }

  lemma OneKeeps(r: Registry, d: DeviceId, t: Task)
    ensures WithPeer(r, d, t).reg.verified == r.verified
  {
  }

  lemma {:induction false} WalkKeeps(r: Registry, order: seq<DeviceId>, t: Task)
    ensures Walk(r, order, t).reg.verified == r.verified
  {
    if order != [] {
      WalkKeeps(r, order[..|order| - 1], t);
      OneKeeps(Walk(r, order[..|order| - 1], t).reg, order[|order| - 1], t);
    }
  }

  lemma SiftFail(r: Registry, now: int, cmd: Command)
    requires cmd.ConnectFailed? || cmd.CentralDisconnected?
    ensures Sifted(r, Handle(r, now, cmd).reg, Buries(r, now, cmd))
  {
    var d := cmd.device;
    if d in r.peers {
      var t := if cmd.ConnectFailed? then Fail(now, cmd.lifecycle) else Disconnect(now, cmd.reason);
      FateExactly(t, r.peers[d], r.nextLifecycle, UpgradeOnConnect(r, r.peers[d]));
      DiesExactly(t, r.peers[d], r.nextLifecycle, UpgradeOnConnect(r, r.peers[d]));
    }
  }

  /** A living peer dies of a failed dial exactly if it was the last one allowed. */
  lemma DiesExactly(t: Task, e: Entry, n: nat, up: bool)
    requires t.Fail? || t.Disconnect?
    ensures var f := Do(t, e, n, up).entry;
            f.phase.Dead? && !e.phase.Dead? <==> LastDial(e) && (t.Fail? ==> e.lifecycle == t.lifecycle)
  {
    FateExactly(t, e, n, up);
  }

  lemma SiftEnd(r: Registry, now: int, cmd: Command)
    requires cmd.Forget? || cmd.VersionMismatch?
    ensures Sifted(r, Handle(r, now, cmd).reg, Buries(r, now, cmd))
  {
  }

  lemma SiftUnsubscribe(r: Registry, now: int, cmd: Command)
    requires cmd.Unsubscribed?
    ensures Sifted(r, Handle(r, now, cmd).reg, Buries(r, now, cmd))
  {
  }

  lemma SiftTick(r: Registry, now: int, cmd: Command)
    requires cmd.Tick?
    ensures Sifted(r, Handle(r, now, cmd).reg, true)
  {
    WalkKeeps(r, cmd.order, Age(now, cmd.lastRx));
  }

  lemma SiftOther(r: Registry, now: int, cmd: Command)
    requires !cmd.Tick? && !cmd.Forget? && !cmd.VersionMismatch? && !cmd.Unsubscribed? && !cmd.ConnectFailed? && !cmd.CentralDisconnected?
    requires !cmd.VerifiedEndpoint? && !cmd.Advertised?
    ensures Sifted(r, Handle(r, now, cmd).reg, false)
  {
    if cmd.AdapterState? {
      WalkKeeps(r, cmd.order, Power(now, cmd.powered));
    }
  }

  /**
   Every command but a verification and an advertisement: a known identity is forgotten
   exactly if the command buries something and leaves the identity no living carrier.
   */
  lemma ForgetsExactly(r: Registry, now: int, cmd: Command, p: KeyPrefix)
    requires p in r.verified && !cmd.VerifiedEndpoint? && !cmd.Advertised?
    ensures var s := Handle(r, now, cmd).reg;
            && (p in s.verified <==> !Buries(r, now, cmd) || LivingCarrier(s.peers, r.verified[p]))
            && (p in s.verified ==> s.verified[p] == r.verified[p])
  {
    if cmd.ConnectFailed? || cmd.CentralDisconnected? {
      SiftFail(r, now, cmd);
    } else if cmd.Forget? || cmd.VersionMismatch? {
      SiftEnd(r, now, cmd);
    } else if cmd.Unsubscribed? {
      SiftUnsubscribe(r, now, cmd);
    } else if cmd.Tick? {
      SiftTick(r, now, cmd);
    } else {
      SiftOther(r, now, cmd);
    }
    SiftedSays(r, Handle(r, now, cmd).reg, Buries(r, now, cmd), p);
  }

  /** A verified peer of the prefix is connected through `c`. */
  predicate LinkedBy(r: Registry, prefix: KeyPrefix, c: DeviceId) {
    c in r.peers && r.peers[c].phase.Connected? && r.peers[c].verified.Some? && PrefixOf(r.peers[c].verified.value) == prefix
  }

  /**
   While a verified peer is connected, another address that advertises its prefix is
   neither dialed nor even entered, and nobody's phase changes.
   */
  lemma NoSecondLink(r: Registry, now: int, prefix: KeyPrefix, d: DeviceId, end: int, c: DeviceId)
    requires LinkedBy(r, prefix, c)
    ensures var o := Handle(r, now, Advertised(prefix, d, end));
            o.actions == [] && o.reg.peers.Keys == r.peers.Keys && o.reg.verified == r.verified
            && forall x :: x in r.peers ==> o.reg.peers[x].phase == r.peers[x].phase
  {
    assert VerifiedAs(r.peers[c], prefix);
  }

  /** A verification adds the one identity it names, after forgetting what a replaced address leaves behind. */
  lemma StampsExactly(r: Registry, now: int, cmd: Command)
    requires cmd.VerifiedEndpoint?
    ensures var known := if cmd.replaced.Some? then Handle(r, now, Forget(cmd.replaced.value)).reg.verified else r.verified;
            Handle(r, now, cmd).reg.verified == known[PrefixOf(cmd.endpoint) := cmd.endpoint]
  {
    var r0 := Replace(r, now, cmd.replaced).reg;
    VerifiedKeeps(r0, now, cmd.endpoint, cmd.exact, cmd.order);
  }

  lemma VerifiedKeeps(r: Registry, now: int, ep: EndpointId, exact: Option<DeviceId>, order: seq<DeviceId>)
    ensures HandleVerified(r, now, ep, exact, order).reg.verified == r.verified[PrefixOf(ep) := ep]
  {
    var r1 := Walk(Stamp(r, ep, exact), order, Cancel(now, PrefixOf(ep))).reg;
    WalkKeeps(Stamp(r, ep, exact), order, Cancel(now, PrefixOf(ep)));
    var c := Candidates(r1, order, PrefixOf(ep));
    if |c| >= 2 {
      WalkKeeps(r1, order, Lose(now, PrefixOf(ep), Winner(r1, c, ep)));
    }
    var r2 := DrainLosers(r1, now, ep, order).reg;
    WalkKeeps(r2, order, Raise(ConnectedCount(r2.peers, PrefixOf(ep)), r2.me, ep));
  }

  /** An advertisement adds an identity exactly if it brings back a peer that was given up and had been verified under that prefix. */
  lemma RevivesExactly(r: Registry, now: int, prefix: KeyPrefix, d: DeviceId, end: int)
    requires forall c :: !LinkedBy(r, prefix, c)
    ensures var s := Handle(r, now, Advertised(prefix, d, end)).reg;
            s.verified == if d in r.peers && r.peers[d].phase.Dead? && r.peers[d].phase.why in {MaxRetries, Drained}
                             && r.peers[d].verified.Some? && PrefixOf(r.peers[d].verified.value) == prefix
                          then r.verified[prefix := r.peers[d].verified.value] else r.verified
  {
    if LiveAs(r.peers, prefix) {
      var c :| c in r.peers && VerifiedAs(r.peers[c], prefix) && r.peers[c].phase.Connected?;
      assert LinkedBy(r, prefix, c);
    }
    OneKeeps(Ensure(r, d), d, AdvertiseTask(r, now, prefix, end));
  }

  // ---------- identities enter by verification alone ----------

  /** Every identity known or carried is one of `seen`, and stands under its own prefix. */
  ghost predicate Vouched(r: Registry, seen: set<EndpointId>) {
    && (forall p :: p in r.verified ==> PrefixOf(r.verified[p]) == p && r.verified[p] in seen)
    && (forall d :: d in r.peers && r.peers[d].verified.Some? ==> r.peers[d].verified.value in seen)
  }

  /** Handlers keep what an entry was verified as, or learn it from what is known. */
  ghost predicate KeepsName(t: Task, e: Entry, f: Entry) {
    f.verified == e.verified || (t.Subscribe? && f.verified == t.known)
  }

  lemma SubmitName(t: Task, e: Entry, n: nat, up: bool)
    requires t.Submit? || t.Install?
    ensures KeepsName(t, e, Do(t, e, n, up).entry)
  {
  }

  lemma DialName(t: Task, e: Entry, n: nat, up: bool)
    requires t.Advertise? || t.Age? || t.Disconnect?
    ensures KeepsName(t, e, Do(t, e, n, up).entry)
  {
  }

  lemma PipeName(t: Task, e: Entry, n: nat, up: bool)
    requires t.TakeGatt? || t.TakeL2cap? || t.Subscribe? || t.Opened? || t.OpenFailed? || t.Succeed? || t.Fail?
    ensures KeepsName(t, e, Do(t, e, n, up).entry)
  {
  }

  lemma OtherName(t: Task, e: Entry, n: nat, up: bool)
    requires t.Mark? || t.Power? || t.Drop? || t.Stall? || t.Handover? || t.Mismatch? || t.Unsubscribe? || t.Cancel? || t.Lose? || t.Raise?
    ensures KeepsName(t, e, Do(t, e, n, up).entry)
  {
  }

  lemma TaskName(t: Task, e: Entry, n: nat, up: bool)
    ensures KeepsName(t, e, Do(t, e, n, up).entry)
  {
    if t.Submit? || t.Install? {
      SubmitName(t, e, n, up);
    } else if t.Advertise? || t.Age? || t.Disconnect? {
      DialName(t, e, n, up);
    } else if t.Mark? || t.Power? || t.Drop? || t.Stall? || t.Handover? || t.Mismatch? || t.Unsubscribe? || t.Cancel? || t.Lose? || t.Raise? {
      OtherName(t, e, n, up);
    } else {
      PipeName(t, e, n, up);
    }
  }

  lemma OneVouched(r: Registry, d: DeviceId, t: Task, seen: set<EndpointId>)
    requires Vouched(r, seen) && (t.Subscribe? && t.known.Some? ==> t.known.value in seen)
    ensures Vouched(WithPeer(r, d, t).reg, seen)
  {
    if d in r.peers {
      TaskName(t, r.peers[d], r.nextLifecycle, UpgradeOnConnect(r, r.peers[d]));
    }
  }

  lemma {:induction false} WalkVouched(r: Registry, order: seq<DeviceId>, t: Task, seen: set<EndpointId>)
    requires Vouched(r, seen) && !t.Subscribe?
    ensures Vouched(Walk(r, order, t).reg, seen)
  {
    if order != [] {
      WalkVouched(r, order[..|order| - 1], t, seen);
      OneVouched(Walk(r, order[..|order| - 1], t).reg, order[|order| - 1], t, seen);
    }
  }

  /** The same names, or fewer. */
  ghost predicate NamesWithin(r: Registry, s: Registry) {
    && (forall p :: p in s.verified ==> p in r.verified && s.verified[p] == r.verified[p])
    && (forall d :: d in s.peers ==> d in r.peers && s.peers[d].verified == r.peers[d].verified)
  }

  lemma WithinVouched(r: Registry, s: Registry, seen: set<EndpointId>)
    requires Vouched(r, seen) && NamesWithin(r, s)
    ensures Vouched(s, seen)
  {
  }

  lemma EnsureVouched(r: Registry, d: DeviceId, seen: set<EndpointId>)
    requires Vouched(r, seen)
    ensures Vouched(Ensure(r, d), seen)
  {
  }

  lemma TickVouched(r: Registry, now: int, order: seq<DeviceId>, lastRx: map<DeviceId, int>, seen: set<EndpointId>)
    requires Vouched(r, seen)
    ensures Vouched(HandleTick(r, now, order, lastRx).reg, seen)
  {
    WalkVouched(r, order, Age(now, lastRx), seen);
    WithinVouched(Walk(r, order, Age(now, lastRx)).reg, HandleTick(r, now, order, lastRx).reg, seen);
  }

  lemma ForgetVouched(r: Registry, now: int, d: DeviceId, seen: set<EndpointId>)
    requires Vouched(r, seen)
    ensures Vouched(HandleForget(r, now, d).reg, seen)
  {
    OneVouched(r, d, Drop(now), seen);
    WithinVouched(WithPeer(r, d, Drop(now)).reg, HandleForget(r, now, d).reg, seen);
  }

  lemma VerifiedVouched(r: Registry, now: int, ep: EndpointId, exact: Option<DeviceId>, order: seq<DeviceId>, seen: set<EndpointId>)
    requires Vouched(r, seen) && ep in seen
    ensures Vouched(HandleVerified(r, now, ep, exact, order).reg, seen)
  {
    var r0 := Stamp(r, ep, exact);
    WalkVouched(r0, order, Cancel(now, PrefixOf(ep)), seen);
    SettleVouched(Walk(r0, order, Cancel(now, PrefixOf(ep))).reg, now, ep, order, seen);
  }

  lemma SettleVouched(r: Registry, now: int, ep: EndpointId, order: seq<DeviceId>, seen: set<EndpointId>)
    requires Vouched(r, seen)
    ensures Vouched(Settle(r, now, ep, order).reg, seen)
  {
    var c := Candidates(r, order, PrefixOf(ep));
    if |c| >= 2 {
      WalkVouched(r, order, Lose(now, PrefixOf(ep), Winner(r, c, ep)), seen);
    }
    var s := DrainLosers(r, now, ep, order).reg;
    WalkVouched(s, order, Raise(ConnectedCount(s.peers, PrefixOf(ep)), s.me, ep), seen);
  }

  lemma EndpointVouched(r: Registry, now: int, cmd: Command, seen: set<EndpointId>)
    requires Vouched(r, seen) && cmd.VerifiedEndpoint? && cmd.endpoint in seen
    ensures Vouched(HandleEndpoint(r, now, cmd.endpoint, cmd.exact, cmd.replaced, cmd.order).reg, seen)
  {
    if cmd.replaced.Some? {
      ForgetVouched(r, now, cmd.replaced.value, seen);
    }
    VerifiedVouched(Replace(r, now, cmd.replaced).reg, now, cmd.endpoint, cmd.exact, cmd.order, seen);
  }

  lemma AdvertisedVouched(r: Registry, now: int, prefix: KeyPrefix, d: DeviceId, end: int, seen: set<EndpointId>)
    requires Vouched(r, seen)
    ensures Vouched(HandleAdvertised(r, now, prefix, d, end).reg, seen)
  {
    if LiveAs(r.peers, prefix) {
      OneVouched(r, d, Mark(prefix), seen);
    } else {
      EnsureVouched(r, d, seen);
      OneVouched(Ensure(r, d), d, AdvertiseTask(r, now, prefix, end), seen);
    }
  }

  lemma SingleVouched(r: Registry, now: int, cmd: Command, seen: set<EndpointId>)
    requires Vouched(r, seen) && !Walks(cmd) && !Arrives(r, cmd) && !cmd.Advertised?
    ensures Vouched(Handle(r, now, cmd).reg, seen)
  {
    HandleOne(r, now, cmd);
    EnsureVouched(r, cmd.device, seen);
    OneVouched(Before(r, cmd), cmd.device, TaskOf(r, now, cmd), seen);
    SingleSifts(r, now, cmd);
    WithinVouched(WithPeer(Before(r, cmd), cmd.device, TaskOf(r, now, cmd)).reg, Handle(r, now, cmd).reg, seen);
  }

  lemma SingleSifts(r: Registry, now: int, cmd: Command)
    requires !Walks(cmd) && !Arrives(r, cmd) && !cmd.Advertised?
    ensures var s := WithPeer(Before(r, cmd), cmd.device, TaskOf(r, now, cmd)).reg; NamesWithin(s, Handle(r, now, cmd).reg)
  {
    HandleOne(r, now, cmd);
    OneKeeps(Before(r, cmd), cmd.device, TaskOf(r, now, cmd));
    if cmd.ConnectFailed? || cmd.CentralDisconnected? {
      SiftFail(r, now, cmd);
    } else if cmd.Forget? || cmd.VersionMismatch? {
      SiftEnd(r, now, cmd);
    } else if cmd.Unsubscribed? {
      SiftUnsubscribe(r, now, cmd);
    } else {
      SiftOther(r, now, cmd);
    }
  }

  function Verifies(cmd: Command): set<EndpointId> {
    if cmd.VerifiedEndpoint? then {cmd.endpoint} else {}
  }

  lemma HandleVouched(r: Registry, now: int, cmd: Command, seen: set<EndpointId>)
    requires Vouched(r, seen)
    ensures Vouched(Handle(r, now, cmd).reg, seen + Verifies(cmd))
  {
    var more := seen + Verifies(cmd);
    if cmd.VerifiedEndpoint? {
      EndpointVouched(r, now, cmd, more);
    } else if cmd.Advertised? {
      AdvertisedVouched(r, now, cmd.prefix, cmd.device, cmd.fairnessEnd, more);
    } else if cmd.Tick? {
      TickVouched(r, now, cmd.order, cmd.lastRx, more);
    } else if cmd.AdapterState? {
      WalkVouched(r, cmd.order, Power(now, cmd.powered), more);
    } else if !Arrives(r, cmd) {
      SingleVouched(r, now, cmd, more);
    }
  }

  function AllVerified(cmds: seq<Timed>): set<EndpointId> {
    if cmds == [] then {} else AllVerified(cmds[..|cmds| - 1]) + Verifies(cmds[|cmds| - 1].command)
  }

  /**
   Over every run, an identity is known, or carried by an entry, only if a verification
   named it, and it is known under its own prefix.
   */
  lemma {:induction false} KnownWasVerified(prefer: bool, me: EndpointId, cmds: seq<Timed>)
    ensures Vouched(Trace(NewRegistry(prefer, me), cmds).reg, AllVerified(cmds))
  {
    if cmds != [] {
      var init, c := cmds[..|cmds| - 1], cmds[|cmds| - 1];
      KnownWasVerified(prefer, me, init);
      HandleVouched(Trace(NewRegistry(prefer, me), init).reg, c.now, c.command, AllVerified(init));
    }
  }
}
