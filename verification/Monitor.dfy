/**
 A per-device automaton that watches the actions the registry emits and accepts
 exactly the disciplined ones: cleanup names the last activated lifecycle and
 comes at most once for it, work is never emitted for a closed lifecycle, each
 lifecycle is upgraded at most once.

 Every handler, started in an entry that agrees with the automaton, emits only
 accepted actions and ends in an entry that agrees with it again.
 */
module Monitor {
  import opened Wire
  import opened Identity
  import opened Dedup
  import opened Peers
  import opened RegistrySpec

  /**
   `act`: last lifecycle activated on the device, 0 for none. `retired`: it has
   been retired since. `lost`: another device was activated after that, so an
   idle lane may be gone. `top`: newest lifecycle named in any lane action.
   */
  datatype Mon = Mon(act: nat, retired: bool, lost: bool, closed: bool, upgraded: bool, top: nat)

  const IDLE := Mon(0, false, false, false, false, 0)

  predicate Activates(a: Action) {
    a.StartConnect? || a.StartDataPipe?
  }

  predicate Closes(a: Action) {
    a.CloseChannel? || a.CloseNativeConnection?
  }

  /** Actions that reach a device lane. */
  predicate OnLane(a: Action) {
    Activates(a) || Closes(a) || a.ReadVersion? || a.UpgradeToL2cap? || a.Refresh? || a.RetireLifecycle?
  }

  predicate Allowed(m: Mon, a: Action) {
    if Activates(a) then
      0 < a.lifecycle && a.lifecycle >= m.top && (a.lifecycle > m.act || (a.lifecycle == m.act && !m.retired && !m.closed))
    else if Closes(a) then a.lifecycle == m.act == m.top && !m.closed && !m.lost && m.act > 0
    else if a.ReadVersion? then a.lifecycle == m.act == m.top && !m.retired && !m.closed
    else if a.UpgradeToL2cap? then a.lifecycle == m.act == m.top && !m.retired && !m.closed && !m.upgraded && a.upgradeGen == 1
    else if a.Refresh? then a.lifecycle >= m.top
    else true
  }

  function Observe(m: Mon, a: Action): Mon {
    if Activates(a) then
      if a.lifecycle > m.act then Mon(a.lifecycle, false, false, false, false, a.lifecycle) else m
    else if Closes(a) then m.(closed := true)
    else if a.UpgradeToL2cap? then m.(upgraded := true)
    else if a.Refresh? then if a.lifecycle > m.top then m.(top := a.lifecycle) else m
    else if a.RetireLifecycle? && a.lifecycle == m.act then m.(retired := true)
    else m
  }

  predicate AllAllowed(m: Mon, acts: seq<Action>)
    decreases |acts|
  {
    acts == [] || (Allowed(m, acts[0]) && AllAllowed(Observe(m, acts[0]), acts[1..]))
  }

  function ObserveAll(m: Mon, acts: seq<Action>): Mon
    decreases |acts|
  {
    if acts == [] then m else ObserveAll(Observe(m, acts[0]), acts[1..])
  }

  lemma {:induction false} ObserveConcat(m: Mon, a: seq<Action>, b: seq<Action>)
    ensures ObserveAll(m, a + b) == ObserveAll(ObserveAll(m, a), b)
    ensures AllAllowed(m, a + b) <==> AllAllowed(m, a) && AllAllowed(ObserveAll(m, a), b)
    decreases |a|
  {
    if a == [] {
      assert a + b == b;
    } else {
      assert (a + b)[1..] == a[1..] + b;
      ObserveConcat(Observe(m, a[0]), a[1..], b);
    }
  }

  predicate Live(p: Phase) {
    p.Connecting? || p.Connected?
  }

  /** The registry's view of a device agrees with what its lane has been told. */
  ghost predicate Agrees(m: Mon, e: Entry) {
    && 0 < e.lifecycle
    && !e.phase.Handshaking?
    && m.act <= m.top <= e.lifecycle
    && (if Live(e.phase)
        then m.act == e.lifecycle && !m.retired && !m.lost && !m.closed && e.upgradeGen == Bit(m.upgraded)
        else m.act < e.lifecycle && e.upgradeGen == 0)
    && (e.phase.Connecting? ==> e.upgradeGen == 0)
    && GenOk(e)
    && UpgradeOk(e)
    && AttemptOk(e.phase)
  }

  /** `Connected` carries the entry's generation, and no pipe is newer than it. */
  ghost predicate GenOk(e: Entry) {
    && (e.phase.Connected? ==> e.phase.txGen == e.txGen)
    && (e.pipe.Some? ==> e.pipe.value <= e.txGen)
  }

  /** An upgrade that was asked for is running, has failed, or has moved the pipe to L2CAP. */
  ghost predicate UpgradeOk(e: Entry) {
    e.phase.Connected? ==>
      && (e.phase.upgrading ==> e.upgradeGen == 1 && e.phase.channel.path == Gatt)
      && (e.upgradeGen > 0 ==> e.phase.upgrading || e.upgradeFailed || e.phase.channel.path == L2cap)
  }

  ghost predicate AttemptOk(p: Phase) {
    && (p.Connecting? ==> p.attempt < MAX_CONNECT_ATTEMPTS)
    && (p.Reconnecting? ==> p.attempt < MAX_CONNECT_ATTEMPTS)
  }

  ghost predicate OnlyFor(acts: seq<Action>, d: DeviceId) {
    forall k :: 0 <= k < |acts| ==> acts[k].device == d
  }

  /** A handler's effect from an entry the automaton agrees with. */
  ghost predicate Disciplined(m: Mon, e: Entry, next: nat, r: Eff) {
    && r.next >= next
    && r.entry.device == e.device
    && OnlyFor(r.actions, e.device)
    && AllAllowed(m, r.actions)
    && Agrees(ObserveAll(m, r.actions), r.entry)
    && r.entry.lifecycle < r.next
    && (r.entry.lifecycle == e.lifecycle || next <= r.entry.lifecycle)
  }

  lemma Observe1(m: Mon, a: Action)
    ensures ObserveAll(m, [a]) == Observe(m, a) && (AllAllowed(m, [a]) <==> Allowed(m, a))
  {
    assert [a][1..] == [];
  }

  /** Actions that never reach a lane change nothing. */
  lemma {:induction false} ObserveOffLane(m: Mon, acts: seq<Action>)
    requires forall k :: 0 <= k < |acts| ==> !OnLane(acts[k])
    ensures ObserveAll(m, acts) == m && AllAllowed(m, acts)
    decreases |acts|
  {
    if acts != [] {
      ObserveOffLane(m, acts[1..]);
    }
  }

  // ---------- the building blocks ----------

  /** An entry whose lifecycle was just allocated and named in no lane action. */
  ghost predicate Unbound(m: Mon, e: Entry) {
    m.act <= m.top < e.lifecycle && e.upgradeGen == 0
  }

  lemma AbandonOk(m: Mon, e: Entry, next: nat)
    requires m.act <= m.top <= e.lifecycle < next
    ensures var a := Abandon(e, next);
            && AllAllowed(m, a.actions)
            && ObserveAll(m, a.actions) == m.(retired := m.retired || m.act == e.lifecycle)
            && Unbound(ObserveAll(m, a.actions), a.entry)
            && OnlyFor(a.actions, e.device)
  {
    Observe1(m, RetireLifecycle(e.device, e.lifecycle));
  }

  lemma StartPipeOk(m: Mon, e: Entry, next: nat, now: int, channel: ChannelHandle, path: ConnectPath)
    requires Unbound(m, e) || (Agrees(m, e) && e.phase.Connecting?)
    requires GenOk(e)
    ensures var s := StartPipe(e, next, now, channel, path);
            && AllAllowed(m, s.actions)
            && Agrees(ObserveAll(m, s.actions), s.entry)
            && !ObserveAll(m, s.actions).upgraded && ObserveAll(m, s.actions).top == e.lifecycle
            && OnlyFor(s.actions, e.device)
  {
    Observe1(m, StartPipe(e, next, now, channel, path).actions[0]);
  }

  lemma BeginConnectOk(m: Mon, e: Entry, next: nat, now: int, attempt: nat)
    requires Agrees(m, e) || Unbound(m, e)
    requires GenOk(e) && e.lifecycle < next && attempt < MAX_CONNECT_ATTEMPTS
    ensures Disciplined(m, e, next, BeginConnect(e, next, now, attempt))
  {
    AbandonOk(m, e, next);
    var a := Abandon(e, next);
    var start := StartConnect(e.device, attempt, next);
    var m1 := ObserveAll(m, a.actions);
    Observe1(m1, start);
    ObserveConcat(m, a.actions, [start]);
  }

  lemma ArmForDialOk(m: Mon, e: Entry, next: nat, now: int, defer: Option<(KeyPrefix, int)>)
    requires (Agrees(m, e) && !Live(e.phase)) || Unbound(m, e)
    requires GenOk(e) && e.lifecycle < next
    ensures Disciplined(m, e, next, ArmForDial(e, next, now, defer))
  {
    if e.pending != [] && defer.None? {
      BeginConnectOk(m, e, next, now, 0);
    }
  }

  /** Two stages: the first leaves an unbound entry, the second is disciplined from there. */
  lemma Chain(m: Mon, e: Entry, next: nat, a: Eff, r: Eff)
    requires AllAllowed(m, a.actions) && OnlyFor(a.actions, e.device) && a.entry.device == e.device
    requires next <= a.entry.lifecycle && next <= a.next
    requires Disciplined(ObserveAll(m, a.actions), a.entry, a.next, r)
    ensures Disciplined(m, e, next, r.(actions := a.actions + r.actions))
  {
    ObserveConcat(m, a.actions, r.actions);
  }

  lemma ResumeOk(m: Mon, e: Entry, next: nat, now: int, defer: Option<(KeyPrefix, int)>)
    requires Agrees(m, e) && e.lifecycle < next
    ensures var c := ClearConnection(e, next);
            var a := ArmForDial(c.entry, c.next, now, defer);
            Disciplined(m, e, next, a.(actions := c.actions + a.actions))
  {
    AbandonOk(m, e, next);
    var c := ClearConnection(e, next);
    ArmForDialOk(ObserveAll(m, c.actions), c.entry, c.next, now, defer);
    Chain(m, e, next, c, ArmForDial(c.entry, c.next, now, defer));
  }

  ghost predicate IsCleanup(close: seq<Action>, lifecycle: nat) {
    && |close| <= 2
    && (forall k :: 0 <= k < |close| ==> (Closes(close[k]) || close[k].Refresh?) && close[k].lifecycle == lifecycle)
    && (|close| == 2 ==> Closes(close[0]) && close[1].Refresh?)
  }

  /** Cleanup for a lifecycle that was live: once, and last. */
  lemma CleanupOk(m: Mon, close: seq<Action>, lifecycle: nat)
    requires IsCleanup(close, lifecycle) && m.act <= m.top <= lifecycle
    requires close != [] && Closes(close[0]) ==> lifecycle == m.act && !m.closed && !m.lost && m.act > 0
    ensures AllAllowed(m, close)
    ensures var m1 := ObserveAll(m, close); m1.act == m.act && m1.act <= m1.top <= lifecycle
  {
    if |close| == 1 {
      Observe1(m, close[0]);
      assert close == [close[0]];
    } else if |close| == 2 {
      assert close == [close[0]] + [close[1]];
      Observe1(m, close[0]);
      Observe1(Observe(m, close[0]), close[1]);
      ObserveConcat(m, [close[0]], [close[1]]);
    }
  }

  /** Abandon, answer the pending sends, then clean up: every path out of a connection. */
  lemma TeardownOk(m: Mon, e: Entry, next: nat, acks: seq<Action>, close: seq<Action>, f: Entry)
    requires Agrees(m, e) && e.lifecycle < next
    requires forall k :: 0 <= k < |acks| ==> acks[k].AckSend? && acks[k].device == e.device
    requires IsCleanup(close, e.lifecycle) && OnlyFor(close, e.device)
    requires close != [] && Closes(close[0]) ==> Live(e.phase)
    requires f.device == e.device && f.lifecycle == next && f.upgradeGen == 0
    requires !Live(f.phase) && !f.phase.Handshaking? && GenOk(f) && AttemptOk(f.phase)
    ensures Disciplined(m, e, next, Eff(f, next + 1, Abandon(e, next).actions + acks + close))
  {
    var a := Abandon(e, next);
    AbandonOk(m, e, next);
    var m1 := ObserveAll(m, a.actions);
    ObserveConcat(m, a.actions, acks);
    ObserveOffLane(m1, acks);
    ObserveConcat(m, a.actions + acks, close);
    CleanupOk(m1, close, e.lifecycle);
  }

  // ---------- every handler is disciplined ----------

  /** A step that emits nothing and keeps device and lifecycle. */
  lemma SilentOk(m: Mon, e: Entry, f: Entry, next: nat)
    requires Agrees(m, f) && f.lifecycle == e.lifecycle < next && f.device == e.device
    ensures Disciplined(m, e, next, Pure(f, next))
  {
  }

  lemma NoteAgrees(m: Mon, e: Entry, c: CharUuid, prefix: Option<KeyPrefix>, known: Option<EndpointId>)
    requires Agrees(m, e)
    ensures Agrees(m, NoteSubscription(e, c, prefix, known))
  {
  }

  /** Discipline depends only on the device and lifecycle of the entry a step starts from. */
  lemma SameStart(m: Mon, e: Entry, f: Entry, next: nat, r: Eff)
    requires Disciplined(m, f, next, r) && f.lifecycle == e.lifecycle && f.device == e.device
    ensures Disciplined(m, e, next, r)
  {
  }

  lemma SubscribedOk(m: Mon, e: Entry, next: nat, now: int, c: CharUuid, prefix: Option<KeyPrefix>, known: Option<EndpointId>)
    requires Agrees(m, e) && e.lifecycle < next
    ensures Disciplined(m, e, next, OnSubscribed(e, next, now, c, prefix, known))
  {
    var e1 := NoteSubscription(e, c, prefix, known);
    NoteAgrees(m, e, c, prefix, known);
    SilentOk(m, e, e1, next);
    RestartOk(m, e1, next, now, Some(c));
    SameStart(m, e, e1, next, RestartPeripheral(e1, next, now, Some(c)));
  }

  /** Retire the lifecycle, then start a pipe under the fresh one; `f` is the entry in between. */
  lemma AbandonThenPipe(m: Mon, e: Entry, next: nat, f: Entry, now: int, channel: ChannelHandle, path: ConnectPath)
    requires m.act <= m.top <= e.lifecycle < next
    requires f.device == e.device && f.lifecycle == next && f.upgradeGen == 0 && f.pipe.None?
    ensures var a, s := Abandon(e, next), StartPipe(f, next + 1, now, channel, path);
            Disciplined(m, e, next, s.(actions := a.actions + s.actions))
  {
    var a, s := Abandon(e, next), StartPipe(f, next + 1, now, channel, path);
    AbandonOk(m, e, next);
    PipeFromAbandoned(ObserveAll(m, a.actions), f, next + 1, now, channel, path);
    ObserveConcat(m, a.actions, s.actions);
  }

  lemma RestartOk(m: Mon, e: Entry, next: nat, now: int, c: Option<CharUuid>)
    requires Agrees(m, e) && e.lifecycle < next
    ensures Disciplined(m, e, next, RestartPeripheral(e, next, now, c))
  {
    var e0 := e.(pipe := None);
    var f := Abandon(e0, next).entry.(role := Peripheral, chars := if c.Some? then {c.value} else {});
    AbandonThenPipe(m, e0, next, f, now, ChannelHandle(f.txGen + 1, Gatt), Gatt);
  }

  /** A pipe may be started from an unbound entry whatever its old phase was. */
  lemma PipeFromAbandoned(m: Mon, e: Entry, next: nat, now: int, channel: ChannelHandle, path: ConnectPath)
    requires Unbound(m, e) && (e.pipe.Some? ==> e.pipe.value <= e.txGen)
    ensures var s := StartPipe(e, next, now, channel, path);
            && AllAllowed(m, s.actions) && Agrees(ObserveAll(m, s.actions), s.entry) && OnlyFor(s.actions, e.device)
  {
    Observe1(m, StartPipe(e, next, now, channel, path).actions[0]);
  }

  lemma DrainOk(m: Mon, e: Entry, next: nat, now: int, reason: Reason)
    requires Agrees(m, e) && e.lifecycle < next
    ensures Disciplined(m, e, next, DrainToDraining(e, next, now, reason))
  {
    var d := DrainToDraining(e, next, now, reason);
    TeardownOk(m, e, next, AckAll(e, BrokenPipe), [], d.entry);
    assert d.actions + [] == d.actions;
  }

  lemma UnsubscribedOk(m: Mon, e: Entry, next: nat, now: int, c: CharUuid)
    requires Agrees(m, e) && e.lifecycle < next
    ensures Disciplined(m, e, next, OnUnsubscribed(e, next, now, c))
  {
    DrainOk(m, e.(chars := e.chars - {c}), next, now, ByRemoteClose);
  }

  lemma AdvertisedOk(m: Mon, e: Entry, next: nat, now: int, prefix: KeyPrefix, defer: Option<(KeyPrefix, int)>)
    requires Agrees(m, e) && e.lifecycle < next
    ensures Disciplined(m, e, next, OnAdvertised(e, next, now, prefix, defer))
  {
    var e1 := e.(prefix := Some(prefix));
    assert Agrees(m, e1);
    SilentOk(m, e, e1, next);
    if e1.phase.Unknown? || e1.phase.Discovered? {
      AdvertisedArms(m, e, e1, next, now, defer);
    } else if e1.phase.Dead? {
      AdvertisedRevives(m, e, e1, next, now, defer);
    } else if e1.phase.Reconnecting? {
      BeginConnectOk(m, e1, next, now, e1.phase.attempt);
      SameStart(m, e, e1, next, BeginConnect(e1, next, now, e1.phase.attempt));
    }
  }

  lemma AdvertisedArms(m: Mon, e: Entry, f: Entry, next: nat, now: int, defer: Option<(KeyPrefix, int)>)
    requires Agrees(m, f) && !Live(f.phase) && f.lifecycle == e.lifecycle < next && f.device == e.device
    ensures Disciplined(m, e, next, ArmForDial(f, next, now, defer))
  {
    ArmForDialOk(m, f, next, now, defer);
    SameStart(m, e, f, next, ArmForDial(f, next, now, defer));
  }

  lemma AdvertisedRevives(m: Mon, e: Entry, f: Entry, next: nat, now: int, defer: Option<(KeyPrefix, int)>)
    requires Agrees(m, f) && f.lifecycle == e.lifecycle < next && f.device == e.device
    ensures var c := ClearConnection(f, next);
            var a := ArmForDial(c.entry, c.next, now, defer);
            Disciplined(m, e, next, a.(actions := c.actions + a.actions))
  {
    var c := ClearConnection(f, next);
    var a := ArmForDial(c.entry, c.next, now, defer);
    ResumeOk(m, f, next, now, defer);
    SameStart(m, e, f, next, a.(actions := c.actions + a.actions));
  }

  ghost predicate OffLane(acts: seq<Action>, d: DeviceId) {
    forall k :: 0 <= k < |acts| ==> !OnLane(acts[k]) && acts[k].device == d
  }

  /** A datagram changes queues and the target only. */
  lemma SendIsQuiet(e: Entry, next: nat, now: int, target: Option<EndpointId>, send: Outgoing, q: Queue)
    requires !e.phase.Discovered?
    ensures var r := OnSend(e, next, now, target, send, q);
            && OffLane(r.actions, e.device) && r.next == next
            && r.entry == e.(pending := r.entry.pending, pipe := r.entry.pipe, target := r.entry.target)
            && (r.entry.pipe.None? || r.entry.pipe == e.pipe)
  {
  }

  lemma QuietOk(m: Mon, e: Entry, next: nat, r: Eff)
    requires Agrees(m, e) && e.lifecycle < next && r.next == next && OffLane(r.actions, e.device)
    requires r.entry == e.(pending := r.entry.pending, pipe := r.entry.pipe, target := r.entry.target)
    requires GenOk(r.entry)
    ensures Disciplined(m, e, next, r)
  {
    ObserveOffLane(m, r.actions);
  }

  lemma SendOk(m: Mon, e: Entry, next: nat, now: int, target: Option<EndpointId>, send: Outgoing, q: Queue)
    requires Agrees(m, e) && e.lifecycle < next
    ensures Disciplined(m, e, next, OnSend(e, next, now, target, send, q))
  {
    if e.phase.Discovered? {
      BeginConnectOk(m, e.(target := if target.Some? then target else e.target, pending := e.pending + [send]), next, now, 0);
    } else {
      SendIsQuiet(e, next, now, target, send, q);
      QuietOk(m, e, next, OnSend(e, next, now, target, send, q));
    }
  }

  lemma ConnectSucceededOk(m: Mon, e: Entry, next: nat, now: int, lifecycle: nat, channel: nat, upgrade: bool)
    requires Agrees(m, e) && e.lifecycle < next
    ensures Disciplined(m, e, next, OnConnectSucceeded(e, next, now, lifecycle, channel, upgrade))
  {
    if e.lifecycle == lifecycle && e.phase.Connecting? {
      var e1 := e.(failures := 0, chars := {});
      var s := StartPipe(e1, next, now, ChannelHandle(channel, Gatt), Gatt);
      var v := ReadVersion(e.device, lifecycle);
      Observe1(m, v);
      StartPipeOk(m, e1, next, now, ChannelHandle(channel, Gatt), Gatt);
      ObserveConcat(m, [v], s.actions);
      if upgrade && !e.upgradeFailed {
        var m2 := ObserveAll(m, s.actions);
        var u := UpgradeToL2cap(e.device, e.lifecycle, 1);
        Observe1(m2, u);
        ObserveConcat(m, [v] + s.actions, [u]);
      } else {
        assert [v] + s.actions + [] == [v] + s.actions;
      }
    }
  }

  lemma ConnectFailedOk(m: Mon, e: Entry, next: nat, now: int, lifecycle: nat)
    requires Agrees(m, e) && e.lifecycle < next
    ensures Disciplined(m, e, next, OnConnectFailed(e, next, now, lifecycle))
  {
    if e.lifecycle == lifecycle && e.phase.Connecting? {
      var c := CloseNativeConnection(e.device, lifecycle);
      Observe1(m, c);
      AbandonOk(Observe(m, c), e, next);
      ObserveConcat(m, [c], Abandon(e, next).actions);
    }
  }

  lemma TakeoverOk(m: Mon, e: Entry, next: nat, now: int, role: ConnectRole)
    requires Agrees(m, e) && e.lifecycle < next
    ensures var a := Abandon(e, next);
            var s := StartPipe(a.entry.(pipe := None, role := role), a.next, now, ChannelHandle(0, Gatt), Gatt);
            Disciplined(m, e, next, s.(actions := a.actions + s.actions))
  {
    AbandonThenPipe(m, e, next, Abandon(e, next).entry.(pipe := None, role := role), now, ChannelHandle(0, Gatt), Gatt);
  }

  lemma KeepDialOk(m: Mon, e: Entry, next: nat, now: int, role: ConnectRole)
    requires Agrees(m, e) && e.lifecycle < next && e.phase.Connecting?
    ensures var s := StartPipe(e.(pipe := None, role := role), next, now, ChannelHandle(0, Gatt), Gatt);
            Disciplined(m, e, next, s.(actions := [] + s.actions))
  {
    var e1 := e.(pipe := None, role := role);
    StartPipeOk(m, e1, next, now, ChannelHandle(0, Gatt), Gatt);
    var s := StartPipe(e1, next, now, ChannelHandle(0, Gatt), Gatt);
    assert [] + s.actions == s.actions;
  }

  lemma InboundGattOk(m: Mon, e: Entry, next: nat, now: int, source: FragmentSource)
    requires Agrees(m, e) && e.lifecycle < next
    ensures Disciplined(m, e, next, OnInboundGatt(e, next, now, source))
  {
    if e.phase.Connected? {
      RestartOk(m, e, next, now, None);
    } else if !e.phase.Restoring? {
      var role := if source == CentralReceivedP2c then Central else Peripheral;
      if e.phase.Connecting? && role == Central {
        KeepDialOk(m, e, next, now, role);
      } else {
        TakeoverOk(m, e, next, now, role);
      }
    }
  }

  lemma DialLostOk(m: Mon, e: Entry, next: nat, now: int, reason: Reason)
    requires Agrees(m, e) && e.lifecycle < next && e.phase.Connecting?
    ensures Disciplined(m, e, next, OnCentralDisconnected(e, next, now, reason))
  {
    var r := OnCentralDisconnected(e, next, now, reason);
    var refresh := if reason == ByGatt133 then [Refresh(e.device, e.lifecycle)] else [];
    TeardownOk(m, e, next, [], refresh, r.entry);
    assert Abandon(e, next).actions + [] == Abandon(e, next).actions;
  }

  lemma LinkLostOk(m: Mon, e: Entry, next: nat, now: int, reason: Reason)
    requires Agrees(m, e) && e.lifecycle < next
    ensures var refresh := if reason == ByGatt133 then [Refresh(e.device, e.lifecycle)] else [];
            Disciplined(m, e, next, DrainToDraining(e, next, now, reason).Push(CloseOf(e, e.lifecycle, reason) + refresh))
  {
    var refresh := if reason == ByGatt133 then [Refresh(e.device, e.lifecycle)] else [];
    TeardownOk(m, e, next, AckAll(e, BrokenPipe), CloseOf(e, e.lifecycle, reason) + refresh,
               DrainToDraining(e, next, now, reason).entry);
  }

  lemma CentralDisconnectedOk(m: Mon, e: Entry, next: nat, now: int, reason: Reason)
    requires Agrees(m, e) && e.lifecycle < next
    ensures Disciplined(m, e, next, OnCentralDisconnected(e, next, now, reason))
  {
    if e.resumeAfterDrain && e.phase.Draining? {
      ResumeOk(m, e, next, now, None);
    } else if e.phase.Connecting? {
      DialLostOk(m, e, next, now, reason);
    } else {
      LinkLostOk(m, e, next, now, reason);
    }
  }

  lemma AdapterOk(m: Mon, e: Entry, next: nat, now: int, powered: bool)
    requires Agrees(m, e) && e.lifecycle < next
    ensures Disciplined(m, e, next, OnAdapter(e, next, now, powered))
  {
    if !powered {
      var r := OnAdapter(e, next, now, powered);
      TeardownOk(m, e, next, [], [], r.entry);
      assert r.actions + [] + [] == r.actions;
    }
  }

  lemma WedgedOk(m: Mon, e: Entry, next: nat, now: int, channel: ChannelHandle)
    requires Agrees(m, e) && e.lifecycle < next && e.phase.Connected?
    ensures Disciplined(m, e, next, DrainToDraining(e, next, now, ByLinkDead)
                                    .Push([CloseChannel(e.device, e.lifecycle, channel, ByLinkDead)]))
  {
    var d := DrainToDraining(e, next, now, ByLinkDead);
    TeardownOk(m, e, next, AckAll(e, BrokenPipe), [CloseChannel(e.device, e.lifecycle, channel, ByLinkDead)], d.entry);
  }

  lemma GiveUpOk(m: Mon, e: Entry, next: nat, now: int)
    requires Agrees(m, e) && e.lifecycle < next && !Live(e.phase)
    ensures Disciplined(m, e, next, Pure(e.(target := None, phase := Dead(Drained, now)), next))
  {
    SilentOk(m, e, e.(target := None, phase := Dead(Drained, now)), next);
  }

  lemma TickOk(m: Mon, e: Entry, next: nat, now: int, lastRx: int)
    requires Agrees(m, e) && e.lifecycle < next
    ensures Disciplined(m, e, next, OnTick(e, next, now, lastRx))
  {
    SilentOk(m, e, e, next);
    match e.phase
    case Reconnecting(attempt, _, _) => BeginConnectOk(m, e, next, now, attempt);
    case PendingDial(_, _, _) => BeginConnectOk(m, e, next, now, 0);
    case Draining(_, _) =>
      ResumeOk(m, e, next, now, None);
      GiveUpOk(m, e, next, now);
    case Restoring(_) => GiveUpOk(m, e, next, now);
    case Connected(_, channel, _, _) => WedgedOk(m, e, next, now, channel);
    case _ =>
  }

  lemma ForgetOk(m: Mon, e: Entry, next: nat, now: int)
    requires Agrees(m, e) && e.lifecycle < next
    ensures Disciplined(m, e, next, OnForget(e, next, now))
  {
    TeardownOk(m, e, next, AckAll(e, Aborted), CloseOf(e, e.lifecycle, ByLocalClose), OnForget(e, next, now).entry);
  }

  lemma StalledOk(m: Mon, e: Entry, next: nat, now: int, cause: StallCause)
    requires Agrees(m, e) && e.lifecycle < next
    ensures Disciplined(m, e, next, OnStalled(e, next, now, cause))
  {
    if e.phase.Connected? {
      var reason := if cause == LinkDead then ByLinkDead else ByLocalClose;
      TeardownOk(m, e, next, AckAll(e, BrokenPipe), CloseOf(e, e.lifecycle, reason), OnStalled(e, next, now, cause).entry);
    }
  }

  lemma PipeReadyOk(m: Mon, e: Entry, next: nat, txGen: nat, q: Queue)
    requires Agrees(m, e) && e.lifecycle < next
    ensures Disciplined(m, e, next, OnPipeReady(e, next, txGen, q))
  {
    ObserveOffLane(m, OnPipeReady(e, next, txGen, q).actions);
  }

  lemma L2capOpenedOk(m: Mon, e: Entry, next: nat, now: int, lifecycle: nat, upgradeGen: nat)
    requires Agrees(m, e) && e.lifecycle < next
    ensures Disciplined(m, e, next, OnL2capOpened(e, next, now, lifecycle, upgradeGen))
  {
    ObserveOffLane(m, OnL2capOpened(e, next, now, lifecycle, upgradeGen).actions);
  }

  lemma L2capFailedOk(m: Mon, e: Entry, next: nat, now: int, lifecycle: nat, upgradeGen: nat)
    requires Agrees(m, e) && e.lifecycle < next
    ensures Disciplined(m, e, next, OnL2capFailed(e, next, now, lifecycle, upgradeGen))
  {
  }

  lemma HandoverOk(m: Mon, e: Entry, next: nat)
    requires Agrees(m, e) && e.lifecycle < next
    ensures Disciplined(m, e, next, OnHandoverTimeout(e, next))
  {
  }

  lemma InboundL2capOk(m: Mon, e: Entry, next: nat, now: int)
    requires Agrees(m, e) && e.lifecycle < next
    ensures Disciplined(m, e, next, OnInboundL2cap(e, next, now))
  {
    if e.pipe.Some? {
      ObserveOffLane(m, OnInboundL2cap(e, next, now).actions);
    } else {
      var a := Abandon(e, next);
      AbandonOk(m, e, next);
      PipeFromAbandoned(ObserveAll(m, a.actions), a.entry, a.next, now, ChannelHandle(0, L2cap), L2cap);
      ObserveConcat(m, a.actions, StartPipe(a.entry, a.next, now, ChannelHandle(0, L2cap), L2cap).actions);
    }
  }

  lemma VersionMismatchOk(m: Mon, e: Entry, next: nat, now: int, lifecycle: nat)
    requires Agrees(m, e) && e.lifecycle < next
    ensures Disciplined(m, e, next, OnVersionMismatch(e, next, now, lifecycle))
  {
    if e.lifecycle == lifecycle {
      TeardownOk(m, e, next, AckAll(e, BrokenPipe), CloseOf(e, e.lifecycle, ByProtocolMismatch),
                 OnVersionMismatch(e, next, now, lifecycle).entry);
    }
  }

  lemma UpgradeDisciplined(m: Mon, e: Entry, next: nat)
    requires Agrees(m, e) && e.lifecycle < next
    requires e.phase.Connected? && !e.phase.upgrading && e.phase.channel.path == Gatt && !e.upgradeFailed
    ensures Disciplined(m, e, next, Upgrade(e, next))
  {
    Observe1(m, UpgradeToL2cap(e.device, e.lifecycle, e.upgradeGen + 1));
  }

  lemma InboundNewOk(m: Mon, device: DeviceId, next: nat, now: int, path: ConnectPath)
    requires 0 < next && m.act <= m.top < next
    ensures var r := InboundNew(device, next, now, path);
            && r.next == next + 1 && r.entry.lifecycle == next && r.entry.device == device
            && OnlyFor(r.actions, device) && AllAllowed(m, r.actions) && Agrees(ObserveAll(m, r.actions), r.entry)
  {
    PipeFromAbandoned(m, NewEntry(device, next).(role := Peripheral), next + 1, now, ChannelHandle(0, path), path);
  }
}
