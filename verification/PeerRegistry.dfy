/**
 The registry as the object the actor owns: each handler changes the entry of its
 device step by step, and the loops walk the peer map in the order `order`.
 */
module PeerRegistries {
  import opened Wire
  import opened Identity
  import opened Dedup
  import opened Peers
  import opened Spec = RegistrySpec

  class PeerRegistry {
    var peers: map<DeviceId, Entry>
    var nextLifecycle: nat
    var verified: map<KeyPrefix, EndpointId>
    const preferL2cap: bool
    const me: EndpointId

    ghost function View(): Registry
      reads this
    {
      Registry(peers, nextLifecycle, preferL2cap, verified, me)
    }

    constructor (prefer: bool, self: EndpointId)
      ensures View() == NewRegistry(prefer, self)
    {
      peers, nextLifecycle, verified := map[], 1, map[];
      preferL2cap, me := prefer, self;
    }

    /** Since `before`, device `d` went through the step `r`, and `actions` are what it pushed. */
    ghost predicate Took(before: Registry, d: DeviceId, r: Eff, actions: seq<Action>)
      reads this
    {
      Out(View(), actions) == Apply(before, d, r)
    }

    // ---------- building blocks on one peer ----------

    method AbandonOutstanding(d: DeviceId) returns (actions: seq<Action>)
      requires d in peers
      modifies this
      ensures Took(old(View()), d, Abandon(old(peers)[d], old(nextLifecycle)), actions)
    {
      var e := peers[d];
      actions := [RetireLifecycle(e.device, e.lifecycle)];
      e := e.(lifecycle := nextLifecycle);
      nextLifecycle := nextLifecycle + 1;
      e := e.(upgradeGen := 0);
      peers := peers[d := e];
    }

    method BeginDial(d: DeviceId, now: int, attempt: nat) returns (actions: seq<Action>)
      requires d in peers
      modifies this
      ensures Took(old(View()), d, BeginConnect(old(peers)[d], old(nextLifecycle), now, attempt), actions)
    {
      actions := AbandonOutstanding(d);
      var e := peers[d];
      peers := peers[d := e.(phase := Connecting(attempt, now))];
      actions := actions + [StartConnect(e.device, attempt, e.lifecycle)];
    }

    method ClearConnectionState(d: DeviceId) returns (actions: seq<Action>)
      requires d in peers
      modifies this
      ensures Took(old(View()), d, ClearConnection(old(peers)[d], old(nextLifecycle)), actions)
    {
      actions := AbandonOutstanding(d);
      var e := peers[d];
      e := e.(failures := 0, pipe := None);
      e := e.(upgradeFailed := false, chars := {}, resumeAfterDrain := false);
      peers := peers[d := e];
    }

    method Arm(d: DeviceId, now: int, defer: Option<(KeyPrefix, int)>) returns (actions: seq<Action>)
      requires d in peers
      modifies this
      ensures Took(old(View()), d, ArmForDial(old(peers)[d], old(nextLifecycle), now, defer), actions)
    {
      var e := peers[d];
      actions := [];
      if e.pending == [] {
        peers := peers[d := e.(phase := Discovered(now))];
      } else if defer.Some? {
        peers := peers[d := e.(phase := PendingDial(now, defer.value.1, defer.value.0))];
      } else {
        actions := BeginDial(d, now, 0);
      }
    }

    /** Clears the entry and makes it dial again if something waits. */
    method ClearAndArm(d: DeviceId, now: int, defer: Option<(KeyPrefix, int)>) returns (actions: seq<Action>)
      requires d in peers
      modifies this
      ensures var c := ClearConnection(old(peers)[d], old(nextLifecycle));
              var a := ArmForDial(c.entry, c.next, now, defer);
              Took(old(View()), d, a.(actions := c.actions + a.actions), actions)
    {
      actions := ClearConnectionState(d);
      var more := Arm(d, now, defer);
      actions := actions + more;
    }

    /** Acknowledges every waiting datagram with `result`. */
    method AckPending(d: DeviceId, result: Ack) returns (actions: seq<Action>)
      requires d in peers
      ensures actions == AckAll(peers[d], result)
    {
      var e := peers[d];
      actions := [];
      for i := 0 to |e.pending|
        invariant |actions| == i
        invariant forall k :: 0 <= k < i ==> actions[k] == AckSend(e.device, e.pending[k], result)
      {
        actions := actions + [AckSend(e.device, e.pending[i], result)];
      }
    }

    method Drain(d: DeviceId, now: int, reason: Reason) returns (actions: seq<Action>)
      requires d in peers
      modifies this
      ensures Took(old(View()), d, DrainToDraining(old(peers)[d], old(nextLifecycle), now, reason), actions)
    {
      var acks := AckPending(d, BrokenPipe);
      actions := AbandonOutstanding(d);
      var e := peers[d];
      e := e.(pipe := None, resumeAfterDrain := false, upgradeFailed := false);
      e := e.(pending := [], phase := Draining(now, reason));
      peers := peers[d := e];
      actions := actions + acks;
    }

    /** Enters `Connected` with the next generation and starts its pipe. */
    method OpenPipe(d: DeviceId, now: int, channel: ChannelHandle, path: ConnectPath) returns (actions: seq<Action>)
      requires d in peers
      modifies this
      ensures Took(old(View()), d, StartPipe(old(peers)[d], old(nextLifecycle), now, channel, path), actions)
    {
      var e := peers[d];
      e := e.(txGen := e.txGen + 1);
      e := e.(phase := Connected(now, channel, e.txGen, false));
      peers := peers[d := e];
      actions := [StartDataPipe(e.device, e.lifecycle, e.txGen, e.role, e.target, path)];
    }

    method RestartPeripheralPipe(d: DeviceId, now: int, char_: Option<CharUuid>) returns (actions: seq<Action>)
      requires d in peers
      modifies this
      ensures Took(old(View()), d, RestartPeripheral(old(peers)[d], old(nextLifecycle), now, char_), actions)
    {
      peers := peers[d := peers[d].(pipe := None)];
      actions := AbandonOutstanding(d);
      var e := peers[d];
      e := e.(role := Peripheral);
      e := e.(chars := if char_.Some? then {char_.value} else {});
      peers := peers[d := e];
      var more := OpenPipe(d, now, ChannelHandle(e.txGen + 1, Gatt), Gatt);
      actions := actions + more;
    }

    method AskUpgrade(d: DeviceId) returns (actions: seq<Action>)
      requires d in peers && peers[d].phase.Connected?
      modifies this
      ensures old(peers)[d].phase.Connected?
      ensures Took(old(View()), d, Upgrade(old(peers)[d], old(nextLifecycle)), actions)
    {
      var e := peers[d];
      e := e.(phase := e.phase.(upgrading := true));
      e := e.(upgradeGen := e.upgradeGen + 1);
      peers := peers[d := e];
      actions := [UpgradeToL2cap(e.device, e.lifecycle, e.upgradeGen)];
    }

    /** Moves waiting datagrams into the pipe until it is full. */
    method Flush(d: DeviceId, pipe: nat, q: Queue) returns (actions: seq<Action>)
      requires d in peers
      modifies this`peers
      ensures var (e, moved) := FlushPending(old(peers)[d], pipe, q); peers == old(peers)[d := e] && actions == moved
    {
      ghost var was := peers[d];
      var e, room := peers[d], if q.closed then 0 else q.free;
      actions := [];
      while room > 0 && e.pending != []
        invariant 0 <= room && room + |actions| == if q.closed then 0 else q.free
        invariant |actions| <= |was.pending| && e == was.(pending := was.pending[|actions|..])
        invariant forall k :: 0 <= k < |actions| ==> actions[k] == PipeSend(was.device, pipe, was.pending[k])
        decreases room
      {
        actions := actions + [PipeSend(e.device, pipe, e.pending[0])];
        e := e.(pending := e.pending[1..]);
        room := room - 1;
      }
      ghost var n := if q.closed then 0 else Min(q.free, |was.pending|);
      assert |actions| == n;
      assert actions == FlushPending(was, pipe, q).1;
      peers := peers[d := e];
    }

    method EnsurePeer(d: DeviceId)
      modifies this
      ensures View() == Ensure(old(View()), d)
    {
      if d !in peers {
        peers := peers[d := NewEntry(d, nextLifecycle)];
        nextLifecycle := nextLifecycle + 1;
      }
    }

    /** Forgets verified prefixes that no living entry carries any more. */
    method PruneVerified()
      modifies this`verified
      ensures View() == Prune(old(View()))
    {
      var left := verified.Keys;
      var kept: map<KeyPrefix, EndpointId> := map[];
      while left != {}
        invariant left <= verified.Keys && verified == old(verified)
        invariant kept == map p | p in verified && p !in left && KeepsVerified(peers, verified[p]) :: verified[p]
      {
        var p :| p in left;
        left := left - {p};
        var keep := IsCarried(verified[p]);
        if keep {
          kept := kept[p := verified[p]];
        }
      }
      assert kept == Prune(View()).verified;
      verified := kept;
    }

    method IsCarried(ep: EndpointId) returns (found: bool)
      ensures found == KeepsVerified(peers, ep)
    {
      var left := peers.Keys;
      found := false;
      while left != {} && !found
        invariant left <= peers.Keys
        invariant found ==> KeepsVerified(peers, ep)
        invariant !found ==> forall d :: d in peers && d !in left ==> !(peers[d].verified == Some(ep) && !peers[d].phase.Dead?)
        decreases |left|
      {
        var d :| d in left;
        left := left - {d};
        if peers[d].verified == Some(ep) && !peers[d].phase.Dead? {
          found := true;
        }
      }
    }

    /** Whether some entry was verified under the prefix; with `connected`, one that is connected. */
    method FindVerified(prefix: KeyPrefix, connected: bool) returns (found: bool)
      ensures found <==> exists d :: d in peers && VerifiedAs(peers[d], prefix) && (connected ==> peers[d].phase.Connected?)
    {
      var left := peers.Keys;
      found := false;
      while left != {} && !found
        invariant left <= peers.Keys
        invariant found ==> exists d :: d in peers && VerifiedAs(peers[d], prefix) && (connected ==> peers[d].phase.Connected?)
        invariant !found ==> forall d :: d in peers && d !in left ==> !(VerifiedAs(peers[d], prefix) && (connected ==> peers[d].phase.Connected?))
        decreases |left|
      {
        var d :| d in left;
        left := left - {d};
        if VerifiedAs(peers[d], prefix) && (connected ==> peers[d].phase.Connected?) {
          found := true;
        }
      }
    }

    /** How many connected entries carry the prefix. */
    method CountConnected(prefix: KeyPrefix) returns (n: nat)
      ensures n == ConnectedCount(peers, prefix)
    {
      n := 0;
      var left := peers.Keys;
      ghost var counted: set<DeviceId> := {};
      while left != {}
        invariant left <= peers.Keys && n == |counted|
        invariant counted == set d | d in peers && d !in left && ConnectedAs(peers[d], prefix)
      {
        var d :| d in left;
        left := left - {d};
        if ConnectedAs(peers[d], prefix) {
          n := n + 1;
          counted := counted + {d};
        }
      }
      assert counted == set d | d in peers && ConnectedAs(peers[d], prefix);
    }

    /** Prunes if device `d` has just died. */
    method PruneIfDied(d: DeviceId, wasDead: bool)
      modifies this`verified
      ensures View() == if DeadAt(old(View()), d) && !wasDead then Prune(old(View())) else old(View())
    {
      if d in peers && peers[d].phase.Dead? && !wasDead {
        PruneVerified();
      }
    }

    // ---------- handlers for one device ----------

    method StampSubscription(d: DeviceId, char_: CharUuid, prefix: Option<KeyPrefix>, known: Option<EndpointId>)
      requires d in peers
      modifies this`peers
      ensures peers == old(peers)[d := NoteSubscription(old(peers)[d], char_, prefix, known)]
    {
      var e := peers[d];
      if prefix.Some? {
        e := e.(prefix := prefix);
      }
      if e.verified.None? {
        e := e.(verified := known);
      }
      peers := peers[d := e.(chars := e.chars + {char_})];
    }

    method SubscribeEntry(d: DeviceId, now: int, char_: CharUuid, prefix: Option<KeyPrefix>, known: Option<EndpointId>)
      returns (actions: seq<Action>)
      requires d in peers
      modifies this
      ensures Took(old(View()), d, OnSubscribed(old(peers)[d], old(nextLifecycle), now, char_, prefix, known), actions)
    {
      StampSubscription(d, char_, prefix, known);
      var e := peers[d];
      if (e.phase.Connected? && e.role == Peripheral && e.phase.channel.path == Gatt) || e.phase.Connecting? || e.phase.Handshaking? {
        actions := [];
      } else {
        actions := RestartPeripheralPipe(d, now, Some(char_));
      }
    }

    method SubscribeKnown(d: DeviceId, now: int, char_: CharUuid, prefix: Option<KeyPrefix>, known: Option<EndpointId>)
      returns (actions: seq<Action>)
      requires d in peers
      modifies this
      ensures Out(View(), actions) == WithPeer(old(View()), d, Subscribe(now, char_, prefix, known))
    {
      actions := SubscribeEntry(d, now, char_, prefix, known);
    }

    method PeripheralSubscribed(d: DeviceId, now: int, char_: CharUuid, prefix: Option<KeyPrefix>) returns (actions: seq<Action>)
      modifies this
      ensures var known := if prefix.Some? && prefix.value in old(verified) then Some(old(verified)[prefix.value]) else None;
              Out(View(), actions) == WithPeer(Ensure(old(View()), d), d, Subscribe(now, char_, prefix, known))
    {
      var known := if prefix.Some? && prefix.value in verified then Some(verified[prefix.value]) else None;
      EnsurePeer(d);
      actions := SubscribeKnown(d, now, char_, prefix, known);
    }

    method UnsubscribeEntry(d: DeviceId, now: int, char_: CharUuid) returns (actions: seq<Action>)
      requires d in peers
      modifies this
      ensures Took(old(View()), d, OnUnsubscribed(old(peers)[d], old(nextLifecycle), now, char_), actions)
    {
      var e := peers[d];
      e := e.(chars := e.chars - {char_});
      peers := peers[d := e];
      actions := [];
      if e.role == Peripheral && HasChannel(e.phase) && e.chars == {} {
        actions := Drain(d, now, ByRemoteClose);
      }
    }

    method PeripheralUnsubscribed(d: DeviceId, now: int, char_: CharUuid) returns (actions: seq<Action>)
      modifies this
      ensures var o := WithPeer(old(View()), d, Unsubscribe(now, char_)); Out(View(), actions) == PruneIf(o.actions != [], o)
    {
      actions := [];
      if d in peers {
        actions := UnsubscribeEntry(d, now, char_);
        if actions != [] {
          PruneVerified();
        }
      }
    }

    /** The entry's part of an advertisement. */
    method ArmAdvertised(d: DeviceId, now: int, prefix: KeyPrefix, defer: Option<(KeyPrefix, int)>) returns (actions: seq<Action>)
      requires d in peers
      modifies this
      ensures Took(old(View()), d, OnAdvertised(old(peers)[d], old(nextLifecycle), now, prefix, defer), actions)
    {
      var e := peers[d].(prefix := Some(prefix));
      peers := peers[d := e];
      actions := [];
      match e.phase {
        case Unknown => actions := Arm(d, now, defer);
        case Discovered(_) =>
          if e.pending != [] {
            actions := Arm(d, now, defer);
          }
        case Dead(why, _) =>
          if why == MaxRetries || why == Drained {
            actions := ClearAndArm(d, now, defer);
          }
        case Reconnecting(attempt, nextAt, _) =>
          if nextAt <= now {
            actions := BeginDial(d, now, attempt);
          }
        case _ =>
      }
    }

    method PeerAdvertised(prefix: KeyPrefix, d: DeviceId, fairnessEnd: int, now: int) returns (actions: seq<Action>)
      modifies this
      ensures Out(View(), actions) == HandleAdvertised(old(View()), now, prefix, d, fairnessEnd)
    {
      actions := [];
      var live := FindVerified(prefix, true);
      if live {
        if d in peers {
          peers := peers[d := peers[d].(prefix := Some(prefix))];
        }
      } else {
        var seen := FindVerified(prefix, false);
        var known := prefix in verified || seen;
        assert known == KnownAs(View(), prefix);
        var defer := if Less(PrefixOf(me), prefix) && !known then Some((prefix, fairnessEnd)) else None;
        var back := if d in peers && Resurrects(peers[d], prefix) then peers[d].verified else None;
        EnsurePeer(d);
        actions := ArmAdvertised(d, now, prefix, defer);
        if back.Some? {
          verified := verified[prefix := back.value];
        }
      }
    }

    /** A datagram for the live generation. */
    method SendLive(d: DeviceId, send: Outgoing, q: Queue) returns (actions: seq<Action>)
      requires d in peers
      modifies this
      ensures Took(old(View()), d, EnqueueLive(old(peers)[d], old(nextLifecycle), send, q), actions)
    {
      var e := peers[d];
      if e.pipe.None? {
        peers := peers[d := e.(pending := e.pending + [send])];
        actions := [];
      } else if q.closed {
        actions := if e.pending == [] then [AckSend(e.device, send, Accepted)] else [];
        e := e.(pipe := None);
        peers := peers[d := e.(pending := e.pending + [send])];
      } else {
        actions := Flush(d, e.pipe.value, q);
        if |actions| < q.free {
          actions := actions + [PipeSend(e.device, e.pipe.value, send), AckSend(e.device, send, Accepted)];
        } else {
          actions := actions + [AckSend(e.device, send, WouldBlock)];
        }
      }
    }

    method Send(d: DeviceId, now: int, target: Option<EndpointId>, send: Outgoing, q: Queue) returns (actions: seq<Action>)
      requires d in peers
      modifies this
      ensures Took(old(View()), d, OnSend(old(peers)[d], old(nextLifecycle), now, target, send, q), actions)
    {
      var e := peers[d];
      if e.phase.Connected? && send.txGen == e.phase.txGen {
        actions := SendLive(d, send, q);
      } else if e.phase.Discovered? || BuffersSend(e) {
        if target.Some? {
          e := e.(target := target);
        }
        e := e.(pending := e.pending + [send]);
        peers := peers[d := e];
        if e.phase.Discovered? {
          actions := BeginDial(d, now, 0);
        } else {
          actions := [AckSend(e.device, send, Accepted)];
        }
      } else {
        actions := [AckSend(e.device, send, WouldBlock)];
      }
    }

    /** Whether policy, identity and role call for an upgrade of a fresh connection of `d`. */
    method WantsUpgradeOnConnect(d: DeviceId) returns (upgrade: bool)
      requires d in peers
      ensures upgrade == UpgradeOnConnect(View(), peers[d])
    {
      upgrade := false;
      var prefix := peers[d].prefix;
      if preferL2cap && prefix.Some? && prefix.value in verified {
        var count := CountConnected(prefix.value);
        upgrade := ShouldEmitUpgrade(count + 1, peers[d].role, me, verified[prefix.value]);
      }
    }

    method DialSucceeded(d: DeviceId, now: int, lifecycle: nat, channel: nat) returns (actions: seq<Action>)
      modifies this
      ensures Out(View(), actions) == WithPeer(old(View()), d, Succeed(now, lifecycle, channel))
    {
      actions := [];
      if d !in peers {
        return;
      }
      var e := peers[d];
      if e.lifecycle != lifecycle || !e.phase.Connecting? {
        return;
      }
      var upgrade := WantsUpgradeOnConnect(d);
      peers := peers[d := e.(failures := 0, chars := {})];
      actions := [ReadVersion(e.device, lifecycle)];
      var started := OpenPipe(d, now, ChannelHandle(channel, Gatt), Gatt);
      actions := actions + started;
      if upgrade && !e.upgradeFailed {
        var asked := AskUpgrade(d);
        actions := actions + asked;
      }
    }

    /** Charges a failure: back off, or give up at the limit. */
    method ChargeFailure(d: DeviceId, now: int, attempt: nat, reason: Reason)
      requires d in peers
      modifies this`peers
      ensures peers == old(peers)[d := AfterFailure(old(peers)[d], now, attempt, reason)]
    {
      var e := peers[d];
      e := e.(failures := e.failures + 1);
      var next := attempt + 1;
      if next >= MAX_CONNECT_ATTEMPTS {
        e := e.(target := None, phase := Dead(MaxRetries, now));
      } else {
        e := e.(phase := Reconnecting(next, now + Backoff(next), reason));
      }
      peers := peers[d := e];
    }

    method FailEntry(d: DeviceId, now: int, lifecycle: nat) returns (actions: seq<Action>)
      requires d in peers
      modifies this
      ensures Took(old(View()), d, OnConnectFailed(old(peers)[d], old(nextLifecycle), now, lifecycle), actions)
    {
      var e := peers[d];
      actions := [];
      assert peers[d := e] == peers;
      if e.lifecycle == lifecycle && e.phase.Connecting? {
        actions := AbandonOutstanding(d);
        actions := [CloseNativeConnection(e.device, lifecycle)] + actions;
        ChargeFailure(d, now, e.phase.attempt, ByTimeout);
      }
    }

    method DialFailed(d: DeviceId, now: int, lifecycle: nat) returns (actions: seq<Action>)
      modifies this
      ensures var o := WithPeer(old(View()), d, Fail(now, lifecycle));
              Out(View(), actions) == PruneIf(DeadAt(o.reg, d) && !DeadAt(old(View()), d), o)
    {
      actions := [];
      if d in peers {
        var wasDead := peers[d].phase.Dead?;
        actions := FailEntry(d, now, lifecycle);
        PruneIfDied(d, wasDead);
      }
    }

    method GattFragment(d: DeviceId, now: int, source: FragmentSource) returns (actions: seq<Action>)
      requires d in peers
      modifies this
      ensures Took(old(View()), d, OnInboundGatt(old(peers)[d], old(nextLifecycle), now, source), actions)
    {
      var e := peers[d];
      actions := [];
      if e.phase.Handshaking? {
        actions := OpenPipe(d, now, e.phase.channel, Gatt);
      } else if e.phase.Connected? {
        if e.phase.channel.path == L2cap && e.role == Peripheral && e.pipe.None? && source == PeripheralReceivedC2p {
          actions := RestartPeripheralPipe(d, now, None);
        }
      } else if !e.phase.Restoring? {
        var role := if source == CentralReceivedP2c then Central else Peripheral;
        if !(e.phase.Connecting? && role == Central) {
          actions := AbandonOutstanding(d);
        }
        e := peers[d];
        e := e.(pipe := None);
        e := e.(role := role);
        peers := peers[d := e];
        var more := OpenPipe(d, now, ChannelHandle(0, Gatt), Gatt);
        actions := actions + more;
      }
    }

    method L2capChannel(d: DeviceId, now: int) returns (actions: seq<Action>)
      requires d in peers
      modifies this
      ensures Took(old(View()), d, OnInboundL2cap(old(peers)[d], old(nextLifecycle), now), actions)
    {
      var e := peers[d];
      actions := [];
      if e.pipe.Some? {
        if e.phase.Connected? && e.phase.channel.path == Gatt {
          e := e.(phase := e.phase.(channel := e.phase.channel.(path := L2cap), upgrading := false));
          peers := peers[d := e];
          actions := [SwapPipeToL2cap(e.device)];
        }
      } else {
        actions := AbandonOutstanding(d);
        var more := OpenPipe(d, now, ChannelHandle(0, L2cap), L2cap);
        actions := actions + more;
      }
    }

    /** First bytes from a device without an entry. */
    method Arrive(d: DeviceId, now: int, path: ConnectPath) returns (actions: seq<Action>)
      requires d !in peers
      modifies this
      ensures Took(old(View()), d, InboundNew(d, old(nextLifecycle), now, path), actions)
    {
      EnsurePeer(d);
      peers := peers[d := peers[d].(role := Peripheral)];
      actions := OpenPipe(d, now, ChannelHandle(0, path), path);
    }

    method LinkLost(d: DeviceId, now: int, reason: Reason) returns (actions: seq<Action>)
      requires d in peers
      modifies this
      ensures Took(old(View()), d, OnCentralDisconnected(old(peers)[d], old(nextLifecycle), now, reason), actions)
    {
      var e := peers[d];
      var refresh := if reason == ByGatt133 then [Refresh(e.device, e.lifecycle)] else [];
      if e.resumeAfterDrain && e.phase.Draining? {
        actions := ClearAndArm(d, now, None);
      } else if e.phase.Connecting? {
        actions := AbandonOutstanding(d);
        peers := peers[d := peers[d].(pending := [])];
        ChargeFailure(d, now, e.phase.attempt, reason);
        actions := actions + refresh;
      } else {
        actions := Drain(d, now, reason);
        if HasChannel(e.phase) {
          actions := actions + ([CloseChannel(e.device, e.lifecycle, e.phase.channel, reason)] + refresh);
        } else {
          actions := actions + ([] + refresh);
        }
      }
    }

    method AdapterChanged(d: DeviceId, now: int, powered: bool) returns (actions: seq<Action>)
      requires d in peers
      modifies this
      ensures Took(old(View()), d, OnAdapter(old(peers)[d], old(nextLifecycle), now, powered), actions)
    {
      actions := [];
      if !powered {
        actions := AbandonOutstanding(d);
        var e := peers[d];
        e := e.(phase := Restoring(now));
        peers := peers[d := e.(pending := [])];
      } else if peers[d].phase.Restoring? {
        peers := peers[d := peers[d].(phase := Reconnecting(0, now, ByAdapterOff))];
      } else {
        assert peers[d := peers[d]] == peers;
      }
    }

    method TickPeer(d: DeviceId, now: int, lastRx: int) returns (actions: seq<Action>)
      requires d in peers
      modifies this
      ensures Took(old(View()), d, OnTick(old(peers)[d], old(nextLifecycle), now, lastRx), actions)
    {
      var e := peers[d];
      actions := [];
      assert peers[d := e] == peers;
      match e.phase {
        case Reconnecting(attempt, nextAt, _) =>
          if nextAt <= now {
            actions := BeginDial(d, now, attempt);
          }
        case PendingDial(_, deadline, _) =>
          if now >= deadline {
            actions := BeginDial(d, now, 0);
          }
        case Draining(since, _) =>
          if now - since > DRAINING_TIMEOUT {
            if e.resumeAfterDrain {
              actions := ClearAndArm(d, now, None);
            } else {
              peers := peers[d := e.(target := None, phase := Dead(Drained, now))];
            }
          }
        case Restoring(since) =>
          if now - since > RESTORING_TIMEOUT {
            peers := peers[d := e.(target := None, phase := Dead(Drained, now))];
          }
        case Connected(_, channel, _, _) =>
          if e.pipe.Some? && now - lastRx > CONNECTED_IDLE_DEADLINE {
            actions := Drain(d, now, ByLinkDead);
            actions := actions + [CloseChannel(e.device, e.lifecycle, channel, ByLinkDead)];
          }
        case _ =>
      }
    }

    method ForgetEntry(d: DeviceId, now: int) returns (actions: seq<Action>)
      requires d in peers
      modifies this
      ensures Took(old(View()), d, OnForget(old(peers)[d], old(nextLifecycle), now), actions)
    {
      var e := peers[d];
      var acks := AckPending(d, Aborted);
      peers := peers[d := e.(pipe := None)];
      actions := AbandonOutstanding(d);
      var f := peers[d];
      f := f.(pending := [], target := None);
      f := f.(phase := Dead(Forgotten, now));
      peers := peers[d := f];
      actions := actions + acks;
      if HasChannel(e.phase) {
        actions := actions + [CloseChannel(e.device, e.lifecycle, e.phase.channel, ByLocalClose)];
      } else {
        assert actions + [] == actions;
      }
    }

    method ForgetPeer(d: DeviceId, now: int) returns (actions: seq<Action>)
      modifies this
      ensures Out(View(), actions) == HandleForget(old(View()), now, d)
    {
      actions := [];
      if d in peers {
        actions := ForgetEntry(d, now);
        PruneVerified();
      }
    }

    method PipeStalled(d: DeviceId, now: int, cause: StallCause) returns (actions: seq<Action>)
      modifies this
      ensures Out(View(), actions) == WithPeer(old(View()), d, Stall(now, cause))
    {
      actions := [];
      if d !in peers {
        return;
      }
      var e := peers[d];
      assert peers[d := e] == peers;
      if !e.phase.Connected? {
        return;
      }
      var reason := if cause == LinkDead then ByLinkDead else ByLocalClose;
      actions := Drain(d, now, reason);
      peers := peers[d := peers[d].(resumeAfterDrain := cause == LocalClose)];
      actions := actions + [CloseChannel(e.device, e.lifecycle, e.phase.channel, reason)];
    }

    method PipeReady(d: DeviceId, txGen: nat, q: Queue) returns (actions: seq<Action>)
      modifies this
      ensures Out(View(), actions) == WithPeer(old(View()), d, Install(txGen, q))
    {
      actions := [];
      if d !in peers {
        return;
      }
      assert peers[d := peers[d]] == peers;
      if peers[d].txGen != txGen {
        return;
      }
      actions := Flush(d, txGen, q);
      var e := peers[d];
      peers := peers[d := e.(pipe := Some(txGen), target := None)];
    }

    method L2capOpen(d: DeviceId, now: int, lifecycle: nat, upgradeGen: nat) returns (actions: seq<Action>)
      modifies this
      ensures Out(View(), actions) == WithPeer(old(View()), d, Opened(now, lifecycle, upgradeGen))
    {
      actions := [];
      if d !in peers {
        return;
      }
      var e := peers[d];
      assert peers[d := e] == peers;
      if e.lifecycle != lifecycle || e.upgradeGen != upgradeGen {
        return;
      }
      if e.phase.Handshaking? {
        peers := peers[d := e.(chars := {})];
        actions := OpenPipe(d, now, ChannelHandle(e.phase.channel.id, L2cap), L2cap);
      } else if e.phase.Connected? && e.phase.upgrading {
        if e.pipe.Some? {
          e := e.(phase := e.phase.(channel := e.phase.channel.(path := L2cap), upgrading := false));
          actions := [SwapPipeToL2cap(e.device)];
        } else {
          e := e.(upgradeFailed := true);
          e := e.(phase := e.phase.(upgrading := false));
        }
        peers := peers[d := e];
      }
    }

    method L2capOpenFailed(d: DeviceId, now: int, lifecycle: nat, upgradeGen: nat) returns (actions: seq<Action>)
      modifies this
      ensures Out(View(), actions) == WithPeer(old(View()), d, OpenFailed(now, lifecycle, upgradeGen))
    {
      actions := [];
      if d !in peers {
        return;
      }
      var e := peers[d];
      assert peers[d := e] == peers;
      if e.lifecycle != lifecycle || e.upgradeGen != upgradeGen {
        return;
      }
      if e.phase.Handshaking? {
        peers := peers[d := e.(upgradeFailed := true, chars := {})];
        actions := OpenPipe(d, now, e.phase.channel, Gatt);
      } else if e.phase.Connected? && e.phase.upgrading {
        e := e.(upgradeFailed := true);
        peers := peers[d := e.(phase := e.phase.(upgrading := false))];
      }
    }

    method HandoverTimedOut(d: DeviceId)
      modifies this
      ensures Out(View(), []) == WithPeer(old(View()), d, Handover)
    {
      if d in peers {
        var e := peers[d];
        e := e.(upgradeFailed := true);
        if e.phase.Connected? {
          e := e.(phase := e.phase.(channel := e.phase.channel.(path := Gatt), upgrading := false));
        }
        peers := peers[d := e];
      }
    }

    method MismatchEntry(d: DeviceId, now: int, lifecycle: nat) returns (actions: seq<Action>)
      requires d in peers
      modifies this
      ensures Took(old(View()), d, OnVersionMismatch(old(peers)[d], old(nextLifecycle), now, lifecycle), actions)
    {
      var e := peers[d];
      actions := [];
      assert peers[d := e] == peers;
      if e.lifecycle == lifecycle {
        actions := Drain(d, now, ByProtocolMismatch);
        var f := peers[d];
        f := f.(target := None, phase := Dead(ProtocolMismatch, now));
        peers := peers[d := f];
        if HasChannel(e.phase) {
          actions := actions + [CloseChannel(e.device, e.lifecycle, e.phase.channel, ByProtocolMismatch)];
        } else {
          assert actions + [] == actions;
        }
      }
    }

    method VersionMismatched(d: DeviceId, now: int, lifecycle: nat) returns (actions: seq<Action>)
      modifies this
      ensures Out(View(), actions)
              == PruneIf(d in old(peers) && old(peers)[d].lifecycle == lifecycle, WithPeer(old(View()), d, Mismatch(now, lifecycle)))
    {
      actions := [];
      if d in peers {
        var current := peers[d].lifecycle == lifecycle;
        actions := MismatchEntry(d, now, lifecycle);
        if current {
          PruneVerified();
        }
      }
    }

    // ---------- walks over all peers ----------

    method AdapterAll(order: seq<DeviceId>, now: int, powered: bool) returns (actions: seq<Action>)
      modifies this
      ensures Out(View(), actions) == Walk(old(View()), order, Power(now, powered))
    {
      actions := [];
      for i := 0 to |order|
        invariant Out(View(), actions) == Walk(old(View()), order[..i], Power(now, powered))
      {
        assert order[..i + 1][..i] == order[..i];
        if order[i] in peers {
          var more := AdapterChanged(order[i], now, powered);
          actions := actions + more;
        } else {
          assert actions + [] == actions;
        }
      }
      assert order[..|order|] == order;
    }

    method TickAll(now: int, order: seq<DeviceId>, lastRx: map<DeviceId, int>) returns (actions: seq<Action>)
      modifies this
      ensures Out(View(), actions) == HandleTick(old(View()), now, order, lastRx)
    {
      actions := [];
      for i := 0 to |order|
        invariant Out(View(), actions) == Walk(old(View()), order[..i], Age(now, lastRx))
      {
        assert order[..i + 1][..i] == order[..i];
        if order[i] in peers {
          var device := peers[order[i]].device;
          var more := TickPeer(order[i], now, if device in lastRx then lastRx[device] else now);
          actions := actions + more;
        } else {
          assert actions + [] == actions;
        }
      }
      assert order[..|order|] == order;
      peers := map d | d in peers && !Collected(peers[d], now) :: peers[d];
      PruneVerified();
    }

    // ---------- the dedup pass ----------

    /** Marks the exact device, and every entry of the prefix, as the verified endpoint. */
    method StampAll(ep: EndpointId, exact: Option<DeviceId>)
      modifies this
      ensures View() == Stamp(old(View()), ep, exact)
    {
      verified := verified[PrefixOf(ep) := ep];
      var left := peers.Keys;
      while left != {}
        invariant left <= peers.Keys && peers.Keys == old(peers).Keys
        invariant forall d :: d in peers ==>
                    peers[d] == if d in left then old(peers)[d] else StampEntry(old(peers)[d], ep, exact == Some(d))
        invariant verified == old(verified)[PrefixOf(ep) := ep] && nextLifecycle == old(nextLifecycle)
      {
        var d :| d in left;
        left := left - {d};
        var e := peers[d];
        if exact == Some(d) {
          e := e.(prefix := Some(PrefixOf(ep)));
        }
        if e.prefix == Some(PrefixOf(ep)) {
          e := e.(verified := Some(ep));
        }
        peers := peers[d := e];
      }
    }

    method FindCandidates(order: seq<DeviceId>, prefix: KeyPrefix) returns (c: seq<DeviceId>)
      ensures c == Candidates(View(), order, prefix)
    {
      c := [];
      var i := |order|;
      while i > 0
        invariant 0 <= i <= |order| && c == Candidates(View(), order[i..], prefix)
      {
        i := i - 1;
        assert order[i..][1..] == order[i + 1..];
        if order[i] in peers && ConnectedAs(peers[order[i]], prefix) {
          c := [order[i]] + c;
        }
      }
    }

    /** The first candidate in the surviving role, else the most recently connected one. */
    method PickWinner(c: seq<DeviceId>, ep: EndpointId) returns (w: DeviceId)
      requires c != [] && forall d :: d in c ==> d in peers && peers[d].phase.Connected?
      ensures w == Winner(View(), c, ep)
    {
      for i := 0 to |c|
        invariant FirstWinner(View(), c, ep) == FirstWinner(View(), c[i..], ep)
      {
        if ShouldWin(peers[c[i]].role, me, ep) {
          return c[i];
        }
        assert c[i..][1..] == c[i + 1..];
      }
      w := c[0];
      for i := 1 to |c|
        invariant w in c && forall k :: 0 <= k < i ==> Newer(View(), w, c[k])
      {
        var s, t := peers[c[i]].phase.since, peers[w].phase.since;
        if s > t || (s == t && c[i] > w) {
          w := c[i];
        }
      }
      LatestUnique(View(), c, w);
    }

    /** Pending dials to the verified prefix are given up. */
    method CancelDials(now: int, prefix: KeyPrefix, order: seq<DeviceId>) returns (actions: seq<Action>)
      modifies this
      ensures Out(View(), actions) == Walk(old(View()), order, Cancel(now, prefix))
    {
      actions := [];
      for i := 0 to |order|
        invariant Out(View(), actions) == Walk(old(View()), order[..i], Cancel(now, prefix))
      {
        assert order[..i + 1][..i] == order[..i];
        assert order[i] in peers ==> peers[order[i] := peers[order[i]]] == peers;
        if order[i] in peers && peers[order[i]].phase.PendingDial? && peers[order[i]].phase.prefix == prefix {
          var more := Drain(order[i], now, ByDedupLoser);
          actions := actions + more;
        } else {
          assert actions + [] == actions;
        }
      }
      assert order[..|order|] == order;
    }

    method DrainOthers(now: int, prefix: KeyPrefix, winner: DeviceId, order: seq<DeviceId>) returns (actions: seq<Action>)
      modifies this
      ensures Out(View(), actions) == Walk(old(View()), order, Lose(now, prefix, winner))
    {
      actions := [];
      for i := 0 to |order|
        invariant Out(View(), actions) == Walk(old(View()), order[..i], Lose(now, prefix, winner))
      {
        assert order[..i + 1][..i] == order[..i];
        assert order[i] in peers ==> peers[order[i] := peers[order[i]]] == peers;
        if order[i] in peers && ConnectedAs(peers[order[i]], prefix) && peers[order[i]].device != winner {
          var more := Drain(order[i], now, ByDedupLoser);
          actions := actions + more;
        } else {
          assert actions + [] == actions;
        }
      }
      assert order[..|order|] == order;
    }

    method RaiseSurvivors(ep: EndpointId, order: seq<DeviceId>) returns (actions: seq<Action>)
      modifies this
      ensures Out(View(), actions) == RaiseAll(old(View()), ep, order)
    {
      actions := [];
      if preferL2cap {
        var count := CountConnected(PrefixOf(ep));
        for i := 0 to |order|
          invariant Out(View(), actions) == Walk(old(View()), order[..i], Raise(count, me, ep))
        {
          assert order[..i + 1][..i] == order[..i];
          assert order[i] in peers ==> peers[order[i] := peers[order[i]]] == peers;
          if order[i] in peers && WantsUpgrade(peers[order[i]], count, me, ep) {
            var more := AskUpgrade(order[i]);
            actions := actions + more;
          } else {
            assert actions + [] == actions;
          }
        }
        assert order[..|order|] == order;
      }
    }

    method DrainDuplicates(now: int, ep: EndpointId, order: seq<DeviceId>) returns (actions: seq<Action>)
      modifies this
      ensures Out(View(), actions) == DrainLosers(old(View()), now, ep, order)
    {
      var c := FindCandidates(order, PrefixOf(ep));
      actions := [];
      if |c| >= 2 {
        var w := PickWinner(c, ep);
        actions := DrainOthers(now, PrefixOf(ep), w, order);
      }
    }

    method DedupVerified(now: int, ep: EndpointId, exact: Option<DeviceId>, order: seq<DeviceId>) returns (actions: seq<Action>)
      modifies this
      ensures Out(View(), actions) == HandleVerified(old(View()), now, ep, exact, order)
    {
      StampAll(ep, exact);
      actions := CancelDials(now, PrefixOf(ep), order);
      var drained := DrainDuplicates(now, ep, order);
      var raised := RaiseSurvivors(ep, order);
      actions := actions + (drained + raised);
    }

    method EndpointVerified(now: int, ep: EndpointId, exact: Option<DeviceId>, replaced: Option<DeviceId>, order: seq<DeviceId>)
      returns (actions: seq<Action>)
      modifies this
      ensures Out(View(), actions) == HandleEndpoint(old(View()), now, ep, exact, replaced, order)
    {
      actions := [];
      if replaced.Some? {
        actions := ForgetPeer(replaced.value, now);
      }
      var more := DedupVerified(now, ep, exact, order);
      actions := actions + more;
    }

    // ---------- commands ----------

    method Inbound(d: DeviceId, now: int, cmd: Command) returns (actions: seq<Action>)
      requires cmd == InboundL2cap(d) || (cmd.InboundGatt? && cmd.device == d)
      modifies this
      ensures Out(View(), actions) == Spec.Handle(old(View()), now, cmd)
    {
      if d !in peers {
        actions := Arrive(d, now, if cmd.InboundGatt? then Gatt else L2cap);
      } else if cmd.InboundGatt? {
        actions := GattFragment(d, now, cmd.source);
      } else {
        actions := L2capChannel(d, now);
      }
    }

    method Disconnected(d: DeviceId, now: int, reason: Reason) returns (actions: seq<Action>)
      modifies this
      ensures var o := WithPeer(old(View()), d, Disconnect(now, reason));
              Out(View(), actions) == PruneIf(DeadAt(o.reg, d) && !DeadAt(old(View()), d), o)
    {
      actions := [];
      if d in peers {
        var wasDead := peers[d].phase.Dead?;
        actions := LinkLost(d, now, reason);
        PruneIfDied(d, wasDead);
      }
    }

    /** Completions and reports from the driver about one device. */
    method HandleReport(now: int, cmd: Command) returns (actions: seq<Action>)
      requires cmd.ConnectSucceeded? || cmd.ConnectFailed? || cmd.Stalled? || cmd.DataPipeReady? || cmd.L2capOpened?
               || cmd.L2capFailed? || cmd.HandoverTimeout? || cmd.VersionMismatch?
      modifies this
      ensures Out(View(), actions) == Spec.Handle(old(View()), now, cmd)
    {
      match cmd {
        case ConnectSucceeded(d, lc, ch) => actions := DialSucceeded(d, now, lc, ch);
        case ConnectFailed(d, lc) => actions := DialFailed(d, now, lc);
        case Stalled(d, cause) => actions := PipeStalled(d, now, cause);
        case DataPipeReady(d, g, q) => actions := PipeReady(d, g, q);
        case L2capOpened(d, lc, g) => actions := L2capOpen(d, now, lc, g);
        case L2capFailed(d, lc, g) => actions := L2capOpenFailed(d, now, lc, g);
        case HandoverTimeout(d) =>
          HandoverTimedOut(d);
          actions := [];
        case VersionMismatch(d, lc) => actions := VersionMismatched(d, now, lc);
      }
    }

    method SendTo(d: DeviceId, now: int, target: Option<EndpointId>, send: Outgoing, q: Queue) returns (actions: seq<Action>)
      modifies this
      ensures Out(View(), actions) == WithPeer(Ensure(old(View()), d), d, Submit(now, target, send, q))
    {
      EnsurePeer(d);
      actions := Send(d, now, target, send, q);
    }

    method HandleCommand(now: int, cmd: Command) returns (actions: seq<Action>)
      modifies this
      ensures Out(View(), actions) == Spec.Handle(old(View()), now, cmd)
    {
      if cmd.ConnectSucceeded? || cmd.ConnectFailed? || cmd.Stalled? || cmd.DataPipeReady? || cmd.L2capOpened?
         || cmd.L2capFailed? || cmd.HandoverTimeout? || cmd.VersionMismatch? {
        actions := HandleReport(now, cmd);
        return;
      }
      match cmd {
        case Advertised(prefix, d, end) => actions := PeerAdvertised(prefix, d, end, now);
        case SendDatagram(d, target, send, q) => actions := SendTo(d, now, target, send, q);
        case InboundGatt(d, _) => actions := Inbound(d, now, cmd);
        case InboundL2cap(d) => actions := Inbound(d, now, cmd);
        case CentralDisconnected(d, reason) => actions := Disconnected(d, now, reason);
        case AdapterState(powered, order) => actions := AdapterAll(order, now, powered);
        case Tick(order, lastRx) => actions := TickAll(now, order, lastRx);
        case Forget(d) => actions := ForgetPeer(d, now);
        case VerifiedEndpoint(ep, exact, replaced, order) => actions := EndpointVerified(now, ep, exact, replaced, order);
        case Subscribed(d, c, prefix) => actions := PeripheralSubscribed(d, now, c, prefix);
        case Unsubscribed(d, c) => actions := PeripheralUnsubscribed(d, now, c);
      }
    }
  }

  /** The order by connection time and device is total and strict, so its maximum is unique. */
  lemma LatestUnique(r: Registry, c: seq<DeviceId>, w: DeviceId)
    requires c != [] && forall d :: d in c ==> d in r.peers && r.peers[d].phase.Connected?
    requires w in c && forall k :: 0 <= k < |c| ==> Newer(r, w, c[k])
    ensures w == Latest(r, c)
  {
    var l := Latest(r, c);
    assert Newer(r, l, w) && Newer(r, w, l);
  }
}
