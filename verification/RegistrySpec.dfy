/**
 The peer registry as a function from a state and a command to a state and a list
 of actions.

 A handler for one peer is a function from its entry and the lifecycle counter to
 an `Eff`. Handlers that walk the whole peer map take the order of the walk as a
 parameter, because the original iterates a hash map.
 */
module RegistrySpec {
  import opened Wire
  import opened Identity
  import opened Dedup
  import opened Peers

  const MAX_CONNECT_ATTEMPTS := 15
  const DRAINING_TIMEOUT := 5000
  const RESTORING_TIMEOUT := 120000
  const DEAD_GC_TTL := 60000
  const CONNECTED_IDLE_DEADLINE := 45000

  datatype Registry = Registry(
    peers: map<DeviceId, Entry>,
    nextLifecycle: nat,
    preferL2cap: bool,
    verified: map<KeyPrefix, EndpointId>,
    me: EndpointId)

  function NewRegistry(preferL2cap: bool, me: EndpointId): Registry {
    Registry(map[], 1, preferL2cap, map[], me)
  }

  /** What handling one peer does: its new entry, the counter, the actions pushed. */
  datatype Eff = Eff(entry: Entry, next: nat, actions: seq<Action>)
  {
    function Push(more: seq<Action>): Eff {
      this.(actions := actions + more)
    }
  }

  function Pure(e: Entry, next: nat): Eff {
    Eff(e, next, [])
  }

  function Backoff(attempt: nat): nat {
    var ms := if attempt < 6 then 500 * Pow2(attempt) else 32000;
    if ms < 30000 then ms else 30000
  }

  // ---------- building blocks ----------

  /** Retires the current lifecycle and takes a fresh one. */
  function Abandon(e: Entry, next: nat): Eff {
    Eff(e.(lifecycle := next, upgradeGen := 0), next + 1, [RetireLifecycle(e.device, e.lifecycle)])
  }

  function BeginConnect(e: Entry, next: nat, now: int, attempt: nat): Eff {
    var a := Abandon(e, next);
    a.(entry := a.entry.(phase := Connecting(attempt, now)))
     .Push([StartConnect(e.device, attempt, a.entry.lifecycle)])
  }

  function ClearConnection(e: Entry, next: nat): Eff {
    var a := Abandon(e, next);
    a.(entry := a.entry.(failures := 0, pipe := None, upgradeFailed := false, chars := {}, resumeAfterDrain := false))
  }

  /** `defer` carries the prefix and the end of the fairness window when the peer should dial first. */
  function ArmForDial(e: Entry, next: nat, now: int, defer: Option<(KeyPrefix, int)>): Eff {
    if e.pending == [] then Pure(e.(phase := Discovered(now)), next)
    else if defer.Some? then Pure(e.(phase := PendingDial(now, defer.value.1, defer.value.0)), next)
    else BeginConnect(e, next, now, 0)
  }

  function ResumeDrained(e: Entry, next: nat, now: int): Eff {
    var c := ClearConnection(e, next);
    var a := ArmForDial(c.entry, c.next, now, None);
    a.(actions := c.actions + a.actions)
  }

  function AckAll(e: Entry, result: Ack): seq<Action> {
    seq(|e.pending|, i requires 0 <= i < |e.pending| => AckSend(e.device, e.pending[i], result))
  }

  function DrainToDraining(e: Entry, next: nat, now: int, reason: Reason): Eff {
    var a := Abandon(e, next);
    a.(entry := a.entry.(pipe := None, resumeAfterDrain := false, upgradeFailed := false, pending := [],
                         phase := Draining(now, reason)))
     .Push(AckAll(e, BrokenPipe))
  }

  /** Enters `Connected` under the current lifecycle with a new pipe generation. */
  function StartPipe(e: Entry, next: nat, now: int, channel: ChannelHandle, path: ConnectPath): Eff {
    var g := e.txGen + 1;
    Eff(e.(txGen := g, phase := Connected(now, channel, g, false)), next,
        [StartDataPipe(e.device, e.lifecycle, g, e.role, e.target, path)])
  }

  function RestartPeripheral(e: Entry, next: nat, now: int, char_: Option<CharUuid>): Eff {
    var a := Abandon(e.(pipe := None), next);
    var e1 := a.entry.(role := Peripheral, chars := if char_.Some? then {char_.value} else {});
    var s := StartPipe(e1, a.next, now, ChannelHandle(e1.txGen + 1, Gatt), Gatt);
    s.(actions := a.actions + s.actions)
  }

  function Upgrade(e: Entry, next: nat): Eff
    requires e.phase.Connected?
  {
    Eff(e.(phase := e.phase.(upgrading := true), upgradeGen := e.upgradeGen + 1), next,
        [UpgradeToL2cap(e.device, e.lifecycle, e.upgradeGen + 1)])
  }

  predicate HasChannel(p: Phase) {
    p.Connected? || p.Handshaking?
  }

  function CloseOf(e: Entry, lifecycle: nat, reason: Reason): seq<Action> {
    if HasChannel(e.phase) then [CloseChannel(e.device, lifecycle, e.phase.channel, reason)] else []
  }

  // ---------- handlers for one peer ----------

  function NoteSubscription(e: Entry, char_: CharUuid, prefix: Option<KeyPrefix>, known: Option<EndpointId>): Entry {
    e.(prefix := if prefix.Some? then prefix else e.prefix,
       verified := if e.verified.None? then known else e.verified,
       chars := e.chars + {char_})
  }

  function OnSubscribed(e: Entry, next: nat, now: int, char_: CharUuid, prefix: Option<KeyPrefix>, known: Option<EndpointId>): Eff {
    var e1 := NoteSubscription(e, char_, prefix, known);
    if (e1.phase.Connected? && e1.role == Peripheral && e1.phase.channel.path == Gatt)
       || e1.phase.Connecting? || e1.phase.Handshaking?
    then Pure(e1, next)
    else RestartPeripheral(e1, next, now, Some(char_))
  }

  function OnUnsubscribed(e: Entry, next: nat, now: int, char_: CharUuid): Eff {
    var e1 := e.(chars := e.chars - {char_});
    if e1.role != Peripheral || !HasChannel(e1.phase) || e1.chars != {} then Pure(e1, next)
    else DrainToDraining(e1, next, now, ByRemoteClose)
  }

  function OnAdvertised(e: Entry, next: nat, now: int, prefix: KeyPrefix, defer: Option<(KeyPrefix, int)>): Eff {
    var e1 := e.(prefix := Some(prefix));
    match e1.phase
    case Unknown => ArmForDial(e1, next, now, defer)
    case Discovered(_) => if e1.pending != [] then ArmForDial(e1, next, now, defer) else Pure(e1, next)
    case Dead(why, _) =>
      if why == MaxRetries || why == Drained then
        var c := ClearConnection(e1, next);
        var a := ArmForDial(c.entry, c.next, now, defer);
        a.(actions := c.actions + a.actions)
      else Pure(e1, next)
    case Reconnecting(attempt, nextAt, _) =>
      if nextAt <= now then BeginConnect(e1, next, now, attempt) else Pure(e1, next)
    case _ => Pure(e1, next)
  }

  /** Moves as much of the pending queue as fits into pipe `pipe`. */
  function FlushPending(e: Entry, pipe: nat, q: Queue): (Entry, seq<Action>) {
    var n := if q.closed then 0 else Min(q.free, |e.pending|);
    (e.(pending := e.pending[n..]), seq(n, i requires 0 <= i < n <= |e.pending| => PipeSend(e.device, pipe, e.pending[i])))
  }

  /** A datagram for the live generation: behind whatever is still pending. */
  function EnqueueLive(e: Entry, next: nat, send: Outgoing, q: Queue): Eff {
    if e.pipe.None? then Pure(e.(pending := e.pending + [send]), next)
    else if q.closed then
      // With something pending, the failed drain drops the pipe before this datagram is tried.
      Eff(e.(pipe := None, pending := e.pending + [send]), next,
          if e.pending == [] then [AckSend(e.device, send, Accepted)] else [])
    else
      var (e1, moved) := FlushPending(e, e.pipe.value, q);
      if |moved| < q.free
      then Eff(e1, next, moved + [PipeSend(e.device, e.pipe.value, send), AckSend(e.device, send, Accepted)])
      else Eff(e1, next, moved + [AckSend(e.device, send, WouldBlock)])
  }

  predicate BuffersSend(e: Entry) {
    match e.phase
    case Unknown => true
    case PendingDial(_, _, _) => true
    case Connecting(_, _) => true
    case Handshaking(_, _) => true
    case Reconnecting(_, _, _) => true
    case Restoring(_) => true
    case Draining(_, _) => e.resumeAfterDrain
    case _ => false
  }

  function OnSend(e: Entry, next: nat, now: int, target: Option<EndpointId>, send: Outgoing, q: Queue): Eff {
    var aimed := e.(target := if target.Some? then target else e.target);
    if e.phase.Connected? then
      if send.txGen == e.phase.txGen then EnqueueLive(e, next, send, q)
      else Eff(e, next, [AckSend(e.device, send, WouldBlock)])
    else if e.phase.Discovered? then BeginConnect(aimed.(pending := e.pending + [send]), next, now, 0)
    else if BuffersSend(e) then Eff(aimed.(pending := e.pending + [send]), next, [AckSend(e.device, send, Accepted)])
    else Eff(e, next, [AckSend(e.device, send, WouldBlock)])
  }

  /** A connect always yields a GATT channel. `upgrade` says whether policy, identity and role call for an L2CAP upgrade. */
  function OnConnectSucceeded(e: Entry, next: nat, now: int, lifecycle: nat, channel: nat, upgrade: bool): Eff {
    if e.lifecycle != lifecycle || !e.phase.Connecting? then Pure(e, next)
    else
      var s := StartPipe(e.(failures := 0, chars := {}), next, now, ChannelHandle(channel, Gatt), Gatt);
      var r := if upgrade && !e.upgradeFailed then Upgrade(s.entry, s.next) else Pure(s.entry, s.next);
      Eff(r.entry, r.next, [ReadVersion(e.device, lifecycle)] + s.actions + r.actions)
  }

  /** The next phase after a failed attempt: back off, or give up at the limit. */
  function AfterFailure(e: Entry, now: int, attempt: nat, reason: Reason): Entry {
    var charged := e.(failures := e.failures + 1);
    if attempt + 1 >= MAX_CONNECT_ATTEMPTS then charged.(target := None, phase := Dead(MaxRetries, now))
    else charged.(phase := Reconnecting(attempt + 1, now + Backoff(attempt + 1), reason))
  }

  function OnConnectFailed(e: Entry, next: nat, now: int, lifecycle: nat): Eff {
    if e.lifecycle != lifecycle || !e.phase.Connecting? then Pure(e, next)
    else
      var a := Abandon(e, next);
      Eff(AfterFailure(a.entry, now, e.phase.attempt, ByTimeout), a.next,
          [CloseNativeConnection(e.device, lifecycle)] + a.actions)
  }

  /** First inbound bytes from a device without an entry. */
  function InboundNew(device: DeviceId, next: nat, now: int, path: ConnectPath): Eff {
    StartPipe(NewEntry(device, next).(role := Peripheral), next + 1, now, ChannelHandle(0, path), path)
  }

  function OnInboundGatt(e: Entry, next: nat, now: int, source: FragmentSource): Eff {
    if e.phase.Handshaking? then StartPipe(e, next, now, e.phase.channel, Gatt)
    else if e.phase.Connected? then
      if e.phase.channel.path == L2cap && e.role == Peripheral && e.pipe.None? && source == PeripheralReceivedC2p
      then RestartPeripheral(e, next, now, None)
      else Pure(e, next)
    else if e.phase.Restoring? then Pure(e, next)
    else
      var role := if source == CentralReceivedP2c then Central else Peripheral;
      var a := if e.phase.Connecting? && role == Central then Pure(e, next) else Abandon(e, next);
      var s := StartPipe(a.entry.(pipe := None, role := role), a.next, now, ChannelHandle(0, Gatt), Gatt);
      s.(actions := a.actions + s.actions)
  }

  function OnCentralDisconnected(e: Entry, next: nat, now: int, reason: Reason): Eff {
    var refresh := if reason == ByGatt133 then [Refresh(e.device, e.lifecycle)] else [];
    if e.resumeAfterDrain && e.phase.Draining? then ResumeDrained(e, next, now)
    else if e.phase.Connecting? then
      var a := Abandon(e, next);
      Eff(AfterFailure(a.entry.(pending := []), now, e.phase.attempt, reason), a.next, a.actions + refresh)
    else
      DrainToDraining(e, next, now, reason).Push(CloseOf(e, e.lifecycle, reason) + refresh)
  }

  function OnAdapter(e: Entry, next: nat, now: int, powered: bool): Eff {
    if !powered then
      var a := Abandon(e, next);
      a.(entry := a.entry.(phase := Restoring(now), pending := []))
    else if e.phase.Restoring? then Pure(e.(phase := Reconnecting(0, now, ByAdapterOff)), next)
    else Pure(e, next)
  }

  function OnTick(e: Entry, next: nat, now: int, lastRx: int): Eff {
    match e.phase
    case Reconnecting(attempt, nextAt, _) =>
      if nextAt <= now then BeginConnect(e, next, now, attempt) else Pure(e, next)
    case PendingDial(_, deadline, _) =>
      if now >= deadline then BeginConnect(e, next, now, 0) else Pure(e, next)
    case Draining(since, _) =>
      if now - since <= DRAINING_TIMEOUT then Pure(e, next)
      else if e.resumeAfterDrain then ResumeDrained(e, next, now)
      else Pure(e.(target := None, phase := Dead(Drained, now)), next)
    case Restoring(since) =>
      if now - since <= RESTORING_TIMEOUT then Pure(e, next)
      else Pure(e.(target := None, phase := Dead(Drained, now)), next)
    case Connected(_, channel, _, _) =>
      if e.pipe.Some? && now - lastRx > CONNECTED_IDLE_DEADLINE
      then DrainToDraining(e, next, now, ByLinkDead).Push([CloseChannel(e.device, e.lifecycle, channel, ByLinkDead)])
      else Pure(e, next)
    case _ => Pure(e, next)
  }

  function OnForget(e: Entry, next: nat, now: int): Eff {
    var a := Abandon(e.(pipe := None), next);
    Eff(a.entry.(pending := [], target := None, phase := Dead(Forgotten, now)), a.next,
        a.actions + AckAll(e, Aborted) + CloseOf(e, e.lifecycle, ByLocalClose))
  }

  function OnStalled(e: Entry, next: nat, now: int, cause: StallCause): Eff {
    if !e.phase.Connected? then Pure(e, next)
    else
      var reason := if cause == LinkDead then ByLinkDead else ByLocalClose;
      var d := DrainToDraining(e, next, now, reason);
      d.(entry := d.entry.(resumeAfterDrain := cause == LocalClose))
       .Push([CloseChannel(e.device, e.lifecycle, e.phase.channel, reason)])
  }

  function OnPipeReady(e: Entry, next: nat, txGen: nat, q: Queue): Eff {
    if e.txGen != txGen then Pure(e, next)
    else
      var (e1, moved) := FlushPending(e, txGen, q);
      Eff(e1.(pipe := Some(txGen), target := None), next, moved)
  }

  function OnL2capOpened(e: Entry, next: nat, now: int, lifecycle: nat, upgradeGen: nat): Eff {
    if e.lifecycle != lifecycle || e.upgradeGen != upgradeGen then Pure(e, next)
    else if e.phase.Handshaking? then
      StartPipe(e.(chars := {}), next, now, ChannelHandle(e.phase.channel.id, L2cap), L2cap)
    else if e.phase.Connected? && e.phase.upgrading then
      if e.pipe.Some? then
        Eff(e.(phase := e.phase.(channel := e.phase.channel.(path := L2cap), upgrading := false)), next,
            [SwapPipeToL2cap(e.device)])
      else Pure(e.(upgradeFailed := true, phase := e.phase.(upgrading := false)), next)
    else Pure(e, next)
  }

  function OnL2capFailed(e: Entry, next: nat, now: int, lifecycle: nat, upgradeGen: nat): Eff {
    if e.lifecycle != lifecycle || e.upgradeGen != upgradeGen then Pure(e, next)
    else if e.phase.Handshaking? then
      StartPipe(e.(upgradeFailed := true, chars := {}), next, now, e.phase.channel, Gatt)
    else if e.phase.Connected? && e.phase.upgrading then
      Pure(e.(upgradeFailed := true, phase := e.phase.(upgrading := false)), next)
    else Pure(e, next)
  }

  function OnHandoverTimeout(e: Entry, next: nat): Eff {
    var e1 := e.(upgradeFailed := true);
    if e1.phase.Connected?
    then Pure(e1.(phase := e1.phase.(channel := e1.phase.channel.(path := Gatt), upgrading := false)), next)
    else Pure(e1, next)
  }

  function OnInboundL2cap(e: Entry, next: nat, now: int): Eff {
    if e.pipe.Some? then
      if e.phase.Connected? && e.phase.channel.path == Gatt then
        Eff(e.(phase := e.phase.(channel := e.phase.channel.(path := L2cap), upgrading := false)), next,
            [SwapPipeToL2cap(e.device)])
      else Pure(e, next)
    else
      var a := Abandon(e, next);
      var s := StartPipe(a.entry, a.next, now, ChannelHandle(0, L2cap), L2cap);
      s.(actions := a.actions + s.actions)
  }

  function OnVersionMismatch(e: Entry, next: nat, now: int, lifecycle: nat): Eff {
    if e.lifecycle != lifecycle then Pure(e, next)
    else
      var d := DrainToDraining(e, next, now, ByProtocolMismatch);
      d.(entry := d.entry.(target := None, phase := Dead(ProtocolMismatch, now)))
       .Push(CloseOf(e, e.lifecycle, ByProtocolMismatch))
  }

  predicate ConnectedAs(e: Entry, prefix: KeyPrefix) {
    e.prefix == Some(prefix) && e.phase.Connected?
  }

  predicate ShouldEmitUpgrade(count: nat, role: ConnectRole, me: EndpointId, peer: EndpointId) {
    if count <= 1 then role == Central else ShouldDialL2cap(role, me, peer)
  }

  function CancelPending(e: Entry, next: nat, now: int, prefix: KeyPrefix): Eff {
    if e.phase.PendingDial? && e.phase.prefix == prefix then DrainToDraining(e, next, now, ByDedupLoser) else Pure(e, next)
  }

  function DrainLoser(e: Entry, next: nat, now: int, prefix: KeyPrefix, winner: DeviceId): Eff {
    if ConnectedAs(e, prefix) && e.device != winner then DrainToDraining(e, next, now, ByDedupLoser) else Pure(e, next)
  }

  predicate WantsUpgrade(e: Entry, count: nat, me: EndpointId, ep: EndpointId) {
    && ConnectedAs(e, PrefixOf(ep)) && !e.upgradeFailed && !e.phase.upgrading && e.phase.channel.path == Gatt
    && ShouldEmitUpgrade(count, e.role, me, ep)
  }

  function UpgradeIfWanted(e: Entry, next: nat, count: nat, me: EndpointId, ep: EndpointId): Eff {
    if WantsUpgrade(e, count, me, ep) then Upgrade(e, next) else Pure(e, next)
  }

  // ---------- one peer, any handler ----------

  /** What to do to one peer. */
  datatype Task =
    | Mark(prefix: KeyPrefix)
    | Advertise(now: int, prefix: KeyPrefix, defer: Option<(KeyPrefix, int)>)
    | Submit(now: int, target: Option<EndpointId>, send: Outgoing, queue: Queue)
    | Succeed(now: int, lifecycle: nat, channel: nat)
    | Fail(now: int, lifecycle: nat)
    | TakeGatt(now: int, source: FragmentSource)
    | TakeL2cap(now: int)
    | Disconnect(now: int, reason: Reason)
    | Power(now: int, powered: bool)
    | Age(now: int, lastRx: map<DeviceId, int>)
    | Drop(now: int)
    | Stall(now: int, cause: StallCause)
    | Install(txGen: nat, queue: Queue)
    | Opened(now: int, lifecycle: nat, upgradeGen: nat)
    | OpenFailed(now: int, lifecycle: nat, upgradeGen: nat)
    | Handover
    | Mismatch(now: int, lifecycle: nat)
    | Subscribe(now: int, char_: CharUuid, seen: Option<KeyPrefix>, known: Option<EndpointId>)
    | Unsubscribe(now: int, char_: CharUuid)
    | Cancel(now: int, prefix: KeyPrefix)
    | Lose(now: int, prefix: KeyPrefix, winner: DeviceId)
    | Raise(count: nat, me: EndpointId, peer: EndpointId)

  /** `upgrade` is the registry-wide answer to whether a fresh connection should be upgraded. */
  function Do(t: Task, e: Entry, n: nat, upgrade: bool): Eff {
    match t
    case Mark(prefix) => Pure(e.(prefix := Some(prefix)), n)
    case Advertise(now, prefix, defer) => OnAdvertised(e, n, now, prefix, defer)
    case Submit(now, target, send, q) => OnSend(e, n, now, target, send, q)
    case Succeed(now, lc, ch) => OnConnectSucceeded(e, n, now, lc, ch, upgrade)
    case Fail(now, lc) => OnConnectFailed(e, n, now, lc)
    case TakeGatt(now, source) => OnInboundGatt(e, n, now, source)
    case TakeL2cap(now) => OnInboundL2cap(e, n, now)
    case Disconnect(now, reason) => OnCentralDisconnected(e, n, now, reason)
    case Power(now, powered) => OnAdapter(e, n, now, powered)
    case Age(now, lastRx) => OnTick(e, n, now, if e.device in lastRx then lastRx[e.device] else now)
    case Drop(now) => OnForget(e, n, now)
    case Stall(now, cause) => OnStalled(e, n, now, cause)
    case Install(g, q) => OnPipeReady(e, n, g, q)
    case Opened(now, lc, g) => OnL2capOpened(e, n, now, lc, g)
    case OpenFailed(now, lc, g) => OnL2capFailed(e, n, now, lc, g)
    case Handover => OnHandoverTimeout(e, n)
    case Mismatch(now, lc) => OnVersionMismatch(e, n, now, lc)
    case Subscribe(now, c, seen, known) => OnSubscribed(e, n, now, c, seen, known)
    case Unsubscribe(now, c) => OnUnsubscribed(e, n, now, c)
    case Cancel(now, prefix) => CancelPending(e, n, now, prefix)
    case Lose(now, prefix, winner) => DrainLoser(e, n, now, prefix, winner)
    case Raise(count, me, peer) => UpgradeIfWanted(e, n, count, me, peer)
  }

  // ---------- the whole registry ----------

  datatype Command =
    | Advertised(prefix: KeyPrefix, device: DeviceId, fairnessEnd: int)
    | SendDatagram(device: DeviceId, target: Option<EndpointId>, send: Outgoing, queue: Queue)
    | ConnectSucceeded(device: DeviceId, lifecycle: nat, channel: nat)
    | ConnectFailed(device: DeviceId, lifecycle: nat)
    | InboundGatt(device: DeviceId, source: FragmentSource)
    | InboundL2cap(device: DeviceId)
    | CentralDisconnected(device: DeviceId, reason: Reason)
    | AdapterState(powered: bool, order: seq<DeviceId>)
    | Tick(order: seq<DeviceId>, lastRx: map<DeviceId, int>)
    | Forget(device: DeviceId)
    | Stalled(device: DeviceId, cause: StallCause)
    | DataPipeReady(device: DeviceId, txGen: nat, queue: Queue)
    | L2capOpened(device: DeviceId, lifecycle: nat, upgradeGen: nat)
    | L2capFailed(device: DeviceId, lifecycle: nat, upgradeGen: nat)
    | HandoverTimeout(device: DeviceId)
    | VersionMismatch(device: DeviceId, lifecycle: nat)
    | VerifiedEndpoint(endpoint: EndpointId, exact: Option<DeviceId>, replaced: Option<DeviceId>, order: seq<DeviceId>)
    | Subscribed(device: DeviceId, char_: CharUuid, seenPrefix: Option<KeyPrefix>)
    | Unsubscribed(device: DeviceId, char_: CharUuid)

  /** A registry together with the actions its handling has pushed so far. */
  datatype Out = Out(reg: Registry, actions: seq<Action>)

  /** Handles one peer in place. */
  function Apply(r: Registry, d: DeviceId, eff: Eff): Out {
    Out(r.(peers := r.peers[d := eff.entry], nextLifecycle := eff.next), eff.actions)
  }

  /** Handles one peer that must already exist; otherwise nothing happens. */
  function WithPeer(r: Registry, d: DeviceId, t: Task): Out {
    if d in r.peers then Apply(r, d, Do(t, r.peers[d], r.nextLifecycle, UpgradeOnConnect(r, r.peers[d]))) else Out(r, [])
  }

  /** The entry for `d`, created with a fresh lifecycle if there was none. */
  function Ensure(r: Registry, d: DeviceId): Registry {
    if d in r.peers then r
    else r.(peers := r.peers[d := NewEntry(d, r.nextLifecycle)], nextLifecycle := r.nextLifecycle + 1)
  }

  /** Handles every peer in turn. */
  function Walk(r: Registry, order: seq<DeviceId>, t: Task): Out {
    if order == [] then Out(r, [])
    else
      var before := Walk(r, order[..|order| - 1], t);
      var last := WithPeer(before.reg, order[|order| - 1], t);
      Out(last.reg, before.actions + last.actions)
  }

  predicate KeepsVerified(peers: map<DeviceId, Entry>, ep: EndpointId) {
    exists d :: d in peers && peers[d].verified == Some(ep) && !peers[d].phase.Dead?
  }

  function Prune(r: Registry): Registry {
    r.(verified := map p | p in r.verified && KeepsVerified(r.peers, r.verified[p]) :: r.verified[p])
  }

  function ConnectedCount(peers: map<DeviceId, Entry>, prefix: KeyPrefix): nat {
    |set d | d in peers && ConnectedAs(peers[d], prefix)|
  }

  predicate UpgradeOnConnect(r: Registry, e: Entry) {
    && r.preferL2cap && e.prefix.Some? && e.prefix.value in r.verified
    && ShouldEmitUpgrade(ConnectedCount(r.peers, e.prefix.value) + 1, e.role, r.me, r.verified[e.prefix.value])
  }

  predicate VerifiedAs(e: Entry, prefix: KeyPrefix) {
    e.verified.Some? && PrefixOf(e.verified.value) == prefix
  }

  predicate LiveAs(peers: map<DeviceId, Entry>, prefix: KeyPrefix) {
    exists d :: d in peers && VerifiedAs(peers[d], prefix) && peers[d].phase.Connected?
  }

  predicate KnownAs(r: Registry, prefix: KeyPrefix) {
    prefix in r.verified || exists d :: d in r.peers && VerifiedAs(r.peers[d], prefix)
  }

  /** The lower side lets an unknown peer dial first. */
  function AdvertiseTask(r: Registry, now: int, prefix: KeyPrefix, fairnessEnd: int): Task {
    Advertise(now, prefix, if Less(PrefixOf(r.me), prefix) && !KnownAs(r, prefix) then Some((prefix, fairnessEnd)) else None)
  }

  predicate Resurrects(e: Entry, prefix: KeyPrefix) {
    e.phase.Dead? && (e.phase.why == MaxRetries || e.phase.why == Drained) && VerifiedAs(e, prefix)
  }

  function HandleAdvertised(r: Registry, now: int, prefix: KeyPrefix, d: DeviceId, fairnessEnd: int): Out {
    if LiveAs(r.peers, prefix) then WithPeer(r, d, Mark(prefix))
    else
      var o := WithPeer(Ensure(r, d), d, AdvertiseTask(r, now, prefix, fairnessEnd));
      if d in r.peers && Resurrects(r.peers[d], prefix)
      then o.(reg := o.reg.(verified := o.reg.verified[prefix := r.peers[d].verified.value]))
      else o
  }

  predicate Collected(e: Entry, now: int) {
    e.phase.Dead? && now - e.phase.at > DEAD_GC_TTL
  }

  function HandleTick(r: Registry, now: int, order: seq<DeviceId>, lastRx: map<DeviceId, int>): Out {
    var o := Walk(r, order, Age(now, lastRx));
    var kept := map d | d in o.reg.peers && !Collected(o.reg.peers[d], now) :: o.reg.peers[d];
    o.(reg := Prune(o.reg.(peers := kept)))
  }

  // ---------- the dedup pass ----------

  function StampEntry(e: Entry, ep: EndpointId, exact: bool): Entry {
    if exact then e.(prefix := Some(PrefixOf(ep)), verified := Some(ep))
    else if e.prefix == Some(PrefixOf(ep)) then e.(verified := Some(ep))
    else e
  }

  function Stamp(r: Registry, ep: EndpointId, exact: Option<DeviceId>): Registry {
    r.(peers := map d | d in r.peers :: StampEntry(r.peers[d], ep, exact == Some(d)),
       verified := r.verified[PrefixOf(ep) := ep])
  }

  /** The connected peers of a prefix, in walking order. */
  function Candidates(r: Registry, order: seq<DeviceId>, prefix: KeyPrefix): (c: seq<DeviceId>)
    ensures forall d :: d in c ==> d in order && d in r.peers && ConnectedAs(r.peers[d], prefix)
    ensures forall d :: d in order && d in r.peers && ConnectedAs(r.peers[d], prefix) ==> d in c
  {
    if order == [] then []
    else
      var rest := Candidates(r, order[1..], prefix);
      if order[0] in r.peers && ConnectedAs(r.peers[order[0]], prefix) then [order[0]] + rest else rest
  }

  /** First candidate with the surviving role, if any. */
  function FirstWinner(r: Registry, c: seq<DeviceId>, ep: EndpointId): (w: Option<DeviceId>)
    requires forall d :: d in c ==> d in r.peers
    ensures w.Some? ==> w.value in c && ShouldWin(r.peers[w.value].role, r.me, ep)
    ensures w.None? ==> forall d :: d in c ==> !ShouldWin(r.peers[d].role, r.me, ep)
  {
    if c == [] then None
    else if ShouldWin(r.peers[c[0]].role, r.me, ep) then Some(c[0])
    else FirstWinner(r, c[1..], ep)
  }

  predicate Newer(r: Registry, a: DeviceId, b: DeviceId)
    requires a in r.peers && b in r.peers && r.peers[a].phase.Connected? && r.peers[b].phase.Connected?
  {
    var s, t := r.peers[a].phase.since, r.peers[b].phase.since;
    s > t || (s == t && a >= b)
  }

  /** The most recently connected candidate, ties broken by device. */
  function Latest(r: Registry, c: seq<DeviceId>): (w: DeviceId)
    requires c != [] && forall d :: d in c ==> d in r.peers && r.peers[d].phase.Connected?
    ensures w in c && forall d :: d in c ==> Newer(r, w, d)
  {
    if |c| == 1 then c[0]
    else
      var w := Latest(r, c[1..]);
      assert forall d :: d in c ==> d == c[0] || d in c[1..];
      if Newer(r, w, c[0]) then w else c[0]
  }

  function Winner(r: Registry, c: seq<DeviceId>, ep: EndpointId): (w: DeviceId)
    requires c != [] && forall d :: d in c ==> d in r.peers && r.peers[d].phase.Connected?
    ensures w in c
    ensures (exists d :: d in c && ShouldWin(r.peers[d].role, r.me, ep)) ==> ShouldWin(r.peers[w].role, r.me, ep)
    ensures (forall d :: d in c ==> !ShouldWin(r.peers[d].role, r.me, ep)) ==> forall d :: d in c ==> Newer(r, w, d)
  {
    var first := FirstWinner(r, c, ep);
    if first.Some? then first.value else Latest(r, c)
  }

  function DrainLosers(r: Registry, now: int, ep: EndpointId, order: seq<DeviceId>): Out {
    var c := Candidates(r, order, PrefixOf(ep));
    if |c| < 2 then Out(r, [])
    else
      var w := Winner(r, c, ep);
      Walk(r, order, Lose(now, PrefixOf(ep), w))
  }

  /** Asks the surviving connections to move to L2CAP where policy and role say so. */
  function RaiseAll(r: Registry, ep: EndpointId, order: seq<DeviceId>): Out {
    if r.preferL2cap then Walk(r, order, Raise(ConnectedCount(r.peers, PrefixOf(ep)), r.me, ep)) else Out(r, [])
  }

  /** Drains the losers, then raises the survivors. */
  function Settle(r: Registry, now: int, ep: EndpointId, order: seq<DeviceId>): Out {
    var o := DrainLosers(r, now, ep, order);
    var p := RaiseAll(o.reg, ep, order);
    Out(p.reg, o.actions + p.actions)
  }

  function HandleVerified(r: Registry, now: int, ep: EndpointId, exact: Option<DeviceId>, order: seq<DeviceId>): Out {
    var o1 := Walk(Stamp(r, ep, exact), order, Cancel(now, PrefixOf(ep)));
    var o2 := Settle(o1.reg, now, ep, order);
    Out(o2.reg, o1.actions + o2.actions)
  }

  function PruneIf(b: bool, o: Out): Out {
    if b then o.(reg := Prune(o.reg)) else o
  }

  predicate DeadAt(r: Registry, d: DeviceId) {
    d in r.peers && r.peers[d].phase.Dead?
  }

  function HandleForget(r: Registry, now: int, d: DeviceId): Out {
    PruneIf(d in r.peers, WithPeer(r, d, Drop(now)))
  }

  /** Forgets the device that a rotated address replaced, if any. */
  function Replace(r: Registry, now: int, replaced: Option<DeviceId>): Out {
    if replaced.Some? then HandleForget(r, now, replaced.value) else Out(r, [])
  }

  function HandleEndpoint(r: Registry, now: int, ep: EndpointId, exact: Option<DeviceId>, replaced: Option<DeviceId>, order: seq<DeviceId>): Out {
    var o1 := Replace(r, now, replaced);
    var o2 := HandleVerified(o1.reg, now, ep, exact, order);
    Out(o2.reg, o1.actions + o2.actions)
  }

  function Handle(r: Registry, now: int, cmd: Command): Out {
    match cmd
    case Advertised(prefix, d, end) => HandleAdvertised(r, now, prefix, d, end)
    case SendDatagram(d, target, send, q) =>
      WithPeer(Ensure(r, d), d, Submit(now, target, send, q))
    case ConnectSucceeded(d, lc, ch) =>
      WithPeer(r, d, Succeed(now, lc, ch))
    case ConnectFailed(d, lc) =>
      var o := WithPeer(r, d, Fail(now, lc));
      PruneIf(DeadAt(o.reg, d) && !DeadAt(r, d), o)
    case InboundGatt(d, source) =>
      if d in r.peers then WithPeer(r, d, TakeGatt(now, source))
      else Apply(r, d, InboundNew(d, r.nextLifecycle, now, Gatt))
    case InboundL2cap(d) =>
      if d in r.peers then WithPeer(r, d, TakeL2cap(now))
      else Apply(r, d, InboundNew(d, r.nextLifecycle, now, L2cap))
    case CentralDisconnected(d, reason) =>
      var o := WithPeer(r, d, Disconnect(now, reason));
      PruneIf(DeadAt(o.reg, d) && !DeadAt(r, d), o)
    case AdapterState(powered, order) => Walk(r, order, Power(now, powered))
    case Tick(order, lastRx) => HandleTick(r, now, order, lastRx)
    case Forget(d) => HandleForget(r, now, d)
    case Stalled(d, cause) => WithPeer(r, d, Stall(now, cause))
    case DataPipeReady(d, g, q) => WithPeer(r, d, Install(g, q))
    case L2capOpened(d, lc, g) => WithPeer(r, d, Opened(now, lc, g))
    case L2capFailed(d, lc, g) => WithPeer(r, d, OpenFailed(now, lc, g))
    case HandoverTimeout(d) => WithPeer(r, d, Handover)
    case VersionMismatch(d, lc) =>
      PruneIf(d in r.peers && r.peers[d].lifecycle == lc, WithPeer(r, d, Mismatch(now, lc)))
    case VerifiedEndpoint(ep, exact, replaced, order) => HandleEndpoint(r, now, ep, exact, replaced, order)
    case Subscribed(d, c, prefix) =>
      var known := if prefix.Some? && prefix.value in r.verified then Some(r.verified[prefix.value]) else None;
      WithPeer(Ensure(r, d), d, Subscribe(now, c, prefix, known))
    case Unsubscribed(d, c) =>
      var o := WithPeer(r, d, Unsubscribe(now, c));
      PruneIf(o.actions != [], o)
  }

  // ---------- a command as a step of one device ----------

  predicate Walks(cmd: Command) {
    cmd.AdapterState? || cmd.Tick? || cmd.VerifiedEndpoint?
  }

  predicate Creates(r: Registry, cmd: Command) {
    (cmd.Advertised? && !LiveAs(r.peers, cmd.prefix)) || cmd.SendDatagram? || cmd.Subscribed?
  }

  /** The step a command for one device makes that device take. */
  function TaskOf(r: Registry, now: int, cmd: Command): Task
    requires !Walks(cmd)
  {
    match cmd
    case Advertised(prefix, _, end) => if LiveAs(r.peers, prefix) then Mark(prefix) else AdvertiseTask(r, now, prefix, end)
    case SendDatagram(_, target, send, q) => Submit(now, target, send, q)
    case ConnectSucceeded(_, lc, ch) => Succeed(now, lc, ch)
    case ConnectFailed(_, lc) => Fail(now, lc)
    case InboundGatt(_, source) => TakeGatt(now, source)
    case InboundL2cap(_) => TakeL2cap(now)
    case CentralDisconnected(_, reason) => Disconnect(now, reason)
    case Forget(_) => Drop(now)
    case Stalled(_, cause) => Stall(now, cause)
    case DataPipeReady(_, g, q) => Install(g, q)
    case L2capOpened(_, lc, g) => Opened(now, lc, g)
    case L2capFailed(_, lc, g) => OpenFailed(now, lc, g)
    case HandoverTimeout(_) => Handover
    case VersionMismatch(_, lc) => Mismatch(now, lc)
    case Subscribed(_, ch, prefix) =>
      Subscribe(now, ch, prefix, if prefix.Some? && prefix.value in r.verified then Some(r.verified[prefix.value]) else None)
    case Unsubscribed(_, ch) => Unsubscribe(now, ch)
  }

  function Before(r: Registry, cmd: Command): Registry
    requires !Walks(cmd)
  {
    if Creates(r, cmd) then Ensure(r, cmd.device) else r
  }

  /** First bytes from an unknown device. */
  predicate Arrives(r: Registry, cmd: Command) {
    (cmd.InboundGatt? || cmd.InboundL2cap?) && cmd.device !in r.peers
  }

  /** Pruning aside, a command for one device is one step of that device. */
  lemma HandleOne(r: Registry, now: int, cmd: Command)
    requires !Walks(cmd) && !Arrives(r, cmd)
    ensures var o, w := Handle(r, now, cmd), WithPeer(Before(r, cmd), cmd.device, TaskOf(r, now, cmd));
            o.reg.peers == w.reg.peers && o.reg.nextLifecycle == w.reg.nextLifecycle && o.actions == w.actions
  {
  }
}
