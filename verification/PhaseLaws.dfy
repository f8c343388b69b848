/**
 Where every handler leaves a peer: the phase, the role and the two flags after a step, as
 conditions on the entry as it was before, whichever handler runs.
 */
module PhaseLaws {
  import opened Wire
  import opened Identity
  import opened Dedup
  import opened Peers
  import opened RegistrySpec
  import opened Monitor
  import opened RegistryRun
  import opened RegistryTheorems
  import opened PeerLife
  import opened ActionLaws
  import opened SendLaws

  // ---------- conditions on the entry as it was ----------

  /** The dial in progress has failed. */
  predicate FailsNow(t: Task, e: Entry) {
    (t.Fail? && CurrentDial(t, e)) || (t.Disconnect? && e.phase.Connecting?)
  }

  /** The line is dropped because the link is torn down, and may be dialed again later. */
  predicate DrainsNow(t: Task, e: Entry) {
    Drops(t, e) && !Unanswered(t, e) && !t.Drop? && !t.Mismatch?
  }

  function ReasonOf(t: Task): Reason {
    if t.Disconnect? then t.reason
    else if t.Fail? then ByTimeout
    else if t.Stall? && t.cause == LocalClose then ByLocalClose
    else if t.Stall? || t.Age? then ByLinkDead
    else if t.Unsubscribe? then ByRemoteClose
    else ByDedupLoser
  }

  /** A peer that was given up, but not for good, advertises again. */
  predicate Revives(t: Task, e: Entry) {
    t.Advertise? && e.phase.Dead? && e.phase.why in {MaxRetries, Drained}
  }

  /** The other side is given the chance to dial first. */
  predicate DefersNow(t: Task, e: Entry) {
    t.Advertise? && t.defer.Some? && e.pending != [] && (e.phase.Unknown? || e.phase.Discovered? || Revives(t, e))
  }

  predicate SeenNow(t: Task, e: Entry) {
    e.pending == [] && ((t.Advertise? && e.phase.Unknown?) || Revives(t, e) || Resumes(t, e))
  }

  /** An upgrade under way that comes to nothing. */
  predicate UpgradeLost(t: Task, e: Entry) {
    || (t.Handover? && e.phase.Connected?)
    || ((t.Opened? || t.OpenFailed?) && e.phase.Connected? && e.phase.upgrading && e.lifecycle == t.lifecycle
        && e.upgradeGen == t.upgradeGen && (t.Opened? ==> e.pipe.None?))
  }

  // ---------- the laws ----------

  /** The next phase of a peer whose dial has failed. */
  function AfterDial(t: Task, attempt: nat, now: int): Phase {
    if attempt + 1 < 15 then Reconnecting(attempt + 1, now + Backoff(attempt + 1), ReasonOf(t)) else Dead(MaxRetries, now)
  }

  /** A channel that was still shaking hands keeps its path. */
  function PathAfter(t: Task, e: Entry): ConnectPath {
    if e.phase.Handshaking? && (t.TakeGatt? || t.OpenFailed?) then e.phase.channel.path else PathOf(t)
  }

  ghost predicate PhaseLaw(t: Task, e: Entry, up: bool, f: Entry) {
    if DialsNow(t, e) then f.phase == Connecting(AttemptOf(e), t.now)
    else if PipesNow(t, e) then
      && f.phase.Connected? && f.phase.since == t.now && f.phase.channel.path == PathAfter(t, e)
      && f.phase.txGen == e.txGen + 1 && f.phase.upgrading == UpgradesNow(t, e, up)
    else if FailsNow(t, e) then f.phase == AfterDial(t, e.phase.attempt, t.now)
    else if DrainsNow(t, e) then f.phase == Draining(t.now, ReasonOf(t))
    else if t.Drop? then f.phase == Dead(Forgotten, t.now)
    else if t.Mismatch? && e.lifecycle == t.lifecycle then f.phase == Dead(ProtocolMismatch, t.now)
    else if GivesUp(t, e) then f.phase == Dead(Drained, t.now)
    else if t.Power? && !t.powered then f.phase == Restoring(t.now)
    else if t.Power? && e.phase.Restoring? then f.phase == Reconnecting(0, t.now, ByAdapterOff)
    else if DefersNow(t, e) then f.phase == PendingDial(t.now, t.defer.value.1, t.defer.value.0)
    else if SeenNow(t, e) then f.phase == Discovered(t.now)
    else if SwapsNow(t, e) then f.phase == e.phase.(channel := e.phase.channel.(path := L2cap), upgrading := false)
    else if UpgradesNow(t, e, up) then e.phase.Connected? && f.phase == e.phase.(upgrading := true)
    else if UpgradeLost(t, e) then
      f.phase == e.phase.(channel := e.phase.channel.(path := if t.Handover? then Gatt else e.phase.channel.path), upgrading := false)
    else f.phase == e.phase
  }

  /** The role changes only with a pipe that the other side opened, or that answers a dial. */
  ghost predicate RoleLaw(t: Task, e: Entry, f: Entry) {
    f.role == if t.Subscribe? && PipesNow(t, e) then Peripheral
              else if t.TakeGatt? && PipesNow(t, e) && !e.phase.Handshaking? && !(e.phase.Connected?)
              then (if t.source == CentralReceivedP2c then Central else Peripheral)
              else e.role
  }

  /** A resumable drain begins only with a local close, and no flag of a link outlives its teardown. */
  ghost predicate FlagLaw(t: Task, e: Entry, f: Entry) {
    var torn := DrainsNow(t, e) || (t.Mismatch? && e.lifecycle == t.lifecycle) || Resumes(t, e) || Revives(t, e);
    var failed := UpgradeLost(t, e) || t.Handover?
                  || (t.OpenFailed? && e.phase.Handshaking? && e.lifecycle == t.lifecycle && e.upgradeGen == t.upgradeGen);
    && f.resumeAfterDrain == (if torn then t.Stall? && t.cause == LocalClose else e.resumeAfterDrain)
    && f.upgradeFailed == (if torn then false else failed || e.upgradeFailed)
  }

  /** Whom the next pipe is for: set by a send that waits, settled by a ready pipe, dropped with the peer. */
  ghost predicate TargetLaw(t: Task, e: Entry, f: Entry) {
    f.target == if t.Submit? && !e.phase.Connected? && !TurnsAway(e, t.send, t.queue) && t.target.Some? then t.target
                else if (t.Install? && t.txGen == e.txGen) || (f.phase.Dead? && f.phase != e.phase) || t.Drop?
                        || (t.Mismatch? && e.lifecycle == t.lifecycle)
                then None
                else e.target
  }

  ghost predicate FateLaw(t: Task, e: Entry, up: bool, f: Entry) {
    PhaseLaw(t, e, up, f) && RoleLaw(t, e, f) && FlagLaw(t, e, f) && TargetLaw(t, e, f)
  }

  // ---------- every handler ----------

  lemma SendFate(t: Task, e: Entry, n: nat, up: bool)
    requires t.Submit? && e.phase.Connected?
    ensures FateLaw(t, e, up, Do(t, e, n, up).entry)
  {
  }

  lemma SubmitFate(t: Task, e: Entry, n: nat, up: bool)
    requires t.Submit? && !e.phase.Connected?
    ensures FateLaw(t, e, up, Do(t, e, n, up).entry)
  {
  }

  lemma AdvertiseFate(t: Task, e: Entry, n: nat, up: bool)
    requires t.Advertise? && !e.phase.Dead?
    ensures FateLaw(t, e, up, Do(t, e, n, up).entry)
  {
  }

  lemma ReviveFate(t: Task, e: Entry, n: nat, up: bool)
    requires t.Advertise? && e.phase.Dead?
    ensures FateLaw(t, e, up, Do(t, e, n, up).entry)
  {
  }

  lemma IdleFate(t: Task, e: Entry, n: nat, up: bool)
    requires t.Age? && e.phase.Connected?
    ensures FateLaw(t, e, up, Do(t, e, n, up).entry)
  {
  }

  lemma AgeFate(t: Task, e: Entry, n: nat, up: bool)
    requires t.Age? && !e.phase.Connected?
    ensures FateLaw(t, e, up, Do(t, e, n, up).entry)
  {
  }

  lemma DialFate(t: Task, e: Entry, n: nat, up: bool)
    requires t.Succeed? || t.Fail?
    ensures FateLaw(t, e, up, Do(t, e, n, up).entry)
  {
  }

  lemma GattFate(t: Task, e: Entry, n: nat, up: bool)
    requires t.TakeGatt?
    ensures FateLaw(t, e, up, Do(t, e, n, up).entry)
  {
  }

  lemma L2capFate(t: Task, e: Entry, n: nat, up: bool)
    requires t.TakeL2cap?
    ensures FateLaw(t, e, up, Do(t, e, n, up).entry)
  {
  }

  lemma SubscribeFate(t: Task, e: Entry, n: nat, up: bool)
    requires t.Subscribe?
    ensures FateLaw(t, e, up, Do(t, e, n, up).entry)
  {
  }

  lemma DisconnectFate(t: Task, e: Entry, n: nat, up: bool)
    requires t.Disconnect?
    ensures FateLaw(t, e, up, Do(t, e, n, up).entry)
  {
  }

  lemma StallFate(t: Task, e: Entry, n: nat, up: bool)
    requires t.Stall? || t.Unsubscribe?
    ensures FateLaw(t, e, up, Do(t, e, n, up).entry)
  {
  }

  lemma EndFate(t: Task, e: Entry, n: nat, up: bool)
    requires t.Drop? || t.Mismatch?
    ensures FateLaw(t, e, up, Do(t, e, n, up).entry)
  {
  }

  lemma OpenFate(t: Task, e: Entry, n: nat, up: bool)
    requires t.Opened? || t.OpenFailed?
    ensures FateLaw(t, e, up, Do(t, e, n, up).entry)
  {
  }

  lemma RaiseFate(t: Task, e: Entry, n: nat, up: bool)
    requires t.Handover? || t.Raise?
    ensures FateLaw(t, e, up, Do(t, e, n, up).entry)
  {
  }

  lemma PowerFate(t: Task, e: Entry, n: nat, up: bool)
    requires t.Power?
    ensures FateLaw(t, e, up, Do(t, e, n, up).entry)
  {
  }

  lemma OtherFate(t: Task, e: Entry, n: nat, up: bool)
    requires t.Mark? || t.Install? || t.Cancel? || t.Lose?
    ensures FateLaw(t, e, up, Do(t, e, n, up).entry)
  {
  }

  lemma RestFate(t: Task, e: Entry, n: nat, up: bool)
    requires t.Drop? || t.Stall? || t.Mismatch? || t.Unsubscribe? || t.Mark? || t.Install? || t.Power? || t.Cancel? || t.Lose?
    ensures FateLaw(t, e, up, Do(t, e, n, up).entry)
  {
    if t.Drop? || t.Mismatch? {
      EndFate(t, e, n, up);
    } else if t.Stall? || t.Unsubscribe? {
      StallFate(t, e, n, up);
    } else if t.Power? {
      PowerFate(t, e, n, up);
    } else {
      OtherFate(t, e, n, up);
    }
  }

  /**
   Every handler, every entry: which phase, role and flags the peer is left with. In
   particular a step that none of the conditions names leaves the phase alone.
   */
  lemma FateExactly(t: Task, e: Entry, n: nat, up: bool)
    ensures FateLaw(t, e, up, Do(t, e, n, up).entry)
  {
    match t
    case Submit(_, _, _, _) =>
      if e.phase.Connected? {
        SendFate(t, e, n, up);
      } else {
        SubmitFate(t, e, n, up);
      }
    case Advertise(_, _, _) =>
      if e.phase.Dead? {
        ReviveFate(t, e, n, up);
      } else {
        AdvertiseFate(t, e, n, up);
      }
    case Age(_, _) =>
      if e.phase.Connected? {
        IdleFate(t, e, n, up);
      } else {
        AgeFate(t, e, n, up);
      }
    case Succeed(_, _, _) => DialFate(t, e, n, up);
    case Fail(_, _) => DialFate(t, e, n, up);
    case TakeGatt(_, _) => GattFate(t, e, n, up);
    case TakeL2cap(_) => L2capFate(t, e, n, up);
    case Subscribe(_, _, _, _) => SubscribeFate(t, e, n, up);
    case Opened(_, _, _) => OpenFate(t, e, n, up);
    case OpenFailed(_, _, _) => OpenFate(t, e, n, up);
    case Handover => RaiseFate(t, e, n, up);
    case Raise(_, _, _) => RaiseFate(t, e, n, up);
    case Disconnect(_, _) => DisconnectFate(t, e, n, up);
    case _ => RestFate(t, e, n, up);
  }

  /** The identity behind an entry's prefix is known, policy prefers L2CAP, and no upgrade has failed. */
  predicate MayUpgrade(r: Registry, e: Entry) {
    r.preferL2cap && !e.upgradeFailed && e.prefix.Some? && e.prefix.value in r.verified
  }

  /**
   A dial that succeeds asks for the upgrade at once exactly if this side dialed, the peer
   is known, and the new link is the peer's only one or the one that the tiebreak keeps.
   */
  lemma ConnectUpgrades(r: Registry, now: int, d: DeviceId, lifecycle: nat, channel: nat)
    requires d in r.peers && r.peers[d].device == d && r.peers[d].phase.Connecting? && r.peers[d].lifecycle == lifecycle < r.nextLifecycle
    ensures var e := r.peers[d];
            (exists a :: a in Handle(r, now, ConnectSucceeded(d, lifecycle, channel)).actions && a.UpgradeToL2cap?)
            <==> MayUpgrade(r, e) && e.role == Central
                 && ((forall x :: x in r.peers ==> !ConnectedAs(r.peers[x], e.prefix.value)) || !Less(r.me, r.verified[e.prefix.value]))
  {
    var e, t := r.peers[d], Succeed(now, lifecycle, channel);
    EveryActionExactly(t, e, r.nextLifecycle, UpgradeOnConnect(r, e));
    if MayUpgrade(r, e) {
      CountIsZero(r, e.prefix.value);
    }
  }

  lemma CountIsZero(r: Registry, prefix: KeyPrefix)
    ensures ConnectedCount(r.peers, prefix) == 0 <==> forall x :: x in r.peers ==> !ConnectedAs(r.peers[x], prefix)
  {
    var held := set x | x in r.peers && ConnectedAs(r.peers[x], prefix);
    assert ConnectedCount(r.peers, prefix) == |held|;
    forall x | x in r.peers && ConnectedAs(r.peers[x], prefix)
      ensures held != {}
    {
      assert x in held;
    }
  }
}
