/**
 When the registry does what, for every handler: each kind of action is emitted exactly
 under a condition on the entry as it was before, whichever handler runs.
 */
module ActionLaws {
  import opened Wire
  import opened Identity
  import opened Dedup
  import opened Peers
  import opened RegistrySpec
  import opened Monitor
  import opened RegistryRun
  import opened RegistryTheorems
  import opened PeerLife

  // ---------- conditions on the entry as it was ----------

  /** A completion for the dial in progress. */
  predicate CurrentDial(t: Task, e: Entry) {
    (t.Succeed? || t.Fail?) && e.phase.Connecting? && e.lifecycle == t.lifecycle
  }

  /** A resumable drain comes to its end. */
  predicate Resumes(t: Task, e: Entry) {
    && e.phase.Draining? && e.resumeAfterDrain
    && (t.Disconnect? || (t.Age? && t.now - e.phase.since > DRAINING_TIMEOUT))
  }

  predicate Silent(t: Task, e: Entry) {
    t.Age? && e.phase.Connected? && e.pipe.Some?
    && t.now - (if e.device in t.lastRx then t.lastRx[e.device] else t.now) > CONNECTED_IDLE_DEADLINE
  }

  /** Something waits, and nothing asks to let the other side dial first. */
  predicate ReadyToDial(t: Task, e: Entry) {
    e.pending != [] && (t.Advertise? ==> t.defer.None?)
  }

  predicate DialsNow(t: Task, e: Entry) {
    || ((t.Age? || t.Advertise?) && e.phase.Reconnecting? && e.phase.nextAt <= t.now)
    || (t.Age? && e.phase.PendingDial? && e.phase.deadline <= t.now)
    || (t.Advertise? && ReadyToDial(t, e)
        && (e.phase.Unknown? || e.phase.Discovered? || (e.phase.Dead? && e.phase.why in {MaxRetries, Drained})))
    || (t.Submit? && e.phase.Discovered?)
    || (Resumes(t, e) && e.pending != [])
  }

  /** The attempt a dial counts from. */
  function AttemptOf(e: Entry): nat {
    if e.phase.Reconnecting? then e.phase.attempt else 0
  }

  predicate SettledPeripheral(e: Entry) {
    e.phase.Connected? && e.role == Peripheral && e.phase.channel.path == Gatt
  }

  predicate PipesNow(t: Task, e: Entry) {
    || (t.Succeed? && CurrentDial(t, e))
    || (t.TakeGatt? && !e.phase.Connected? && !e.phase.Restoring?)
    || (t.TakeGatt? && e.phase.Connected? && e.phase.channel.path == L2cap && e.role == Peripheral && e.pipe.None?
        && t.source == PeripheralReceivedC2p)
    || (t.TakeL2cap? && e.pipe.None?)
    || (t.Subscribe? && !SettledPeripheral(e) && !e.phase.Connecting? && !e.phase.Handshaking?)
    || ((t.Opened? || t.OpenFailed?) && e.phase.Handshaking? && e.lifecycle == t.lifecycle && e.upgradeGen == t.upgradeGen)
  }

  function PathOf(t: Task): ConnectPath {
    if t.TakeL2cap? || t.Opened? then L2cap else Gatt
  }

  /** The device is told to take its native connection down. */
  predicate ClosesNow(t: Task, e: Entry) {
    || (t.Fail? && CurrentDial(t, e))
    || ((t.Disconnect? || t.Drop? || (t.Mismatch? && e.lifecycle == t.lifecycle)) && HasChannel(e.phase))
    || (t.Stall? && e.phase.Connected?)
    || Silent(t, e)
  }

  predicate UpgradesNow(t: Task, e: Entry, up: bool) {
    || (t.Succeed? && CurrentDial(t, e) && up && !e.upgradeFailed)
    || (t.Raise? && WantsUpgrade(e, t.count, t.me, t.peer))
  }

  predicate SwapsNow(t: Task, e: Entry) {
    && e.phase.Connected? && e.pipe.Some?
    && (|| (t.TakeL2cap? && e.phase.channel.path == Gatt)
        || (t.Opened? && e.phase.upgrading && e.lifecycle == t.lifecycle && e.upgradeGen == t.upgradeGen))
  }

  // ---------- the laws ----------

  ghost predicate DialLaw(t: Task, e: Entry, r: Eff) {
    if DialsNow(t, e)
    then StartConnect(e.device, AttemptOf(e), r.entry.lifecycle) in r.actions && r.entry.phase == Connecting(AttemptOf(e), t.now)
    else forall k :: 0 <= k < |r.actions| ==> !r.actions[k].StartConnect?
  }

  ghost predicate PipeLaw(t: Task, e: Entry, r: Eff) {
    if PipesNow(t, e)
    then r.entry.phase.Connected? && r.entry.phase.txGen == r.entry.txGen == e.txGen + 1
         && StartDataPipe(e.device, r.entry.lifecycle, e.txGen + 1, r.entry.role, e.target, PathOf(t)) in r.actions
    else forall k :: 0 <= k < |r.actions| ==> !r.actions[k].StartDataPipe?
  }

  ghost predicate CloseLaw(t: Task, e: Entry, r: Eff) {
    if ClosesNow(t, e)
    then exists a :: a in r.actions && Closes(a) && a.device == e.device && a.lifecycle == e.lifecycle
    else forall k :: 0 <= k < |r.actions| ==> !Closes(r.actions[k])
  }

  ghost predicate UpgradeLaw(t: Task, e: Entry, up: bool, r: Eff) {
    if UpgradesNow(t, e, up)
    then UpgradeToL2cap(e.device, e.lifecycle, e.upgradeGen + 1) in r.actions && r.entry.phase.Connected? && r.entry.phase.upgrading
    else forall k :: 0 <= k < |r.actions| ==> !r.actions[k].UpgradeToL2cap?
  }

  ghost predicate SwapLaw(t: Task, e: Entry, r: Eff) {
    if SwapsNow(t, e)
    then SwapPipeToL2cap(e.device) in r.actions && r.entry.phase.Connected? && r.entry.phase.channel.path == L2cap && !r.entry.phase.upgrading
    else forall k :: 0 <= k < |r.actions| ==> !r.actions[k].SwapPipeToL2cap?
  }

  ghost predicate ReadLaw(t: Task, e: Entry, r: Eff) {
    if t.Succeed? && CurrentDial(t, e)
    then ReadVersion(e.device, e.lifecycle) in r.actions
    else forall k :: 0 <= k < |r.actions| ==> !r.actions[k].ReadVersion?
  }

  ghost predicate RefreshLaw(t: Task, e: Entry, r: Eff) {
    if t.Disconnect? && t.reason == ByGatt133 && !Resumes(t, e)
    then Refresh(e.device, e.lifecycle) in r.actions
    else forall k :: 0 <= k < |r.actions| ==> !r.actions[k].Refresh?
  }

  /** A lifecycle is retired exactly when the entry moves on to a fresh one. */
  ghost predicate RetireLaw(e: Entry, n: nat, r: Eff) {
    if r.entry.lifecycle != e.lifecycle
    then RetireLifecycle(e.device, e.lifecycle) in r.actions
    else forall k :: 0 <= k < |r.actions| ==> !r.actions[k].RetireLifecycle?
  }

  ghost predicate Laws(t: Task, e: Entry, n: nat, up: bool, r: Eff) {
    && DialLaw(t, e, r) && PipeLaw(t, e, r) && CloseLaw(t, e, r) && UpgradeLaw(t, e, up, r)
    && SwapLaw(t, e, r) && ReadLaw(t, e, r) && RefreshLaw(t, e, r) && RetireLaw(e, n, r)
  }

  ghost predicate ActsExactly(t: Task, e: Entry, n: nat, up: bool) {
    Laws(t, e, n, up, Do(t, e, n, up))
  }

  // ---------- steps of one kind ----------

  predicate Reads(t: Task, e: Entry) {
    t.Succeed? && CurrentDial(t, e)
  }

  predicate Refreshes(t: Task, e: Entry) {
    t.Disconnect? && t.reason == ByGatt133 && !Resumes(t, e)
  }

  predicate NothingElse(t: Task, e: Entry, up: bool) {
    !PipesNow(t, e) && !ClosesNow(t, e) && !UpgradesNow(t, e, up) && !SwapsNow(t, e) && !Reads(t, e) && !Refreshes(t, e)
  }

  ghost predicate SameLink(e: Entry, f: Entry) {
    f.device == e.device && f.lifecycle == e.lifecycle
  }

  lemma IdleStep(t: Task, e: Entry, n: nat, up: bool, f: Entry)
    requires NothingElse(t, e, up) && !DialsNow(t, e) && SameLink(e, f)
    ensures Laws(t, e, n, up, Pure(f, n))
  {
  }

  lemma DialStep(t: Task, e: Entry, n: nat, up: bool, f: Entry)
    requires NothingElse(t, e, up) && DialsNow(t, e) && SameLink(e, f) && e.lifecycle < n
    ensures Laws(t, e, n, up, BeginConnect(f, n, t.now, AttemptOf(e)))
  {
    var r := BeginConnect(f, n, t.now, AttemptOf(e));
    assert r.actions == [RetireLifecycle(e.device, e.lifecycle), StartConnect(e.device, AttemptOf(e), n)];
  }

  lemma RearmStep(t: Task, e: Entry, n: nat, up: bool, f: Entry, defer: Option<(KeyPrefix, int)>)
    requires NothingElse(t, e, up) && SameLink(e, f) && e.lifecycle < n && f.pending == e.pending && !e.phase.Reconnecting?
    requires t.Age? || t.Advertise? || t.Disconnect?
    requires DialsNow(t, e) <==> e.pending != [] && defer.None?
    ensures var c := ClearConnection(f, n);
            var a := ArmForDial(c.entry, c.next, t.now, defer);
            Laws(t, e, n, up, a.(actions := c.actions + a.actions))
  {
    var c := ClearConnection(f, n);
    var a := ArmForDial(c.entry, c.next, t.now, defer);
    if e.pending != [] && defer.None? {
      assert a.actions == [RetireLifecycle(e.device, n), StartConnect(e.device, 0, n + 1)];
      assert c.actions == [RetireLifecycle(e.device, e.lifecycle)];
    }
  }

  predicate NoStart(t: Task, e: Entry, up: bool) {
    !DialsNow(t, e) && !PipesNow(t, e) && !UpgradesNow(t, e, up) && !SwapsNow(t, e) && !Reads(t, e)
  }

  /** A teardown, followed by the cleanup if there is one to ask for. */
  lemma TeardownStep(t: Task, e: Entry, n: nat, up: bool, now: int, reason: Reason, tail: seq<Action>, r: Eff)
    requires NoStart(t, e, up) && !Refreshes(t, e) && e.lifecycle < n && r.entry.lifecycle == n
    requires r.actions == DrainToDraining(e, n, now, reason).actions + tail
    requires if ClosesNow(t, e) then |tail| == 1 && tail[0].CloseChannel? && tail[0].device == e.device && tail[0].lifecycle == e.lifecycle
             else tail == []
    ensures Laws(t, e, n, up, r)
  {
    DrainActs(e, n, now, reason);
    if tail != [] {
      assert r.actions[|r.actions| - 1] == tail[0];
    }
  }

  /** A pipe under the current lifecycle, or under a fresh one. */
  lemma PipeStep(t: Task, e: Entry, n: nat, up: bool, fresh_: bool, r: Eff)
    requires PipesNow(t, e) && !DialsNow(t, e) && !ClosesNow(t, e) && !UpgradesNow(t, e, up) && !SwapsNow(t, e) && !Reads(t, e) && !Refreshes(t, e)
    requires e.lifecycle < n && r.entry.lifecycle == (if fresh_ then n else e.lifecycle)
    requires r.entry.phase.Connected? && r.entry.phase.txGen == r.entry.txGen == e.txGen + 1
    requires r.actions == (if fresh_ then [RetireLifecycle(e.device, e.lifecycle)] else [])
                          + [StartDataPipe(e.device, r.entry.lifecycle, e.txGen + 1, r.entry.role, e.target, PathOf(t))]
    ensures Laws(t, e, n, up, r)
  {
  }

  lemma AgeDraining(t: Task, e: Entry, n: nat, up: bool)
    requires t.Age? && e.phase.Draining? && e.lifecycle < n
    ensures ActsExactly(t, e, n, up)
  {
    if t.now - e.phase.since <= DRAINING_TIMEOUT {
      IdleStep(t, e, n, up, e);
    } else if e.resumeAfterDrain {
      RearmStep(t, e, n, up, e, None);
    } else {
      IdleStep(t, e, n, up, e.(target := None, phase := Dead(Drained, t.now)));
    }
  }

  lemma AgeConnected(t: Task, e: Entry, n: nat, up: bool)
    requires t.Age? && e.phase.Connected? && e.lifecycle < n
    ensures ActsExactly(t, e, n, up)
  {
    if Silent(t, e) {
      TeardownStep(t, e, n, up, t.now, ByLinkDead, [CloseChannel(e.device, e.lifecycle, e.phase.channel, ByLinkDead)], Do(t, e, n, up));
    } else {
      IdleStep(t, e, n, up, e);
    }
  }

  /** A teardown retires the lifecycle and answers the waiting datagrams, nothing else. */
  lemma DrainActs(e: Entry, n: nat, now: int, reason: Reason)
    ensures var d := DrainToDraining(e, n, now, reason);
            && RetireLifecycle(e.device, e.lifecycle) in d.actions
            && (forall k :: 0 <= k < |d.actions| ==> d.actions[k].RetireLifecycle? || d.actions[k].AckSend?)
  {
    assert DrainToDraining(e, n, now, reason).actions[0] == RetireLifecycle(e.device, e.lifecycle);
  }

  lemma MarkActs(t: Task, e: Entry, n: nat, up: bool)
    requires t.Mark? && e.lifecycle < n
    ensures ActsExactly(t, e, n, up)
  {
  }

  lemma AdvertiseActs(t: Task, e: Entry, n: nat, up: bool)
    requires t.Advertise? && e.lifecycle < n
    ensures ActsExactly(t, e, n, up)
  {
    var f := e.(prefix := Some(t.prefix));
    if e.phase.Unknown? || e.phase.Discovered? {
      AdvertiseArms(t, e, n, up, f);
    } else if e.phase.Dead? && e.phase.why in {MaxRetries, Drained} {
      RearmStep(t, e, n, up, f, t.defer);
    } else if e.phase.Reconnecting? && e.phase.nextAt <= t.now {
      DialStep(t, e, n, up, f);
    } else {
      IdleStep(t, e, n, up, f);
    }
  }

  lemma AdvertiseArms(t: Task, e: Entry, n: nat, up: bool, f: Entry)
    requires t.Advertise? && (e.phase.Unknown? || e.phase.Discovered?) && e.lifecycle < n && f == e.(prefix := Some(t.prefix))
    ensures ActsExactly(t, e, n, up)
  {
    if DialsNow(t, e) {
      DialStep(t, e, n, up, f);
    } else if e.pending == [] {
      IdleStep(t, e, n, up, f.(phase := Discovered(t.now)));
      IdleStep(t, e, n, up, f);
    } else {
      IdleStep(t, e, n, up, f.(phase := PendingDial(t.now, t.defer.value.1, t.defer.value.0)));
    }
  }

  lemma SubmitActs(t: Task, e: Entry, n: nat, up: bool)
    requires t.Submit? && e.lifecycle < n
    ensures ActsExactly(t, e, n, up)
  {
    if e.phase.Discovered? {
      var f := e.(target := if t.target.Some? then t.target else e.target, pending := e.pending + [t.send]);
      DialStep(t, e, n, up, f);
    } else {
      SendIsQuiet(e, n, t.now, t.target, t.send, t.queue);
      SubmitQuiet(t, e, n, up, Do(t, e, n, up));
    }
  }

  lemma SubmitQuiet(t: Task, e: Entry, n: nat, up: bool, r: Eff)
    requires t.Submit? && !e.phase.Discovered? && OffLane(r.actions, e.device) && NoSwap(r.actions) && r.entry.lifecycle == e.lifecycle
    ensures Laws(t, e, n, up, r)
  {
  }

  ghost predicate NoSwap(acts: seq<Action>) {
    forall k :: 0 <= k < |acts| ==> !acts[k].SwapPipeToL2cap?
  }

  lemma SucceedActs(t: Task, e: Entry, n: nat, up: bool)
    requires t.Succeed? && e.lifecycle < n
    ensures ActsExactly(t, e, n, up)
  {
    if Reads(t, e) {
      SucceedCurrent(t, e, n, up);
    } else {
      IdleStep(t, e, n, up, e);
    }
  }

  lemma SucceedCurrent(t: Task, e: Entry, n: nat, up: bool)
    requires t.Succeed? && Reads(t, e) && e.lifecycle < n
    ensures ActsExactly(t, e, n, up)
  {
    SucceedList(t, e, n, up);
    SucceedLaws(t, e, n, up, Do(t, e, n, up));
  }

  lemma SucceedLaws(t: Task, e: Entry, n: nat, up: bool, r: Eff)
    requires t.Succeed? && Reads(t, e) && r.entry.lifecycle == e.lifecycle && r.entry.role == e.role
    requires r.entry.phase.Connected? && r.entry.phase.txGen == r.entry.txGen == e.txGen + 1
    requires up && !e.upgradeFailed ==> r.entry.phase.upgrading
    requires r.actions == [ReadVersion(e.device, e.lifecycle), StartDataPipe(e.device, e.lifecycle, e.txGen + 1, e.role, e.target, Gatt)]
                          + if up && !e.upgradeFailed then [UpgradeToL2cap(e.device, e.lifecycle, e.upgradeGen + 1)] else []
    ensures Laws(t, e, n, up, r)
  {
    if up && !e.upgradeFailed {
      assert r.actions[2] == UpgradeToL2cap(e.device, e.lifecycle, e.upgradeGen + 1);
    }
    assert r.actions[0] == ReadVersion(e.device, e.lifecycle);
    assert r.actions[1] == StartDataPipe(e.device, e.lifecycle, e.txGen + 1, e.role, e.target, Gatt);
  }

  lemma SucceedList(t: Task, e: Entry, n: nat, up: bool)
    requires t.Succeed? && Reads(t, e)
    ensures Do(t, e, n, up).actions == [ReadVersion(e.device, e.lifecycle), StartDataPipe(e.device, e.lifecycle, e.txGen + 1, e.role, e.target, Gatt)]
                                       + if up && !e.upgradeFailed then [UpgradeToL2cap(e.device, e.lifecycle, e.upgradeGen + 1)] else []
  {
  }

  lemma FailActs(t: Task, e: Entry, n: nat, up: bool)
    requires t.Fail? && e.lifecycle < n
    ensures ActsExactly(t, e, n, up)
  {
  }

  lemma TakeGattActs(t: Task, e: Entry, n: nat, up: bool)
    requires t.TakeGatt? && e.lifecycle < n
    ensures ActsExactly(t, e, n, up)
  {
    if e.phase.Handshaking? {
      TakeGattShake(t, e, n, up);
    } else if !PipesNow(t, e) {
      IdleStep(t, e, n, up, e);
    } else if e.phase.Connected? {
      RestartActs(t, e, n, up, e, None);
    } else {
      TakeGattOver(t, e, n, up);
    }
  }

  lemma TakeGattShake(t: Task, e: Entry, n: nat, up: bool)
    requires t.TakeGatt? && e.phase.Handshaking? && e.lifecycle < n
    ensures ActsExactly(t, e, n, up)
  {
    PipeStep(t, e, n, up, false, Do(t, e, n, up));
  }

  lemma TakeGattOver(t: Task, e: Entry, n: nat, up: bool)
    requires t.TakeGatt? && !e.phase.Handshaking? && !e.phase.Connected? && !e.phase.Restoring? && e.lifecycle < n
    ensures ActsExactly(t, e, n, up)
  {
    PipeStep(t, e, n, up, !(e.phase.Connecting? && t.source == CentralReceivedP2c), Do(t, e, n, up));
  }

  /** A restarted peripheral pipe: `f` is the entry with what was learned on the way. */
  lemma RestartActs(t: Task, e: Entry, n: nat, up: bool, f: Entry, c: Option<CharUuid>)
    requires (t.TakeGatt? || t.Subscribe?) && PipesNow(t, e) && SameLink(e, f) && f.txGen == e.txGen && f.target == e.target && e.lifecycle < n
    ensures Laws(t, e, n, up, RestartPeripheral(f, n, t.now, c))
  {
    PipeStep(t, e, n, up, true, RestartPeripheral(f, n, t.now, c));
  }

  lemma TakeL2capActs(t: Task, e: Entry, n: nat, up: bool)
    requires t.TakeL2cap? && e.lifecycle < n
    ensures ActsExactly(t, e, n, up)
  {
    if e.pipe.None? {
      PipeStep(t, e, n, up, true, Do(t, e, n, up));
    } else if SwapsNow(t, e) {
      assert Do(t, e, n, up).actions == [SwapPipeToL2cap(e.device)];
    } else {
      IdleStep(t, e, n, up, e);
    }
  }

  lemma DisconnectActs(t: Task, e: Entry, n: nat, up: bool)
    requires t.Disconnect? && e.lifecycle < n
    ensures ActsExactly(t, e, n, up)
  {
    if Resumes(t, e) {
      RearmStep(t, e, n, up, e, None);
    } else if e.phase.Connecting? {
      DisconnectDial(t, e, n, up);
    } else {
      DisconnectLink(t, e, n, up);
    }
  }

  lemma DisconnectDial(t: Task, e: Entry, n: nat, up: bool)
    requires t.Disconnect? && e.phase.Connecting? && e.lifecycle < n
    ensures ActsExactly(t, e, n, up)
  {
    var refresh := if t.reason == ByGatt133 then [Refresh(e.device, e.lifecycle)] else [];
    assert Do(t, e, n, up).actions == [RetireLifecycle(e.device, e.lifecycle)] + refresh;
  }

  lemma DisconnectLink(t: Task, e: Entry, n: nat, up: bool)
    requires t.Disconnect? && !e.phase.Connecting? && !Resumes(t, e) && e.lifecycle < n
    ensures ActsExactly(t, e, n, up)
  {
    var d := DrainToDraining(e, n, t.now, t.reason);
    DrainActs(e, n, t.now, t.reason);
    var refresh := if t.reason == ByGatt133 then [Refresh(e.device, e.lifecycle)] else [];
    LinkLaws(t, e, n, up, d.actions, CloseOf(e, e.lifecycle, t.reason), refresh, Do(t, e, n, up));
  }

  /** Answers, then the cleanup if there is one to ask for, then the refresh if the error calls for it. */
  lemma LinkLaws(t: Task, e: Entry, n: nat, up: bool, answers: seq<Action>, close: seq<Action>, refresh: seq<Action>, r: Eff)
    requires t.Disconnect? && !e.phase.Connecting? && !Resumes(t, e) && e.lifecycle != r.entry.lifecycle
    requires r.actions == answers + (close + refresh) && RetireLifecycle(e.device, e.lifecycle) in answers
    requires forall k :: 0 <= k < |answers| ==> answers[k].RetireLifecycle? || answers[k].AckSend?
    requires if HasChannel(e.phase) then |close| == 1 && close[0].CloseChannel? && close[0].device == e.device && close[0].lifecycle == e.lifecycle
             else close == []
    requires refresh == if t.reason == ByGatt133 then [Refresh(e.device, e.lifecycle)] else []
    ensures Laws(t, e, n, up, r)
  {
    if close != [] {
      assert r.actions[|answers|] == close[0];
    }
    if refresh != [] {
      assert r.actions[|answers| + |close|] == refresh[0];
    }
  }

  lemma PowerActs(t: Task, e: Entry, n: nat, up: bool)
    requires t.Power? && e.lifecycle < n
    ensures ActsExactly(t, e, n, up)
  {
  }

  lemma AgeActs(t: Task, e: Entry, n: nat, up: bool)
    requires t.Age? && e.lifecycle < n
    ensures ActsExactly(t, e, n, up)
  {
    if e.phase.Draining? {
      AgeDraining(t, e, n, up);
    } else if e.phase.Connected? {
      AgeConnected(t, e, n, up);
    } else if e.phase.Reconnecting? || e.phase.PendingDial? {
      AgeWaiting(t, e, n, up);
    } else {
      AgeOther(t, e, n, up);
    }
  }

  lemma AgeWaiting(t: Task, e: Entry, n: nat, up: bool)
    requires t.Age? && (e.phase.Reconnecting? || e.phase.PendingDial?) && e.lifecycle < n
    ensures ActsExactly(t, e, n, up)
  {
    if DialsNow(t, e) {
      DialStep(t, e, n, up, e);
    } else {
      IdleStep(t, e, n, up, e);
    }
  }

  lemma AgeOther(t: Task, e: Entry, n: nat, up: bool)
    requires t.Age? && !e.phase.Draining? && !e.phase.Connected? && !e.phase.Reconnecting? && !e.phase.PendingDial? && e.lifecycle < n
    ensures ActsExactly(t, e, n, up)
  {
    IdleStep(t, e, n, up, e);
    IdleStep(t, e, n, up, e.(target := None, phase := Dead(Drained, t.now)));
  }

  lemma DropActs(t: Task, e: Entry, n: nat, up: bool)
    requires t.Drop? && e.lifecycle < n
    ensures ActsExactly(t, e, n, up)
  {
    var answers := [RetireLifecycle(e.device, e.lifecycle)] + AckAll(e, Aborted);
    assert answers[0] == RetireLifecycle(e.device, e.lifecycle);
    DropLaws(t, e, n, up, answers, CloseOf(e, e.lifecycle, ByLocalClose), Do(t, e, n, up));
  }

  lemma DropLaws(t: Task, e: Entry, n: nat, up: bool, answers: seq<Action>, close: seq<Action>, r: Eff)
    requires t.Drop? && e.lifecycle != r.entry.lifecycle
    requires r.actions == answers + close && RetireLifecycle(e.device, e.lifecycle) in answers
    requires forall k :: 0 <= k < |answers| ==> answers[k].RetireLifecycle? || answers[k].AckSend?
    requires if HasChannel(e.phase) then |close| == 1 && close[0].CloseChannel? && close[0].device == e.device && close[0].lifecycle == e.lifecycle
             else close == []
    ensures Laws(t, e, n, up, r)
  {
    if close != [] {
      assert r.actions[|answers|] == close[0];
    }
  }

  lemma StallActs(t: Task, e: Entry, n: nat, up: bool)
    requires t.Stall? && e.lifecycle < n
    ensures ActsExactly(t, e, n, up)
  {
    if e.phase.Connected? {
      var reason := if t.cause == LinkDead then ByLinkDead else ByLocalClose;
      TeardownStep(t, e, n, up, t.now, reason, [CloseChannel(e.device, e.lifecycle, e.phase.channel, reason)], Do(t, e, n, up));
    } else {
      IdleStep(t, e, n, up, e);
    }
  }

  lemma InstallActs(t: Task, e: Entry, n: nat, up: bool)
    requires t.Install? && e.lifecycle < n
    ensures ActsExactly(t, e, n, up)
  {
  }

  lemma OpenedActs(t: Task, e: Entry, n: nat, up: bool)
    requires t.Opened? && e.lifecycle < n
    ensures ActsExactly(t, e, n, up)
  {
  }

  lemma OpenFailedActs(t: Task, e: Entry, n: nat, up: bool)
    requires t.OpenFailed? && e.lifecycle < n
    ensures ActsExactly(t, e, n, up)
  {
  }

  lemma HandoverActs(t: Task, e: Entry, n: nat, up: bool)
    requires t.Handover? && e.lifecycle < n
    ensures ActsExactly(t, e, n, up)
  {
  }

  lemma MismatchActs(t: Task, e: Entry, n: nat, up: bool)
    requires t.Mismatch? && e.lifecycle < n
    ensures ActsExactly(t, e, n, up)
  {
    if e.lifecycle == t.lifecycle {
      TeardownStep(t, e, n, up, t.now, ByProtocolMismatch, CloseOf(e, e.lifecycle, ByProtocolMismatch), Do(t, e, n, up));
    } else {
      IdleStep(t, e, n, up, e);
    }
  }

  lemma SubscribeActs(t: Task, e: Entry, n: nat, up: bool)
    requires t.Subscribe? && e.lifecycle < n
    ensures ActsExactly(t, e, n, up)
  {
    var f := NoteSubscription(e, t.char_, t.seen, t.known);
    if PipesNow(t, e) {
      RestartActs(t, e, n, up, f, Some(t.char_));
    } else {
      IdleStep(t, e, n, up, f);
    }
  }

  lemma UnsubscribeActs(t: Task, e: Entry, n: nat, up: bool)
    requires t.Unsubscribe? && e.lifecycle < n
    ensures ActsExactly(t, e, n, up)
  {
    var f := e.(chars := e.chars - {t.char_});
    IdleStep(t, e, n, up, f);
    assert DrainToDraining(f, n, t.now, ByRemoteClose).actions == DrainToDraining(e, n, t.now, ByRemoteClose).actions;
    var r := DrainToDraining(f, n, t.now, ByRemoteClose);
    assert r.actions == r.actions + [];
    TeardownStep(t, e, n, up, t.now, ByRemoteClose, [], r);
  }

  lemma CancelActs(t: Task, e: Entry, n: nat, up: bool)
    requires t.Cancel? && e.lifecycle < n
    ensures ActsExactly(t, e, n, up)
  {
    var r := DrainToDraining(e, n, t.now, ByDedupLoser);
    assert r.actions == r.actions + [];
    IdleStep(t, e, n, up, e);
    TeardownStep(t, e, n, up, t.now, ByDedupLoser, [], r);
  }

  lemma LoseActs(t: Task, e: Entry, n: nat, up: bool)
    requires t.Lose? && e.lifecycle < n
    ensures ActsExactly(t, e, n, up)
  {
    var r := DrainToDraining(e, n, t.now, ByDedupLoser);
    assert r.actions == r.actions + [];
    IdleStep(t, e, n, up, e);
    TeardownStep(t, e, n, up, t.now, ByDedupLoser, [], r);
  }

  lemma RaiseActs(t: Task, e: Entry, n: nat, up: bool)
    requires t.Raise? && e.lifecycle < n
    ensures ActsExactly(t, e, n, up)
  {
  }

  /** Every handler, every action, exactly when. */
  lemma EveryActionExactly(t: Task, e: Entry, n: nat, up: bool)
    requires e.lifecycle < n
    ensures ActsExactly(t, e, n, up)
  {
    match t
    case Mark(_) => MarkActs(t, e, n, up);
    case Advertise(_, _, _) => AdvertiseActs(t, e, n, up);
    case Submit(_, _, _, _) => SubmitActs(t, e, n, up);
    case Succeed(_, _, _) => SucceedActs(t, e, n, up);
    case Fail(_, _) => FailActs(t, e, n, up);
    case TakeGatt(_, _) => TakeGattActs(t, e, n, up);
    case TakeL2cap(_) => TakeL2capActs(t, e, n, up);
    case Disconnect(_, _) => DisconnectActs(t, e, n, up);
    case Power(_, _) => PowerActs(t, e, n, up);
    case Age(_, _) => AgeActs(t, e, n, up);
    case Drop(_) => DropActs(t, e, n, up);
    case Stall(_, _) => StallActs(t, e, n, up);
    case Install(_, _) => InstallActs(t, e, n, up);
    case Opened(_, _, _) => OpenedActs(t, e, n, up);
    case OpenFailed(_, _, _) => OpenFailedActs(t, e, n, up);
    case Handover => HandoverActs(t, e, n, up);
    case Mismatch(_, _) => MismatchActs(t, e, n, up);
    case Subscribe(_, _, _, _) => SubscribeActs(t, e, n, up);
    case Unsubscribe(_, _) => UnsubscribeActs(t, e, n, up);
    case Cancel(_, _) => CancelActs(t, e, n, up);
    case Lose(_, _, _) => LoseActs(t, e, n, up);
    case Raise(_, _, _) => RaiseActs(t, e, n, up);
  }
}
