/** What becomes of a datagram handed to the registry, exactly, and what a tick does, exactly. */
module SendLaws {
  import opened Wire
  import opened Identity
  import opened Dedup
  import opened Peers
  import opened RegistrySpec
  import opened Monitor
  import opened RegistryRun
  import opened RegistryTheorems
  import opened PeerLife
  import opened ActionLaws

  // ---------- accepted or turned away ----------

  /**
   The device is given up or being torn down, the datagram is for another generation,
   or the live pipe is full once everything before it has been moved.
   */
  predicate TurnsAway(e: Entry, send: Outgoing, q: Queue) {
    || e.phase.Dead?
    || (e.phase.Draining? && !e.resumeAfterDrain)
    || (e.phase.Connected? && send.txGen != e.phase.txGen)
    || (e.phase.Connected? && e.pipe.Some? && !q.closed && q.free <= |e.pending|)
  }

  /** Its answer, if it already has one. */
  ghost predicate AnsweredOnly(acts: seq<Action>, result: Ack) {
    forall k :: 0 <= k < |acts| && acts[k].AckSend? ==> acts[k].result == result
  }

  lemma SubmitLive(e: Entry, next: nat, send: Outgoing, q: Queue)
    ensures var r := EnqueueLive(e, next, send, q);
            var away := e.pipe.Some? && !q.closed && q.free <= |e.pending|;
            && (Refused(r.actions) <==> away)
            && AnsweredOnly(r.actions, if away then WouldBlock else Accepted)
  {
  }

  lemma SubmitAnswer(t: Task, e: Entry, n: nat, up: bool)
    requires t.Submit?
    ensures var r := Do(t, e, n, up);
            && (Refused(r.actions) <==> TurnsAway(e, t.send, t.queue))
            && AnsweredOnly(r.actions, if TurnsAway(e, t.send, t.queue) then WouldBlock else Accepted)
  {
    if e.phase.Connected? && t.send.txGen == e.phase.txGen {
      SubmitLive(e, n, t.send, t.queue);
    }
  }

  /** A submitted datagram is turned away exactly then; otherwise it joins the line, and is answered `Accepted` or not yet. */
  lemma SubmitExactly(t: Task, e: Entry, n: nat, up: bool)
    requires t.Submit?
    ensures var r := Do(t, e, n, up);
            && (Refused(r.actions) <==> TurnsAway(e, t.send, t.queue))
            && AnsweredOnly(r.actions, if TurnsAway(e, t.send, t.queue) then WouldBlock else Accepted)
            && Moved(r.actions) + r.entry.pending == e.pending + if TurnsAway(e, t.send, t.queue) then [] else [t.send]
  {
    SubmitAnswer(t, e, n, up);
    OrderKept(t, e, n, up);
  }

  /** The entry a datagram for `d` finds: a new one if there was none. */
  function EntryFor(r: Registry, d: DeviceId): Entry {
    if d in r.peers then r.peers[d] else NewEntry(d, r.nextLifecycle)
  }

  /** The same for the whole registry, from the state before the command alone. */
  lemma SendExactly(ms: Mons, r: Registry, now: int, d: DeviceId, target: Option<EndpointId>, send: Outgoing, q: Queue)
    requires Consistent(ms, r)
    ensures var cmd := SendDatagram(d, target, send, q);
            var o, e := Handle(r, now, cmd), EntryFor(r, d);
            && d in o.reg.peers
            && (AcceptedBy(r, now, cmd, d) == [] <==> TurnsAway(e, send, q))
            && AnsweredOnly(o.actions, if TurnsAway(e, send, q) then WouldBlock else Accepted)
            && Moved(o.actions) + o.reg.peers[d].pending == e.pending + if TurnsAway(e, send, q) then [] else [send]
  {
    var s := Ensure(r, d);
    EnsureConsistent(ms, r, d);
    assert PeerOk(MonOf(ms, d), d, s.peers[d], s.nextLifecycle);
    var t := Submit(now, target, send, q);
    var up := UpgradeOnConnect(s, s.peers[d]);
    SubmitExactly(t, s.peers[d], s.nextLifecycle, up);
    TaskOk(t, MonOf(ms, d), s.peers[d], s.nextLifecycle, up);
    ForBlock(Do(t, s.peers[d], s.nextLifecycle, up).actions, d, d);
  }

  // ---------- while a dial is under way ----------

  predicate DialPhase(p: Phase) {
    p.Unknown? || p.Discovered? || p.PendingDial? || p.Connecting? || p.Handshaking? || p.Reconnecting? || p.Restoring?
  }

  ghost predicate StaysDialing(r: Registry, cmds: seq<Timed>, d: DeviceId) {
    forall k :: 0 <= k <= |cmds| ==>
      d in Trace(r, cmds[..k]).reg.peers && DialPhase(Trace(r, cmds[..k]).reg.peers[d].phase)
  }

  /** Every datagram submitted for `d` in a run, in order. */
  function SentTo(cmds: seq<Timed>, d: DeviceId): seq<Outgoing> {
    if cmds == [] then []
    else
      var c := cmds[|cmds| - 1].command;
      SentTo(cmds[..|cmds| - 1], d) + if c.SendDatagram? && c.device == d then [c.send] else []
  }

  /**
   Nothing is turned away while a dial is under way. From any consistent state, and for
   as long as the device stays in the dial phases, every datagram submitted for it is
   accepted.
   */
  lemma {:induction false} DialingAcceptsAll(ms: Mons, r: Registry, cmds: seq<Timed>, d: DeviceId)
    requires Consistent(ms, r) && StaysDialing(r, cmds, d)
    ensures AcceptedIn(r, cmds, d) == SentTo(cmds, d)
  {
    if cmds != [] {
      var init, c := cmds[..|cmds| - 1], cmds[|cmds| - 1];
      assert forall k :: 0 <= k <= |init| ==> init[..k] == cmds[..k];
      DialingAcceptsAll(ms, r, init, d);
      var before := Trace(r, init);
      TraceGood(ms, r, init);
      assert DialPhase(Trace(r, cmds[..|init|]).reg.peers[d].phase);
      if c.command.SendDatagram? && c.command.device == d {
        SendExactly(WatchAll(ms, before.actions), before.reg, c.now, d, c.command.target, c.command.send, c.command.queue);
      }
    }
  }

  /** The same from any point of any run of the registry. */
  lemma NoneRefusedWhileDialing(prefer: bool, me: EndpointId, before: seq<Timed>, cmds: seq<Timed>, d: DeviceId)
    requires StaysDialing(Reached(prefer, me, before).reg, cmds, d)
    ensures AcceptedIn(Reached(prefer, me, before).reg, cmds, d) == SentTo(cmds, d)
  {
    ReachedGood(prefer, me, before);
    DialingAcceptsAll(WatchAll(map[], Reached(prefer, me, before).actions), Reached(prefer, me, before).reg, cmds, d);
  }

  // ---------- the line of waiting datagrams ----------

  /** The whole line is given up. */
  predicate Drops(t: Task, e: Entry) {
    || (t.Disconnect? && !Resumes(t, e))
    || (t.Stall? && e.phase.Connected?)
    || (t.Mismatch? && e.lifecycle == t.lifecycle)
    || (t.Unsubscribe? && e.role == Peripheral && HasChannel(e.phase) && e.chars - {t.char_} == {})
    || Silent(t, e)
    || (t.Cancel? && e.phase.PendingDial? && e.phase.prefix == t.prefix)
    || (t.Lose? && ConnectedAs(e, t.prefix) && e.device != t.winner)
    || t.Drop?
    || (t.Power? && !t.powered)
  }

  /** Two of these ways leave the senders without an answer. */
  predicate Unanswered(t: Task, e: Entry) {
    (t.Power? && !t.powered) || (t.Disconnect? && e.phase.Connecting?)
  }

  /** The datagrams whose senders are told that the link is gone. */
  function GivenUp(acts: seq<Action>): seq<Outgoing> {
    if acts == [] then []
    else
      var a := acts[|acts| - 1];
      GivenUp(acts[..|acts| - 1]) + if a.AckSend? && (a.result == BrokenPipe || a.result == Aborted) then [a.send] else []
  }

  lemma {:induction false} GivenUpConcat(a: seq<Action>, b: seq<Action>)
    ensures GivenUp(a + b) == GivenUp(a) + GivenUp(b)
    decreases |b|
  {
    if b == [] {
      assert a + b == a;
    } else {
      assert (a + b)[..|a + b| - 1] == a + b[..|b| - 1];
      GivenUpConcat(a, b[..|b| - 1]);
    }
  }

  ghost predicate NoneGivenUp(acts: seq<Action>) {
    forall k :: 0 <= k < |acts| && acts[k].AckSend? ==> acts[k].result == Accepted || acts[k].result == WouldBlock
  }

  lemma {:induction false} GivenUpNone(acts: seq<Action>)
    requires NoneGivenUp(acts)
    ensures GivenUp(acts) == []
  {
    if acts != [] {
      GivenUpNone(acts[..|acts| - 1]);
    }
  }

  lemma {:induction false} GivenUpAll(acts: seq<Action>, device: DeviceId, line: seq<Outgoing>, result: Ack)
    requires (result == BrokenPipe || result == Aborted) && |acts| == |line|
    requires forall i :: 0 <= i < |line| ==> acts[i] == AckSend(device, line[i], result)
    ensures GivenUp(acts) == line
  {
    if line != [] {
      GivenUpAll(acts[..|line| - 1], device, line[..|line| - 1], result);
      assert line == line[..|line| - 1] + [line[|line| - 1]];
    }
  }

  /** One retired lifecycle, the answers, and whatever else that answers nothing. */
  lemma GivenUpTeardown(e: Entry, head: seq<Action>, result: Ack, tail: seq<Action>)
    requires (result == BrokenPipe || result == Aborted) && NoneGivenUp(head) && NoneGivenUp(tail)
    ensures GivenUp(head + AckAll(e, result) + tail) == e.pending
  {
    GivenUpConcat(head, AckAll(e, result));
    GivenUpConcat(head + AckAll(e, result), tail);
    GivenUpNone(head);
    GivenUpNone(tail);
    GivenUpAll(AckAll(e, result), e.device, e.pending, result);
    assert [] + e.pending + [] == e.pending;
  }

  /**
   The line, exactly: a step that drops it answers every sender in order, but for the two
   silent ways; any other step keeps it and adds what it accepts.
   */
  ghost predicate LineLaw(t: Task, e: Entry, r: Eff) {
    if Drops(t, e)
    then r.entry.pending == [] && Moved(r.actions) == [] && GivenUp(r.actions) == (if Unanswered(t, e) then [] else e.pending)
    else Moved(r.actions) + r.entry.pending == e.pending + Taken(t, r) && GivenUp(r.actions) == []
  }

  lemma DrainLine(t: Task, e: Entry, n: nat, now: int, reason: Reason, tail: seq<Action>, r: Eff)
    requires Drops(t, e) && !Unanswered(t, e) && NoneGivenUp(tail) && (forall k :: 0 <= k < |tail| ==> !tail[k].PipeSend?)
    requires r.actions == DrainToDraining(e, n, now, reason).actions + tail && r.entry.pending == []
    ensures LineLaw(t, e, r)
  {
    GivenUpTeardown(e, [RetireLifecycle(e.device, e.lifecycle)], BrokenPipe, tail);
    MovedNone(r.actions);
  }

  /** A step that answers no failure and moves nothing. */
  lemma KeptLine(t: Task, e: Entry, r: Eff)
    requires !Drops(t, e) && NoneGivenUp(r.actions) && KeepsOrder(t, e, r) && (!t.Submit? && e.pending != [] ==> r.entry.pending != [] || Moved(r.actions) != [])
    ensures LineLaw(t, e, r)
  {
    GivenUpNone(r.actions);
    assert e.pending + [] == e.pending;
  }

  lemma SubmitLine(t: Task, e: Entry, n: nat, up: bool)
    requires t.Submit?
    ensures LineLaw(t, e, Do(t, e, n, up))
  {
    OrderKept(t, e, n, up);
    SubmitExactly(t, e, n, up);
    KeptLine(t, e, Do(t, e, n, up));
  }

  lemma InstallLine(t: Task, e: Entry, n: nat, up: bool)
    requires t.Install?
    ensures LineLaw(t, e, Do(t, e, n, up))
  {
    if e.txGen == t.txGen {
      FlushKeepsOrder(e, t.txGen, t.queue);
    } else {
      MovedNone(Do(t, e, n, up).actions);
      assert [] + e.pending == e.pending;
    }
    GivenUpNone(Do(t, e, n, up).actions);
    assert e.pending + [] == e.pending;
  }

  lemma DisconnectLine(t: Task, e: Entry, n: nat, up: bool)
    requires t.Disconnect?
    ensures LineLaw(t, e, Do(t, e, n, up))
  {
    var r := Do(t, e, n, up);
    if Resumes(t, e) {
      ResumeLine(t, e, n);
    } else if e.phase.Connecting? {
      GivenUpNone(r.actions);
      MovedNone(r.actions);
    } else {
      var refresh := if t.reason == ByGatt133 then [Refresh(e.device, e.lifecycle)] else [];
      DrainLine(t, e, n, t.now, t.reason, CloseOf(e, e.lifecycle, t.reason) + refresh, r);
    }
  }

  lemma ResumeLine(t: Task, e: Entry, n: nat)
    requires Resumes(t, e)
    ensures LineLaw(t, e, ResumeDrained(e, n, t.now))
  {
    var r := ResumeDrained(e, n, t.now);
    ClearPlain(e, n, t.now, None);
    ResumeQuiet(e, n, t.now);
    MovedNone(r.actions);
    GivenUpNone(r.actions);
    assert [] + e.pending == e.pending + [];
  }

  lemma ResumeQuiet(e: Entry, n: nat, now: int)
    ensures NoneGivenUp(ResumeDrained(e, n, now).actions)
  {
  }

  lemma AgeLine(t: Task, e: Entry, n: nat, up: bool)
    requires t.Age?
    ensures LineLaw(t, e, Do(t, e, n, up))
  {
    if Silent(t, e) {
      DrainLine(t, e, n, t.now, ByLinkDead, [CloseChannel(e.device, e.lifecycle, e.phase.channel, ByLinkDead)], Do(t, e, n, up));
    } else if Resumes(t, e) {
      ResumeLine(t, e, n);
    } else {
      AgeQuiet(t, e, n, up);
    }
  }

  lemma AgeQuiet(t: Task, e: Entry, n: nat, up: bool)
    requires t.Age? && !Silent(t, e) && !Resumes(t, e)
    ensures LineLaw(t, e, Do(t, e, n, up))
  {
    AgeSteps(t, e, n, up);
    var r := Do(t, e, n, up);
    MovedNone(r.actions);
    GivenUpNone(r.actions);
    assert [] + e.pending == e.pending + [];
  }

  lemma AgeSteps(t: Task, e: Entry, n: nat, up: bool)
    requires t.Age? && !Silent(t, e) && !Resumes(t, e)
    ensures QuietLine(e, Do(t, e, n, up))
  {
  }

  lemma EndLine(t: Task, e: Entry, n: nat, up: bool)
    requires t.Stall? || t.Mismatch? || t.Unsubscribe? || t.Cancel? || t.Lose?
    ensures LineLaw(t, e, Do(t, e, n, up))
  {
    var r := Do(t, e, n, up);
    if !Drops(t, e) {
      MovedNone(r.actions);
      GivenUpNone(r.actions);
      assert [] + e.pending == e.pending + [];
    } else if t.Stall? {
      var reason := if t.cause == LinkDead then ByLinkDead else ByLocalClose;
      DrainLine(t, e, n, t.now, reason, [CloseChannel(e.device, e.lifecycle, e.phase.channel, reason)], r);
    } else if t.Mismatch? {
      DrainLine(t, e, n, t.now, ByProtocolMismatch, CloseOf(e, e.lifecycle, ByProtocolMismatch), r);
    } else {
      var reason := if t.Unsubscribe? then ByRemoteClose else ByDedupLoser;
      assert r.actions == DrainToDraining(e, n, t.now, reason).actions + [];
      DrainLine(t, e, n, t.now, reason, [], r);
    }
  }

  lemma DropLine(t: Task, e: Entry, n: nat, up: bool)
    requires t.Drop?
    ensures LineLaw(t, e, Do(t, e, n, up))
  {
    GivenUpTeardown(e, [RetireLifecycle(e.device, e.lifecycle)], Aborted, CloseOf(e, e.lifecycle, ByLocalClose));
    MovedNone(Do(t, e, n, up).actions);
  }

  lemma PowerLine(t: Task, e: Entry, n: nat, up: bool)
    requires t.Power?
    ensures LineLaw(t, e, Do(t, e, n, up))
  {
    MovedNone(Do(t, e, n, up).actions);
    GivenUpNone(Do(t, e, n, up).actions);
    assert [] + e.pending == e.pending + [];
  }

  /** The remaining handlers keep the line as it is. */
  lemma OtherLine(t: Task, e: Entry, n: nat, up: bool)
    requires t.Mark? || t.Succeed? || t.Fail? || t.TakeGatt? || t.TakeL2cap? || t.Opened? || t.OpenFailed? || t.Handover? || t.Subscribe? || t.Raise?
    ensures LineLaw(t, e, Do(t, e, n, up))
  {
    OtherQuiet(t, e, n, up);
    var r := Do(t, e, n, up);
    MovedNone(r.actions);
    GivenUpNone(r.actions);
    assert [] + e.pending == e.pending + [];
  }

  ghost predicate QuietLine(e: Entry, r: Eff) {
    r.entry.pending == e.pending && forall k :: 0 <= k < |r.actions| ==> !r.actions[k].PipeSend? && !r.actions[k].AckSend?
  }

  lemma OtherQuiet(t: Task, e: Entry, n: nat, up: bool)
    requires t.Mark? || t.Succeed? || t.Fail? || t.TakeGatt? || t.TakeL2cap? || t.Opened? || t.OpenFailed? || t.Handover? || t.Subscribe? || t.Raise?
    ensures QuietLine(e, Do(t, e, n, up))
  {
    if t.TakeGatt? {
      GattQuiet(t, e, n, up);
    } else if t.Subscribe? || t.TakeL2cap? {
      SubscribeQuiet(t, e, n, up);
    } else if t.Succeed? || t.Fail? {
      DialQuiet(t, e, n, up);
    }
  }

  lemma GattQuiet(t: Task, e: Entry, n: nat, up: bool)
    requires t.TakeGatt?
    ensures QuietLine(e, Do(t, e, n, up))
  {
  }

  lemma SubscribeQuiet(t: Task, e: Entry, n: nat, up: bool)
    requires t.Subscribe? || t.TakeL2cap?
    ensures QuietLine(e, Do(t, e, n, up))
  {
  }

  lemma DialQuiet(t: Task, e: Entry, n: nat, up: bool)
    requires t.Succeed? || t.Fail?
    ensures QuietLine(e, Do(t, e, n, up))
  {
  }

  lemma AdvertiseLine(t: Task, e: Entry, n: nat, up: bool)
    requires t.Advertise?
    ensures LineLaw(t, e, Do(t, e, n, up))
  {
    AdvertisePlain(e, n, t.now, t.prefix, t.defer);
    AdvertiseQuiet(t, e, n, up);
    var r := Do(t, e, n, up);
    MovedNone(r.actions);
    GivenUpNone(r.actions);
    assert [] + e.pending == e.pending + [];
  }

  lemma AdvertiseQuiet(t: Task, e: Entry, n: nat, up: bool)
    requires t.Advertise?
    ensures NoneGivenUp(Do(t, e, n, up).actions)
  {
  }

  /** Every handler, the line exactly. */
  lemma LineExactly(t: Task, e: Entry, n: nat, up: bool)
    ensures LineLaw(t, e, Do(t, e, n, up))
  {
    if t.Submit? {
      SubmitLine(t, e, n, up);
    } else if t.Install? {
      InstallLine(t, e, n, up);
    } else if t.Disconnect? {
      DisconnectLine(t, e, n, up);
    } else if t.Age? {
      AgeLine(t, e, n, up);
    } else if t.Drop? {
      DropLine(t, e, n, up);
    } else if t.Power? {
      PowerLine(t, e, n, up);
    } else if t.Advertise? {
      AdvertiseLine(t, e, n, up);
    } else if t.Stall? || t.Mismatch? || t.Unsubscribe? || t.Cancel? || t.Lose? {
      EndLine(t, e, n, up);
    } else {
      OtherLine(t, e, n, up);
    }
  }

  /** A ready pipe is installed exactly if it is the latest, and then takes the longest part of the line that fits. */
  lemma ReadyExactly(e: Entry, n: nat, up: bool, txGen: nat, q: Queue)
    ensures var r := Do(Install(txGen, q), e, n, up);
            if txGen == e.txGen
            then r.entry.pipe == Some(txGen)
                 && Moved(r.actions) == e.pending[..if q.closed then 0 else Min(q.free, |e.pending|)]
            else r == Pure(e, n)
  {
    if txGen == e.txGen {
      MovedFlush(e, txGen, if q.closed then 0 else Min(q.free, |e.pending|));
    }
  }

  // ---------- a tick, exactly ----------

  /** A drain or a restore that has run out, with nothing to resume. */
  predicate GivesUp(t: Task, e: Entry) {
    || (e.phase.Draining? && !e.resumeAfterDrain && t.Age? && t.now - e.phase.since > DRAINING_TIMEOUT)
    || (e.phase.Restoring? && t.Age? && t.now - e.phase.since > RESTORING_TIMEOUT)
  }

  /**
   A tick dials, tears down an idle connection, resumes a drain or gives up, each exactly
   under its condition on phase and clock; in every other case it changes nothing.
   */
  lemma TickExactly(t: Task, e: Entry, n: nat, up: bool)
    requires t.Age? && e.lifecycle < n && !e.phase.Handshaking?
    ensures var r := Do(t, e, n, up);
            && (r.entry.phase == Dead(Drained, t.now) && e.phase != Dead(Drained, t.now) <==> GivesUp(t, e))
            && ((exists a :: a in r.actions && a.StartConnect?) <==> DialsNow(t, e))
            && ((exists a :: a in r.actions && Closes(a)) <==> Silent(t, e))
            && (!GivesUp(t, e) && !DialsNow(t, e) && !Silent(t, e) && !Resumes(t, e) ==> r == Pure(e, n))
  {
    EveryActionExactly(t, e, n, up);
  }

  /** What ticking leaves of a dead or a living entry. */
  ghost predicate Ticked(e: Entry, f: Entry, now: int) {
    if e.phase.Dead? then f == e else !f.phase.Dead? || f.phase.at == now
  }

  lemma TickedOnce(t: Task, e: Entry, n: nat, up: bool)
    requires t.Age?
    ensures Ticked(e, Do(t, e, n, up).entry, t.now)
  {
  }

  lemma {:induction false} TickedWalk(r: Registry, order: seq<DeviceId>, now: int, lastRx: map<DeviceId, int>, d: DeviceId)
    requires d in r.peers
    ensures var s := Walk(r, order, Age(now, lastRx)).reg; d in s.peers && Ticked(r.peers[d], s.peers[d], now)
  {
    if order != [] {
      var init, c := order[..|order| - 1], order[|order| - 1];
      TickedWalk(r, init, now, lastRx, d);
      var s := Walk(r, init, Age(now, lastRx)).reg;
      if c == d {
        TickedOnce(Age(now, lastRx), s.peers[d], s.nextLifecycle, UpgradeOnConnect(s, s.peers[d]));
      }
    }
  }

  /** An entry is collected exactly if it has been dead for more than a minute. */
  lemma CollectsExactly(r: Registry, order: seq<DeviceId>, now: int, lastRx: map<DeviceId, int>, d: DeviceId)
    requires d in r.peers
    ensures d !in HandleTick(r, now, order, lastRx).reg.peers <==> r.peers[d].phase.Dead? && now - r.peers[d].phase.at > DEAD_GC_TTL
  {
    TickedWalk(r, order, now, lastRx, d);
  }
}
