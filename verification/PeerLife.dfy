/**
 One peer over time: retry budget, pipe generations and send order, first for each
 handler and then over every run of the registry.
 */
module PeerLife {
  import opened Wire
  import opened Identity
  import opened Dedup
  import opened Peers
  import opened RegistrySpec
  import opened Monitor
  import opened RegistryRun
  import opened RegistryTheorems

  // ---------- retries and generations, for every handler ----------

  lemma BackoffRange(attempt: nat)
    requires 1 <= attempt
    ensures 1000 <= Backoff(attempt) <= 30000
    ensures Backoff(attempt) <= Backoff(attempt + 1)
  {
    if attempt < 6 {
      Pow2Grows(attempt);
    }
  }

  /** The first backoff is 1 s, and each later one doubles the one before up to 30 s. */
  lemma BackoffDoubles(attempt: nat)
    requires 1 <= attempt
    ensures Backoff(1) == 1000
    ensures Backoff(attempt + 1) == if 2 * Backoff(attempt) < 30000 then 2 * Backoff(attempt) else 30000
  {
    assert Pow2(1) == 2;
    if attempt < 6 {
      Pow2Grows(attempt);
      Pow2Grows(attempt + 1);
      BackoffSmall();
    }
  }

  lemma BackoffSmall()
    ensures Backoff(1) == 1000 && Backoff(2) == 2000 && Backoff(3) == 4000 && Backoff(4) == 8000 && Backoff(5) == 16000 && Backoff(6) == 30000
  {
    assert Pow2(2) == 2 * Pow2(1) && Pow2(3) == 2 * Pow2(2) && Pow2(4) == 2 * Pow2(3) && Pow2(5) == 2 * Pow2(4);
  }

  lemma {:induction false} Pow2Grows(k: nat)
    requires 1 <= k
    ensures 2 <= Pow2(k) && Pow2(k + 1) == 2 * Pow2(k)
  {
    if k > 1 {
      Pow2Grows(k - 1);
    }
  }

  /** A step that starts no pipe, moves nothing, installs nothing and keeps the pending line. */
  ghost predicate Plain(e: Entry, r: Eff) {
    && r.entry.txGen == e.txGen && r.entry.pending == e.pending && r.entry.pipe in {e.pipe, None}
    && (forall k :: 0 <= k < |r.actions| ==> !r.actions[k].StartDataPipe? && !r.actions[k].PipeSend?)
  }

  lemma ArmPlain(e: Entry, n: nat, now: int, defer: Option<(KeyPrefix, int)>)
    ensures Plain(e, ArmForDial(e, n, now, defer))
  {
  }

  lemma ClearPlain(e: Entry, n: nat, now: int, defer: Option<(KeyPrefix, int)>)
    ensures var c := ClearConnection(e, n);
            var a := ArmForDial(c.entry, c.next, now, defer);
            Plain(e, a.(actions := c.actions + a.actions))
  {
    var c := ClearConnection(e, n);
    ArmPlain(c.entry, c.next, now, defer);
  }

  lemma AdvertisePlain(e: Entry, n: nat, now: int, prefix: KeyPrefix, defer: Option<(KeyPrefix, int)>)
    ensures Plain(e, OnAdvertised(e, n, now, prefix, defer))
  {
    var e1 := e.(prefix := Some(prefix));
    match e1.phase
    case Unknown => ArmPlain(e1, n, now, defer);
    case Discovered(_) => ArmPlain(e1, n, now, defer);
    case Dead(_, _) => ClearPlain(e1, n, now, defer);
    case _ =>
  }

  lemma TickPlain(e: Entry, n: nat, now: int, lastRx: int)
    requires !e.phase.Connected?
    ensures Plain(e, OnTick(e, n, now, lastRx))
  {
    if e.phase.Draining? {
      ResumePlain(e, n, now);
    }
  }

  lemma ResumePlain(e: Entry, n: nat, now: int)
    ensures Plain(e, ResumeDrained(e, n, now))
  {
    ClearPlain(e, n, now, None);
  }

  // The handlers in groups, to keep each proof small.

  predicate Dials(t: Task) {
    t.Mark? || t.Advertise?
  }

  predicate Settles(t: Task) {
    t.Succeed? || t.Fail? || t.Power?
  }

  predicate Ends(t: Task) {
    t.Disconnect? || t.Drop? || t.Stall? || t.Mismatch?
  }

  predicate Carries(t: Task) {
    t.TakeGatt? || t.TakeL2cap? || t.Subscribe?
  }

  ghost predicate Charged(t: Task, e: Entry, n: nat, f: Entry) {
    e.failures < f.failures ==>
      && (t.Fail? || t.Disconnect?)
      && e.phase.Connecting? && f.failures == e.failures + 1 && f.lifecycle == n
      && (if e.phase.attempt + 1 < MAX_CONNECT_ATTEMPTS
          then f.phase.Reconnecting? && f.phase.attempt == e.phase.attempt + 1
               && f.phase.nextAt == t.now + Backoff(e.phase.attempt + 1)
          else f.phase == Dead(MaxRetries, t.now))
  }

  lemma ChargedSubmit(t: Task, e: Entry, n: nat, up: bool)
    requires t.Submit?
    ensures Charged(t, e, n, Do(t, e, n, up).entry)
  {
    if !e.phase.Discovered? {
      SendIsQuiet(e, n, t.now, t.target, t.send, t.queue);
    }
  }

  lemma ChargedEnding(t: Task, e: Entry, n: nat, up: bool)
    requires Ends(t)
    ensures Charged(t, e, n, Do(t, e, n, up).entry)
  {
  }

  lemma ChargedSettling(t: Task, e: Entry, n: nat, up: bool)
    requires Settles(t)
    ensures Charged(t, e, n, Do(t, e, n, up).entry)
  {
  }

  lemma ChargedAgeing(t: Task, e: Entry, n: nat, up: bool)
    requires t.Age?
    ensures Charged(t, e, n, Do(t, e, n, up).entry)
  {
  }

  lemma ChargedDialing(t: Task, e: Entry, n: nat, up: bool)
    requires Dials(t)
    ensures Charged(t, e, n, Do(t, e, n, up).entry)
  {
  }

  lemma ChargedOther(t: Task, e: Entry, n: nat, up: bool)
    requires !Settles(t) && !Ends(t) && !Dials(t) && !t.Age? && !t.Submit?
    ensures Charged(t, e, n, Do(t, e, n, up).entry)
  {
  }

  /**
   A failure is charged only to a dial in progress, ends its lifecycle, and brings
   the peer one attempt closer to being given up.
   */
  lemma FailureCharged(t: Task, e: Entry, n: nat, up: bool)
    ensures Charged(t, e, n, Do(t, e, n, up).entry)
  {
    if t.Submit? {
      ChargedSubmit(t, e, n, up);
    } else if Settles(t) {
      ChargedSettling(t, e, n, up);
    } else if Ends(t) {
      ChargedEnding(t, e, n, up);
    } else if t.Age? {
      ChargedAgeing(t, e, n, up);
    } else if Dials(t) {
      ChargedDialing(t, e, n, up);
    } else {
      ChargedOther(t, e, n, up);
    }
  }

  /** Pipes are started with strictly growing generations, all above `low` and none above `high`. */
  ghost predicate Growing(acts: seq<Action>, low: nat, high: nat) {
    && low <= high
    && (forall i :: 0 <= i < |acts| && acts[i].StartDataPipe? ==> low < acts[i].txGen <= high)
    && (forall i, j :: 0 <= i < j < |acts| && acts[i].StartDataPipe? && acts[j].StartDataPipe? ==>
          acts[i].txGen < acts[j].txGen)
  }

  /** Every pipe started has the next generation, and a ready pipe is installed only if it is the latest. */
  ghost predicate NextGeneration(t: Task, e: Entry, r: Eff) {
    && r.entry.txGen <= e.txGen + 1 && Growing(r.actions, e.txGen, r.entry.txGen)
    && (r.entry.pipe.Some? ==> r.entry.pipe == e.pipe || (t.Install? && t.txGen == e.txGen && r.entry.pipe == Some(t.txGen)))
  }

  lemma GenerationSubmit(t: Task, e: Entry, n: nat, up: bool)
    requires t.Submit?
    ensures NextGeneration(t, e, Do(t, e, n, up))
  {
    if !e.phase.Discovered? {
      SendIsQuiet(e, n, t.now, t.target, t.send, t.queue);
      var acts := Do(t, e, n, up).actions;
      assert forall k :: 0 <= k < |acts| ==> !OnLane(acts[k]);
    }
  }

  lemma DrainStartsNothing(e: Entry, n: nat, now: int, reason: Reason)
    ensures var d := DrainToDraining(e, n, now, reason);
            d.entry.txGen == e.txGen && d.entry.pipe.None? && forall k :: 0 <= k < |d.actions| ==> !d.actions[k].StartDataPipe?
  {
  }

  lemma GenerationDisconnect(t: Task, e: Entry, n: nat, up: bool)
    requires t.Disconnect?
    ensures NextGeneration(t, e, Do(t, e, n, up))
  {
    DrainStartsNothing(e, n, t.now, t.reason);
    ClearPlain(e, n, t.now, None);
  }

  lemma GenerationEnding(t: Task, e: Entry, n: nat, up: bool)
    requires Ends(t)
    ensures NextGeneration(t, e, Do(t, e, n, up))
  {
    if t.Disconnect? {
      GenerationDisconnect(t, e, n, up);
    }
  }

  lemma GenerationSettling(t: Task, e: Entry, n: nat, up: bool)
    requires Settles(t)
    ensures NextGeneration(t, e, Do(t, e, n, up))
  {
  }

  lemma GenerationAgeing(t: Task, e: Entry, n: nat, up: bool)
    requires t.Age?
    ensures NextGeneration(t, e, Do(t, e, n, up))
  {
    if !e.phase.Connected? {
      TickPlain(e, n, t.now, if e.device in t.lastRx then t.lastRx[e.device] else t.now);
    }
  }

  lemma GenerationDialing(t: Task, e: Entry, n: nat, up: bool)
    requires Dials(t)
    ensures NextGeneration(t, e, Do(t, e, n, up))
  {
    if t.Advertise? {
      AdvertisePlain(e, n, t.now, t.prefix, t.defer);
    }
  }

  lemma RestartGenerations(e: Entry, n: nat, now: int, c: Option<CharUuid>)
    ensures var r := RestartPeripheral(e, n, now, c);
            r.entry.txGen == e.txGen + 1 && r.entry.pipe.None? && Growing(r.actions, e.txGen, r.entry.txGen)
  {
  }

  lemma GenerationGatt(t: Task, e: Entry, n: nat, up: bool)
    requires t.TakeGatt?
    ensures NextGeneration(t, e, Do(t, e, n, up))
  {
    RestartGenerations(e, n, t.now, None);
  }

  lemma GenerationL2cap(t: Task, e: Entry, n: nat, up: bool)
    requires t.TakeL2cap?
    ensures NextGeneration(t, e, Do(t, e, n, up))
  {
  }

  lemma GenerationSubscribe(t: Task, e: Entry, n: nat, up: bool)
    requires t.Subscribe?
    ensures NextGeneration(t, e, Do(t, e, n, up))
  {
    RestartGenerations(NoteSubscription(e, t.char_, t.seen, t.known), n, t.now, Some(t.char_));
  }

  lemma GenerationOther(t: Task, e: Entry, n: nat, up: bool)
    requires !Settles(t) && !Ends(t) && !Dials(t) && !t.Age? && !Carries(t) && !t.Submit?
    ensures NextGeneration(t, e, Do(t, e, n, up))
  {
  }

  lemma GenerationsGrow(t: Task, e: Entry, n: nat, up: bool)
    ensures NextGeneration(t, e, Do(t, e, n, up))
  {
    if t.Submit? {
      GenerationSubmit(t, e, n, up);
    } else if Settles(t) {
      GenerationSettling(t, e, n, up);
    } else if Ends(t) {
      GenerationEnding(t, e, n, up);
    } else if t.Age? {
      GenerationAgeing(t, e, n, up);
    } else if Dials(t) {
      GenerationDialing(t, e, n, up);
    } else if t.TakeGatt? {
      GenerationGatt(t, e, n, up);
    } else if t.TakeL2cap? {
      GenerationL2cap(t, e, n, up);
    } else if t.Subscribe? {
      GenerationSubscribe(t, e, n, up);
    } else {
      GenerationOther(t, e, n, up);
    }
  }

  // ---------- send order ----------

  /** `a` is `b` with some elements left out. */
  predicate Subsequence(a: seq<Outgoing>, b: seq<Outgoing>) {
    a == [] || (b != [] && (if a[|a| - 1] == b[|b| - 1] && Subsequence(a[..|a| - 1], b[..|b| - 1]) then true
                            else Subsequence(a, b[..|b| - 1])))
  }

  lemma {:induction false} SubsequenceRefl(a: seq<Outgoing>)
    ensures Subsequence(a, a)
  {
    if a != [] {
      SubsequenceRefl(a[..|a| - 1]);
    }
  }

  lemma {:induction false} SubsequenceSnoc(a: seq<Outgoing>, b: seq<Outgoing>, x: Outgoing)
    requires Subsequence(a, b)
    ensures Subsequence(a, b + [x]) && Subsequence(a + [x], b + [x])
  {
    assert (b + [x])[..|b|] == b && (a + [x])[..|a|] == a;
  }

  /** The datagrams an action list moves into pipes, in order. */
  function Moved(acts: seq<Action>): seq<Outgoing> {
    if acts == [] then []
    else Moved(acts[..|acts| - 1]) + if acts[|acts| - 1].PipeSend? then [acts[|acts| - 1].send] else []
  }

  lemma {:induction false} MovedConcat(a: seq<Action>, b: seq<Action>)
    ensures Moved(a + b) == Moved(a) + Moved(b)
    decreases |b|
  {
    if b == [] {
      assert a + b == a;
    } else {
      assert (a + b)[..|a + b| - 1] == a + b[..|b| - 1];
      MovedConcat(a, b[..|b| - 1]);
    }
  }

  lemma {:induction false} MovedNone(acts: seq<Action>)
    requires forall k :: 0 <= k < |acts| ==> !acts[k].PipeSend?
    ensures Moved(acts) == []
  {
    if acts != [] {
      MovedNone(acts[..|acts| - 1]);
    }
  }

  /** Flushing moves a prefix of the pending queue and keeps the rest. */
  lemma {:induction false} MovedFlush(e: Entry, pipe: nat, n: nat)
    requires n <= |e.pending|
    ensures Moved(seq(n, i requires 0 <= i < n <= |e.pending| => PipeSend(e.device, pipe, e.pending[i]))) == e.pending[..n]
  {
    var acts := seq(n, i requires 0 <= i < n <= |e.pending| => PipeSend(e.device, pipe, e.pending[i]));
    if n > 0 {
      MovedFlush(e, pipe, n - 1);
      assert acts[..n - 1] == seq(n - 1, i requires 0 <= i < n - 1 <= |e.pending| => PipeSend(e.device, pipe, e.pending[i]));
      assert e.pending[..n] == e.pending[..n - 1] + [e.pending[n - 1]];
    }
  }

  /** A submitted datagram was turned away; the caller must try again. */
  predicate Refused(acts: seq<Action>) {
    acts != [] && acts[|acts| - 1].AckSend? && acts[|acts| - 1].result == WouldBlock
  }

  /** What a step accepts into the line of waiting datagrams. */
  function Taken(t: Task, r: Eff): seq<Outgoing> {
    if t.Submit? && !Refused(r.actions) then [t.send] else []
  }

  /** One handler extends the line of waiting datagrams by what it accepted, or drops the whole line. */
  ghost predicate KeepsOrder(t: Task, e: Entry, r: Eff) {
    var line := Moved(r.actions) + r.entry.pending;
    line == e.pending + Taken(t, r) || (!t.Submit? && line == [])
  }

  lemma FlushKeepsOrder(e: Entry, pipe: nat, q: Queue)
    ensures Moved(FlushPending(e, pipe, q).1) + FlushPending(e, pipe, q).0.pending == e.pending
  {
    var n := if q.closed then 0 else Min(q.free, |e.pending|);
    MovedFlush(e, pipe, n);
    assert e.pending[..n] + e.pending[n..] == e.pending;
  }

  lemma {:induction false} MovedInto(d: DeviceId, pipe: nat, send: Outgoing)
    ensures Moved([PipeSend(d, pipe, send), AckSend(d, send, Accepted)]) == [send]
    ensures Moved([AckSend(d, send, WouldBlock)]) == []
  {
    var p, a, w := PipeSend(d, pipe, send), AckSend(d, send, Accepted), AckSend(d, send, WouldBlock);
    assert [p, a][..1] == [p] && [p][..0] == [] && [w][..0] == [];
    assert Moved([p]) == [send];
  }

  lemma {:induction false} OpenKeepsOrder(e: Entry, next: nat, send: Outgoing, q: Queue)
    requires e.pipe.Some? && !q.closed
    ensures var r := EnqueueLive(e, next, send, q);
            Moved(r.actions) + r.entry.pending == e.pending + if Refused(r.actions) then [] else [send]
  {
    var r := EnqueueLive(e, next, send, q);
    var (e1, moved) := FlushPending(e, e.pipe.value, q);
    FlushKeepsOrder(e, e.pipe.value, q);
    MovedInto(e.device, e.pipe.value, send);
    if |moved| < q.free {
      assert e1.pending == [];
      MovedConcat(moved, [PipeSend(e.device, e.pipe.value, send), AckSend(e.device, send, Accepted)]);
      assert Moved(moved) + [] == e.pending;
      assert Moved(r.actions) + r.entry.pending == e.pending + [send];
    } else {
      MovedConcat(moved, [AckSend(e.device, send, WouldBlock)]);
      assert Moved(moved) + [] == Moved(moved) && e.pending + [] == e.pending;
    }
  }

  lemma {:induction false} LiveKeepsOrder(e: Entry, next: nat, send: Outgoing, q: Queue)
    ensures var r := EnqueueLive(e, next, send, q);
            Moved(r.actions) + r.entry.pending == e.pending + if Refused(r.actions) then [] else [send]
  {
    var r := EnqueueLive(e, next, send, q);
    if e.pipe.None? || q.closed {
      MovedNone(r.actions);
      assert [] + r.entry.pending == r.entry.pending == e.pending + [send];
    } else {
      OpenKeepsOrder(e, next, send, q);
    }
  }

  lemma OrderKept(t: Task, e: Entry, n: nat, up: bool)
    ensures KeepsOrder(t, e, Do(t, e, n, up))
  {
    var r := Do(t, e, n, up);
    if t.Submit? && e.phase.Connected? && t.send.txGen == e.phase.txGen {
      LiveKeepsOrder(e, n, t.send, t.queue);
    } else if t.Install? && e.txGen == t.txGen {
      FlushKeepsOrder(e, t.txGen, t.queue);
      assert e.pending + [] == e.pending;
    } else {
      NothingMoved(t, e, n, up);
      MovedNone(r.actions);
      assert [] + r.entry.pending == r.entry.pending;
    }
  }

  /** Outside those two handlers nothing enters a pipe. */
  ghost predicate Still(t: Task, e: Entry, r: Eff) {
    && (forall k :: 0 <= k < |r.actions| ==> !r.actions[k].PipeSend?)
    && (r.entry.pending == e.pending + Taken(t, r) || (!t.Submit? && r.entry.pending == []))
  }

  lemma NothingMoved(t: Task, e: Entry, n: nat, up: bool)
    requires !(t.Submit? && e.phase.Connected? && t.send.txGen == e.phase.txGen) && !(t.Install? && e.txGen == t.txGen)
    ensures Still(t, e, Do(t, e, n, up))
  {
    if t.Submit? {
      StillSubmit(t, e, n, up);
    } else if Settles(t) {
      StillSettling(t, e, n, up);
    } else if Ends(t) {
      StillEnding(t, e, n, up);
    } else if t.Age? {
      StillAgeing(t, e, n, up);
    } else if Dials(t) {
      StillDialing(t, e, n, up);
    } else if Carries(t) {
      StillCarrying(t, e, n, up);
    } else {
      StillOther(t, e, n, up);
    }
  }

  lemma StillSubmit(t: Task, e: Entry, n: nat, up: bool)
    requires t.Submit? && !(e.phase.Connected? && t.send.txGen == e.phase.txGen)
    ensures Still(t, e, Do(t, e, n, up))
  {
  }

  lemma DrainStill(e: Entry, n: nat, now: int, reason: Reason)
    ensures var d := DrainToDraining(e, n, now, reason);
            d.entry.pending == [] && forall k :: 0 <= k < |d.actions| ==> !d.actions[k].PipeSend?
  {
  }

  lemma StillDisconnect(t: Task, e: Entry, n: nat, up: bool)
    requires t.Disconnect?
    ensures Still(t, e, Do(t, e, n, up))
  {
    DrainStill(e, n, t.now, t.reason);
    ClearPlain(e, n, t.now, None);
    assert e.pending + [] == e.pending;
  }

  lemma StillEnding(t: Task, e: Entry, n: nat, up: bool)
    requires Ends(t)
    ensures Still(t, e, Do(t, e, n, up))
  {
    assert e.pending + [] == e.pending;
    if t.Disconnect? {
      StillDisconnect(t, e, n, up);
    } else if t.Drop? {
      StillDrop(t, e, n, up);
    } else {
      StillTeardown(t, e, n, up);
    }
  }

  lemma StillDrop(t: Task, e: Entry, n: nat, up: bool)
    requires t.Drop?
    ensures Still(t, e, Do(t, e, n, up))
  {
  }

  lemma StillTeardown(t: Task, e: Entry, n: nat, up: bool)
    requires t.Stall? || t.Mismatch?
    ensures Still(t, e, Do(t, e, n, up))
  {
    assert e.pending + [] == e.pending;
    DrainStill(e, n, t.now, if t.Mismatch? then ByProtocolMismatch else if t.cause == LinkDead then ByLinkDead else ByLocalClose);
  }

  lemma StillSettling(t: Task, e: Entry, n: nat, up: bool)
    requires Settles(t)
    ensures Still(t, e, Do(t, e, n, up))
  {
  }

  lemma StillAgeing(t: Task, e: Entry, n: nat, up: bool)
    requires t.Age?
    ensures Still(t, e, Do(t, e, n, up))
  {
    if e.phase.Connected? {
      var d := DrainToDraining(e, n, t.now, ByLinkDead);
      assert forall k :: 0 <= k < |d.actions| ==> !d.actions[k].PipeSend?;
    } else {
      TickPlain(e, n, t.now, if e.device in t.lastRx then t.lastRx[e.device] else t.now);
    }
    assert e.pending + [] == e.pending;
  }

  lemma StillDialing(t: Task, e: Entry, n: nat, up: bool)
    requires Dials(t)
    ensures Still(t, e, Do(t, e, n, up))
  {
    if t.Advertise? {
      AdvertisePlain(e, n, t.now, t.prefix, t.defer);
    }
    assert e.pending + [] == e.pending;
  }

  lemma RestartStill(e: Entry, n: nat, now: int, c: Option<CharUuid>)
    ensures var r := RestartPeripheral(e, n, now, c);
            r.entry.pending == e.pending && forall k :: 0 <= k < |r.actions| ==> !r.actions[k].PipeSend?
  {
  }

  lemma StillGatt(t: Task, e: Entry, n: nat, up: bool)
    requires t.TakeGatt?
    ensures Still(t, e, Do(t, e, n, up))
  {
    RestartStill(e, n, t.now, None);
    assert e.pending + [] == e.pending;
  }

  lemma StillCarrying(t: Task, e: Entry, n: nat, up: bool)
    requires Carries(t)
    ensures Still(t, e, Do(t, e, n, up))
  {
    assert e.pending + [] == e.pending;
    if t.TakeGatt? {
      StillGatt(t, e, n, up);
    } else if t.Subscribe? {
      RestartStill(NoteSubscription(e, t.char_, t.seen, t.known), n, t.now, Some(t.char_));
    }
  }

  lemma StillOther(t: Task, e: Entry, n: nat, up: bool)
    requires !Settles(t) && !Ends(t) && !Dials(t) && !t.Age? && !Carries(t) && !t.Submit? && !(t.Install? && e.txGen == t.txGen)
    ensures Still(t, e, Do(t, e, n, up))
  {
  }

  lemma {:induction false} SubsequenceConcat(m: seq<Outgoing>, a: seq<Outgoing>, b: seq<Outgoing>)
    requires Subsequence(a, b)
    ensures Subsequence(m + a, m + b)
    decreases |b|
  {
    if a == [] {
      SubsequenceRefl(m);
      SubsequenceMore(m, m, b);
      assert m + a == m;
    } else {
      var b', x := b[..|b| - 1], b[|b| - 1];
      assert m + b == m + b' + [x];
      if a[|a| - 1] == x && Subsequence(a[..|a| - 1], b') {
        SubsequenceConcat(m, a[..|a| - 1], b');
        SubsequenceSnoc(m + a[..|a| - 1], m + b', x);
        assert m + a == m + a[..|a| - 1] + [x];
      } else {
        SubsequenceConcat(m, a, b');
        SubsequenceSnoc(m + a, m + b', x);
      }
    }
  }

  lemma {:induction false} SubsequenceMore(a: seq<Outgoing>, b: seq<Outgoing>, more: seq<Outgoing>)
    requires Subsequence(a, b)
    ensures Subsequence(a, b + more)
    decreases |more|
  {
    if more == [] {
      assert b + more == b;
    } else {
      var init, x := more[..|more| - 1], more[|more| - 1];
      SubsequenceMore(a, b, init);
      SubsequenceSnoc(a, b + init, x);
      assert b + more == b + init + [x];
    }
  }

  /** Appending the same tail to both keeps the relation. */
  lemma {:induction false} SubsequenceTail(a: seq<Outgoing>, b: seq<Outgoing>, tail: seq<Outgoing>)
    requires Subsequence(a, b)
    ensures Subsequence(a + tail, b + tail)
    decreases |tail|
  {
    if tail == [] {
      assert a + tail == a && b + tail == b;
    } else {
      var init, x := tail[..|tail| - 1], tail[|tail| - 1];
      SubsequenceTail(a, b, init);
      SubsequenceSnoc(a + init, b + init, x);
      assert a + tail == a + init + [x] && b + tail == b + init + [x];
    }
  }

  lemma {:induction false} SubsequenceTrans(a: seq<Outgoing>, b: seq<Outgoing>, c: seq<Outgoing>)
    requires Subsequence(a, b) && Subsequence(b, c)
    ensures Subsequence(a, c)
    decreases |c|
  {
    if a != [] {
      var b', c' := b[..|b| - 1], c[..|c| - 1];
      if b[|b| - 1] == c[|c| - 1] && Subsequence(b', c') {
        if a[|a| - 1] == b[|b| - 1] && Subsequence(a[..|a| - 1], b') {
          SubsequenceTrans(a[..|a| - 1], b', c');
        } else {
          SubsequenceTrans(a, b', c');
        }
      } else {
        SubsequenceTrans(a, b, c');
      }
    }
  }

  // ---------- a peer between two moments ----------

  /**
   Between entry `e` and entry `f`, with `acts` emitted and `accepted` accepted in
   between: pipes were started with strictly growing generations, and the datagrams
   moved into pipes, followed by those still waiting, are those that waited before
   followed by the accepted ones, in order, some left out and none repeated.
   */
  ghost predicate Lived(e: Entry, acts: seq<Action>, f: Entry, accepted: seq<Outgoing>) {
    && Growing(acts, e.txGen, f.txGen)
    && Subsequence(Moved(acts) + f.pending, e.pending + accepted)
  }

  lemma LivedNothing(e: Entry, f: Entry)
    requires e.txGen == f.txGen && e.pending == f.pending
    ensures Lived(e, [], f, [])
  {
    SubsequenceRefl(e.pending);
    assert [] + e.pending == e.pending && e.pending + [] == e.pending;
  }

  /** Two stretches of moving, on the sequences alone. */
  lemma {:induction false} LineTrans(m: seq<Outgoing>, f: seq<Outgoing>, p: seq<Outgoing>, n: seq<Outgoing>, g: seq<Outgoing>, y: seq<Outgoing>)
    requires Subsequence(m + f, p) && Subsequence(n + g, f + y)
    ensures Subsequence(m + n + g, p + y)
  {
    SubsequenceConcat(m, n + g, f + y);
    SubsequenceTail(m + f, p, y);
    assert m + (n + g) == m + n + g;
    assert m + (f + y) == m + f + y;
    SubsequenceTrans(m + n + g, m + f + y, p + y);
  }

  lemma {:induction false} LivedTrans(e: Entry, a: seq<Action>, f: Entry, x: seq<Outgoing>, b: seq<Action>, g: Entry, y: seq<Outgoing>)
    requires Lived(e, a, f, x) && Lived(f, b, g, y)
    ensures Lived(e, a + b, g, x + y)
  {
    GrowingConcat(a, b, e.txGen, f.txGen, g.txGen);
    MovedConcat(a, b);
    LineTrans(Moved(a), f.pending, e.pending + x, Moved(b), g.pending, y);
    assert e.pending + x + y == e.pending + (x + y);
  }

  lemma GrowingConcat(a: seq<Action>, b: seq<Action>, low: nat, mid: nat, high: nat)
    requires Growing(a, low, mid) && Growing(b, mid, high)
    ensures Growing(a + b, low, high)
  {
  }

  lemma {:induction false} DoLived(t: Task, e: Entry, n: nat, up: bool)
    ensures var r := Do(t, e, n, up); Lived(e, r.actions, r.entry, Taken(t, r))
  {
    GenerationsGrow(t, e, n, up);
    OrderKept(t, e, n, up);
    SubsequenceRefl(e.pending + Taken(t, Do(t, e, n, up)));
  }

  // ---------- from the registry to one peer ----------

  /** The actions of one device. */
  function For(acts: seq<Action>, d: DeviceId): seq<Action> {
    if acts == [] then []
    else For(acts[..|acts| - 1], d) + if acts[|acts| - 1].device == d then [acts[|acts| - 1]] else []
  }

  lemma {:induction false} ForConcat(a: seq<Action>, b: seq<Action>, d: DeviceId)
    ensures For(a + b, d) == For(a, d) + For(b, d)
    decreases |b|
  {
    if b == [] {
      assert a + b == a;
    } else {
      assert (a + b)[..|a + b| - 1] == a + b[..|b| - 1];
      ForConcat(a, b[..|b| - 1], d);
    }
  }

  lemma {:induction false} ForBlock(acts: seq<Action>, c: DeviceId, d: DeviceId)
    requires OnlyFor(acts, c)
    ensures For(acts, d) == if c == d then acts else []
  {
    if acts != [] {
      ForBlock(acts[..|acts| - 1], c, d);
      assert acts == acts[..|acts| - 1] + [acts[|acts| - 1]];
    }
  }

  /** What peer `d` goes through while `r` becomes `o`. */
  ghost predicate Passed(r: Registry, o: Out, d: DeviceId, accepted: seq<Outgoing>) {
    d in r.peers && d in o.reg.peers && Lived(r.peers[d], For(o.actions, d), o.reg.peers[d], accepted)
  }

  lemma {:induction false} PassedThen(r: Registry, o: Out, p: Out, d: DeviceId, x: seq<Outgoing>, y: seq<Outgoing>)
    requires Passed(r, o, d, x) && Passed(o.reg, p, d, y)
    ensures Passed(r, Out(p.reg, o.actions + p.actions), d, x + y)
  {
    ForConcat(o.actions, p.actions, d);
    LivedTrans(r.peers[d], For(o.actions, d), o.reg.peers[d], x, For(p.actions, d), p.reg.peers[d], y);
  }

  /** Handling peer `c`, as peer `d` sees it. */
  lemma WithPeerPassed(ms: Mons, r: Registry, c: DeviceId, t: Task, d: DeviceId)
    requires Consistent(ms, r) && d in r.peers
    ensures var o := WithPeer(r, c, t);
            Passed(r, o, d, if c == d && t.Submit? && !Refused(For(o.actions, d)) then [t.send] else [])
  {
    var o := WithPeer(r, c, t);
    LivedNothing(r.peers[d], r.peers[d]);
    if c in r.peers {
      assert PeerOk(MonOf(ms, c), c, r.peers[c], r.nextLifecycle);
      TaskOk(t, MonOf(ms, c), r.peers[c], r.nextLifecycle, UpgradeOnConnect(r, r.peers[c]));
      ForBlock(o.actions, c, d);
      DoLived(t, r.peers[c], r.nextLifecycle, UpgradeOnConnect(r, r.peers[c]));
    }
  }

  lemma {:induction false} WalkPassed(ms: Mons, r: Registry, order: seq<DeviceId>, t: Task, d: DeviceId)
    requires Consistent(ms, r) && d in r.peers && !t.Submit?
    ensures Passed(r, Walk(r, order, t), d, [])
  {
    if order == [] {
      LivedNothing(r.peers[d], r.peers[d]);
    } else {
      var init, last := order[..|order| - 1], order[|order| - 1];
      var before := Walk(r, init, t);
      WalkPassed(ms, r, init, t, d);
      WalkGood(ms, r, init, t);
      WithPeerPassed(WatchAll(ms, before.actions), before.reg, last, t, d);
      PassedThen(r, before, WithPeer(before.reg, last, t), d, [], []);
    }
  }

  lemma {:induction false} RaisePassed(ms: Mons, r: Registry, ep: EndpointId, order: seq<DeviceId>, d: DeviceId)
    requires Consistent(ms, r) && d in r.peers
    ensures Passed(r, RaiseAll(r, ep, order), d, [])
  {
    LivedNothing(r.peers[d], r.peers[d]);
    if r.preferL2cap {
      WalkPassed(ms, r, order, Raise(ConnectedCount(r.peers, PrefixOf(ep)), r.me, ep), d);
    }
  }

  lemma {:induction false} SettlePassed(ms: Mons, r: Registry, now: int, ep: EndpointId, order: seq<DeviceId>, d: DeviceId)
    requires Consistent(ms, r) && d in r.peers
    ensures Passed(r, Settle(r, now, ep, order), d, [])
  {
    var o := DrainLosers(r, now, ep, order);
    LosersGood(ms, r, now, ep, order);
    LosersPassed(ms, r, now, ep, order, d);
    RaisePassed(WatchAll(ms, o.actions), o.reg, ep, order, d);
    PassedThen(r, o, RaiseAll(o.reg, ep, order), d, [], []);
  }

  lemma {:induction false} VerifiedPassed(ms: Mons, r: Registry, now: int, ep: EndpointId, exact: Option<DeviceId>, order: seq<DeviceId>, d: DeviceId)
    requires Consistent(ms, r) && d in r.peers
    ensures Passed(r, HandleVerified(r, now, ep, exact, order), d, [])
  {
    var r1 := Stamp(r, ep, exact);
    StampConsistent(ms, r, ep, exact);
    var t := Cancel(now, PrefixOf(ep));
    var o1 := Walk(r1, order, t);
    WalkPassed(ms, r1, order, t, d);
    WalkGood(ms, r1, order, t);
    var o2 := Settle(o1.reg, now, ep, order);
    SettlePassed(WatchAll(ms, o1.actions), o1.reg, now, ep, order, d);
    PassedThen(r1, o1, o2, d, [], []);
    StampPassed(r, ep, exact, d, Out(o2.reg, o1.actions + o2.actions));
  }

  /** Stamping touches neither the pending line nor the generation. */
  lemma {:induction false} StampPassed(r: Registry, ep: EndpointId, exact: Option<DeviceId>, d: DeviceId, o: Out)
    requires d in r.peers && Passed(Stamp(r, ep, exact), o, d, [])
    ensures Passed(r, o, d, [])
  {
  }

  lemma {:induction false} LosersPassed(ms: Mons, r: Registry, now: int, ep: EndpointId, order: seq<DeviceId>, d: DeviceId)
    requires Consistent(ms, r) && d in r.peers
    ensures Passed(r, DrainLosers(r, now, ep, order), d, [])
  {
    var c := Candidates(r, order, PrefixOf(ep));
    LivedNothing(r.peers[d], r.peers[d]);
    if |c| >= 2 {
      WalkPassed(ms, r, order, Lose(now, PrefixOf(ep), Winner(r, c, ep)), d);
    }
  }

  /** What a command adds to the datagrams accepted for `d`. */
  function AcceptedBy(r: Registry, now: int, cmd: Command, d: DeviceId): seq<Outgoing> {
    if cmd.SendDatagram? && cmd.device == d && !Refused(For(Handle(r, now, cmd).actions, d)) then [cmd.send] else []
  }

  lemma TaskSends(r: Registry, now: int, cmd: Command)
    requires !Walks(cmd)
    ensures var t := TaskOf(r, now, cmd); (t.Submit? <==> cmd.SendDatagram?) && (t.Submit? ==> t.send == cmd.send)
  {
  }

  lemma {:induction false} OnePassed(ms: Mons, r: Registry, cmd: Command, t: Task, d: DeviceId, o: Out)
    requires Consistent(ms, r) && d in r.peers && !Walks(cmd)
    requires (t.Submit? <==> cmd.SendDatagram?) && (t.Submit? ==> t.send == cmd.send)
    requires var w := WithPeer(Before(r, cmd), cmd.device, t); o.reg.peers == w.reg.peers && o.actions == w.actions
    ensures Passed(r, o, d, if cmd.SendDatagram? && cmd.device == d && !Refused(For(o.actions, d)) then [cmd.send] else [])
  {
    EnsureConsistent(ms, r, cmd.device);
    WithPeerPassed(ms, Before(r, cmd), cmd.device, t, d);
  }

  lemma {:induction false} ArrivesPassed(r: Registry, now: int, cmd: Command, d: DeviceId)
    requires d in r.peers && Arrives(r, cmd)
    ensures Passed(r, Handle(r, now, cmd), d, [])
  {
    ForBlock(Handle(r, now, cmd).actions, cmd.device, d);
    LivedNothing(r.peers[d], r.peers[d]);
  }

  lemma {:induction false} HandleOnePassed(ms: Mons, r: Registry, now: int, cmd: Command, d: DeviceId)
    requires Consistent(ms, r) && d in r.peers && !Walks(cmd) && !Arrives(r, cmd)
    ensures Passed(r, Handle(r, now, cmd), d, AcceptedBy(r, now, cmd, d))
  {
    HandleOne(r, now, cmd);
    TaskSends(r, now, cmd);
    OnePassed(ms, r, cmd, TaskOf(r, now, cmd), d, Handle(r, now, cmd));
  }

  lemma {:induction false} HandlePassed(ms: Mons, r: Registry, now: int, cmd: Command, d: DeviceId)
    requires Consistent(ms, r) && d in r.peers && d in Handle(r, now, cmd).reg.peers
    ensures Passed(r, Handle(r, now, cmd), d, AcceptedBy(r, now, cmd, d))
  {
    if Walks(cmd) {
      WalksPassed(ms, r, now, cmd, d);
    } else if Arrives(r, cmd) {
      ArrivesPassed(r, now, cmd, d);
    } else {
      HandleOnePassed(ms, r, now, cmd, d);
    }
  }

  lemma {:induction false} WalksPassed(ms: Mons, r: Registry, now: int, cmd: Command, d: DeviceId)
    requires Consistent(ms, r) && d in r.peers && d in Handle(r, now, cmd).reg.peers && Walks(cmd)
    ensures Passed(r, Handle(r, now, cmd), d, [])
  {
    if cmd.AdapterState? {
      PowerPassed(ms, r, now, cmd, d);
    } else if cmd.Tick? {
      TickPassed(ms, r, now, cmd.order, cmd.lastRx, d);
    } else {
      EndpointPassed(ms, r, now, cmd.endpoint, cmd.exact, cmd.replaced, cmd.order, d);
    }
  }

  lemma {:induction false} PowerPassed(ms: Mons, r: Registry, now: int, cmd: Command, d: DeviceId)
    requires Consistent(ms, r) && d in r.peers && cmd.AdapterState?
    ensures Passed(r, Handle(r, now, cmd), d, [])
  {
    WalkPassed(ms, r, cmd.order, Power(now, cmd.powered), d);
  }

  lemma {:induction false} TickPassed(ms: Mons, r: Registry, now: int, order: seq<DeviceId>, lastRx: map<DeviceId, int>, d: DeviceId)
    requires Consistent(ms, r) && d in r.peers && d in HandleTick(r, now, order, lastRx).reg.peers
    ensures Passed(r, HandleTick(r, now, order, lastRx), d, [])
  {
    WalkPassed(ms, r, order, Age(now, lastRx), d);
  }

  lemma {:induction false} EndpointPassed(ms: Mons, r: Registry, now: int, ep: EndpointId, exact: Option<DeviceId>, replaced: Option<DeviceId>,
                                          order: seq<DeviceId>, d: DeviceId)
    requires Consistent(ms, r) && d in r.peers
    ensures Passed(r, HandleEndpoint(r, now, ep, exact, replaced, order), d, [])
  {
    var o1 := Replace(r, now, replaced);
    ReplaceGood(ms, r, now, replaced);
    ReplacedPassed(ms, r, now, replaced, d);
    VerifiedPassed(WatchAll(ms, o1.actions), o1.reg, now, ep, exact, order, d);
    PassedThen(r, o1, HandleVerified(o1.reg, now, ep, exact, order), d, [], []);
  }

  lemma {:induction false} ReplacedPassed(ms: Mons, r: Registry, now: int, replaced: Option<DeviceId>, d: DeviceId)
    requires Consistent(ms, r) && d in r.peers
    ensures Passed(r, Replace(r, now, replaced), d, [])
  {
    LivedNothing(r.peers[d], r.peers[d]);
    if replaced.Some? {
      WithPeerPassed(ms, r, replaced.value, Drop(now), d);
    }
  }

  /** Device `d` has an entry throughout the run. */
  ghost predicate Stays(r: Registry, cmds: seq<Timed>, d: DeviceId) {
    forall k :: 0 <= k <= |cmds| ==> d in Trace(r, cmds[..k]).reg.peers
  }

  /** Every datagram accepted for `d` in a run, in order. */
  function AcceptedIn(r: Registry, cmds: seq<Timed>, d: DeviceId): seq<Outgoing> {
    if cmds == [] then []
    else
      var init, c := cmds[..|cmds| - 1], cmds[|cmds| - 1];
      AcceptedIn(r, init, d) + AcceptedBy(Trace(r, init).reg, c.now, c.command, d)
  }

  /**
   Generations and send order. From any reachable state, and for as long as `d` keeps
   its entry: every data pipe is started with a strictly larger generation, and the
   datagrams moved into pipes, followed by those still waiting, are those that waited
   at the start followed by the accepted ones, in order, some left out and none repeated.
   */
  lemma {:induction false} LifeInOrder(ms: Mons, r: Registry, cmds: seq<Timed>, d: DeviceId)
    requires Consistent(ms, r) && Stays(r, cmds, d)
    ensures Passed(r, Trace(r, cmds), d, AcceptedIn(r, cmds, d))
  {
    assert cmds[..|cmds|] == cmds && cmds[..0] == [];
    if cmds == [] {
      LivedNothing(r.peers[d], r.peers[d]);
    } else {
      var init, c := cmds[..|cmds| - 1], cmds[|cmds| - 1];
      assert forall k :: 0 <= k <= |init| ==> init[..k] == cmds[..k];
      var before := Trace(r, init);
      LifeInOrder(ms, r, init, d);
      TraceGood(ms, r, init);
      HandlePassed(WatchAll(ms, before.actions), before.reg, c.now, c.command, d);
      PassedThen(r, before, Handle(before.reg, c.now, c.command), d,
                 AcceptedIn(r, init, d), AcceptedBy(before.reg, c.now, c.command, d));
    }
  }

  // ---------- the retry budget over a run ----------

  /** A failure is charged exactly when a dial in progress fails or loses its link. */
  lemma ChargesExactly(t: Task, e: Entry, n: nat, up: bool)
    ensures e.failures < Do(t, e, n, up).entry.failures <==>
            e.phase.Connecting? && (t.Disconnect? || (t.Fail? && t.lifecycle == e.lifecycle))
  {
    FailureCharged(t, e, n, up);
    if t.Fail? || t.Disconnect? {
      DialFailure(t, e, n, up);
    }
  }

  lemma DialFailure(t: Task, e: Entry, n: nat, up: bool)
    requires t.Fail? || t.Disconnect?
    ensures e.failures < Do(t, e, n, up).entry.failures <==>
            e.phase.Connecting? && (t.Disconnect? || (t.Fail? && t.lifecycle == e.lifecycle))
  {
  }

  /** The command raises the failure count of `d`. */
  ghost predicate Charges(r: Registry, c: Timed, d: DeviceId) {
    var s := Handle(r, c.now, c.command).reg;
    d in r.peers && d in s.peers && r.peers[d].failures < s.peers[d].failures
  }

  lemma WithPeerUncharged(r: Registry, c: DeviceId, t: Task, d: DeviceId)
    requires d in r.peers && !t.Fail? && !t.Disconnect?
    ensures d in WithPeer(r, c, t).reg.peers && WithPeer(r, c, t).reg.peers[d].failures <= r.peers[d].failures
  {
    if c == d {
      FailureCharged(t, r.peers[d], r.nextLifecycle, UpgradeOnConnect(r, r.peers[d]));
    }
  }

  lemma {:induction false} WalkUncharged(r: Registry, order: seq<DeviceId>, t: Task, d: DeviceId)
    requires d in r.peers && !t.Fail? && !t.Disconnect?
    ensures d in Walk(r, order, t).reg.peers && Walk(r, order, t).reg.peers[d].failures <= r.peers[d].failures
  {
    if order != [] {
      var init := order[..|order| - 1];
      WalkUncharged(r, init, t, d);
      WithPeerUncharged(Walk(r, init, t).reg, order[|order| - 1], t, d);
    }
  }

  lemma {:induction false} VerifiedUncharged(r: Registry, now: int, ep: EndpointId, exact: Option<DeviceId>, order: seq<DeviceId>, d: DeviceId)
    requires d in r.peers
    ensures var s := HandleVerified(r, now, ep, exact, order).reg; d in s.peers && s.peers[d].failures <= r.peers[d].failures
  {
    var r1 := Stamp(r, ep, exact);
    WalkUncharged(r1, order, Cancel(now, PrefixOf(ep)), d);
    var r2 := Walk(r1, order, Cancel(now, PrefixOf(ep))).reg;
    var c := Candidates(r2, order, PrefixOf(ep));
    if |c| >= 2 {
      WalkUncharged(r2, order, Lose(now, PrefixOf(ep), Winner(r2, c, ep)), d);
    }
    var r3 := DrainLosers(r2, now, ep, order).reg;
    WalkUncharged(r3, order, Raise(ConnectedCount(r3.peers, PrefixOf(ep)), r3.me, ep), d);
  }

  /** The two commands that can charge `d`, and the step they take. */
  function ChargingTask(c: Timed): Option<Task> {
    match c.command
    case ConnectFailed(_, lc) => Some(Fail(c.now, lc))
    case CentralDisconnected(_, reason) => Some(Disconnect(c.now, reason))
    case _ => None
  }

  lemma ChargeStep(r: Registry, c: Timed, d: DeviceId)
    requires Charges(r, c, d)
    ensures ChargingTask(c).Some? && c.command.device == d
    ensures Charged(ChargingTask(c).value, r.peers[d], r.nextLifecycle, Handle(r, c.now, c.command).reg.peers[d])
  {
    if Walks(c.command) {
      WalksUncharged(r, c, d);
    } else if !Arrives(r, c.command) {
      HandleOne(r, c.now, c.command);
      var before, t := Before(r, c.command), TaskOf(r, c.now, c.command);
      if t.Fail? || t.Disconnect? {
        FailureCharged(t, r.peers[d], r.nextLifecycle, UpgradeOnConnect(r, r.peers[d]));
      } else {
        WithPeerUncharged(before, c.command.device, t, d);
      }
    }
  }

  lemma {:induction false} WalksUncharged(r: Registry, c: Timed, d: DeviceId)
    requires Walks(c.command)
    ensures !Charges(r, c, d)
  {
    if d in r.peers {
      match c.command
      case AdapterState(powered, order) => WalkUncharged(r, order, Power(c.now, powered), d);
      case Tick(order, lastRx) => WalkUncharged(r, order, Age(c.now, lastRx), d);
      case VerifiedEndpoint(_, _, _, _) => EndpointUncharged(r, c, d);
    }
  }

  lemma EndpointUncharged(r: Registry, c: Timed, d: DeviceId)
    requires c.command.VerifiedEndpoint? && d in r.peers
    ensures !Charges(r, c, d)
  {
    var o := Replace(r, c.now, c.command.replaced);
    ReplaceUncharged(r, c.now, c.command.replaced, d);
    VerifiedUncharged(o.reg, c.now, c.command.endpoint, c.command.exact, c.command.order, d);
  }

  lemma ReplaceUncharged(r: Registry, now: int, replaced: Option<DeviceId>, d: DeviceId)
    requires d in r.peers
    ensures var o := Replace(r, now, replaced); d in o.reg.peers && o.reg.peers[d].failures <= r.peers[d].failures
  {
    if replaced.Some? {
      WithPeerUncharged(r, replaced.value, Drop(now), d);
    }
  }

  /**
   Retry budget. Two failures charged to the same device in one run, whichever of the
   two commands charges them, are charged to different lifecycles.
   */
  lemma OneChargePerLifecycle(ms: Mons, r: Registry, c: Timed, cmds: seq<Timed>, c': Timed, d: DeviceId)
    requires Consistent(ms, r) && Charges(r, c, d)
    requires Charges(Trace(r, [c] + cmds).reg, c', d)
    ensures r.peers[d].lifecycle < Trace(r, [c] + cmds).reg.peers[d].lifecycle
  {
    var s := Handle(r, c.now, c.command).reg;
    ChargeStep(r, c, d);
    assert [c][..0] == [];
    assert Trace(r, [c]).reg == s;
    TraceConcat(r, [c], cmds);
    TraceAdvances(s, cmds);
    HandleAdvances(r, c.now, c.command);
    assert PeerOk(MonOf(ms, d), d, r.peers[d], r.nextLifecycle);
  }

  // ---------- the same, for runs from an empty registry ----------

  /** `LifeInOrder` from any point of any run. */
  lemma SendOrder(prefer: bool, me: EndpointId, before: seq<Timed>, cmds: seq<Timed>, d: DeviceId)
    requires Stays(Reached(prefer, me, before).reg, cmds, d)
    ensures var r := Reached(prefer, me, before).reg;
            Passed(r, Trace(r, cmds), d, AcceptedIn(r, cmds, d))
  {
    ReachedGood(prefer, me, before);
    LifeInOrder(WatchAll(map[], Reached(prefer, me, before).actions), Reached(prefer, me, before).reg, cmds, d);
  }

  /**
   At any point of any run: a command that charges a failure to a device does so to its
   dial in progress, the next failure charged to that device is charged to a newer
   lifecycle, and the dial's attempt was below the limit.
   */
  lemma RetryBudget(prefer: bool, me: EndpointId, before: seq<Timed>, c: Timed, cmds: seq<Timed>, c': Timed, d: DeviceId)
    requires var r := Reached(prefer, me, before).reg; Charges(r, c, d) && Charges(Trace(r, [c] + cmds).reg, c', d)
    ensures var r := Reached(prefer, me, before).reg;
            var s := Trace(r, [c] + cmds).reg;
            && r.peers[d].phase.Connecting? && r.peers[d].phase.attempt < MAX_CONNECT_ATTEMPTS
            && s.peers[d].phase.Connecting? && r.peers[d].lifecycle < s.peers[d].lifecycle
  {
    ReachedGood(prefer, me, before);
    var r := Reached(prefer, me, before).reg;
    ChargeStep(r, c, d);
    ChargeStep(Trace(r, [c] + cmds).reg, c', d);
    ReachableEntry(prefer, me, before, d);
    OneChargePerLifecycle(WatchAll(map[], Reached(prefer, me, before).actions), r, c, cmds, c', d);
  }
}
