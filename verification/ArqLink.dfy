/**
 Two reliable channels joined by two lossy FIFO links, with data allowed both ways.

 Each end keeps, beside the real channel state, history variables with unbounded
 counters: every fragment ever sent, how many of them its ACKs have released
 (`base`), how many were received in order (`got`) and which later ones are buffered
 (`held`). Messages carry their unbounded index and ACK position as tags. History
 variables and tags never influence the real state. `Tracks` says that the real
 modulo-16 state is exactly their reduction, `Inv` adds that nothing was released
 which the other end does not have.
 */
module ArqLink {
  import opened Wire
  import opened Fragmentation
  import opened Arq

  /** A message on the air: `data` is its fragment index, `ack` the count it acknowledges. */
  datatype Msg = Msg(bytes: Bytes, data: Option<nat>, ack: Option<nat>)

  datatype End = End(
    ch: Chan,
    accepted: seq<Bytes>,
    cuts: seq<Cut>,
    sent: seq<Frag>,
    acks: seq<Option<nat>>,
    base: nat,
    got: nat,
    held: seq<nat>)

  /** The link as seen from one end; `Flip` is the other end's view. */
  datatype Link = Link(me: End, peer: End, outgoing: seq<Msg>, incoming: seq<Msg>)

  datatype Event =
    | Enqueue(datagram: Bytes)
    | Poll(chunk: ChunkSize, at: int)
    | Resend
    | Deliver(at: int)
    | Lose(index: nat)
    | MarkDead

  /** An event at this end (`mine`) or at the other. */
  datatype Step = Step(mine: bool, event: Event)

  function NewEnd(now: int): End {
    End(Fresh(now), [], [], [], [], 0, 0, [])
  }

  function Start(now: int): Link {
    Link(NewEnd(now), NewEnd(now), [], [])
  }

  function Flip(s: Link): Link {
    Link(s.peer, s.me, s.incoming, s.outgoing)
  }

  // ---------- the unbounded counters ----------

  function Position(held: seq<nat>, i: nat): (k: nat)
    ensures k <= |held|
    ensures k < |held| ==> held[k] == i
    ensures forall j :: 0 <= j < k ==> held[j] != i
  {
    if held == [] then 0 else if held[0] == i then 0 else 1 + Position(held[1..], i)
  }

  function DrainIndex(got: nat, held: seq<nat>): (nat, seq<nat>)
    decreases |held|
  {
    var k := Position(held, got);
    if k == |held| then (got, held) else DrainIndex(got + 1, held[..k] + held[k + 1..])
  }

  function DataIndex(got: nat, held: seq<nat>, i: nat): (nat, seq<nat>) {
    if i == got then DrainIndex(got + 1, held)
    else if got < i < got + WINDOW_SIZE && i !in held then (got, held + [i])
    else (got, held)
  }

  // ---------- steps ----------

  function AckTag(e: End): Option<nat> {
    if e.ch.ackPending.Some? then Some(e.got) else None
  }

  predicate SendsData(c: Chan, chunk: ChunkSize) {
    !c.linkDead && CanSend(Refill(c, chunk)) && Refill(c, chunk).fragQueue != []
  }

  function PollEnd(e: End, chunk: ChunkSize, now: int): End {
    var c := e.ch;
    var cuts := if !c.linkDead && c.fragQueue == [] && c.sendQueue != [] then e.cuts + [Cut(c.sendQueue[0], chunk)] else e.cuts;
    var e1 := e.(ch := NextSend(c, chunk, now).0, cuts := cuts);
    if SendsData(c, chunk) then
      e1.(sent := e.sent + [Refill(c, chunk).fragQueue[0]], acks := e.acks + [AckTag(e)])
    else e1
  }

  function PollMsgs(e: End, chunk: ChunkSize, now: int): seq<Msg> {
    var action := NextSend(e.ch, chunk, now).1;
    if action.Send? then [Msg(action.msg, if SendsData(e.ch, chunk) then Some(|e.sent|) else None, AckTag(e))] else []
  }

  function ResendMsgs(e: End): seq<Msg> {
    var m := Retransmit(e.ch).1;
    var stamped := if e.base < |e.acks| then e.acks[e.base] else None;
    if m.Some? then [Msg(m.value, Some(e.base), if AckTag(e).Some? then AckTag(e) else stamped)] else []
  }

  function DeliverEnd(e: End, m: Msg, now: int): End {
    var (got, held) := if m.data.Some? then DataIndex(e.got, e.held, m.data.value) else (e.got, e.held);
    e.(ch := Receive(e.ch, m.bytes, now),
       base := if m.ack.Some? then e.base + AckedCount(e.ch, AckField(m.ack).value) else e.base,
       got := got,
       held := held)
  }

  function Act(s: Link, ev: Event): Link {
    match ev
    case Enqueue(d) =>
      var (c, ok) := Arq.Enqueue(s.me.ch, d);
      s.(me := s.me.(ch := c, accepted := if ok then s.me.accepted + [d] else s.me.accepted))
    case Poll(chunk, now) =>
      s.(me := PollEnd(s.me, chunk, now), outgoing := s.outgoing + PollMsgs(s.me, chunk, now))
    case Resend =>
      s.(me := s.me.(ch := Retransmit(s.me.ch).0), outgoing := s.outgoing + ResendMsgs(s.me))
    case Deliver(now) =>
      if s.incoming == [] then s
      else s.(me := DeliverEnd(s.me, s.incoming[0], now), incoming := s.incoming[1..])
    case Lose(k) =>
      if k < |s.outgoing| then s.(outgoing := s.outgoing[..k] + s.outgoing[k + 1..]) else s
    case MarkDead =>
      s.(me := s.me.(ch := s.me.ch.(linkDead := true)))
  }

  function Next(s: Link, step: Step): Link {
    if step.mine then Act(s, step.event) else Flip(Act(Flip(s), step.event))
  }

  function Run(s: Link, steps: seq<Step>): Link {
    if steps == [] then s else Next(Run(s, steps[..|steps| - 1]), steps[|steps| - 1])
  }

  lemma {:induction false} RunConcat(s: Link, a: seq<Step>, b: seq<Step>)
    ensures Run(s, a + b) == Run(Run(s, a), b)
    decreases |b|
  {
    if b == [] {
      assert a + b == a;
    } else {
      assert (a + b)[..|a + b| - 1] == a + b[..|b| - 1];
      RunConcat(s, a, b[..|b| - 1]);
    }
  }

  lemma RunOne(s: Link, step: Step)
    ensures Run(s, [step]) == Next(s, step)
  {
    assert [step][..0] == [];
    assert Run(s, [step][..0]) == s;
  }

  /** How many fragments an ACK for the first `x` releases from a window `[base, next)`. */
  function Released(base: nat, next: nat, x: nat): nat {
    if x > base then x - base
    else
      var behind := (base - x) % SEQ_MODULUS;
      if SEQ_MODULUS <= behind + next - base then SEQ_MODULUS - behind else 0
  }

  /**
   The ACK about to be delivered is stale, looks new modulo 16 because enough
   fragments are in flight, and reaches beyond what the other end has.
   */
  predicate Misled(s: Link, ev: Event) {
    && ev.Deliver? && s.incoming != [] && s.incoming[0].ack.Some?
    && var x, base, next := s.incoming[0].ack.value, s.me.base, |s.me.sent|;
       && x <= base
       && var behind := (base - x) % SEQ_MODULUS;
          SEQ_MODULUS <= behind + next - base && s.peer.got < base + SEQ_MODULUS - behind
  }

  /**
   The fragment about to be delivered is beyond the receiver's window, and modulo 16 it
   stands for one inside it that the receiver does not have.
   */
  predicate Aliased(s: Link, ev: Event) {
    && ev.Deliver? && s.incoming != [] && s.incoming[0].data.Some?
    && var i, got := s.incoming[0].data.value, s.me.got;
       got + WINDOW_SIZE <= i && PassesForMissing(got, s.me.held, i)
  }

  /** Modulo 16, `i` stands for a fragment inside the window at `got` that is not held. */
  predicate PassesForMissing(got: nat, held: seq<nat>, i: nat)
    requires got <= i
  {
    AliasOf(got, i) < WINDOW_SIZE && got + AliasOf(got, i) !in held
  }

  /** Which fragment a number stands for, counted from `got`. */
  function AliasOf(got: nat, i: nat): nat
    requires got <= i
  {
    (i - got) % SEQ_MODULUS
  }

  predicate AliasedNext(s: Link, step: Step) {
    Aliased(if step.mine then s else Flip(s), step.event)
  }

  /** No delivery of the run is aliased. */
  predicate Unaliased(s: Link, steps: seq<Step>) {
    steps == [] || (Unaliased(s, steps[..|steps| - 1]) && !AliasedNext(Run(s, steps[..|steps| - 1]), steps[|steps| - 1]))
  }

  predicate MisledNext(s: Link, step: Step) {
    Misled(if step.mine then s else Flip(s), step.event)
  }

  /** No delivery of the run is misled. */
  predicate Unmisled(s: Link, steps: seq<Step>) {
    steps == [] || (Unmisled(s, steps[..|steps| - 1]) && !MisledNext(Run(s, steps[..|steps| - 1]), steps[|steps| - 1]))
  }

  // ---------- the invariant ----------

  function Mod(i: nat): SeqNum {
    i % SEQ_MODULUS
  }

  /** The ACK field for "the first `x` fragments are in". */
  function AckField(ack: Option<nat>): Option<SeqNum> {
    match ack
    case None => None
    case Some(x) => Some((x + SEQ_MODULUS - 1) % SEQ_MODULUS)
  }

  ghost predicate SenderOk(e: End) {
    && e.base <= |e.sent| <= e.base + WINDOW_SIZE
    && |e.acks| == |e.sent|
    && e.ch.sendBase == Mod(e.base)
    && e.ch.sendNext == Mod(|e.sent|)
    && |e.ch.inFlight| == |e.sent| - e.base
    && (forall i :: e.base <= i < |e.sent| ==>
          e.ch.inFlight[i - e.base] == InFlight(Mod(i), DataMsg(Mod(i), e.sent[i], AckField(e.acks[i]))))
    && (forall i :: 0 <= i < |e.acks| ==> e.acks[i].Some? ==> e.acks[i].value <= e.got)
    && QueueOk(e)
  }

  /** Nothing accepted is forgotten before it is sent. */
  ghost predicate QueueOk(e: End) {
    && e.sent + e.ch.fragQueue == CutFrags(e.cuts)
    && e.accepted == Datagrams(e.cuts) + e.ch.sendQueue
  }

  ghost predicate HeldOk(got: nat, held: seq<nat>, count: nat) {
    && (forall k :: 0 <= k < |held| ==> got < held[k] < got + WINDOW_SIZE && held[k] < count)
    && (forall j, k :: 0 <= j < k < |held| ==> held[j] != held[k])
  }

  ghost predicate BufferIs(buf: seq<Buffered>, held: seq<nat>, sent: seq<Frag>) {
    && |buf| == |held|
    && (forall k :: 0 <= k < |held| ==> held[k] < |sent| && buf[k] == Buffered(Mod(held[k]), sent[held[k]]))
  }

  ghost predicate ReceiverOk(e: End, sent: seq<Frag>) {
    && e.got <= |sent|
    && e.ch.recvNext == Mod(e.got)
    && HeldOk(e.got, e.held, |sent|)
    && BufferIs(e.ch.recvBuf, e.held, sent)
    && (e.ch.ackPending.Some? ==> e.ch.ackPending == AckField(Some(e.got)))
    && e.ch.reasm == FeedAll(EMPTY, sent[..e.got])
  }

  /** One message from `e` whose receiver has taken in at most the first `high` fragments. */
  ghost predicate MsgOk(e: End, m: Msg, got: nat, held: seq<nat>) {
    && (m.ack.Some? ==> m.ack.value <= e.got)
    && (m.data.None? ==> m.ack.Some? && m.bytes == PureAck(AckField(m.ack).value))
    && (m.data.Some? ==>
          && m.data.value < |e.sent|
          && m.bytes == DataMsg(Mod(m.data.value), e.sent[m.data.value], AckField(m.ack))
          && NotPast(m.data.value, got, held))
  }

  /** The receiver is at most one window beyond fragment `i`. */
  ghost predicate NotPast(i: nat, got: nat, held: seq<nat>) {
    && got <= i + WINDOW_SIZE
    && (forall k :: 0 <= k < |held| ==> held[k] < i + WINDOW_SIZE)
  }

  /** FIFO order keeps any two data messages within a window of each other. */
  ghost predicate Ordered(ms: seq<Msg>) {
    forall p, q :: 0 <= p < q < |ms| && ms[p].data.Some? && ms[q].data.Some? ==>
                     ms[p].data.value < ms[q].data.value + WINDOW_SIZE
  }

  ghost predicate WireOk(e: End, ms: seq<Msg>, got: nat, held: seq<nat>) {
    && Ordered(ms)
    && (forall p :: 0 <= p < |ms| ==> MsgOk(e, ms[p], got, held))
  }

  /** One direction: `e` sends to `r` over `ms`. */
  ghost predicate Flow(e: End, r: End, ms: seq<Msg>) {
    && SenderOk(e)
    && ReceiverOk(r, e.sent)
    && WireOk(e, ms, r.got, r.held)
  }

  ghost predicate Tracks(s: Link) {
    && Flow(s.me, s.peer, s.outgoing)
    && Flow(s.peer, s.me, s.incoming)
  }

  ghost predicate Inv(s: Link) {
    && Tracks(s)
    && s.me.base <= s.peer.got
    && s.peer.base <= s.me.got
  }

  // ---------- modulo 16 agrees with the unbounded counters ----------

  lemma ModPlus(i: nat, k: nat)
    ensures Plus(Mod(i), k) == Mod(i + k)
  {
  }

  /** Every window test gives the unbounded answer for indices in `[got - 10, got + 5]`. */
  lemma WindowExact(got: nat, i: nat)
    requires got <= i + 10 && i <= got + 5
    ensures Mod(i) == Mod(got) <==> i == got
    ensures SeqDist(Mod(got), Mod(i)) < WINDOW_SIZE <==> got <= i
    ensures got <= i ==> SeqDist(Mod(got), Mod(i)) == i - got
  {
  }

  /** What the ACK test releases, for every ACK position up to the last fragment sent. */
  lemma AckReleases(c: Chan, base: nat, next: nat, x: nat)
    requires c.sendBase == Mod(base) && c.sendNext == Mod(next)
    requires base <= next <= base + WINDOW_SIZE && x <= next
    ensures AckedCount(c, AckField(Some(x)).value) == Released(base, next, x)
  {
    ModPlus(base, next - base);
    DistPlus(Mod(base), next - base);
    AckFieldNext(x);
    if x >= base {
      ModPlus(base, x - base);
      DistPlus(Mod(base), x - base);
    } else {
      var behind := (base - x) % SEQ_MODULUS;
      ModBack(base, x, behind);
      DistPlus(Mod(x), behind);
    }
  }

  lemma ModBack(base: nat, x: nat, k: nat)
    requires x <= base && k == (base - x) % SEQ_MODULUS
    ensures Mod(base) == Plus(Mod(x), k)
  {
    assert (base - x - k) % SEQ_MODULUS == 0;
    assert base == x + k + (base - x - k);
  }

  /** The ACK test releases exactly the newly acknowledged fragments when the ACK is at most nine behind. */
  lemma AckExact(c: Chan, base: nat, next: nat, x: nat)
    requires c.sendBase == Mod(base) && c.sendNext == Mod(next)
    requires base <= next <= base + WINDOW_SIZE && x <= next && base <= x + 9
    ensures AckedCount(c, AckField(Some(x)).value) == if x > base then x - base else 0
  {
    AckReleases(c, base, next, x);
  }

  /** Exactly when an ACK for a position already passed is taken for a new one. */
  lemma StaleAckExactly(c: Chan, base: nat, next: nat, x: nat)
    requires c.sendBase == Mod(base) && c.sendNext == Mod(next) && base <= next <= base + WINDOW_SIZE && x <= base
    ensures AckedCount(c, AckField(Some(x)).value) > 0
            <==> 10 <= (base - x) % SEQ_MODULUS && SEQ_MODULUS <= (base - x) % SEQ_MODULUS + (next - base)
  {
    AckReleases(c, base, next, x);
  }

  lemma DistPlus(s: SeqNum, k: nat)
    requires k < SEQ_MODULUS
    ensures SeqDist(s, Plus(s, k)) == k
    ensures k > 0 ==> SeqDist(Plus(s, k), s) == SEQ_MODULUS - k
  {
  }

  lemma AckFieldNext(x: nat)
    ensures Plus(AckField(Some(x)).value, 1) == Mod(x)
  {
  }

  // ---------- every step keeps the invariant ----------

  lemma InvStart(now: int)
    ensures Inv(Start(now))
  {
    assert [] + [] == CutFrags([]);
    assert FeedAll(EMPTY, [][..0]) == EMPTY;
  }

  // Which fields each part of the invariant depends on.

  ghost predicate SameSending(e: End, f: End) {
    && f.sent == e.sent && f.acks == e.acks && f.base == e.base
    && f.ch.sendBase == e.ch.sendBase && f.ch.sendNext == e.ch.sendNext && f.ch.inFlight == e.ch.inFlight
  }

  ghost predicate SameReceiving(e: End, f: End) {
    && f.got == e.got && f.held == e.held
    && f.ch.recvNext == e.ch.recvNext && f.ch.recvBuf == e.ch.recvBuf && f.ch.reasm == e.ch.reasm
    && (f.ch.ackPending.None? || f.ch.ackPending == e.ch.ackPending)
  }

  lemma SenderFrame(e: End, f: End)
    requires SenderOk(e) && SameSending(e, f) && QueueOk(f) && e.got <= f.got
    ensures SenderOk(f)
  {
  }

  lemma ReceiverFrame(e: End, f: End, sent: seq<Frag>)
    requires ReceiverOk(e, sent) && SameReceiving(e, f)
    ensures ReceiverOk(f, sent)
  {
  }

  /** Messages stay correct while the sender sends and receives more. */
  lemma WireFrame(e: End, f: End, ms: seq<Msg>, got: nat, held: seq<nat>)
    requires WireOk(e, ms, got, held) && e.sent <= f.sent && e.got <= f.got
    ensures WireOk(f, ms, got, held)
  {
    forall p | 0 <= p < |ms|
      ensures MsgOk(f, ms[p], got, held)
    {
      assert MsgOk(e, ms[p], got, held);
    }
  }

  lemma WireAppend(e: End, ms: seq<Msg>, m: Msg, got: nat, held: seq<nat>)
    requires WireOk(e, ms, got, held) && MsgOk(e, m, got, held)
    requires m.data.Some? ==> |e.sent| <= m.data.value + WINDOW_SIZE
    ensures WireOk(e, ms + [m], got, held)
  {
    var ns := ms + [m];
    forall p, q | 0 <= p < q < |ns| && ns[p].data.Some? && ns[q].data.Some?
      ensures ns[p].data.value < ns[q].data.value + WINDOW_SIZE
    {
      assert MsgOk(e, ms[p], got, held);
    }
  }

  /** An end that only changes what it queues, or drops a pending ACK. */
  lemma TracksLocal(s: Link, f: End)
    requires Tracks(s) && SameSending(s.me, f) && SameReceiving(s.me, f) && QueueOk(f)
    ensures Tracks(s.(me := f))
  {
    SenderFrame(s.me, f);
    ReceiverFrame(s.me, f, s.peer.sent);
    WireFrame(s.me, f, s.outgoing, s.peer.got, s.peer.held);
  }

  lemma TracksEnqueue(s: Link, d: Bytes)
    requires Tracks(s)
    ensures Tracks(Act(s, Enqueue(d)))
  {
    TracksLocal(s, Act(s, Enqueue(d)).me);
  }

  lemma TracksMarkDead(s: Link)
    requires Tracks(s)
    ensures Tracks(Act(s, MarkDead))
  {
    TracksLocal(s, Act(s, MarkDead).me);
  }

  lemma TracksLose(s: Link, k: nat)
    requires Tracks(s)
    ensures Tracks(Act(s, Lose(k)))
  {
    if k < |s.outgoing| {
      WireLose(s.me, s.outgoing, k, s.peer.got, s.peer.held);
    }
  }

  lemma WireLose(e: End, ms: seq<Msg>, k: nat, got: nat, held: seq<nat>)
    requires WireOk(e, ms, got, held) && k < |ms|
    ensures WireOk(e, ms[..k] + ms[k + 1..], got, held)
  {
    var ns := ms[..k] + ms[k + 1..];
    forall p | 0 <= p < |ns|
      ensures ns[p] == ms[if p < k then p else p + 1]
    {
    }
  }

  lemma TracksResend(s: Link)
    requires Tracks(s)
    ensures Tracks(Act(s, Resend))
  {
    var e, f := s.me, Act(s, Resend).me;
    TracksLocal(s, f);
    if e.ch.inFlight != [] {
      var m := ResendMsgs(e)[0];
      ResendMsgOk(e, s.peer.got, s.peer.held);
      WireFrame(e, f, [m], s.peer.got, s.peer.held);
      WireAppend(f, s.outgoing, [m][0], s.peer.got, s.peer.held);
    } else {
      assert s.outgoing + [] == s.outgoing;
    }
  }

  lemma ResendMsgOk(e: End, got: nat, held: seq<nat>)
    requires SenderOk(e) && e.ch.inFlight != [] && got <= |e.sent| && HeldOk(got, held, |e.sent|)
    requires e.ch.ackPending.Some? ==> e.ch.ackPending == AckField(Some(e.got))
    ensures |ResendMsgs(e)| == 1 && ResendMsgs(e)[0].data == Some(e.base)
    ensures WireOk(e, ResendMsgs(e), got, held)
  {
    var i := e.base;
    assert e.ch.inFlight[i - e.base] == InFlight(Mod(i), DataMsg(Mod(i), e.sent[i], AckField(e.acks[i])));
    if e.ch.ackPending.Some? {
      SetAckDataMsg(Mod(i), e.sent[i], AckField(e.acks[i]), e.ch.ackPending.value);
    }
  }

  // Sending a fragment or a pure ACK.

  lemma RefillTwice(c: Chan, chunk: ChunkSize)
    ensures Refill(Refill(c, chunk), chunk) == Refill(c, chunk)
  {
  }

  /** Moving a datagram to the fragment queue keeps the account of what was accepted. */
  lemma RefillQueueOk(e: End, chunk: ChunkSize)
    requires QueueOk(e)
    ensures var c := e.ch;
            var cuts := if c.fragQueue == [] && c.sendQueue != [] then e.cuts + [Cut(c.sendQueue[0], chunk)] else e.cuts;
            QueueOk(e.(ch := Refill(c, chunk), cuts := cuts))
  {
    var c := e.ch;
    if c.fragQueue == [] && c.sendQueue != [] {
      var cuts := e.cuts + [Cut(c.sendQueue[0], chunk)];
      assert cuts[..|cuts| - 1] == e.cuts;
      assert Datagrams(cuts) == Datagrams(e.cuts) + [c.sendQueue[0]];
      assert e.sent + c.fragQueue == e.sent;
    }
  }

  function Refilled(e: End, chunk: ChunkSize): End {
    var c := e.ch;
    if c.linkDead then e
    else if c.fragQueue == [] && c.sendQueue != [] then
      e.(ch := Refill(c, chunk), cuts := e.cuts + [Cut(c.sendQueue[0], chunk)])
    else e
  }

  /** A poll is a refill, then a fragment, a pure ACK or nothing. */
  lemma PollSplit(e: End, chunk: ChunkSize, now: int)
    ensures var e1 := Refilled(e, chunk);
            if SendsData(e.ch, chunk) then
              && e1.ch == Refill(e.ch, chunk)
              && PollEnd(e, chunk, now)
                 == e1.(ch := SendData(e1.ch, now).0, sent := e.sent + [e1.ch.fragQueue[0]], acks := e.acks + [AckTag(e)])
              && PollMsgs(e, chunk, now) == [Msg(SendData(e1.ch, now).1.msg, Some(|e.sent|), AckTag(e))]
            else if !e.ch.linkDead && AckDue(e1.ch, now) then
              && PollEnd(e, chunk, now) == e1.(ch := TakeAck(e1.ch))
              && PollMsgs(e, chunk, now) == [Msg(PureAck(e.ch.ackPending.value), None, AckTag(e))]
            else
              && PollEnd(e, chunk, now) == e1
              && PollMsgs(e, chunk, now) == []
  {
    RefillTwice(e.ch, chunk);
  }

  lemma TracksPoll(s: Link, chunk: ChunkSize, now: int)
    requires Tracks(s)
    ensures Tracks(Act(s, Poll(chunk, now)))
  {
    var e1 := Refilled(s.me, chunk);
    RefillQueueOk(s.me, chunk);
    TracksLocal(s, e1);
    var s1 := s.(me := e1);
    PollSplit(s.me, chunk, now);
    if SendsData(s.me.ch, chunk) {
      TracksSendData(s1, now);
    } else if !s.me.ch.linkDead && AckDue(e1.ch, now) {
      TracksSendAck(s1);
    } else {
      assert s.outgoing + [] == s.outgoing;
    }
  }

  lemma TracksSendAck(s: Link)
    requires Tracks(s) && s.me.ch.ackPending.Some?
    ensures var e := s.me;
            Tracks(s.(me := e.(ch := TakeAck(e.ch)),
                   outgoing := s.outgoing + [Msg(PureAck(e.ch.ackPending.value), None, Some(e.got))]))
  {
    var e := s.me;
    var f := e.(ch := TakeAck(e.ch));
    TracksLocal(s, f);
    WireAppend(f, s.outgoing, Msg(PureAck(e.ch.ackPending.value), None, Some(e.got)), s.peer.got, s.peer.held);
  }

  lemma TracksSendData(s: Link, now: int)
    requires Tracks(s) && CanSend(s.me.ch) && s.me.ch.fragQueue != []
    ensures var e := s.me;
            var f := e.(ch := SendData(e.ch, now).0, sent := e.sent + [e.ch.fragQueue[0]], acks := e.acks + [AckTag(e)]);
            Tracks(s.(me := f, outgoing := s.outgoing + [Msg(SendData(e.ch, now).1.msg, Some(|e.sent|), AckTag(e))]))
  {
    var e := s.me;
    var f := e.(ch := SendData(e.ch, now).0, sent := e.sent + [e.ch.fragQueue[0]], acks := e.acks + [AckTag(e)]);
    SenderSends(e, now);
    ReceiverFrame(e, f, s.peer.sent);
    ReceiverMore(s.peer, e.sent, f.sent);
    WireFrame(e, f, s.outgoing, s.peer.got, s.peer.held);
    WireAppend(f, s.outgoing, Msg(SendData(e.ch, now).1.msg, Some(|e.sent|), AckTag(e)), s.peer.got, s.peer.held);
  }

  /** The window after one more fragment. */
  lemma WindowGrows(e: End, f: End)
    requires SenderOk(e) && QueueOk(f) && |e.sent| < e.base + WINDOW_SIZE
    requires f.base == e.base && f.got == e.got && |f.sent| == |e.sent| + 1 && e.sent <= f.sent && f.acks == e.acks + [AckTag(e)]
    requires f.ch.sendBase == e.ch.sendBase && f.ch.sendNext == Mod(|f.sent|)
    requires var i := |e.sent|; f.ch.inFlight == e.ch.inFlight + [InFlight(Mod(i), DataMsg(Mod(i), f.sent[i], AckField(f.acks[i])))]
    ensures SenderOk(f)
  {
  }

  lemma SenderSends(e: End, now: int)
    requires SenderOk(e) && CanSend(e.ch) && e.ch.fragQueue != []
    requires e.ch.ackPending.Some? ==> e.ch.ackPending == AckField(Some(e.got))
    ensures SenderOk(e.(ch := SendData(e.ch, now).0, sent := e.sent + [e.ch.fragQueue[0]], acks := e.acks + [AckTag(e)]))
  {
    var f := e.(ch := SendData(e.ch, now).0, sent := e.sent + [e.ch.fragQueue[0]], acks := e.acks + [AckTag(e)]);
    ModPlus(e.base, |e.sent| - e.base);
    DistPlus(Mod(e.base), |e.sent| - e.base);
    ModPlus(|e.sent|, 1);
    assert f.sent + f.ch.fragQueue == e.sent + e.ch.fragQueue;
    WindowGrows(e, f);
  }

  lemma ReceiverMore(r: End, sent: seq<Frag>, more: seq<Frag>)
    requires ReceiverOk(r, sent) && sent <= more
    ensures ReceiverOk(r, more)
  {
    assert more[..r.got] == sent[..r.got];
  }

  // Receiving: first the ACK, then the fragment.

  function AckEnd(e: End, x: nat, now: int): End {
    var a := AckField(Some(x)).value;
    e.(ch := ReceiveAck(e.ch, a, now), base := e.base + AckedCount(e.ch, a))
  }

  lemma AckShape(c: Chan, base: nat, next: nat, a: SeqNum)
    requires c.sendBase == Mod(base) && c.sendNext == Mod(next) && base <= next <= base + WINDOW_SIZE
    ensures var n := AckedCount(c, a); base + n <= next && (n > 0 ==> Plus(a, 1) == Mod(base + n))
  {
    ModPlus(base, next - base);
    DistPlus(Mod(base), next - base);
    ModPlus(base, AckedCount(c, a));
  }

  /** Whatever an ACK releases, the window keeps its shape. */
  lemma SenderAcked(e: End, x: nat, now: int)
    requires SenderOk(e)
    ensures SenderOk(AckEnd(e, x, now))
    ensures SameReceiving(e, AckEnd(e, x, now))
  {
    var f, n := AckEnd(e, x, now), AckedCount(e.ch, AckField(Some(x)).value);
    AckShape(e.ch, e.base, |e.sent|, AckField(Some(x)).value);
    assert f.ch.inFlight == e.ch.inFlight[n..] && f.ch.sendBase == Mod(f.base);
    assert QueueOk(f);
    WindowCut(e, f, n);
  }

  lemma WindowCut(e: End, f: End, n: nat)
    requires SenderOk(e) && QueueOk(f) && e.base + n <= |e.sent|
    requires f == e.(ch := f.ch, base := e.base + n) && f.ch.inFlight == e.ch.inFlight[n..]
    requires f.ch.sendBase == Mod(f.base) && f.ch.sendNext == e.ch.sendNext
    ensures SenderOk(f)
  {
    forall i | f.base <= i < |f.sent|
      ensures f.ch.inFlight[i - f.base] == InFlight(Mod(i), DataMsg(Mod(i), f.sent[i], AckField(f.acks[i])))
    {
    }
  }

  /** Just after a fragment was accepted, the buffer may already hold the next one. */
  ghost predicate Accepted(e: End, sent: seq<Frag>) {
    && e.got <= |sent|
    && e.ch.recvNext == Mod(e.got)
    && (forall k :: 0 <= k < |e.held| ==> e.got <= e.held[k] < e.got + WINDOW_SIZE - 1)
    && (forall j, k :: 0 <= j < k < |e.held| ==> e.held[j] != e.held[k])
    && BufferIs(e.ch.recvBuf, e.held, sent)
    && e.ch.ackPending == AckField(Some(e.got))
    && e.ch.reasm == FeedAll(EMPTY, sent[..e.got])
  }

  lemma FindIsPosition(buf: seq<Buffered>, held: seq<nat>, sent: seq<Frag>, got: nat)
    requires BufferIs(buf, held, sent)
    requires forall k :: 0 <= k < |held| ==> got <= held[k] < got + WINDOW_SIZE
    ensures Find(buf, Mod(got)) == Position(held, got)
  {
    forall k | 0 <= k < |held|
      ensures buf[k].seqNum == Mod(got) <==> held[k] == got
    {
      WindowExact(got, held[k]);
    }
    FindAlike(buf, held, Mod(got), got);
  }

  lemma {:induction false} FindAlike(buf: seq<Buffered>, held: seq<nat>, s: SeqNum, got: nat)
    requires |buf| == |held|
    requires forall k :: 0 <= k < |held| ==> (buf[k].seqNum == s <==> held[k] == got)
    ensures Find(buf, s) == Position(held, got)
  {
    if buf != [] {
      FindAlike(buf[1..], held[1..], s, got);
    }
  }

  /** The next fragment is fed to reassembly and acknowledged. */
  lemma AcceptNext(c: Chan, f: Frag, sent: seq<Frag>, got: nat, now: int)
    requires got < |sent| && sent[got] == f && c.recvNext == Mod(got) && c.reasm == FeedAll(EMPTY, sent[..got])
    ensures var d := Accept(c, f, now);
            && d.recvNext == Mod(got + 1)
            && d.reasm == FeedAll(EMPTY, sent[..got + 1])
            && d.ackPending == AckField(Some(got + 1))
            && SameSender(c, d) && d.recvBuf == c.recvBuf
  {
    ModPlus(got, 1);
    ModPlus(got + 1, SEQ_MODULUS - 1);
    assert sent[..got + 1][..got] == sent[..got];
  }

  function DrainEnd(e: End, now: int): End {
    var (got, held) := DrainIndex(e.got, e.held);
    e.(ch := Drain(e.ch, now), got := got, held := held)
  }

  lemma {:induction false} DrainRefines(e: End, sent: seq<Frag>, now: int)
    requires Accepted(e, sent)
    ensures ReceiverOk(DrainEnd(e, now), sent)
    ensures SameSender(e.ch, DrainEnd(e, now).ch) && e.got <= DrainEnd(e, now).got
    decreases |e.held|
  {
    FindIsPosition(e.ch.recvBuf, e.held, sent, e.got);
    var k := Position(e.held, e.got);
    if k < |e.held| {
      var c := e.ch.(recvBuf := e.ch.recvBuf[..k] + e.ch.recvBuf[k + 1..]);
      var f := e.ch.recvBuf[k].frag;
      AcceptNext(c, f, sent, e.got, now);
      var e1 := e.(ch := Accept(c, f, now), got := e.got + 1, held := e.held[..k] + e.held[k + 1..]);
      BufferRemove(e.ch.recvBuf, e.held, sent, k, e.got);
      DrainRefines(e1, sent, now);
    }
  }

  lemma BufferRemove(buf: seq<Buffered>, held: seq<nat>, sent: seq<Frag>, k: nat, got: nat)
    requires BufferIs(buf, held, sent) && k < |held| && held[k] == got
    requires forall j :: 0 <= j < |held| ==> got <= held[j] < got + WINDOW_SIZE - 1
    requires forall i, j :: 0 <= i < j < |held| ==> held[i] != held[j]
    ensures var rest := held[..k] + held[k + 1..];
            && BufferIs(buf[..k] + buf[k + 1..], rest, sent)
            && (forall j :: 0 <= j < |rest| ==> got + 1 <= rest[j] < got + WINDOW_SIZE)
            && (forall i, j :: 0 <= i < j < |rest| ==> rest[i] != rest[j])
  {
    var rest, brest := held[..k] + held[k + 1..], buf[..k] + buf[k + 1..];
    forall j | 0 <= j < |rest|
      ensures rest[j] == held[if j < k then j else j + 1] && brest[j] == buf[if j < k then j else j + 1]
    {
    }
  }

  function DataEnd(e: End, i: nat, f: Frag, now: int): End {
    var (got, held) := DataIndex(e.got, e.held, i);
    e.(ch := ReceiveData(e.ch, Mod(i), f, now), got := got, held := held)
  }

  /** The real receiver does what the unbounded one does, for every index FIFO links can produce. */
  lemma ReceiverData(e: End, sent: seq<Frag>, i: nat, now: int)
    requires ReceiverOk(e, sent) && i < |sent| && e.got <= i + 10 && i < e.got + WINDOW_SIZE
    ensures ReceiverOk(DataEnd(e, i, sent[i], now), sent)
    ensures SameSender(e.ch, DataEnd(e, i, sent[i], now).ch) && e.got <= DataEnd(e, i, sent[i], now).got
  {
    WindowExact(e.got, i);
    if i == e.got {
      AcceptNext(e.ch, sent[i], sent, e.got, now);
      DrainRefines(e.(ch := Accept(e.ch, sent[i], now), got := e.got + 1), sent, now);
    } else {
      ModPlus(e.got, SEQ_MODULUS - 1);
      if i > e.got {
        BufferedExact(e.ch, e.held, sent, e.got, i);
      }
    }
  }

  lemma BufferedExact(c: Chan, held: seq<nat>, sent: seq<Frag>, got: nat, i: nat)
    requires BufferIs(c.recvBuf, held, sent) && HeldOk(got, held, |sent|) && got < i < got + WINDOW_SIZE
    ensures IsBuffered(c, Mod(i)) <==> i in held
  {
    forall k | 0 <= k < |held|
      ensures c.recvBuf[k].seqNum == Mod(i) <==> held[k] == i
    {
      ModPlus(got, held[k] - got);
      ModPlus(got, i - got);
    }
    if i in held {
      assert c.recvBuf[Position(held, i)].seqNum == Mod(i);
    }
  }

  lemma {:induction false} DrainShrinks(c: Chan, now: int)
    ensures Drain(c, now) == c || |Drain(c, now).recvBuf| < |c.recvBuf|
    decreases |c.recvBuf|
  {
    var k := Find(c.recvBuf, c.recvNext);
    if k < |c.recvBuf| {
      DrainShrinks(Accept(c.(recvBuf := c.recvBuf[..k] + c.recvBuf[k + 1..]), c.recvBuf[k].frag, now), now);
    }
  }

  lemma DistMod(got: nat, i: nat)
    requires got <= i
    ensures SeqDist(Mod(got), Mod(i)) == (i - got) % SEQ_MODULUS && Mod(got + (i - got) % SEQ_MODULUS) == Mod(i)
  {
    var k := (i - got) % SEQ_MODULUS;
    ModBack(i, got, k);
    ModPlus(got, k);
    DistPlus(Mod(got), k);
  }

  lemma BeyondIndex(e: End, i: nat, f: Frag, now: int)
    requires e.got + WINDOW_SIZE <= i
    ensures DataEnd(e, i, f, now) == e.(ch := ReceiveData(e.ch, Mod(i), f, now))
  {
  }

  /** Out of the window modulo 16, or already held: nothing but an ACK. */
  lemma BeyondIgnored(e: End, sent: seq<Frag>, i: nat, now: int)
    requires ReceiverOk(e, sent) && i < |sent| && e.got + WINDOW_SIZE <= i
    requires !PassesForMissing(e.got, e.held, i)
    ensures var f := DataEnd(e, i, sent[i], now); ReceiverOk(f, sent) && SameSender(e.ch, f.ch) && f == e.(ch := f.ch)
  {
    var k := AliasOf(e.got, i);
    BeyondIndex(e, i, sent[i], now);
    DistMod(e.got, i);
    ModPlus(e.got, SEQ_MODULUS - 1);
    if k < WINDOW_SIZE {
      BufferedAlike(e.ch, e.held, sent, e.got, k);
    }
  }

  /** It has the number of the next fragment: it is accepted in its place. */
  lemma BeyondAccepted(e: End, sent: seq<Frag>, i: nat, now: int)
    requires ReceiverOk(e, sent) && i < |sent| && e.got + WINDOW_SIZE <= i && AliasOf(e.got, i) == 0
    ensures !ReceiverOk(DataEnd(e, i, sent[i], now), sent)
  {
    BeyondIndex(e, i, sent[i], now);
    DistMod(e.got, i);
    ModPlus(e.got, 1);
    DrainShrinks(Accept(e.ch, sent[i], now), now);
  }

  /** It has the number of a missing fragment: it is buffered in its place. */
  lemma BeyondBuffered(e: End, sent: seq<Frag>, i: nat, now: int)
    requires ReceiverOk(e, sent) && i < |sent| && e.got + WINDOW_SIZE <= i
    requires var k := AliasOf(e.got, i); 0 < k < WINDOW_SIZE && e.got + k !in e.held
    ensures !ReceiverOk(DataEnd(e, i, sent[i], now), sent)
  {
    BeyondIndex(e, i, sent[i], now);
    DistMod(e.got, i);
    BufferedAlike(e.ch, e.held, sent, e.got, AliasOf(e.got, i));
  }

  lemma BufferedAlike(c: Chan, held: seq<nat>, sent: seq<Frag>, got: nat, k: nat)
    requires BufferIs(c.recvBuf, held, sent) && HeldOk(got, held, |sent|) && 0 < k < WINDOW_SIZE
    ensures IsBuffered(c, Mod(got + k)) <==> got + k in held
  {
    BufferedExact(c, held, sent, got, got + k);
  }

  lemma {:induction false} DrainNotPast(j: nat, got: nat, held: seq<nat>)
    requires NotPast(j, got, held)
    ensures NotPast(j, DrainIndex(got, held).0, DrainIndex(got, held).1)
    decreases |held|
  {
    var k := Position(held, got);
    if k < |held| {
      DrainNotPast(j, got + 1, held[..k] + held[k + 1..]);
    }
  }

  lemma WireTail(e: End, ms: seq<Msg>, got: nat, held: seq<nat>)
    requires WireOk(e, ms, got, held) && ms != [] && ms[0].data.Some?
    ensures var (g, h) := DataIndex(got, held, ms[0].data.value); WireOk(e, ms[1..], g, h)
  {
    var i := ms[0].data.value;
    var (g, h) := DataIndex(got, held, i);
    forall p | 0 <= p < |ms[1..]|
      ensures MsgOk(e, ms[1..][p], g, h)
    {
      var m := ms[p + 1];
      assert MsgOk(e, m, got, held);
      if m.data.Some? && i == got {
        DrainNotPast(m.data.value, got + 1, held);
      }
    }
  }

  /** Delivery is the ACK part followed by the data part. */
  lemma DeliverSplit(e: End, m: Msg, r: End, now: int)
    requires MsgOk(r, m, e.got, e.held) && QueueOk(r)
    ensures var e1 := if m.ack.Some? then AckEnd(e, m.ack.value, now) else e;
            DeliverEnd(e, m, now)
            == if m.data.Some? then DataEnd(e1, m.data.value, r.sent[m.data.value], now) else e1
  {
    if m.data.Some? {
      var i := m.data.value;
      ParseDataMsg(Mod(i), r.sent[i], AckField(m.ack));
      assert CutFrags(r.cuts)[i] == r.sent[i];
      CutFragsAreData(r.cuts, i);
    } else {
      ParsePureAck(AckField(m.ack).value);
    }
  }

  /** A delivery keeps track as long as its fragment is not beyond the receiver's window. */
  lemma TracksDeliver(s: Link, now: int)
    requires Tracks(s)
    requires s.incoming != [] && s.incoming[0].data.Some? ==> s.incoming[0].data.value < s.me.got + WINDOW_SIZE
    ensures Tracks(Act(s, Deliver(now)))
  {
    if s.incoming != [] {
      var e, m, r := s.me, s.incoming[0], s.peer;
      assert MsgOk(r, m, e.got, e.held);
      DeliverSplit(e, m, r, now);
      var e1 := if m.ack.Some? then AckEnd(e, m.ack.value, now) else e;
      if m.ack.Some? {
        SenderAcked(e, m.ack.value, now);
      }
      ReceiverFrame(e, e1, r.sent);
      WireFrame(e, e1, s.outgoing, r.got, r.held);
      if m.data.Some? {
        TracksData(e1, r, s.outgoing, s.incoming, now);
      } else {
        assert WireOk(r, s.incoming[1..], e.got, e.held);
      }
    }
  }

  lemma TracksData(e: End, r: End, outgoing: seq<Msg>, incoming: seq<Msg>, now: int)
    requires Flow(e, r, outgoing) && Flow(r, e, incoming)
    requires incoming != [] && incoming[0].data.Some? && incoming[0].data.value < e.got + WINDOW_SIZE
    ensures var i := incoming[0].data.value;
            Tracks(Link(DataEnd(e, i, r.sent[i], now), r, outgoing, incoming[1..]))
  {
    var i := incoming[0].data.value;
    assert MsgOk(r, incoming[0], e.got, e.held);
    ReceiverData(e, r.sent, i, now);
    var f := DataEnd(e, i, r.sent[i], now);
    SenderFrame(e, f);
    WireFrame(e, f, outgoing, r.got, r.held);
    WireTail(r, incoming, e.got, e.held);
  }

  /** The data part of a delivery from beyond the window, after the ACK part left `e`. */
  lemma TracksBeyond(s: Link, e: End, i: nat, now: int)
    requires Tracks(s) && s.incoming != [] && i < |s.peer.sent| && s.me.got + WINDOW_SIZE <= i
    requires SenderOk(e) && ReceiverOk(e, s.peer.sent) && e.sent == s.me.sent && e.got == s.me.got && e.held == s.me.held
    ensures Tracks(Link(DataEnd(e, i, s.peer.sent[i], now), s.peer, s.outgoing, s.incoming[1..])) <==> !PassesForMissing(e.got, e.held, i)
  {
    if PassesForMissing(e.got, e.held, i) {
      BeyondLost(e, s.peer.sent, i, now);
    } else {
      BeyondIgnored(e, s.peer.sent, i, now);
      BeyondKept(s, e, DataEnd(e, i, s.peer.sent[i], now));
    }
  }

  /** A delivery keeps track if and only if it is not aliased. */
  lemma TracksDeliverExactly(s: Link, now: int)
    requires Tracks(s)
    ensures Tracks(Act(s, Deliver(now))) <==> !Aliased(s, Deliver(now))
  {
    if s.incoming != [] && s.incoming[0].data.Some? && s.me.got + WINDOW_SIZE <= s.incoming[0].data.value {
      AckPartOk(s, now);
      TracksBeyond(s, AckPart(s.me, s.incoming[0], now), s.incoming[0].data.value, now);
    } else {
      TracksDeliver(s, now);
    }
  }

  function AckPart(e: End, m: Msg, now: int): End {
    if m.ack.Some? then AckEnd(e, m.ack.value, now) else e
  }

  lemma AckPartOk(s: Link, now: int)
    requires Tracks(s) && s.incoming != [] && s.incoming[0].data.Some?
    ensures var e, m := AckPart(s.me, s.incoming[0], now), s.incoming[0];
            && SenderOk(e) && ReceiverOk(e, s.peer.sent) && e.sent == s.me.sent && e.got == s.me.got && e.held == s.me.held
            && m.data.value < |s.peer.sent|
            && DeliverEnd(s.me, m, now) == DataEnd(e, m.data.value, s.peer.sent[m.data.value], now)
  {
    var m := s.incoming[0];
    assert MsgOk(s.peer, m, s.me.got, s.me.held);
    DeliverSplit(s.me, m, s.peer, now);
    if m.ack.Some? {
      SenderAcked(s.me, m.ack.value, now);
    }
    ReceiverFrame(s.me, AckPart(s.me, m, now), s.peer.sent);
  }

  lemma BeyondLost(e: End, sent: seq<Frag>, i: nat, now: int)
    requires ReceiverOk(e, sent) && i < |sent| && e.got + WINDOW_SIZE <= i
    requires PassesForMissing(e.got, e.held, i)
    ensures !ReceiverOk(DataEnd(e, i, sent[i], now), sent)
  {
    if AliasOf(e.got, i) == 0 {
      BeyondAccepted(e, sent, i, now);
    } else {
      BeyondBuffered(e, sent, i, now);
    }
  }

  /** The ACK part is done, and the data part changes neither the sender nor what was received. */
  lemma BeyondKept(s: Link, e: End, f: End)
    requires Tracks(s) && s.incoming != [] && SenderOk(e) && e.sent == s.me.sent && e.got == s.me.got && e.held == s.me.held
    requires ReceiverOk(f, s.peer.sent) && SameSender(e.ch, f.ch) && f == e.(ch := f.ch)
    ensures Tracks(Link(f, s.peer, s.outgoing, s.incoming[1..]))
  {
    SenderFrame(e, f);
    WireFrame(s.me, f, s.outgoing, s.peer.got, s.peer.held);
    assert WireOk(s.peer, s.incoming[1..], f.got, f.held);
  }

  /** What a delivery does to the counters the two ends compare. */
  lemma DeliverCounts(s: Link, now: int)
    requires Tracks(s) && s.incoming != []
    ensures var t, x := Act(s, Deliver(now)), s.incoming[0].ack;
            && t.me.base == s.me.base + (if x.Some? then Released(s.me.base, |s.me.sent|, x.value) else 0)
            && s.me.got <= t.me.got && t.peer == s.peer
  {
    var m := s.incoming[0];
    assert MsgOk(s.peer, m, s.me.got, s.me.held);
    if m.ack.Some? {
      AckReleases(s.me.ch, s.me.base, |s.me.sent|, m.ack.value);
    }
    if m.data.Some? && m.data.value == s.me.got {
      DrainAdvances(s.me.got + 1, s.me.held);
    }
  }

  lemma {:induction false} DrainAdvances(got: nat, held: seq<nat>)
    ensures got <= DrainIndex(got, held).0
    decreases |held|
  {
    var k := Position(held, got);
    if k < |held| {
      DrainAdvances(got + 1, held[..k] + held[k + 1..]);
    }
  }

  /** Misled is: a passed position is taken for a new one, and it releases what the other end does not have. */
  lemma MisledExactly(s: Link, now: int)
    requires Tracks(s) && s.incoming != [] && s.incoming[0].ack.Some?
    ensures var x := s.incoming[0].ack.value;
            var n := AckedCount(s.me.ch, AckField(Some(x)).value);
            Misled(s, Deliver(now)) <==> x <= s.me.base && n > 0 && s.peer.got < s.me.base + n
  {
    var x := s.incoming[0].ack.value;
    assert MsgOk(s.peer, s.incoming[0], s.me.got, s.me.held);
    AckReleases(s.me.ch, s.me.base, |s.me.sent|, x);
    if x <= s.me.base {
      StaleAckExactly(s.me.ch, s.me.base, |s.me.sent|, x);
    }
  }

  /** A delivery is misled exactly if it releases more than the other end has. */
  lemma MisledOvertakes(s: Link, now: int)
    requires Inv(s) && s.incoming != []
    ensures Misled(s, Deliver(now)) <==> s.peer.got < Act(s, Deliver(now)).me.base
    ensures s.me.got <= Act(s, Deliver(now)).me.got && Act(s, Deliver(now)).peer == s.peer
  {
    assert MsgOk(s.peer, s.incoming[0], s.me.got, s.me.held);
    DeliverCounts(s, now);
  }

  /** A delivery keeps the invariant if and only if it is not misled. */
  lemma InvDeliver(s: Link, now: int)
    requires Inv(s)
    ensures Inv(Act(s, Deliver(now))) <==> !Misled(s, Deliver(now))
  {
    if s.incoming != [] {
      InvWindow(s);
      TracksDeliver(s, now);
      MisledOvertakes(s, now);
    }
  }

  /** No message on the air is beyond the receiver's window. */
  lemma InvWindow(s: Link)
    requires Inv(s) && s.incoming != []
    ensures s.incoming[0].data.Some? ==> s.incoming[0].data.value < s.me.got + WINDOW_SIZE
  {
    assert MsgOk(s.peer, s.incoming[0], s.me.got, s.me.held);
  }

  /** Steps other than deliveries leave the counters that `Inv` compares. */
  lemma InvOther(s: Link, ev: Event)
    requires Inv(s) && !ev.Deliver?
    ensures Inv(Act(s, ev))
  {
    TracksOther(s, ev);
  }

  lemma TracksOther(s: Link, ev: Event)
    requires Tracks(s) && !ev.Deliver?
    ensures Tracks(Act(s, ev))
  {
    match ev
    case Enqueue(d) => TracksEnqueue(s, d);
    case Poll(chunk, now) => TracksPoll(s, chunk, now);
    case Resend => TracksResend(s);
    case Lose(k) => TracksLose(s, k);
    case MarkDead => TracksMarkDead(s);
  }

  /** One step, exactly: the refinement of the unbounded protocol survives unless the step is misled. */
  lemma InvAct(s: Link, ev: Event)
    requires Inv(s)
    ensures Inv(Act(s, ev)) <==> !Misled(s, ev)
  {
    if ev.Deliver? {
      InvDeliver(s, ev.at);
    } else {
      InvOther(s, ev);
    }
  }

  lemma InvNext(s: Link, step: Step)
    requires Inv(s)
    ensures Inv(Next(s, step)) <==> !MisledNext(s, step)
  {
    InvAct(if step.mine then s else Flip(s), step.event);
  }

  ghost predicate InvThroughout(s: Link, steps: seq<Step>) {
    Inv(Run(s, steps)) && (steps != [] ==> InvThroughout(s, steps[..|steps| - 1]))
  }

  /** Data both ways: a run refines the unbounded protocol at every point if and only if no delivery is misled. */
  lemma {:induction false} InvRun(s: Link, steps: seq<Step>)
    requires Inv(s)
    ensures Unmisled(s, steps) <==> InvThroughout(s, steps)
  {
    if steps != [] {
      var init := steps[..|steps| - 1];
      InvRun(s, init);
      if Unmisled(s, init) {
        InvNext(Run(s, init), steps[|steps| - 1]);
      }
    }
  }

  lemma TracksAct(s: Link, ev: Event)
    requires Tracks(s)
    ensures Tracks(Act(s, ev)) <==> !Aliased(s, ev)
  {
    if ev.Deliver? {
      TracksDeliverExactly(s, ev.at);
    } else {
      TracksOther(s, ev);
    }
  }

  lemma TracksNext(s: Link, step: Step)
    requires Tracks(s)
    ensures Tracks(Next(s, step)) <==> !AliasedNext(s, step)
  {
    TracksAct(if step.mine then s else Flip(s), step.event);
  }

  ghost predicate TracksThroughout(s: Link, steps: seq<Step>) {
    Tracks(Run(s, steps)) && (steps != [] ==> TracksThroughout(s, steps[..|steps| - 1]))
  }

  /** Each receiver holds, at every point of a run, exactly the first fragments sent if and only if no delivery is aliased. */
  lemma {:induction false} TracksRun(s: Link, steps: seq<Step>)
    requires Tracks(s)
    ensures Unaliased(s, steps) <==> TracksThroughout(s, steps)
  {
    if steps != [] {
      var init := steps[..|steps| - 1];
      TracksRun(s, init);
      if Unaliased(s, init) {
        TracksNext(Run(s, init), steps[|steps| - 1]);
      }
    }
  }

  /** A misled delivery has to come first. */
  lemma {:induction false} UnmisledIsUnaliased(s: Link, steps: seq<Step>)
    requires Inv(s) && Unmisled(s, steps)
    ensures Unaliased(s, steps)
  {
    InvRun(s, steps);
    InvTracks(s, steps);
    TracksRun(s, steps);
  }

  lemma {:induction false} InvTracks(s: Link, steps: seq<Step>)
    requires InvThroughout(s, steps)
    ensures TracksThroughout(s, steps)
  {
    if steps != [] {
      InvTracks(s, steps[..|steps| - 1]);
    }
  }

  // ---------- what the invariant says to the application ----------

  /** Delivered datagrams are a prefix, in order and without repeats, of the deliverable ones accepted. */
  lemma Delivered(e: End, r: End, ms: seq<Msg>)
    requires Flow(e, r, ms)
    ensures r.ch.reasm.out <= Deliverables(e.accepted)
  {
    var fs := CutFrags(e.cuts);
    assert fs[..r.got] == e.sent[..r.got];
    PrefixRoundTrip(e.cuts, r.got);
    DeliverablesConcat(Datagrams(e.cuts), e.ch.sendQueue);
  }

  /** A fragment the receiver still misses has not been given up by its sender. */
  lemma NothingLost(e: End, r: End, ms: seq<Msg>, i: nat)
    requires Flow(e, r, ms) && e.base <= r.got <= i < |e.sent|
    ensures exists k :: 0 <= k < |e.ch.inFlight| && e.ch.inFlight[k].msg == DataMsg(Mod(i), e.sent[i], AckField(e.acks[i]))
  {
    assert e.ch.inFlight[i - e.base].msg == DataMsg(Mod(i), e.sent[i], AckField(e.acks[i]));
  }

  /** With data both ways and no aliased delivery, both applications see a prefix. */
  lemma TwoWayPrefix(now: int, steps: seq<Step>)
    requires Unaliased(Start(now), steps)
    ensures var s := Run(Start(now), steps);
            && s.peer.ch.reasm.out <= Deliverables(s.me.accepted)
            && s.me.ch.reasm.out <= Deliverables(s.peer.accepted)
  {
    InvStart(now);
    TracksRun(Start(now), steps);
    var s := Run(Start(now), steps);
    Delivered(s.me, s.peer, s.outgoing);
    Delivered(s.peer, s.me, s.incoming);
  }

  /** With data both ways and no misled delivery, both applications see a prefix and nothing missing is given up. */
  lemma TwoWaySafety(now: int, steps: seq<Step>)
    requires Unmisled(Start(now), steps)
    ensures var s := Run(Start(now), steps);
            && s.peer.ch.reasm.out <= Deliverables(s.me.accepted)
            && s.me.ch.reasm.out <= Deliverables(s.peer.accepted)
            && s.me.base <= s.peer.got && s.peer.base <= s.me.got
  {
    InvStart(now);
    InvRun(Start(now), steps);
    UnmisledIsUnaliased(Start(now), steps);
    TwoWayPrefix(now, steps);
  }
}
