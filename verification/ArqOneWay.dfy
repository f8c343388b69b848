/**
 Data in one direction, pure ACKs coming back. Here no delivery can be misled, which
 `ArqLink` had to assume, so safety holds for every
 schedule of sends, losses, retransmissions and deliveries, and from every state the
 link can make progress.
 */
module ArqOneWay {
  import opened Wire
  import opened Fragmentation
  import opened Arq
  import opened ArqLink

  /** The other end never has data of its own. */
  predicate OneWaySteps(steps: seq<Step>) {
    forall k :: 0 <= k < |steps| ==> steps[k].mine || !steps[k].event.Enqueue?
  }

  /** The returning ACKs never decrease and never fall behind what was acknowledged. */
  ghost predicate AcksFresh(ms: seq<Msg>, base: nat, got: nat) {
    && (forall p :: 0 <= p < |ms| ==> ms[p].data.None? && ms[p].ack.Some? && base <= ms[p].ack.value <= got)
    && (forall p, q :: 0 <= p < q < |ms| ==> ms[p].ack.value <= ms[q].ack.value)
  }

  /** Nothing but data going out and nothing but fresh ACKs coming back. */
  ghost predicate Quiet(s: Link) {
    && s.peer.ch.sendQueue == [] && s.peer.ch.fragQueue == [] && s.peer.sent == []
    && s.me.ch.ackPending.None?
    && (forall k :: 0 <= k < |s.me.acks| ==> s.me.acks[k].None?)
    && DataOnly(s.outgoing)
    && AcksFresh(s.incoming, s.me.base, s.peer.got)
  }

  ghost predicate DataOnly(ms: seq<Msg>) {
    forall k :: 0 <= k < |ms| ==> ms[k].data.Some? && ms[k].ack.None?
  }

  ghost predicate OneWay(s: Link) {
    Inv(s) && Quiet(s)
  }

  lemma OneWayStart(now: int)
    ensures OneWay(Start(now))
  {
    InvStart(now);
  }

  /** No delivery can be misled: nothing has to be assumed about the schedule. */
  lemma NeverMisled(s: Link, step: Step)
    requires OneWay(s)
    ensures !MisledNext(s, step)
  {
  }

  lemma QuietPoll(s: Link, chunk: ChunkSize, now: int)
    requires Quiet(s)
    ensures Quiet(Act(s, Poll(chunk, now)))
  {
    PollSplit(s.me, chunk, now);
  }

  lemma QuietResend(s: Link)
    requires Quiet(s)
    ensures Quiet(Act(s, Resend))
  {
  }

  lemma QuietLose(s: Link, k: nat)
    requires Quiet(s)
    ensures Quiet(Act(s, Lose(k)))
  {
  }

  /** An ACK arrives: nothing is owed to the other end, and the remaining ACKs are still fresh. */
  lemma QuietDeliver(s: Link, now: int)
    requires Quiet(s) && Inv(s)
    ensures Quiet(Act(s, Deliver(now)))
  {
    if s.incoming != [] {
      var e, m := s.me, s.incoming[0];
      assert MsgOk(s.peer, m, e.got, e.held);
      DeliverSplit(e, m, s.peer, now);
      assert AckEnd(e, m.ack.value, now).ch.ackPending == e.ch.ackPending;
      AckExact(e.ch, e.base, |e.sent|, m.ack.value);
    }
  }

  lemma OneWayMine(s: Link, ev: Event)
    requires OneWay(s)
    ensures OneWay(Act(s, ev))
  {
    NeverMisled(s, Step(true, ev));
    InvAct(s, ev);
    assert Quiet(Act(s, ev)) by {
      match ev
      case Enqueue(d) =>
      case Poll(chunk, now) => QuietPoll(s, chunk, now);
      case Resend => QuietResend(s);
      case Deliver(now) => QuietDeliver(s, now);
      case Lose(k) => QuietLose(s, k);
      case MarkDead =>
    }
  }

  lemma PeerPoll(s: Link, chunk: ChunkSize, now: int)
    requires Quiet(s) && s.me.base <= s.peer.got
    ensures Quiet(Flip(Act(Flip(s), Poll(chunk, now))))
  {
    PollSplit(s.peer, chunk, now);
  }

  lemma PeerResend(s: Link)
    requires Quiet(s) && SenderOk(s.peer)
    ensures Quiet(Flip(Act(Flip(s), Resend)))
  {
    assert s.peer.ch.inFlight == [];
    assert s.incoming + [] == s.incoming;
  }

  lemma PeerLose(s: Link, k: nat)
    requires Quiet(s)
    ensures Quiet(Flip(Act(Flip(s), Lose(k))))
  {
    var ms := s.incoming;
    if k < |ms| {
      var ns := ms[..k] + ms[k + 1..];
      forall p | 0 <= p < |ns|
        ensures ns[p] == ms[if p < k then p else p + 1]
      {
      }
    }
  }

  lemma PeerDeliver(s: Link, now: int)
    requires Quiet(s) && Inv(s)
    ensures Quiet(Flip(Act(Flip(s), Deliver(now))))
  {
    if s.outgoing != [] {
      assert MsgOk(s.me, s.outgoing[0], s.peer.got, s.peer.held);
      PeerTakes(s.me, s.peer, s.outgoing[0], now);
    }
  }

  /** Taking a fragment leaves the receiver's own sending side alone and never loses ground. */
  lemma PeerTakes(e: End, r: End, m: Msg, now: int)
    requires SenderOk(e) && ReceiverOk(r, e.sent) && e.base <= r.got && MsgOk(e, m, r.got, r.held) && m.data.Some? && m.ack.None?
    ensures var f := DeliverEnd(r, m, now);
            && f.ch.sendQueue == r.ch.sendQueue && f.ch.fragQueue == r.ch.fragQueue && f.sent == r.sent
            && f.base == r.base && r.got <= f.got
  {
    DeliverSplit(r, m, e, now);
    ReceiverData(r, e.sent, m.data.value, now);
  }

  lemma OneWayPeer(s: Link, ev: Event)
    requires OneWay(s) && !ev.Enqueue?
    ensures OneWay(Flip(Act(Flip(s), ev)))
  {
    NeverMisled(s, Step(false, ev));
    InvAct(Flip(s), ev);
    assert Quiet(Flip(Act(Flip(s), ev))) by {
      match ev
      case Poll(chunk, now) => PeerPoll(s, chunk, now);
      case Resend => PeerResend(s);
      case Deliver(now) => PeerDeliver(s, now);
      case Lose(k) => PeerLose(s, k);
      case MarkDead =>
    }
  }

  lemma OneWayNext(s: Link, step: Step)
    requires OneWay(s) && (step.mine || !step.event.Enqueue?)
    ensures OneWay(Next(s, step))
  {
    if step.mine {
      OneWayMine(s, step.event);
    } else {
      OneWayPeer(s, step.event);
    }
  }

  lemma {:induction false} OneWayRun(s: Link, steps: seq<Step>)
    requires OneWay(s) && OneWaySteps(steps)
    ensures OneWay(Run(s, steps))
  {
    if steps != [] {
      var init := steps[..|steps| - 1];
      OneWayRun(s, init);
      OneWayNext(Run(s, init), steps[|steps| - 1]);
    }
  }

  /**
   Safety. At every point of every run the application on the other end has been
   handed a prefix, in order and without repeats, of the accepted datagrams of
   1 to 1472 bytes; and nothing it still misses was given up.
   */
  lemma Safety(now: int, steps: seq<Step>)
    requires OneWaySteps(steps)
    ensures var s := Run(Start(now), steps);
            && s.peer.ch.reasm.out <= Deliverables(s.me.accepted)
            && s.me.base <= s.peer.got <= |s.me.sent| <= s.me.base + WINDOW_SIZE
  {
    OneWayStart(now);
    OneWayRun(Start(now), steps);
    var s := Run(Start(now), steps);
    Delivered(s.me, s.peer, s.outgoing);
  }

  /** In every reachable state all indices on the air lie where modulo 16 is exact. */
  lemma RangesReached(now: int, steps: seq<Step>, p: nat)
    requires OneWaySteps(steps)
    ensures var s := Run(Start(now), steps);
            && (p < |s.outgoing| ==>
                  && s.outgoing[p].data.Some?
                  && s.peer.got <= s.outgoing[p].data.value + 10
                  && s.outgoing[p].data.value <= s.peer.got + 5)
            && (p < |s.incoming| ==>
                  && s.incoming[p].ack.Some?
                  && s.me.base <= s.incoming[p].ack.value + 9
                  && s.incoming[p].ack.value <= |s.me.sent|)
  {
    OneWayStart(now);
    OneWayRun(Start(now), steps);
    var s := Run(Start(now), steps);
    if p < |s.outgoing| {
      assert MsgOk(s.me, s.outgoing[p], s.peer.got, s.peer.held);
    }
  }

  // ---------- progress ----------

  /** After an acceptance an ACK is due no later than `limit`. */
  predicate AckBy(c: Chan, limit: int) {
    c.ackPending.Some? && c.ackDeadline.Some? && c.ackDeadline.value <= limit
  }

  lemma {:induction false} DrainAcks(c: Chan, now: int, limit: int)
    requires AckBy(c, limit)
    ensures AckBy(Drain(c, now), limit) && Drain(c, now).linkDead == c.linkDead
    decreases |c.recvBuf|
  {
    var k := Find(c.recvBuf, c.recvNext);
    if k < |c.recvBuf| {
      DrainAcks(Accept(c.(recvBuf := c.recvBuf[..k] + c.recvBuf[k + 1..]), c.recvBuf[k].frag, now), now, limit);
    }
  }

  /** Whether the fragment at or before `recvNext` is new or a repeat, it is acknowledged. */
  lemma DataProvokesAck(e: End, sent: seq<Frag>, i: nat, now: int, limit: int)
    requires ReceiverOk(e, sent) && i < |sent| && i <= e.got <= i + 10
    requires now + ACK_DELAY <= limit && (e.ch.ackDeadline.Some? ==> e.ch.ackDeadline.value <= limit)
    ensures var f := DataEnd(e, i, sent[i], now);
            AckBy(f.ch, limit) && f.ch.linkDead == e.ch.linkDead && i < f.got
  {
    WindowExact(e.got, i);
    if i == e.got {
      AcceptNext(e.ch, sent[i], sent, e.got, now);
      DrainAcks(Accept(e.ch, sent[i], now), now, limit);
      DrainAdvances(e.got + 1, e.held);
    }
  }

  // Something on the air, whatever it is.

  predicate DueBy(due: Option<int>, limit: int) {
    due.Some? ==> due.value <= limit
  }

  /** A time by which the other end's delayed ACK is due, wherever its timer stands. */
  function Patient(due: Option<int>): (later: int)
    ensures ACK_DELAY <= later && (due.Some? ==> due.value <= later)
  {
    if due.Some? && due.value > ACK_DELAY then due.value else ACK_DELAY
  }

  /** A delivered fragment puts off no ACK beyond `limit`. */
  lemma DataDueBy(c: Chan, s: SeqNum, f: Frag, now: int, limit: int)
    requires now + ACK_DELAY <= limit && DueBy(c.ackDeadline, limit)
    ensures DueBy(ReceiveData(c, s, f, now).ackDeadline, limit) && ReceiveData(c, s, f, now).linkDead == c.linkDead
  {
    if s == c.recvNext {
      DrainAcks(Accept(c, f, now), now, limit);
    }
  }

  lemma FirstDue(s: Link, now: int, limit: int)
    requires OneWay(s) && s.outgoing != [] && now + ACK_DELAY <= limit && DueBy(s.peer.ch.ackDeadline, limit)
    ensures var f := DeliverEnd(s.peer, s.outgoing[0], now);
            && DueBy(f.ch.ackDeadline, limit) && f.ch.linkDead == s.peer.ch.linkDead
            && (s.outgoing[0].data == Some(s.me.base) ==> AckBy(f.ch, limit) && s.me.base < f.got)
  {
    var m := s.outgoing[0];
    assert MsgOk(s.me, m, s.peer.got, s.peer.held);
    DeliverSplit(s.peer, m, s.me, now);
    DataDueBy(s.peer.ch, Mod(m.data.value), s.me.sent[m.data.value], now, limit);
    if m.data.value == s.me.base {
      DataProvokesAck(s.peer, s.me.sent, s.me.base, now, limit);
    }
  }

  /** The other end takes the first message on the air. */
  lemma FirstTaken(s: Link, now: int, limit: int)
    requires OneWay(s) && s.outgoing != [] && now + ACK_DELAY <= limit && DueBy(s.peer.ch.ackDeadline, limit)
    ensures var t := Next(s, Step(false, Deliver(now)));
            && OneWay(t) && t == s.(peer := t.peer, outgoing := s.outgoing[1..])
            && DueBy(t.peer.ch.ackDeadline, limit) && t.peer.ch.linkDead == s.peer.ch.linkDead
            && (s.outgoing[0].data == Some(s.me.base) ==> AckBy(t.peer.ch, limit) && s.me.base < t.peer.got)
  {
    OneWayPeer(s, Deliver(now));
    FirstDue(s, now, limit);
  }

  function Repeat(step: Step, n: nat): seq<Step> {
    seq(n, i => step)
  }

  lemma RunRepeat(s: Link, step: Step, n: nat)
    requires n > 0
    ensures Run(s, Repeat(step, n)) == Run(Next(s, step), Repeat(step, n - 1))
  {
    assert Repeat(step, n) == [step] + Repeat(step, n - 1);
    RunConcat(s, [step], Repeat(step, n - 1));
    RunOne(s, step);
  }

  /** The other end takes the first `n` messages on the air. */
  lemma {:induction false} SomeTaken(s: Link, now: int, limit: int, n: nat)
    requires OneWay(s) && n <= |s.outgoing| && now + ACK_DELAY <= limit && DueBy(s.peer.ch.ackDeadline, limit)
    ensures var t := Run(s, Repeat(Step(false, Deliver(now)), n));
            && OneWay(t) && t == s.(peer := t.peer, outgoing := s.outgoing[n..])
            && DueBy(t.peer.ch.ackDeadline, limit) && t.peer.ch.linkDead == s.peer.ch.linkDead
    decreases n
  {
    if n > 0 {
      FirstTaken(s, now, limit);
      var u := Next(s, Step(false, Deliver(now)));
      SomeTaken(u, now, limit, n - 1);
      RunRepeat(s, Step(false, Deliver(now)), n);
      assert u.outgoing[n - 1..] == s.outgoing[n..];
    }
  }

  /** The first ACK on the air is delivered: what it names is released. */
  lemma AckTaken(s: Link, later: int)
    requires OneWay(s) && s.incoming != []
    ensures var t := Next(s, Step(true, Deliver(later)));
            OneWay(t) && t.incoming == s.incoming[1..] && s.me.base <= t.me.base == s.incoming[0].ack.value
  {
    var e, m := s.me, s.incoming[0];
    OneWayMine(s, Deliver(later));
    assert MsgOk(s.peer, m, e.got, e.held);
    AckExact(e.ch, e.base, |e.sent|, m.ack.value);
  }

  /** Every ACK on the air is delivered: all that the last one names is released. */
  lemma {:induction false} AcksTaken(s: Link, later: int)
    requires OneWay(s)
    ensures var t := Run(s, Repeat(Step(true, Deliver(later)), |s.incoming|));
            && s.me.base <= t.me.base
            && (s.incoming != [] ==> t.me.base == s.incoming[|s.incoming| - 1].ack.value)
    decreases |s.incoming|
  {
    if s.incoming != [] {
      var step := Step(true, Deliver(later));
      AckTaken(s, later);
      AcksTaken(Next(s, step), later);
      RunRepeat(s, step, |s.incoming|);
    }
  }

  /** The ACK that is due goes out behind those already on the air. */
  lemma AckOwed(s: Link, chunk: ChunkSize, later: int)
    requires OneWay(s) && AckBy(s.peer.ch, later) && !s.peer.ch.linkDead
    ensures var t := Next(s, Step(false, Poll(chunk, later)));
            && OneWay(t) && t.me == s.me && |t.incoming| == |s.incoming| + 1
            && t.incoming[|s.incoming|].ack == Some(s.peer.got)
  {
    PollSplit(s.peer, chunk, later);
    OneWayPeer(s, Poll(chunk, later));
  }

  lemma {:induction false} RunSplit(s: Link, a: Step, b: seq<Step>, c: seq<Step>)
    ensures Run(s, [a] + b + c) == Run(Run(Next(s, a), b), c)
  {
    RunConcat(s, [a], b);
    RunOne(s, a);
    RunConcat(s, [a] + b, c);
  }

  /** The other end takes the head of the channel, sends the ACK it owes, and every ACK on the air arrives. */
  function HeadSteps(chunk: ChunkSize, now: int, later: int, acks: nat): seq<Step> {
    [Step(false, Deliver(now)), Step(false, Poll(chunk, later))] + Repeat(Step(true, Deliver(later)), acks)
  }

  /** With the oldest unacknowledged fragment first on the air, taking it and its ACK releases it. */
  lemma {:induction false} HeadProgress(s: Link, chunk: ChunkSize, now: int, later: int)
    requires OneWay(s) && s.outgoing != [] && s.outgoing[0].data == Some(s.me.base) && !s.peer.ch.linkDead
    requires now + ACK_DELAY <= later && DueBy(s.peer.ch.ackDeadline, later)
    ensures s.me.base < Run(s, HeadSteps(chunk, now, later, |s.incoming| + 1)).me.base
  {
    var take, poll := Step(false, Deliver(now)), Step(false, Poll(chunk, later));
    var u := Next(s, take);
    FirstTaken(s, now, later);
    var v := Next(u, poll);
    AckOwed(u, chunk, later);
    AcksTaken(v, later);
    var acks := Repeat(Step(true, Deliver(later)), |s.incoming| + 1);
    assert [take, poll] == [take] + [poll];
    RunSplit(s, take, [poll], acks);
    RunOne(u, poll);
  }

  /** A retransmission goes out behind everything already on the air. */
  lemma HeadResent(s: Link)
    requires OneWay(s) && s.me.ch.inFlight != []
    ensures var t := Next(s, Step(true, Resend));
            && OneWay(t) && t.peer == s.peer && t.incoming == s.incoming && t.me.base == s.me.base
            && |t.outgoing| == |s.outgoing| + 1 && t.outgoing[|s.outgoing|].data == Some(s.me.base)
  {
    OneWayMine(s, Resend);
    ResendMsgOk(s.me, s.peer.got, s.peer.held);
  }

  /**
   Progress. From every state of the one-way link with fragments in flight, whatever is
   on the air: retransmit the oldest, let the other end take everything up to and
   including it and send the ACK it owes, and let every ACK arrive. Then `base` has
   grown, whether or not the receiver already had the fragment.
   */
  lemma {:induction false} Progress(s: Link, chunk: ChunkSize, now: int, later: int)
    requires OneWay(s) && s.me.ch.inFlight != [] && !s.peer.ch.linkDead
    requires now + ACK_DELAY <= later && DueBy(s.peer.ch.ackDeadline, later)
    ensures var steps := [Step(true, Resend)] + Repeat(Step(false, Deliver(now)), |s.outgoing|)
                         + HeadSteps(chunk, now, later, |s.incoming| + 1);
            s.me.base < Run(s, steps).me.base
  {
    var resend, takes := Step(true, Resend), Repeat(Step(false, Deliver(now)), |s.outgoing|);
    var u := Next(s, resend);
    HeadResent(s);
    SomeTaken(u, now, later, |s.outgoing|);
    HeadProgress(Run(u, takes), chunk, now, later);
    RunSplit(s, resend, takes, HeadSteps(chunk, now, later, |s.incoming| + 1));
  }
}
