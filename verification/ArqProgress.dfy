/** What the time of last progress, on which the send loop's timers rest, stands for. */
module ArqProgress {
  import opened Wire
  import opened Fragmentation
  import opened Arq
  import opened ArqLink

  /** One end's channel. */
  function ChanOf(s: Link, mine: bool): Chan {
    if mine then s.me.ch else s.peer.ch
  }

  /** Something was released, or something was sent while nothing was in flight. */
  predicate Moves(before: seq<InFlight>, after: seq<InFlight>) {
    |after| < |before| || (before == [] && after != [])
  }

  /** When the window of one end last moved, read off the events and the windows alone. */
  function LastMove(now: int, steps: seq<Step>, mine: bool): int {
    if steps == [] then now
    else
      var init, last := steps[..|steps| - 1], steps[|steps| - 1];
      var s := Run(Start(now), init);
      if Moves(ChanOf(s, mine).inFlight, ChanOf(Next(s, last), mine).inFlight) && (last.event.Poll? || last.event.Deliver?)
      then last.event.at
      else LastMove(now, init, mine)
  }

  /** One operation: the window moved and is stamped, or neither. */
  ghost predicate Stamped(c: Chan, d: Chan, now: int) {
    && WindowOk(d)
    && (Moves(c.inFlight, d.inFlight) ==> d.lastProgress == now)
    && (!Moves(c.inFlight, d.inFlight) ==> d.lastProgress == c.lastProgress)
  }

  lemma StampedAck(c: Chan, ack: SeqNum, now: int)
    requires WindowOk(c)
    ensures Stamped(c, ReceiveAck(c, ack, now), now)
  {
    WindowOkAck(c, ack, now);
  }

  /** Whatever bytes arrive. */
  lemma StampedReceive(c: Chan, value: Bytes, now: int)
    requires WindowOk(c)
    ensures Stamped(c, Receive(c, value, now), now)
  {
    WindowOkReceive(c, value, now);
    if Parse(value).Some? {
      var p := Parse(value).value;
      if p.ack.Some? {
        StampedAck(c, p.ack.value, now);
      }
      var c1 := match p.ack case None => c case Some(a) => ReceiveAck(c, a, now);
      ReceiveDataSameSender(c1, p.seqNum, p.frag, now);
    }
  }

  lemma StampedSend(c: Chan, chunk: ChunkSize, now: int)
    requires WindowOk(c)
    ensures Stamped(c, NextSend(c, chunk, now).0, now)
  {
    WindowOkSend(c, chunk, now);
    RefillTwice(c, chunk);
  }

  /** Neither moves nor is stamped. */
  ghost predicate Still(c: Chan, d: Chan) {
    WindowOk(d) && d.inFlight == c.inFlight && d.lastProgress == c.lastProgress
  }

  lemma OneStep(s: Link, ev: Event)
    requires WindowOk(s.me.ch)
    ensures var c, d := s.me.ch, Act(s, ev).me.ch;
            if ev.Poll? || ev.Deliver? then Stamped(c, d, ev.at) else Still(c, d)
    ensures Act(s, ev).peer == s.peer
  {
    var c := s.me.ch;
    match ev
    case Poll(chunk, now) => StampedSend(c, chunk, now);
    case Deliver(now) =>
      if s.incoming != [] {
        StampedReceive(c, s.incoming[0].bytes, now);
      }
    case Resend => WindowOkRetransmit(c);
    case _ =>
  }

  /**
   Over every run, whatever is lost, late or misled: the window bookkeeping holds,
   and the channel's time of last progress is when something was last released or last
   sent into an empty window, and the creation time before that.
   */
  lemma {:induction false} ProgressExactly(now: int, steps: seq<Step>, mine: bool)
    ensures var c := ChanOf(Run(Start(now), steps), mine);
            WindowOk(c) && c.lastProgress == LastMove(now, steps, mine)
  {
    if steps != [] {
      var init, last := steps[..|steps| - 1], steps[|steps| - 1];
      ProgressExactly(now, init, true);
      ProgressExactly(now, init, false);
      var s := Run(Start(now), init);
      OneStep(if last.mine then s else Flip(s), last.event);
    }
  }

  // ---------- when ACKs are owed and sent ----------

  /** Since when an ACK has been owed, read off the runs alone. */
  function OwedSince(now: int, steps: seq<Step>, mine: bool): Option<int> {
    if steps == [] then None
    else
      var init, last := steps[..|steps| - 1], steps[|steps| - 1];
      var s := Run(Start(now), init);
      if ChanOf(Next(s, last), mine).ackPending.None? then None
      else if ChanOf(s, mine).ackPending.None? && last.event.Deliver? then Some(last.event.at)
      else OwedSince(now, init, mine)
  }

  /** The deadline follows the ACK: it appears with it, stays with it and goes with it. */
  ghost predicate DeadlineKept(c: Chan, d: Chan, ev: Event) {
    d.ackDeadline == if d.ackPending.None? then None
                     else if c.ackPending.None? && ev.Deliver? then Some(ev.at + ACK_DELAY)
                     else c.ackDeadline
  }

  ghost predicate Paired(c: Chan) {
    c.ackPending.Some? <==> c.ackDeadline.Some?
  }

  /** Receiving only ever adds an ACK. */
  ghost predicate AddsAck(c: Chan, d: Chan, now: int) {
    && (c.ackPending.Some? ==> d.ackPending.Some? && d.ackDeadline == c.ackDeadline)
    && (c.ackPending.None? ==> if d.ackPending.Some? then d.ackDeadline == Some(now + ACK_DELAY) else d.ackDeadline == c.ackDeadline)
  }

  lemma {:induction false} DrainAdds(c: Chan, now: int)
    requires Paired(c)
    ensures AddsAck(c, Drain(c, now), now) && Paired(Drain(c, now))
    decreases |c.recvBuf|
  {
    var k := Find(c.recvBuf, c.recvNext);
    if k < |c.recvBuf| {
      DrainAdds(Accept(c.(recvBuf := c.recvBuf[..k] + c.recvBuf[k + 1..]), c.recvBuf[k].frag, now), now);
    }
  }

  lemma DataAdds(c: Chan, s: SeqNum, f: Frag, now: int)
    requires Paired(c)
    ensures AddsAck(c, ReceiveData(c, s, f, now), now) && Paired(ReceiveData(c, s, f, now))
  {
    if s == c.recvNext {
      DrainAdds(Accept(c, f, now), now);
    }
  }

  lemma ReceiveAdds(c: Chan, value: Bytes, now: int)
    requires Paired(c)
    ensures AddsAck(c, Receive(c, value, now), now) && Paired(Receive(c, value, now))
  {
    if Parse(value).Some? {
      var p := Parse(value).value;
      var c1 := match p.ack case None => c case Some(a) => ReceiveAck(c, a, now);
      DataAdds(c1, p.seqNum, p.frag, now);
    }
  }

  lemma DeadlineStep(s: Link, ev: Event)
    requires Paired(s.me.ch)
    ensures Paired(Act(s, ev).me.ch) && DeadlineKept(s.me.ch, Act(s, ev).me.ch, ev)
  {
    if ev.Deliver? && s.incoming != [] {
      ReceiveAdds(s.me.ch, s.incoming[0].bytes, ev.at);
    } else if ev.Poll? {
      RefillTwice(s.me.ch, ev.chunk);
    }
  }

  ghost predicate OwedOk(c: Chan, since: Option<int>) {
    && Paired(c) && (c.ackPending.Some? <==> since.Some?)
    && (since.Some? ==> c.ackDeadline == Some(since.value + 15))
  }

  /** Over every run an ACK is due 15 ms after the moment from which it has been owed. */
  lemma {:induction false} DeadlineExactly(now: int, steps: seq<Step>, mine: bool)
    ensures OwedOk(ChanOf(Run(Start(now), steps), mine), OwedSince(now, steps, mine))
  {
    if steps != [] {
      var init, last := steps[..|steps| - 1], steps[|steps| - 1];
      DeadlineExactly(now, init, mine);
      var s := Run(Start(now), init);
      DeadlineAt(s, last, mine, OwedSince(now, init, mine), OwedSince(now, steps, mine));
    }
  }

  lemma DeadlineAt(s: Link, last: Step, mine: bool, since: Option<int>, after: Option<int>)
    requires OwedOk(ChanOf(s, mine), since)
    requires var c, d := ChanOf(s, mine), ChanOf(Next(s, last), mine);
             after == if d.ackPending.None? then None else if c.ackPending.None? && last.event.Deliver? then Some(last.event.at) else since
    ensures OwedOk(ChanOf(Next(s, last), mine), after)
  {
    var from_ := if last.mine then s else Flip(s);
    OtherEnd(from_, last.event);
    if last.mine == mine {
      DeadlineStep(from_, last.event);
    }
  }

  lemma OtherEnd(s: Link, ev: Event)
    ensures Act(s, ev).peer == s.peer
  {
  }

  /**
   What a poll puts on the air, over every run: something exactly if the link is not dead
   and there is a fragment the window has room for or an ACK owed for 15 ms; and whatever
   it is carries the owed ACK, for everything received in order, and settles it.
   */
  lemma AckOnTime(now: int, steps: seq<Step>, chunk: ChunkSize, at: int)
    ensures var s := Run(Start(now), steps);
            var since, msgs := OwedSince(now, steps, true), PollMsgs(s.me, chunk, at);
            && |msgs| == (if !s.me.ch.linkDead && (SendsData(s.me.ch, chunk) || (since.Some? && since.value + 15 <= at)) then 1 else 0)
            && (msgs != [] && since.Some? ==>
                  && Parse(msgs[0].bytes).Some? && Parse(msgs[0].bytes).value.ack == Some(AckPosition(s.me.ch))
                  && Act(s, Poll(chunk, at)).me.ch.ackPending.None?)
  {
    DeadlineExactly(now, steps, true);
    ProgressExactly(now, steps, true);
    PollCarries(Run(Start(now), steps).me, chunk, at);
  }

  lemma PollCarries(e: End, chunk: ChunkSize, at: int)
    requires Paired(e.ch) && WindowOk(e.ch)
    ensures var msgs := PollMsgs(e, chunk, at);
            && |msgs| == (if !e.ch.linkDead && (SendsData(e.ch, chunk) || AckDue(e.ch, at)) then 1 else 0)
            && (msgs != [] && e.ch.ackPending.Some? ==>
                  && Parse(msgs[0].bytes).Some? && Parse(msgs[0].bytes).value.ack == Some(AckPosition(e.ch))
                  && PollEnd(e, chunk, at).ch.ackPending.None?)
  {
    PollSplit(e, chunk, at);
    var c := Refill(e.ch, chunk);
    if SendsData(e.ch, chunk) {
      ParseDataMsg(c.sendNext, c.fragQueue[0], c.ackPending);
    } else if !e.ch.linkDead && AckDue(e.ch, at) {
      ParsePureAck(e.ch.ackPending.value);
    }
  }

  /** Every data fragment that arrives leaves an ACK owed, but for a repeat of one that is buffered. */
  lemma DataOwesAck(now: int, steps: seq<Step>, at: int)
    requires Unmisled(Start(now), steps)
    requires var s := Run(Start(now), steps); s.incoming != [] && s.incoming[0].data.Some?
    ensures var s := Run(Start(now), steps);
            Act(s, Deliver(at)).me.ch.ackPending.Some? <==> s.me.ch.ackPending.Some? || s.incoming[0].data.value !in s.me.held
  {
    InvStart(now);
    InvRun(Start(now), steps);
    DeadlineExactly(now, steps, true);
    DeliverOwes(Run(Start(now), steps), at);
  }

  lemma DeliverOwes(s: Link, at: int)
    requires Inv(s) && Paired(s.me.ch) && s.incoming != [] && s.incoming[0].data.Some?
    ensures DeliverEnd(s.me, s.incoming[0], at).ch.ackPending.Some? <==> s.me.ch.ackPending.Some? || s.incoming[0].data.value !in s.me.held
  {
    InvWindow(s);
    AckPartOk(s, at);
    NotFarBack(s);
    AckPartOwes(s.me, s.incoming[0], at);
    OwesAck(AckPart(s.me, s.incoming[0], at), s.peer.sent, s.incoming[0].data.value, at);
  }

  lemma NotFarBack(s: Link)
    requires Tracks(s) && s.incoming != [] && s.incoming[0].data.Some?
    ensures s.me.got <= s.incoming[0].data.value + WINDOW_SIZE
  {
    assert MsgOk(s.peer, s.incoming[0], s.me.got, s.me.held);
  }

  lemma AckPartOwes(e: End, m: Msg, at: int)
    ensures var f := AckPart(e, m, at); f.ch.ackPending == e.ch.ackPending && f.ch.ackDeadline == e.ch.ackDeadline
  {
  }

  lemma OwesAck(e: End, sent: seq<Frag>, i: nat, now: int)
    requires ReceiverOk(e, sent) && Paired(e.ch) && i < |sent| && e.got <= i + WINDOW_SIZE && i < e.got + WINDOW_SIZE
    ensures DataEnd(e, i, sent[i], now).ch.ackPending.Some? <==> e.ch.ackPending.Some? || i !in e.held
  {
    WindowExact(e.got, i);
    if i == e.got {
      DrainAdds(Accept(e.ch, sent[i], now), now);
    } else if i > e.got {
      BufferedExact(e.ch, e.held, sent, e.got, i);
    }
  }

  // ---------- what waits to be sent ----------

  function EndOf(s: Link, mine: bool): End {
    if mine then s.me else s.peer
  }

  lemma QueueStep(s: Link, ev: Event)
    requires QueueOk(s.me)
    ensures QueueOk(Act(s, ev).me)
  {
    if ev.Poll? {
      RefillQueueOk(s.me, ev.chunk);
      PollSplit(s.me, ev.chunk, ev.at);
      var c := Refilled(s.me, ev.chunk).ch;
      if SendsData(s.me.ch, ev.chunk) {
        assert s.me.sent + c.fragQueue == s.me.sent + [c.fragQueue[0]] + c.fragQueue[1..];
      }
    } else if ev.Deliver? && s.incoming != [] {
      ReceiveKeepsQueues(s.me.ch, s.incoming[0].bytes, ev.at);
    } else if ev.Enqueue? {
      var e := s.me;
      assert Datagrams(e.cuts) + (e.ch.sendQueue + [ev.datagram]) == Datagrams(e.cuts) + e.ch.sendQueue + [ev.datagram];
    }
  }

  lemma {:induction false} QueueRun(now: int, steps: seq<Step>, mine: bool)
    ensures QueueOk(EndOf(Run(Start(now), steps), mine))
  {
    if steps != [] {
      var init, last := steps[..|steps| - 1], steps[|steps| - 1];
      QueueRun(now, init, true);
      QueueRun(now, init, false);
      var s := Run(Start(now), init);
      QueueStep(if last.mine then s else Flip(s), last.event);
      OtherEnd(if last.mine then s else Flip(s), last.event);
    }
  }

  /** Datagrams not yet cut into fragments, and fragments not yet sent. */
  function Backlog(e: End): int {
    |e.accepted| - |e.cuts| + |CutFrags(e.cuts)| - |e.sent|
  }

  /** Over every run a datagram is accepted exactly if fewer than 32 datagrams and fragments wait. */
  lemma AcceptsExactly(now: int, steps: seq<Step>, d: Bytes)
    ensures var e := Run(Start(now), steps).me;
            Act(Run(Start(now), steps), Enqueue(d)).me.accepted == if Backlog(e) < 32 then e.accepted + [d] else e.accepted
  {
    QueueRun(now, steps, true);
    var e := Run(Start(now), steps).me;
    assert |e.sent + e.ch.fragQueue| == |CutFrags(e.cuts)|;
    assert |Datagrams(e.cuts) + e.ch.sendQueue| == |e.accepted|;
  }
}
