/**
 Progress with data both ways. A run without a misled delivery never wedges: some
 schedule delivers everything accepted at either end. And what a misled delivery
 releases is lost: the other end waits for it for ever.

 The only danger on the way is that retransmitting the oldest fragment brings back the
 ACK it was first sent with and misleads the other end. `Cross` shows that this cannot be
 so at both ends at once.
 */
module ArqTwoWay {
  import opened Wire
  import opened Fragmentation
  import opened Arq
  import opened ArqLink
  import opened ArqOneWay

  // ---------- the two ends' stored ACKs ----------

  /** No two fragments in flight, one at each end, both carry an ACK ten or more behind the other. */
  ghost predicate Cross(e: End, r: End) {
    forall i, j :: e.base <= i < |e.acks| && r.base <= j < |r.acks| && e.acks[i].Some? && r.acks[j].Some? ==>
      !(e.acks[i].value + 10 <= j && r.acks[j].value + 10 <= i)
  }

  ghost predicate Sound(s: Link) {
    Inv(s) && Cross(s.me, s.peer)
  }

  lemma SoundFlip(s: Link)
    requires Sound(s)
    ensures Sound(Flip(s))
  {
  }

  lemma CrossShrink(e: End, f: End, r: End)
    requires Cross(e, r) && f.acks == e.acks && e.base <= f.base
    ensures Cross(f, r)
  {
  }

  /** A fragment sent now carries an ACK that nothing in flight at the other end is ten beyond. */
  lemma CrossSend(e: End, f: End, r: End)
    requires Cross(e, r) && f.acks == e.acks + [AckTag(e)] && f.base == e.base && |r.acks| <= e.got + WINDOW_SIZE
    ensures Cross(f, r)
  {
  }

  lemma CrossAct(s: Link, ev: Event)
    requires Inv(s) && Cross(s.me, s.peer)
    ensures Cross(Act(s, ev).me, Act(s, ev).peer)
  {
    var f := Act(s, ev).me;
    if ev.Poll? {
      PollSplit(s.me, ev.chunk, ev.at);
      if SendsData(s.me.ch, ev.chunk) {
        CrossSend(s.me, f, s.peer);
      } else {
        CrossShrink(s.me, f, s.peer);
      }
    } else {
      CrossShrink(s.me, f, s.peer);
    }
  }

  lemma SoundNext(s: Link, step: Step)
    requires Sound(s) && !MisledNext(s, step)
    ensures Sound(Next(s, step))
  {
    InvNext(s, step);
    CrossAct(if step.mine then s else Flip(s), step.event);
  }

  lemma {:induction false} SoundRun(s: Link, steps: seq<Step>)
    requires Sound(s) && Unmisled(s, steps)
    ensures Sound(Run(s, steps))
  {
    if steps != [] {
      SoundRun(s, steps[..|steps| - 1]);
      SoundNext(Run(s, steps[..|steps| - 1]), steps[|steps| - 1]);
    }
  }

  // ---------- composing runs ----------

  lemma {:induction false} UnmisledConcat(s: Link, a: seq<Step>, b: seq<Step>)
    requires Unmisled(s, a) && Unmisled(Run(s, a), b)
    ensures Unmisled(s, a + b)
    decreases |b|
  {
    if b == [] {
      assert a + b == a;
    } else {
      var init := b[..|b| - 1];
      assert (a + b)[..|a + b| - 1] == a + init;
      UnmisledConcat(s, a, init);
      RunConcat(s, a, init);
    }
  }

  lemma UnmisledOne(s: Link, step: Step)
    requires !MisledNext(s, step)
    ensures Unmisled(s, [step])
  {
    assert [step][..0] == [];
  }

  function FlipSteps(steps: seq<Step>): seq<Step> {
    seq(|steps|, i requires 0 <= i < |steps| => Step(!steps[i].mine, steps[i].event))
  }

  lemma {:induction false} RunFlip(s: Link, steps: seq<Step>)
    ensures Run(Flip(s), FlipSteps(steps)) == Flip(Run(s, steps))
    ensures Unmisled(Flip(s), FlipSteps(steps)) <==> Unmisled(s, steps)
  {
    if steps != [] {
      var init := steps[..|steps| - 1];
      RunFlip(s, init);
      assert FlipSteps(steps)[..|steps| - 1] == FlipSteps(init);
    }
  }

  /** No new data, and nobody gives up. */
  predicate Carrying(steps: seq<Step>) {
    forall k :: 0 <= k < |steps| ==> !steps[k].event.Enqueue? && !steps[k].event.MarkDead?
  }

  ghost predicate SameCharge(e: End, f: End) {
    f.accepted == e.accepted && f.ch.linkDead == e.ch.linkDead
  }

  lemma {:induction false} ChargeKept(s: Link, steps: seq<Step>)
    requires Carrying(steps)
    ensures SameCharge(s.me, Run(s, steps).me) && SameCharge(s.peer, Run(s, steps).peer)
  {
    if steps != [] {
      var init, step := steps[..|steps| - 1], steps[|steps| - 1];
      ChargeKept(s, init);
      var t := Run(s, init);
      ActKeepsCharge(if step.mine then t else Flip(t), step.event);
    }
  }

  lemma ActKeepsCharge(s: Link, ev: Event)
    requires !ev.Enqueue? && !ev.MarkDead?
    ensures SameCharge(s.me, Act(s, ev).me) && Act(s, ev).peer == s.peer
  {
    if ev.Poll? {
      PollSplit(s.me, ev.chunk, ev.at);
    } else if ev.Deliver? && s.incoming != [] {
      ReceiveKeepsQueues(s.me.ch, s.incoming[0].bytes, ev.at);
    }
  }

  /** Everything on the air may be lost. */
  lemma {:induction false} Flush(s: Link) returns (steps: seq<Step>)
    ensures Carrying(steps) && Unmisled(s, steps) && Run(s, steps) == s.(outgoing := [], incoming := [])
    decreases |s.outgoing| + |s.incoming|
  {
    if s.outgoing == [] && s.incoming == [] {
      steps := [];
    } else {
      var step := Step(s.outgoing != [], Lose(0));
      var t := Next(s, step);
      assert t == if s.outgoing != [] then s.(outgoing := s.outgoing[1..]) else s.(incoming := s.incoming[1..]);
      var rest := Flush(t);
      RunOne(s, step);
      UnmisledOne(s, step);
      RunConcat(s, [step], rest);
      UnmisledConcat(s, [step], rest);
      steps := [step] + rest;
    }
  }

  // ---------- whose head may be retransmitted ----------

  /** The ACK a retransmission of the oldest fragment would carry. */
  function HeadAck(e: End): Option<nat> {
    if AckTag(e).Some? then AckTag(e) else if e.base < |e.acks| then e.acks[e.base] else None
  }

  /** It is not ten behind a window that has something to release. */
  ghost predicate SafeHead(e: End, r: End) {
    HeadAck(e).Some? && r.base < |r.sent| ==> r.base < HeadAck(e).value + 10
  }

  /** With something in flight at both ends, one of the two heads is safe. */
  lemma OneHeadSafe(s: Link)
    requires Sound(s) && s.me.base < |s.me.sent| && s.peer.base < |s.peer.sent|
    ensures SafeHead(s.me, s.peer) || SafeHead(s.peer, s.me)
  {
  }

  /** A misled delivery is one of an ACK ten or more behind a window with something in flight. */
  lemma SafeAckUnmisled(s: Link, now: int)
    requires Inv(s) && s.incoming != []
    requires s.incoming[0].ack.Some? && s.me.base < |s.me.sent| ==> s.me.base < s.incoming[0].ack.value + 10
    ensures !Misled(s, Deliver(now))
  {
  }

  // ---------- one exchange ----------

  ghost predicate Quiescent(s: Link) {
    Sound(s) && s.outgoing == [] && s.incoming == [] && !s.me.ch.linkDead && !s.peer.ch.linkDead
  }

  ghost predicate SameQueues(e: End, f: End) {
    f.ch.sendQueue == e.ch.sendQueue && f.ch.fragQueue == e.ch.fragQueue && f.ch.linkDead == e.ch.linkDead
  }

  /** The oldest fragment is put on the air. */
  lemma HeadSent(s: Link)
    requires Quiescent(s) && s.me.ch.inFlight != []
    ensures var t := Next(s, Step(true, Resend));
            && Sound(t) && t.peer == s.peer && t.incoming == [] && |t.outgoing| == 1
            && t.outgoing[0].data == Some(s.me.base) && t.outgoing[0].ack == HeadAck(s.me)
            && SameQueues(s.me, t.me) && t.me.base == s.me.base && t.me.sent == s.me.sent
  {
    SoundNext(s, Step(true, Resend));
    ResendMsgOk(s.me, s.peer.got, s.peer.held);
    assert [] + ResendMsgs(s.me) == ResendMsgs(s.me);
  }

  /** What taking the head does to the end that takes it. */
  lemma HeadTakenEnd(e: End, r: End, m: Msg, now: int, limit: int)
    requires SenderOk(e) && ReceiverOk(e, r.sent) && QueueOk(r) && MsgOk(r, m, e.got, e.held)
    requires m.data == Some(r.base) && r.base <= e.got <= r.base + WINDOW_SIZE
    requires now + ACK_DELAY <= limit && DueBy(e.ch.ackDeadline, limit)
    ensures var f := DeliverEnd(e, m, now); AckBy(f.ch, limit) && r.base < f.got
  {
    DeliverSplit(e, m, r, now);
    var e1 := AckPart(e, m, now);
    if m.ack.Some? {
      SenderAcked(e, m.ack.value, now);
    }
    ReceiverFrame(e, e1, r.sent);
    DataProvokesAck(e1, r.sent, r.base, now, limit);
  }

  /** A delivery to the other end, field by field. */
  lemma PeerTakes(s: Link, now: int)
    requires |s.outgoing| == 1
    ensures var t := Next(s, Step(false, Deliver(now)));
            && t == s.(peer := DeliverEnd(s.peer, s.outgoing[0], now), outgoing := [])
            && SameQueues(s.peer, t.peer) && s.peer.base <= t.peer.base && t.peer.sent == s.peer.sent
  {
    ReceiveKeepsQueues(s.peer.ch, s.outgoing[0].bytes, now);
  }

  lemma HeadTakenSafe(s: Link, now: int)
    requires Sound(s) && |s.outgoing| == 1
    requires s.outgoing[0].ack.Some? && s.peer.base < |s.peer.sent| ==> s.peer.base < s.outgoing[0].ack.value + 10
    ensures !MisledNext(s, Step(false, Deliver(now))) && Sound(Next(s, Step(false, Deliver(now))))
  {
    SafeAckUnmisled(Flip(s), now);
    SoundNext(s, Step(false, Deliver(now)));
  }

  /** The other end takes it and owes an ACK. */
  lemma {:induction false} HeadTaken(s: Link, now: int, limit: int)
    requires Sound(s) && s.incoming == [] && |s.outgoing| == 1 && s.outgoing[0].data == Some(s.me.base)
    requires s.outgoing[0].ack.Some? && s.peer.base < |s.peer.sent| ==> s.peer.base < s.outgoing[0].ack.value + 10
    requires now + ACK_DELAY <= limit && DueBy(s.peer.ch.ackDeadline, limit)
    ensures !MisledNext(s, Step(false, Deliver(now)))
    ensures var t := Next(s, Step(false, Deliver(now)));
            && Sound(t) && t.me == s.me && t.outgoing == [] && t.incoming == []
            && AckBy(t.peer.ch, limit) && s.me.base < t.peer.got
            && SameQueues(s.peer, t.peer) && s.peer.base <= t.peer.base && t.peer.sent == s.peer.sent
  {
    HeadTakenSafe(s, now);
    PeerTakes(s, now);
    assert MsgOk(s.me, s.outgoing[0], s.peer.got, s.peer.held);
    HeadTakenEnd(s.peer, s.me, s.outgoing[0], now, limit);
  }

  /** What a poll takes from an end's queues; a poll that takes nothing sends no data. */
  ghost predicate Polled(e: End, f: End) {
    && f.ch.linkDead == e.ch.linkDead && f.base == e.base
    && (|f.ch.sendQueue| < |e.ch.sendQueue|
        || (|f.ch.sendQueue| == |e.ch.sendQueue| && |f.ch.fragQueue| < |e.ch.fragQueue|)
        || (|f.ch.sendQueue| == |e.ch.sendQueue| && |f.ch.fragQueue| == |e.ch.fragQueue| && f.sent == e.sent))
  }

  lemma PollTakes(e: End, chunk: ChunkSize, now: int)
    ensures Polled(e, PollEnd(e, chunk, now))
  {
    PollSplit(e, chunk, now);
  }

  /** The ACK goes out, on its own or on a fragment. */
  lemma Answered(s: Link, chunk: ChunkSize, later: int)
    requires Sound(s) && s.outgoing == [] && s.incoming == [] && AckBy(s.peer.ch, later) && !s.peer.ch.linkDead
    ensures var t := Next(s, Step(false, Poll(chunk, later)));
            && Sound(t) && t.me == s.me && t.outgoing == [] && |t.incoming| == 1 && t.incoming[0].ack == Some(s.peer.got)
            && Polled(s.peer, t.peer) && t.peer.got == s.peer.got
  {
    SoundNext(s, Step(false, Poll(chunk, later)));
    PollTakes(s.peer, chunk, later);
    PollSplit(s.peer, chunk, later);
  }

  /** A delivery to this end, field by field. */
  lemma MineTakes(s: Link, now: int)
    requires |s.incoming| == 1
    ensures var t := Next(s, Step(true, Deliver(now)));
            t == s.(me := t.me, incoming := []) && SameQueues(s.me, t.me) && t.me.sent == s.me.sent
  {
    ReceiveKeepsQueues(s.me.ch, s.incoming[0].bytes, now);
  }

  /** An ACK for everything the other end has is never misled. */
  lemma AnswerSafe(s: Link, later: int)
    requires Sound(s) && |s.incoming| == 1 && s.incoming[0].ack == Some(s.peer.got) && s.me.base < s.peer.got
    ensures !MisledNext(s, Step(true, Deliver(later))) && Sound(Next(s, Step(true, Deliver(later))))
    ensures s.me.base < Act(s, Deliver(later)).me.base
  {
    SoundNext(s, Step(true, Deliver(later)));
    DeliverCounts(s, later);
  }

  /** The ACK arrives and releases the head. */
  lemma {:induction false} AnswerTaken(s: Link, later: int)
    requires Sound(s) && s.outgoing == [] && |s.incoming| == 1 && s.incoming[0].ack == Some(s.peer.got) && s.me.base < s.peer.got
    ensures !MisledNext(s, Step(true, Deliver(later)))
    ensures var t := Next(s, Step(true, Deliver(later)));
            && Sound(t) && t.peer == s.peer && t.outgoing == [] && t.incoming == []
            && SameQueues(s.me, t.me) && s.me.base < t.me.base && t.me.sent == s.me.sent
  {
    AnswerSafe(s, later);
    MineTakes(s, later);
  }

  // ---------- what is left to do ----------

  function LeftQueued(s: Link): nat {
    |s.me.ch.sendQueue| + |s.peer.ch.sendQueue|
  }

  function LeftCut(s: Link): nat {
    |s.me.ch.fragQueue| + |s.peer.ch.fragQueue|
  }

  ghost function LeftInFlight(s: Link): nat
    requires Inv(s)
  {
    |s.me.sent| - s.me.base + |s.peer.sent| - s.peer.base
  }

  /** `t` has less left to do than `s`. */
  ghost predicate Closer(t: Link, s: Link)
    requires Inv(t) && Inv(s)
  {
    || LeftQueued(t) < LeftQueued(s)
    || (LeftQueued(t) == LeftQueued(s) && LeftCut(t) < LeftCut(s))
    || (LeftQueued(t) == LeftQueued(s) && LeftCut(t) == LeftCut(s) && LeftInFlight(t) < LeftInFlight(s))
  }

  /** Steps that carry the link from `s` to `t` without a misled delivery. */
  ghost predicate Reaches(s: Link, steps: seq<Step>, t: Link) {
    Carrying(steps) && Unmisled(s, steps) && Run(s, steps) == t
  }

  lemma OneStep(s: Link, step: Step)
    requires !MisledNext(s, step) && !step.event.Enqueue? && !step.event.MarkDead?
    ensures Reaches(s, [step], Next(s, step))
  {
    UnmisledOne(s, step);
    RunOne(s, step);
  }

  lemma {:induction false} ReachesThen(s: Link, a: seq<Step>, t: Link, b: seq<Step>, u: Link)
    requires Reaches(s, a, t) && Reaches(t, b, u)
    ensures Reaches(s, a + b, u)
  {
    UnmisledConcat(s, a, b);
    RunConcat(s, a, b);
  }

  /** Steps that keep the link quiescent and bring it closer to done. */
  ghost predicate Advances(s: Link, steps: seq<Step>, t: Link) {
    Reaches(s, steps, t) && Quiescent(s) && Quiescent(t) && Closer(t, s)
  }

  /** After the other end took the head. */
  ghost predicate Taken(s: Link, t: Link, limit: int) {
    && Sound(t) && t.outgoing == [] && t.incoming == []
    && AckBy(t.peer.ch, limit) && s.me.base < t.peer.got
    && SameQueues(s.me, t.me) && t.me.base == s.me.base && t.me.sent == s.me.sent
    && SameQueues(s.peer, t.peer) && s.peer.base <= t.peer.base && t.peer.sent == s.peer.sent
  }

  lemma FirstHalf(s: Link, limit: int) returns (steps: seq<Step>, t: Link)
    requires Quiescent(s) && s.me.ch.inFlight != [] && SafeHead(s.me, s.peer)
    requires ACK_DELAY <= limit && DueBy(s.peer.ch.ackDeadline, limit)
    ensures Reaches(s, steps, t) && Taken(s, t, limit)
  {
    var s1 := Next(s, Step(true, Resend));
    HeadSent(s);
    OneStep(s, Step(true, Resend));
    t := Next(s1, Step(false, Deliver(0)));
    HeadTaken(s1, 0, limit);
    OneStep(s1, Step(false, Deliver(0)));
    steps := [Step(true, Resend)] + [Step(false, Deliver(0))];
    ReachesThen(s, [Step(true, Resend)], s1, [Step(false, Deliver(0))], t);
  }

  /** After the answer came back. */
  ghost predicate AnsweredBy(s: Link, t: Link) {
    && Sound(t) && t.outgoing == [] && t.incoming == []
    && SameQueues(s.me, t.me) && s.me.base < t.me.base && t.me.sent == s.me.sent && Polled(s.peer, t.peer)
  }

  lemma SecondHalf(s: Link, chunk: ChunkSize, limit: int) returns (steps: seq<Step>, t: Link)
    requires Sound(s) && s.outgoing == [] && s.incoming == [] && AckBy(s.peer.ch, limit) && !s.peer.ch.linkDead && s.me.base < s.peer.got
    ensures Reaches(s, steps, t) && AnsweredBy(s, t)
  {
    var s1 := Next(s, Step(false, Poll(chunk, limit)));
    Answered(s, chunk, limit);
    OneStep(s, Step(false, Poll(chunk, limit)));
    t := Next(s1, Step(true, Deliver(limit)));
    AnswerTaken(s1, limit);
    OneStep(s1, Step(true, Deliver(limit)));
    steps := [Step(false, Poll(chunk, limit))] + [Step(true, Deliver(limit))];
    ReachesThen(s, [Step(false, Poll(chunk, limit))], s1, [Step(true, Deliver(limit))], t);
  }

  /** The head was released, and the other end's poll took from its queues or sent no data. */
  lemma ExchangeCloser(s: Link, mid: Link, t: Link, limit: int)
    requires Quiescent(s) && Taken(s, mid, limit) && AnsweredBy(mid, t)
    ensures Quiescent(t) && Closer(t, s)
  {
  }

  /** Retransmit the head, take it, answer, take the answer. */
  lemma Exchanged(s: Link, chunk: ChunkSize) returns (steps: seq<Step>, t: Link)
    requires Quiescent(s) && s.me.ch.inFlight != [] && SafeHead(s.me, s.peer)
    ensures Advances(s, steps, t)
  {
    var limit := Patient(s.peer.ch.ackDeadline);
    var a, mid := FirstHalf(s, limit);
    var b, last := SecondHalf(mid, chunk, limit);
    ReachesThen(s, a, mid, b, last);
    ExchangeCloser(s, mid, last, limit);
    steps, t := a + b, last;
  }

  lemma LoseEffect(s: Link)
    requires |s.outgoing| == 1
    ensures Next(s, Step(true, Lose(0))) == s.(outgoing := [])
  {
    assert s.outgoing[..0] + s.outgoing[1..] == [];
  }

  lemma {:induction false} OnlyLost(s: Link)
    requires Sound(s) && |s.outgoing| == 1
    ensures Next(s, Step(true, Lose(0))) == s.(outgoing := []) && Sound(s.(outgoing := []))
  {
    LoseEffect(s);
    SoundNext(s, Step(true, Lose(0)));
  }

  /** With nothing in flight, a poll puts the next fragment in flight; it may then be lost. */
  lemma Launched(s: Link, chunk: ChunkSize) returns (steps: seq<Step>, t: Link)
    requires Quiescent(s) && s.me.ch.inFlight == [] && (s.me.ch.fragQueue != [] || s.me.ch.sendQueue != [])
    ensures Advances(s, steps, t)
  {
    var poll, lose := Step(true, Poll(chunk, 0)), Step(true, Lose(0));
    var s1 := Next(s, poll);
    LaunchedPoll(s, chunk);
    OneStep(s, poll);
    OnlyLost(s1);
    OneStep(s1, lose);
    ReachesThen(s, [poll], s1, [lose], s1.(outgoing := []));
    LaunchCloser(s, s1);
    steps, t := [poll] + [lose], s1.(outgoing := []);
  }

  lemma LaunchCloser(s: Link, t: Link)
    requires Quiescent(s) && Sound(t) && t.peer == s.peer && t.incoming == [] && !t.me.ch.linkDead
    requires |t.me.ch.sendQueue| < |s.me.ch.sendQueue|
             || (t.me.ch.sendQueue == s.me.ch.sendQueue && |t.me.ch.fragQueue| < |s.me.ch.fragQueue|)
    requires Sound(t.(outgoing := []))
    ensures Quiescent(t.(outgoing := [])) && Closer(t.(outgoing := []), s)
  {
  }

  lemma LaunchedPoll(s: Link, chunk: ChunkSize)
    requires Quiescent(s) && s.me.ch.inFlight == [] && (s.me.ch.fragQueue != [] || s.me.ch.sendQueue != [])
    ensures var t := Next(s, Step(true, Poll(chunk, 0)));
            && Sound(t) && t.peer == s.peer && |t.outgoing| == 1 && t.incoming == [] && !t.me.ch.linkDead
            && (|t.me.ch.sendQueue| < |s.me.ch.sendQueue|
                || (t.me.ch.sendQueue == s.me.ch.sendQueue && |t.me.ch.fragQueue| < |s.me.ch.fragQueue|))
  {
    SoundNext(s, Step(true, Poll(chunk, 0)));
    PollSplit(s.me, chunk, 0);
    ModPlus(s.me.base, 0);
    DistPlus(Mod(s.me.base), 0);
    assert SendsData(s.me.ch, chunk);
  }

  lemma AdvancesFlip(s: Link, steps: seq<Step>, t: Link)
    requires Advances(Flip(s), steps, t)
    ensures Advances(s, FlipSteps(steps), Flip(t))
  {
    RunFlip(Flip(s), steps);
    SoundFlip(Flip(s));
    SoundFlip(t);
  }

  ghost predicate Done(s: Link) {
    && s.me.ch.inFlight == [] && s.me.ch.fragQueue == [] && s.me.ch.sendQueue == []
    && s.peer.ch.inFlight == [] && s.peer.ch.fragQueue == [] && s.peer.ch.sendQueue == []
  }

  /** Some end can always do the next thing. */
  lemma Advance(s: Link, chunk: ChunkSize) returns (steps: seq<Step>, t: Link)
    requires Quiescent(s) && !Done(s)
    ensures Advances(s, steps, t)
  {
    if s.me.ch.inFlight != [] && SafeHead(s.me, s.peer) {
      steps, t := Exchanged(s, chunk);
    } else if s.peer.ch.inFlight == [] && (s.me.ch.fragQueue != [] || s.me.ch.sendQueue != []) {
      steps, t := Launched(s, chunk);
    } else {
      PeerHeadSafe(s);
      SoundFlip(s);
      var there, end := AdvanceThere(Flip(s), chunk);
      AdvancesFlip(s, there, end);
      steps, t := FlipSteps(there), Flip(end);
    }
  }

  lemma PeerHeadSafe(s: Link)
    requires Sound(s) && !(s.me.ch.inFlight != [] && SafeHead(s.me, s.peer))
    ensures SafeHead(s.peer, s.me)
  {
    if s.me.base < |s.me.sent| && s.peer.base < |s.peer.sent| {
      OneHeadSafe(s);
    }
  }

  lemma AdvanceThere(s: Link, chunk: ChunkSize) returns (steps: seq<Step>, t: Link)
    requires Quiescent(s) && SafeHead(s.me, s.peer)
    requires s.me.ch.inFlight != [] || s.me.ch.fragQueue != [] || s.me.ch.sendQueue != []
    ensures Advances(s, steps, t)
  {
    if s.me.ch.inFlight != [] {
      steps, t := Exchanged(s, chunk);
    } else {
      steps, t := Launched(s, chunk);
    }
  }

  lemma {:induction false} Finish(s: Link, chunk: ChunkSize) returns (steps: seq<Step>, t: Link)
    requires Quiescent(s)
    ensures Reaches(s, steps, t) && Quiescent(t) && Done(t)
    decreases LeftQueued(s), LeftCut(s), LeftInFlight(s)
  {
    steps, t := [], s;
    if !Done(s) {
      var first, mid := Advance(s, chunk);
      var rest, last := Finish(mid, chunk);
      ReachesThen(s, first, mid, rest, last);
      steps, t := first + rest, last;
    }
  }

  /** With nothing queued and nothing in flight, everything deliverable has been delivered. */
  lemma DoneDelivered(e: End, r: End, ms: seq<Msg>)
    requires Flow(e, r, ms) && e.base <= r.got && e.ch.inFlight == [] && e.ch.fragQueue == [] && e.ch.sendQueue == []
    ensures r.ch.reasm.out == Deliverables(e.accepted)
  {
    assert e.sent[..r.got] == e.sent == CutFrags(e.cuts);
    assert e.accepted == Datagrams(e.cuts);
    RoundTrip(e.cuts);
  }

  /**
   Progress with data both ways. Every run without a misled delivery, and with neither
   end given up, extends to one that has delivered everything accepted at both ends,
   again without a misled delivery.
   */
  lemma TwoWayNeverWedged(now: int, steps: seq<Step>, chunk: ChunkSize) returns (more: seq<Step>)
    requires Unmisled(Start(now), steps)
    requires var s := Run(Start(now), steps); !s.me.ch.linkDead && !s.peer.ch.linkDead
    ensures Carrying(more) && Unmisled(Start(now), steps + more)
    ensures var s, t := Run(Start(now), steps), Run(Start(now), steps + more);
            && t.me.accepted == s.me.accepted && t.peer.accepted == s.peer.accepted
            && t.peer.ch.reasm.out == Deliverables(s.me.accepted) && t.me.ch.reasm.out == Deliverables(s.peer.accepted)
  {
    StartSound(now);
    SoundRun(Start(now), steps);
    more := FlushAndFinish(Run(Start(now), steps), chunk);
    ChargeKept(Run(Start(now), steps), more);
    RunConcat(Start(now), steps, more);
    UnmisledConcat(Start(now), steps, more);
    DoneBothWays(Run(Start(now), steps + more));
  }

  lemma StartSound(now: int)
    ensures Sound(Start(now))
  {
    InvStart(now);
  }

  lemma FlushAndFinish(s: Link, chunk: ChunkSize) returns (steps: seq<Step>)
    requires Sound(s) && !s.me.ch.linkDead && !s.peer.ch.linkDead
    ensures Carrying(steps) && Unmisled(s, steps) && Sound(Run(s, steps)) && Done(Run(s, steps))
  {
    var flush := Flush(s);
    SoundRun(s, flush);
    var mid := s.(outgoing := [], incoming := []);
    var rest, last := Finish(mid, chunk);
    ReachesThen(s, flush, mid, rest, last);
    steps := flush + rest;
  }

  lemma DoneBothWays(s: Link)
    requires Sound(s) && Done(s)
    ensures s.peer.ch.reasm.out == Deliverables(s.me.accepted) && s.me.ch.reasm.out == Deliverables(s.peer.accepted)
  {
    DoneDelivered(s.me, s.peer, s.outgoing);
    DoneDelivered(s.peer, s.me, s.incoming);
  }

  // ---------- data one way ----------

  lemma {:induction false} OneWayUnmisled(now: int, steps: seq<Step>)
    requires OneWaySteps(steps)
    ensures Unmisled(Start(now), steps)
  {
    if steps != [] {
      var init := steps[..|steps| - 1];
      OneWayUnmisled(now, init);
      OneWayStart(now);
      OneWayRun(Start(now), init);
      NeverMisled(Run(Start(now), init), steps[|steps| - 1]);
    }
  }

  /** With data one way every run whose ends have not given up extends to full delivery. */
  lemma NeverWedged(now: int, steps: seq<Step>, chunk: ChunkSize) returns (more: seq<Step>)
    requires OneWaySteps(steps)
    requires var s := Run(Start(now), steps); !s.me.ch.linkDead && !s.peer.ch.linkDead
    ensures OneWaySteps(more)
    ensures var s, t := Run(Start(now), steps), Run(Start(now), steps + more);
            t.me.accepted == s.me.accepted && t.peer.ch.reasm.out == Deliverables(s.me.accepted)
  {
    OneWayUnmisled(now, steps);
    more := TwoWayNeverWedged(now, steps, chunk);
  }

  // ---------- what a misled delivery costs ----------

  /** A fragment was released that the other end does not have, and no copy of the next one it waits for is on the air. */
  ghost predicate Lost(s: Link) {
    Tracks(s) && s.peer.got < s.me.base && NoCopy(s.outgoing, s.peer.got)
  }

  ghost predicate NoCopy(ms: seq<Msg>, i: nat) {
    forall k :: 0 <= k < |ms| ==> ms[k].data != Some(i)
  }

  lemma LostPoll(s: Link, chunk: ChunkSize, now: int)
    requires Lost(s)
    ensures NoCopy(s.outgoing + PollMsgs(s.me, chunk, now), s.peer.got) && PollEnd(s.me, chunk, now).base == s.me.base
  {
    PollSplit(s.me, chunk, now);
  }

  lemma LostResend(s: Link)
    requires Lost(s)
    ensures NoCopy(s.outgoing + ResendMsgs(s.me), s.peer.got)
  {
    if s.me.ch.inFlight != [] {
      ResendMsgOk(s.me, s.peer.got, s.peer.held);
    }
  }

  lemma LostMine(s: Link, ev: Event)
    requires Lost(s) && !Aliased(s, ev)
    ensures Lost(Act(s, ev)) && Act(s, ev).peer == s.peer
  {
    TracksAct(s, ev);
    if ev.Poll? {
      LostPoll(s, ev.chunk, ev.at);
    } else if ev.Resend? {
      LostResend(s);
    }
  }

  lemma LostPeer(s: Link, ev: Event)
    requires Lost(s) && !Aliased(Flip(s), ev)
    ensures var t := Flip(Act(Flip(s), ev));
            Lost(t) && t.peer.got == s.peer.got && t.peer.ch.reasm == s.peer.ch.reasm
  {
    TracksAct(Flip(s), ev);
    LostReceives(s, ev);
  }

  /** Without a copy of the fragment it waits for, the other end stays where it is. */
  lemma LostReceives(s: Link, ev: Event)
    requires Lost(s)
    ensures var t := Flip(Act(Flip(s), ev)); t.me == s.me && t.peer.got == s.peer.got && NoCopy(t.outgoing, s.peer.got)
  {
    if ev.Poll? {
      PollSplit(s.peer, ev.chunk, ev.at);
    }
  }

  /**
   The converse. Once released, what the other end misses is never delivered: in every
   continuation in which no fragment is mistaken for another, the other end's position
   and everything it has handed to its application stay as they are.
   */
  lemma {:induction false} LostForGood(s: Link, steps: seq<Step>)
    requires Lost(s) && Unaliased(s, steps)
    ensures var t := Run(s, steps); Lost(t) && t.peer.got == s.peer.got && t.peer.ch.reasm == s.peer.ch.reasm
  {
    if steps != [] {
      var init, step := steps[..|steps| - 1], steps[|steps| - 1];
      LostForGood(s, init);
      if step.mine {
        LostMine(Run(s, init), step.event);
      } else {
        LostPeer(Run(s, init), step.event);
      }
    }
  }

  /** And a misled delivery is what causes it, unless a copy is still on the air. */
  lemma MisledLoses(s: Link, now: int)
    requires Inv(s) && Misled(s, Deliver(now)) && NoCopy(s.outgoing, s.peer.got)
    ensures Lost(Act(s, Deliver(now)))
  {
    InvWindow(s);
    TracksDeliver(s, now);
    MisledOvertakes(s, now);
  }
}
