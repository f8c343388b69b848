/**
 What stale ACKs do when data flows both ways.

 A fragment keeps the ACK it was first sent with, and a retransmission replaces
 it only if another ACK happens to be pending. So a fragment lost for long enough
 brings back an ACK from more than nine positions behind, which modulo 16 looks
 new and releases fragments the other end never received.

 Released sixteen at a time, such fragments let a later one be taken for an earlier
 one: `TwoWayCorrupts` is a run in which the application is handed a datagram out of
 order. Released once, they wedge the link for good: `TwoWayWedges`.
 */
module ArqStaleAck {
  import opened Wire
  import opened Fragmentation
  import opened Arq
  import opened ArqLink
  import opened ArqOneWay

  // ---------- building blocks of the runs ----------

  /** The `i`-th datagram either end submits. */
  function Dg(i: nat): Bytes {
    [i % 256]
  }

  const C: ChunkSize := 21

  /** Each datagram accepted so far is its `Dg`, and was sent as one fragment. */
  ghost predicate Small(e: End) {
    && |e.accepted| == |e.sent|
    && (forall i :: 0 <= i < |e.sent| ==> e.sent[i] == Frag(Dg(i), true, true) && e.accepted[i] == Dg(i))
  }

  /** Alive, with nothing waiting to be sent. */
  predicate Calm(e: End) {
    e.ch.sendQueue == [] && e.ch.fragQueue == [] && !e.ch.linkDead
  }

  function Queued(e: End, d: Bytes): End {
    e.(ch := e.ch.(sendQueue := [d]), accepted := e.accepted + [d])
  }

  /** The end after its next datagram has been queued and sent. */
  function Sent1(e: End): End {
    PollEnd(Queued(e, Dg(|e.accepted|)), C, 0)
  }

  /** What sending one more small datagram changes. */
  ghost predicate SentOne(e: End, f: End) {
    && f.base == e.base && f.got == e.got && f.held == e.held
    && |f.sent| == |e.sent| + 1 && f.acks == e.acks + [AckTag(e)] && (Small(e) ==> Small(f))
    && Calm(f) && f.ch.ackPending.None?
  }

  lemma SendSmallEnd(e: End)
    requires Calm(e) && CanSend(e.ch)
    ensures Arq.Enqueue(e.ch, Dg(|e.accepted|)) == (Queued(e, Dg(|e.accepted|)).ch, true)
    ensures SentOne(e, Sent1(e))
    ensures var ms := PollMsgs(Queued(e, Dg(|e.accepted|)), C, 0); |ms| == 1 && ms[0].data == Some(|e.sent|) && ms[0].ack == AckTag(e)
  {
    var d := Dg(|e.accepted|);
    assert [] + [d] == [d];
    assert Fragment(d, C) == [Frag(d, true, true)];
    PollSplit(Queued(e, d), C, 0);
  }

  lemma WindowOpen(e: End)
    requires SenderOk(e) && |e.sent| < e.base + WINDOW_SIZE
    ensures CanSend(e.ch)
  {
    ModPlus(e.base, |e.sent| - e.base);
    DistPlus(Mod(e.base), |e.sent| - e.base);
  }

  /** Queue one small datagram and send it as one fragment. */
  function Submit(s: Link): Link {
    Act(Act(s, Enqueue(Dg(|s.me.accepted|))), Poll(C, 0))
  }

  lemma SendSmall(s: Link)
    requires Tracks(s) && |s.me.sent| < s.me.base + WINDOW_SIZE && Calm(s.me) && s.outgoing == []
    ensures var t := Submit(s);
            && Tracks(t) && t == s.(me := t.me, outgoing := t.outgoing) && SentOne(s.me, t.me)
            && |t.outgoing| == 1 && t.outgoing[0].data == Some(|s.me.sent|) && t.outgoing[0].ack == AckTag(s.me)
  {
    WindowOpen(s.me);
    SendSmallEnd(s.me);
    TracksEnqueue(s, Dg(|s.me.accepted|));
    TracksPoll(Act(s, Enqueue(Dg(|s.me.accepted|))), C, 0);
  }

  /** The next fragment arrives at an end whose buffer is empty. */
  lemma TakeNextEnd(e: End, r: End, m: Msg)
    requires ReceiverOk(e, r.sent) && QueueOk(r) && MsgOk(r, m, e.got, e.held)
    requires e.held == [] && m.data == Some(e.got)
    ensures var f := DeliverEnd(e, m, 0);
            && f == e.(ch := f.ch, base := f.base, got := e.got + 1)
            && f.ch.ackPending.Some?
            && f.ch.sendQueue == e.ch.sendQueue && f.ch.fragQueue == e.ch.fragQueue && f.ch.linkDead == e.ch.linkDead
  {
    DeliverSplit(e, m, r, 0);
    var e1 := if m.ack.Some? then AckEnd(e, m.ack.value, 0) else e;
    assert DataIndex(e.got, [], e.got) == DrainIndex(e.got + 1, []) == (e.got + 1, []);
    ReceiverFrame(e, e1, r.sent);
    ReceiverData(e1, r.sent, e.got, 0);
    DataProvokesAck(e1, r.sent, e.got, 0, Patient(e.ch.ackDeadline));
  }

  /** What taking the next fragment changes at an end. */
  ghost predicate TookNext(e: End, f: End, ack: Option<nat>) {
    && f == e.(ch := f.ch, base := f.base, got := e.got + 1)
    && f.base == e.base + (if ack.Some? then Released(e.base, |e.sent|, ack.value) else 0)
    && f.ch.ackPending.Some? && (Calm(e) ==> Calm(f))
  }

  /** This end takes the next fragment. */
  lemma TakeMine(s: Link)
    requires Tracks(s) && |s.incoming| == 1 && s.incoming[0].data == Some(s.me.got) && s.me.held == []
    ensures var t := Act(s, Deliver(0));
            Tracks(t) && t == s.(me := t.me, incoming := []) && TookNext(s.me, t.me, s.incoming[0].ack)
  {
    assert MsgOk(s.peer, s.incoming[0], s.me.got, s.me.held);
    TakeNextEnd(s.me, s.peer, s.incoming[0]);
    TracksDeliver(s, 0);
    DeliverCounts(s, 0);
  }

  /** The other end takes the next fragment. */
  lemma TakeNext(s: Link)
    requires Tracks(s) && |s.outgoing| == 1 && s.outgoing[0].data == Some(s.peer.got) && s.peer.held == []
    ensures var t := Flip(Act(Flip(s), Deliver(0)));
            Tracks(t) && t == s.(peer := t.peer, outgoing := []) && TookNext(s.peer, t.peer, s.outgoing[0].ack)
  {
    TakeMine(Flip(s));
  }

  /** The other end has nothing to send but an ACK. */
  lemma AckBack(s: Link)
    requires Tracks(s) && s.incoming == [] && s.peer.ch.ackPending.Some? && Calm(s.peer)
    ensures var t := Flip(Act(Flip(s), Poll(C, Patient(s.peer.ch.ackDeadline))));
            && Tracks(t) && t == s.(peer := s.peer.(ch := TakeAck(s.peer.ch)), incoming := t.incoming)
            && |t.incoming| == 1 && t.incoming[0].ack == Some(s.peer.got) && t.incoming[0].data.None?
  {
    TracksPoll(Flip(s), C, Patient(s.peer.ch.ackDeadline));
    PollSplit(s.peer, C, Patient(s.peer.ch.ackDeadline));
  }

  lemma AckInEnd(e: End, r: End, m: Msg)
    requires SenderOk(e) && r.got <= |e.sent| && e.base <= r.got && QueueOk(r)
    requires MsgOk(r, m, e.got, e.held) && m.data.None? && m.ack == Some(r.got)
    ensures DeliverEnd(e, m, 0) == AckEnd(e, r.got, 0) && AckEnd(e, r.got, 0).base == r.got
  {
    DeliverSplit(e, m, r, 0);
    AckExact(e.ch, e.base, |e.sent|, r.got);
  }

  lemma AckIn(s: Link)
    requires Tracks(s) && |s.incoming| == 1 && s.incoming[0].data.None? && s.incoming[0].ack == Some(s.peer.got)
    requires s.me.base <= s.peer.got
    ensures var t := Act(s, Deliver(0));
            && Tracks(t) && t == s.(me := t.me, incoming := [])
            && t.me == AckEnd(s.me, s.peer.got, 0) && t.me.base == s.peer.got
  {
    TracksDeliver(s, 0);
    assert MsgOk(s.peer, s.incoming[0], s.me.got, s.me.held);
    AckInEnd(s.me, s.peer, s.incoming[0]);
  }

  lemma RunSnoc(s: Link, steps: seq<Step>, step: Step)
    ensures Run(s, steps + [step]) == Next(Run(s, steps), step)
  {
    assert (steps + [step])[..|steps|] == steps;
  }

  lemma RunTwo(s: Link, steps: seq<Step>)
    requires |steps| == 2
    ensures Run(s, steps) == Next(Next(s, steps[0]), steps[1])
  {
    assert steps[..1][..0] == [];
    assert Run(s, steps[..1]) == Next(s, steps[0]);
  }

  lemma RunThree(s: Link, steps: seq<Step>)
    requires |steps| == 3
    ensures Run(s, steps) == Next(Next(Next(s, steps[0]), steps[1]), steps[2])
  {
    assert steps[..2][..1] == steps[..1] && steps[..1][..0] == [];
    assert Run(s, steps[..1]) == Next(s, steps[0]);
    assert Run(s, steps[..2]) == Next(Run(s, steps[..1]), steps[1]);
  }

  lemma LoseEffect(s: Link)
    requires |s.outgoing| == 1
    ensures Act(s, Lose(0)) == s.(outgoing := [])
  {
    assert s.outgoing[..0] + s.outgoing[1..] == [];
  }

  /** Send one fragment that is lost. */
  lemma {:induction false} LoseOne(s: Link)
    requires Tracks(s) && |s.me.sent| < s.me.base + WINDOW_SIZE && Calm(s.me) && s.outgoing == []
    ensures var t := Act(Submit(s), Lose(0)); Tracks(t) && t == s.(me := t.me) && SentOne(s.me, t.me)
  {
    SendSmall(s);
    TracksLose(Submit(s), 0);
    LoseEffect(Submit(s));
  }

  /** Submit, poll, lose: three steps of one end. */
  function LaunchAndLose(mine: bool, d: Bytes): seq<Step> {
    [Step(mine, Enqueue(d)), Step(mine, Poll(C, 0)), Step(mine, Lose(0))]
  }

  /** What sending `n` more small datagrams changes. */
  ghost predicate SentMany(e: End, f: End, n: nat) {
    && f.base == e.base && f.got == e.got && f.held == e.held && |f.sent| == |e.sent| + n
    && (Small(e) ==> Small(f)) && Calm(f) && (n > 0 || e.ch.ackPending.None? ==> f.ch.ackPending.None?)
  }

  lemma {:induction false} LoseSome(s: Link, n: nat) returns (steps: seq<Step>)
    requires Tracks(s) && |s.me.sent| + n <= s.me.base + WINDOW_SIZE && Calm(s.me) && s.outgoing == []
    ensures var t := Run(s, steps); Tracks(t) && t == s.(me := t.me) && SentMany(s.me, t.me, n)
    decreases n
  {
    steps := [];
    if n > 0 {
      LoseOne(s);
      var first := LaunchAndLose(true, Dg(|s.me.accepted|));
      RunThree(s, first);
      var rest := LoseSome(Run(s, first), n - 1);
      RunConcat(s, first, rest);
      steps := first + rest;
    }
  }

  // ---------- both runs begin alike ----------

  /**
   `me` has had `k` fragments received, and all but possibly the last one
   acknowledged; every fragment the other end sent is lost and still carries its
   first ACK, from `acks`.
   */
  ghost predicate Stuck(s: Link, k: nat, acks: seq<Option<nat>>) {
    && Tracks(s) && s.outgoing == [] && s.incoming == [] && Small(s.me) && Calm(s.me) && Calm(s.peer)
    && |s.me.sent| == k == s.peer.got && k <= s.me.base + 1
    && s.me.ch.ackPending.None? && s.peer.ch.ackPending.None?
    && s.me.got == 0 && s.me.held == [] && s.peer.held == []
    && s.peer.base == 0 && s.peer.acks == acks
  }

  /** Send one small datagram and have it arrive. */
  function SendAndTake(s: Link): Link {
    Flip(Act(Flip(Submit(s)), Deliver(0)))
  }

  ghost predicate Taken(s: Link, k: nat, acks: seq<Option<nat>>) {
    && Tracks(s) && s.outgoing == [] && s.incoming == [] && Small(s.me) && Calm(s.me) && Calm(s.peer)
    && |s.me.sent| == k == s.peer.got && k <= s.me.base + 2
    && s.me.ch.ackPending.None? && s.peer.ch.ackPending.Some?
    && s.me.got == 0 && s.me.held == [] && s.peer.held == []
    && s.peer.base == 0 && s.peer.acks == acks
  }

  lemma SendAndTakeOk(s: Link, k: nat, acks: seq<Option<nat>>)
    requires Stuck(s, k, acks)
    ensures Taken(SendAndTake(s), k + 1, acks) && SendAndTake(s).me.base == s.me.base
  {
    SendSmall(s);
    TakeNext(Submit(s));
  }

  lemma RoundEnd(s: Link, k: nat, acks: seq<Option<nat>>)
    requires Taken(s, k, acks) && k <= s.me.base + 2
    ensures var t := Flip(Act(Flip(s), Poll(C, Patient(s.peer.ch.ackDeadline))));
            Stuck(Act(t, Deliver(0)), k, acks) && Act(t, Deliver(0)).me.base == k
  {
    AckBack(s);
    AckIn(Flip(Act(Flip(s), Poll(C, Patient(s.peer.ch.ackDeadline)))));
  }

  /** One more fragment is sent, received and acknowledged. */
  lemma Round(s: Link, k: nat, acks: seq<Option<nat>>) returns (steps: seq<Step>)
    requires Stuck(s, k, acks)
    ensures Stuck(Run(s, steps), k + 1, acks) && Run(s, steps).me.base == k + 1
  {
    SendAndTakeOk(s, k, acks);
    var t := SendAndTake(s);
    RoundEnd(t, k + 1, acks);
    var a := [Step(true, Enqueue(Dg(|s.me.accepted|))), Step(true, Poll(C, 0)), Step(false, Deliver(0))];
    var b := [Step(false, Poll(C, Patient(t.peer.ch.ackDeadline))), Step(true, Deliver(0))];
    RunThree(s, a);
    RunTwo(t, b);
    RunConcat(s, a, b);
    steps := a + b;
  }

  lemma {:induction false} Rounds(s: Link, k: nat, acks: seq<Option<nat>>, n: nat) returns (steps: seq<Step>)
    requires Stuck(s, k, acks) && n > 0
    ensures Stuck(Run(s, steps), k + n, acks) && Run(s, steps).me.base == k + n
    decreases n
  {
    steps := Round(s, k, acks);
    if n > 1 {
      var rest := Rounds(Run(s, steps), k + 1, acks, n - 1);
      RunConcat(s, steps, rest);
      steps := steps + rest;
    }
  }

  /** One more of ours arrives, and the other end answers with a fragment that carries the ACK and is lost. */
  lemma PeerLoses(s: Link, k: nat, acks: seq<Option<nat>>) returns (steps: seq<Step>)
    requires Stuck(s, k, acks) && s.me.base == k && |acks| < WINDOW_SIZE
    ensures Stuck(Run(s, steps), k + 1, acks + [Some(k + 1)])
  {
    SendAndTakeOk(s, k, acks);
    var t := SendAndTake(s);
    LoseOne(Flip(t));
    var a := [Step(true, Enqueue(Dg(|s.me.accepted|))), Step(true, Poll(C, 0)), Step(false, Deliver(0))];
    var b := LaunchAndLose(false, Dg(|t.peer.accepted|));
    RunThree(s, a);
    RunThree(t, b);
    RunConcat(s, a, b);
    steps := a + b;
  }

  lemma StartStuck()
    ensures Stuck(Start(0), 0, [])
  {
    InvStart(0);
  }

  lemma ReachOne() returns (steps: seq<Step>)
    ensures Stuck(Run(Start(0), steps), 1, [Some(1)])
  {
    StartStuck();
    steps := PeerLoses(Start(0), 0, []);
    assert [] + [Some(1)] == [Some(1)];
  }

  // ---------- a run that hands over a datagram out of order ----------

  const STORED: seq<Option<nat>> := [Some(1), Some(7)]

  /**
   Eleven of our fragments are in. Every later one, `6 j` so far, was released by a
   stale ACK and is lost. The other end has had `j` of its two fragments acknowledged.
   */
  ghost predicate Slipped(s: Link, j: nat) {
    && Tracks(s) && s.outgoing == [] && s.incoming == [] && Small(s.me) && Calm(s.me) && Calm(s.peer)
    && s.me.base == |s.me.sent| == 11 + 6 * j && s.peer.got == 11
    && s.me.ch.ackPending.None? && s.peer.ch.ackPending.None?
    && s.me.got == j == s.peer.base && s.me.held == [] && s.peer.held == []
    && s.peer.acks == STORED
  }

  lemma ReachSeven() returns (steps: seq<Step>)
    ensures Stuck(Run(Start(0), steps), 7, STORED)
  {
    var a := ReachOne();
    var b := Rounds(Run(Start(0), a), 1, [Some(1)], 5);
    RunConcat(Start(0), a, b);
    var c := PeerLoses(Run(Start(0), a + b), 6, [Some(1)]);
    assert [Some(1)] + [Some(7)] == STORED;
    RunConcat(Start(0), a + b, c);
    steps := a + b + c;
  }

  lemma ReachSlipped() returns (steps: seq<Step>)
    ensures Slipped(Run(Start(0), steps), 0)
  {
    var a := ReachSeven();
    var b := Rounds(Run(Start(0), a), 7, STORED, 4);
    RunConcat(Start(0), a, b);
    steps := a + b;
  }

  /** The window is full of lost fragments, and the stale ACK is on its way. */
  ghost predicate Loaded(s: Link, j: nat) {
    && Tracks(s) && s.outgoing == [] && |s.incoming| == 1 && Small(s.me) && Calm(s.me) && Calm(s.peer)
    && s.me.base == 11 + 6 * j && |s.me.sent| == 17 + 6 * j && s.peer.got == 11
    && s.me.ch.ackPending.None? && s.peer.ch.ackPending.None?
    && s.me.got == j == s.peer.base && s.me.held == [] && s.peer.held == []
    && s.peer.acks == STORED
    && s.incoming[0].data == Some(j) && s.incoming[0].ack == Some(1 + 6 * j)
  }

  lemma ResendStored(e: End, got: nat, held: seq<nat>)
    requires SenderOk(e) && e.acks == STORED && e.base < 2 && e.ch.ackPending.None? && got <= |e.sent| && HeldOk(got, held, |e.sent|)
    ensures |ResendMsgs(e)| == 1 && ResendMsgs(e)[0].data == Some(e.base) && ResendMsgs(e)[0].ack == Some(1 + 6 * e.base)
  {
    ResendMsgOk(e, got, held);
  }

  lemma LoadResent(s: Link, t: Link, j: nat)
    requires Slipped(s, j) && j < 2
    requires Tracks(t) && t == s.(me := t.me) && SentMany(s.me, t.me, 6)
    ensures Loaded(Flip(Act(Flip(t), Resend)), j)
  {
    TracksResend(Flip(t));
    ResendStored(t.peer, t.me.got, t.me.held);
    assert [] + ResendMsgs(t.peer) == ResendMsgs(t.peer);
  }

  lemma Load(s: Link, j: nat) returns (steps: seq<Step>)
    requires Slipped(s, j) && j < 2
    ensures Loaded(Run(s, steps), j)
  {
    var a := LoseSome(s, 6);
    LoadResent(s, Run(s, a), j);
    RunSnoc(s, a, Step(false, Resend));
    steps := a + [Step(false, Resend)];
  }

  lemma SlipCount(j: nat)
    ensures Released(11 + 6 * j, 17 + 6 * j, 1 + 6 * j) == 6
  {
    assert (11 + 6 * j - (1 + 6 * j)) % SEQ_MODULUS == 10;
  }

  /** The stale ACK releases all six lost fragments, and its fragment is taken. */
  lemma Slip(s: Link, j: nat)
    requires Loaded(s, j) && j < 2
    ensures var t := Act(s, Deliver(0));
            && Tracks(t) && t == s.(me := t.me, incoming := [])
            && TookNext(s.me, t.me, s.incoming[0].ack) && t.me.base == 17 + 6 * j && Calm(t.me)
  {
    TakeMine(s);
    SlipCount(j);
  }

  /** Our ACK releases the other end's fragment. */
  lemma SlipAcked(s: Link, j: nat) returns (steps: seq<Step>)
    requires Loaded(s, j) && j < 2
    ensures Slipped(Run(s, steps), j + 1)
  {
    Slip(s, j);
    var t := Act(s, Deliver(0));
    AckBack(Flip(t));
    var poll := Poll(C, Patient(t.me.ch.ackDeadline));
    var u := Act(t, poll);
    AckIn(Flip(u));
    steps := [Step(true, Deliver(0)), Step(true, poll), Step(false, Deliver(0))];
    RunThree(s, steps);
  }

  lemma {:induction false} SlipTwice(s: Link, j: nat) returns (steps: seq<Step>)
    requires Slipped(s, j) && j <= 2
    ensures Slipped(Run(s, steps), 2)
    decreases 2 - j
  {
    steps := [];
    if j < 2 {
      var a := Load(s, j);
      var b := SlipAcked(Run(s, a), j);
      RunConcat(s, a, b);
      var rest := SlipTwice(Run(s, a + b), j + 1);
      RunConcat(s, a + b, rest);
      steps := a + b + rest;
    }
  }

  function Dgs(n: nat): seq<Bytes> {
    seq(n, i requires 0 <= i => Dg(i))
  }

  lemma {:induction false} FeedSmall(fs: seq<Frag>)
    requires forall i :: 0 <= i < |fs| ==> fs[i] == Frag(Dg(i), true, true)
    ensures FeedAll(EMPTY, fs) == Reasm([], false, Dgs(|fs|))
  {
    if fs != [] {
      FeedSmall(fs[..|fs| - 1]);
      assert [] + fs[|fs| - 1].payload == fs[|fs| - 1].payload;
    }
  }

  lemma {:induction false} DeliverablesSmall(ds: seq<Bytes>)
    requires forall i :: 0 <= i < |ds| ==> |ds[i]| == 1
    ensures Deliverables(ds) == ds
  {
    if ds != [] {
      DeliverablesSmall(ds[..|ds| - 1]);
      assert ds == ds[..|ds| - 1] + [ds[|ds| - 1]];
    }
  }

  /** Fragment 27 has the number the receiver waits for instead of 11. */
  lemma TakenForEleven(s: Link)
    requires Tracks(s) && Small(s.me) && |s.outgoing| == 1 && s.outgoing[0].data == Some(27) && s.outgoing[0].ack.None?
    requires s.peer.got == 11 && s.peer.held == []
    ensures var t := Flip(Act(Flip(s), Deliver(0)));
            |t.peer.ch.reasm.out| == 12 && t.peer.ch.reasm.out[11] == Dg(27) && t.me.accepted == s.me.accepted
  {
    var e, m, r := s.peer, s.outgoing[0], s.me;
    assert MsgOk(r, m, e.got, e.held);
    ParseDataMsg(Mod(27), r.sent[27], None);
    assert e.ch.recvBuf == [];
    FeedSmall(r.sent[..11]);
    assert [] + Dg(27) == Dg(27);
  }

  /** The last leg: four more lost, then one that arrives. */
  lemma Arrives(s: Link, t: Link)
    requires Slipped(s, 2) && Tracks(t) && t == s.(me := t.me) && SentMany(s.me, t.me, 4)
    ensures OutOfOrder(SendAndTake(t))
  {
    SendSmall(t);
    TakenForEleven(Submit(t));
  }

  ghost predicate OutOfOrder(s: Link) {
    && |s.peer.ch.reasm.out| == 12 && s.peer.ch.reasm.out[11] == Dg(27)
    && |s.me.accepted| == 28 && forall i :: 0 <= i < 28 ==> s.me.accepted[i] == Dg(i)
  }

  lemma LastLeg(s: Link) returns (steps: seq<Step>)
    requires Slipped(s, 2)
    ensures OutOfOrder(Run(s, steps))
  {
    var a := LoseSome(s, 4);
    var t := Run(s, a);
    Arrives(s, t);
    var b := [Step(true, Enqueue(Dg(|t.me.accepted|))), Step(true, Poll(C, 0)), Step(false, Deliver(0))];
    RunThree(t, b);
    RunConcat(s, a, b);
    steps := a + b;
  }

  lemma ReachSlippedTwice() returns (steps: seq<Step>)
    ensures Slipped(Run(Start(0), steps), 2)
  {
    var a := ReachSlipped();
    var b := SlipTwice(Run(Start(0), a), 0);
    RunConcat(Start(0), a, b);
    steps := a + b;
  }

  lemma NoPrefix(s: Link)
    requires OutOfOrder(s)
    ensures !(s.peer.ch.reasm.out <= Deliverables(s.me.accepted))
  {
    DeliverablesSmall(s.me.accepted);
    assert s.me.accepted[11] == Dg(11) != Dg(27);
  }

  /**
   With data both ways some schedule hands over a datagram out of order: the
   twelfth datagram delivered is the twenty-eighth one accepted, so what was delivered
   is no prefix of what was accepted.
   */
  lemma TwoWayCorrupts() returns (steps: seq<Step>)
    ensures var s := Run(Start(0), steps); !(s.peer.ch.reasm.out <= Deliverables(s.me.accepted))
  {
    var a := ReachSlippedTwice();
    var b := LastLeg(Run(Start(0), a));
    RunConcat(Start(0), a, b);
    steps := a + b;
    NoPrefix(Run(Start(0), steps));
  }

  // ---------- a run that ends with a stale ACK on the air ----------

  /** Eleven of our fragments are in, six more are lost in flight, and an ACK for the first one is on its way. */
  ghost predicate Doomed(s: Link) {
    && Tracks(s) && s.outgoing == [] && |s.incoming| == 1 && s.incoming[0].ack == Some(1) && Small(s.me)
    && s.me.base == 11 == s.peer.got && |s.me.sent| == 17 && |s.peer.sent| == 1 && s.peer.held == []
    && s.me.ch.sendQueue == [] && s.me.ch.fragQueue == []
    && s.peer.ch.ackPending.None? && |s.peer.ch.inFlight| == 1 && s.peer.ch.fragQueue == [] && s.peer.ch.sendQueue == []
    && s.incoming[0].bytes == s.peer.ch.inFlight[0].msg
  }

  /** The same, just before the other end retransmits. */
  ghost predicate Brink(s: Link) {
    && Tracks(s) && s.outgoing == [] && s.incoming == [] && Small(s.me) && Calm(s.me) && Calm(s.peer)
    && s.me.base == 11 == s.peer.got && |s.me.sent| == 17 && s.peer.held == []
    && s.peer.ch.ackPending.None? && s.peer.base == 0 && s.peer.acks == [Some(1)]
  }

  lemma ReachBrink() returns (steps: seq<Step>)
    ensures Brink(Run(Start(0), steps))
  {
    var a := ReachOne();
    var s := Run(Start(0), a);
    var b := Rounds(s, 1, [Some(1)], 10);
    var c := LoseSome(Run(s, b), 6);
    RunConcat(s, b, c);
    RunConcat(Start(0), a, b + c);
    steps := a + (b + c);
  }

  lemma BrinkToDoomed(s: Link)
    requires Brink(s)
    ensures Doomed(Flip(Act(Flip(s), Resend)))
  {
    TracksResend(Flip(s));
    ResendMsgOk(s.peer, s.me.got, s.me.held);
    assert [] + ResendMsgs(s.peer) == ResendMsgs(s.peer);
  }

  lemma Reach() returns (steps: seq<Step>)
    ensures Doomed(Run(Start(0), steps))
  {
    var a := ReachBrink();
    BrinkToDoomed(Run(Start(0), a));
    RunSnoc(Start(0), a, Step(false, Resend));
    steps := a + [Step(false, Resend)];
  }

  /**
   The stale ACK empties the window: fragments 11 to 16 were sent, the receiver
   has none of them, and the sender will never send them again.
   */
  lemma Forgotten(s: Link, now: int)
    requires Doomed(s)
    ensures Misled(s, Deliver(now))
    ensures var t := Act(s, Deliver(now));
            t.me.ch.inFlight == [] && t.me.ch.sendBase == 1 && t.me.ch.sendNext == 1 && t.peer.got < |t.me.sent|
  {
    assert MsgOk(s.peer, s.incoming[0], s.me.got, s.me.held);
    ForgottenEnd(s.me, s.peer, s.incoming[0], now);
  }

  lemma ForgottenEnd(e: End, r: End, m: Msg, now: int)
    requires SenderOk(e) && e.base == 11 && |e.sent| == 17
    requires ReceiverOk(e, r.sent) && QueueOk(r) && MsgOk(r, m, e.got, e.held) && m.ack == Some(1) && |r.sent| <= 1
    ensures var f := DeliverEnd(e, m, now); f.ch.inFlight == [] && f.ch.sendBase == 1 && f.ch.sendNext == 1
  {
    DeliverSplit(e, m, r, now);
    AckFieldNext(1);
    var e1 := AckEnd(e, 1, now);
    assert e1.ch.inFlight == [] && e1.ch.sendBase == 1 && e1.ch.sendNext == 1;
    if m.data.Some? {
      ReceiverFrame(e, e1, r.sent);
      ReceiverData(e1, r.sent, m.data.value, now);
    }
  }

  // ---------- and stays wedged ----------

  /** A message whose data, if any, lies outside the window of a receiver waiting for number 11. */
  ghost predicate Useless(bytes: Bytes) {
    Parse(bytes).Some? ==> Parse(bytes).value.HasData() ==> 1 <= Parse(bytes).value.seqNum <= 6
  }

  /** A message whose ACK, if any, releases nothing from a window that starts at 1. */
  ghost predicate AcksNothing(bytes: Bytes) {
    Parse(bytes).Some? ==> Parse(bytes).value.ack in {None, Some(0), Some(10)}
  }

  ghost predicate WedgedSender(c: Chan) {
    && c.sendBase == 1 && |c.inFlight| <= WINDOW_SIZE && c.sendNext == Plus(1, |c.inFlight|)
    && (forall k :: 0 <= k < |c.inFlight| ==> Useless(c.inFlight[k].msg) && |c.inFlight[k].msg| > HEADER_SIZE)
  }

  ghost predicate WedgedReceiver(c: Chan, reasm: Reasm) {
    && c.recvNext == 11 && c.recvBuf == [] && c.reasm == reasm
    && c.ackPending in {None, Some(10)}
    && (forall k :: 0 <= k < |c.inFlight| ==> AcksNothing(c.inFlight[k].msg) && |c.inFlight[k].msg| > HEADER_SIZE)
  }

  ghost predicate Wedged(s: Link, reasm: Reasm) {
    && WedgedSender(s.me.ch)
    && WedgedReceiver(s.peer.ch, reasm)
    && (forall k :: 0 <= k < |s.outgoing| ==> Useless(s.outgoing[k].bytes))
    && (forall k :: 0 <= k < |s.incoming| ==> AcksNothing(s.incoming[k].bytes))
  }

  lemma SetAckParse(m: Bytes, a: SeqNum)
    requires |m| > HEADER_SIZE
    ensures Parse(SetAck(m, a)).Some? <==> Parse(m).Some?
    ensures Parse(m).Some? ==> Parse(SetAck(m, a)) == Some(Parse(m).value.(ack := Some(a)))
  {
    var n := SetAck(m, a);
    assert n[..|n| - 1][HEADER_SIZE..] == m[..|m| - 1][HEADER_SIZE..];
  }

  lemma SenderStays(c: Chan, bytes: Bytes, now: int)
    requires WedgedSender(c) && AcksNothing(bytes)
    ensures WedgedSender(Receive(c, bytes, now))
  {
    if Parse(bytes).Some? {
      var p := Parse(bytes).value;
      var c1 := match p.ack case None => c case Some(a) => ReceiveAck(c, a, now);
      assert c1 == c;
      ReceiveDataSameSender(c, p.seqNum, p.frag, now);
    }
  }

  lemma ReceiverStays(c: Chan, bytes: Bytes, now: int, reasm: Reasm)
    requires WedgedReceiver(c, reasm) && Useless(bytes)
    ensures WedgedReceiver(Receive(c, bytes, now), reasm)
  {
  }

  /** What either end puts on the air by polling. */
  lemma PollStays(c: Chan, chunk: ChunkSize, now: int, reasm: Reasm)
    ensures WedgedSender(c) ==>
              && WedgedSender(NextSend(c, chunk, now).0)
              && (NextSend(c, chunk, now).1.Send? ==> Useless(NextSend(c, chunk, now).1.msg))
    ensures WedgedReceiver(c, reasm) ==>
              && WedgedReceiver(NextSend(c, chunk, now).0, reasm)
              && (NextSend(c, chunk, now).1.Send? ==> AcksNothing(NextSend(c, chunk, now).1.msg))
  {
    RefillTwice(c, chunk);
    var c1 := Refill(c, chunk);
    if SendsData(c, chunk) {
      ParseDataMsg(c1.sendNext, c1.fragQueue[0], c1.ackPending);
    } else if AckDue(c1, now) {
      ParsePureAck(c1.ackPending.value);
    }
  }

  lemma ResendStays(c: Chan, reasm: Reasm)
    ensures WedgedSender(c) ==>
              && WedgedSender(Retransmit(c).0)
              && (Retransmit(c).1.Some? ==> Useless(Retransmit(c).1.value))
    ensures WedgedReceiver(c, reasm) ==>
              && WedgedReceiver(Retransmit(c).0, reasm)
              && (Retransmit(c).1.Some? ==> AcksNothing(Retransmit(c).1.value))
  {
    if c.inFlight != [] && |c.inFlight[0].msg| > HEADER_SIZE && c.ackPending.Some? {
      SetAckParse(c.inFlight[0].msg, c.ackPending.value);
    }
  }

  lemma WedgedMine(s: Link, ev: Event, reasm: Reasm)
    requires Wedged(s, reasm)
    ensures Wedged(Act(s, ev), reasm)
  {
    match ev
    case Enqueue(d) =>
    case Poll(chunk, now) => PollStays(s.me.ch, chunk, now, reasm);
    case Resend => ResendStays(s.me.ch, reasm);
    case Deliver(now) =>
      if s.incoming != [] {
        SenderStays(s.me.ch, s.incoming[0].bytes, now);
      }
    case Lose(k) =>
    case MarkDead =>
  }

  lemma WedgedPeer(s: Link, ev: Event, reasm: Reasm)
    requires Wedged(s, reasm)
    ensures Wedged(Flip(Act(Flip(s), ev)), reasm)
  {
    match ev
    case Enqueue(d) =>
    case Poll(chunk, now) => PollStays(s.peer.ch, chunk, now, reasm);
    case Resend => ResendStays(s.peer.ch, reasm);
    case Deliver(now) =>
      if s.outgoing != [] {
        ReceiverStays(s.peer.ch, s.outgoing[0].bytes, now, reasm);
      }
    case Lose(k) =>
    case MarkDead =>
  }

  lemma WedgedNext(s: Link, step: Step, reasm: Reasm)
    requires Wedged(s, reasm)
    ensures Wedged(Next(s, step), reasm)
  {
    if step.mine {
      WedgedMine(s, step.event, reasm);
    } else {
      WedgedPeer(s, step.event, reasm);
    }
  }

  lemma {:induction false} WedgedRun(s: Link, steps: seq<Step>, reasm: Reasm)
    requires Wedged(s, reasm)
    ensures Wedged(Run(s, steps), reasm)
  {
    if steps != [] {
      WedgedRun(s, steps[..|steps| - 1], reasm);
      WedgedNext(Run(s, steps[..|steps| - 1]), steps[|steps| - 1], reasm);
    }
  }

  lemma StaleField(r: End, m: Msg, got: nat, held: seq<nat>)
    requires MsgOk(r, m, got, held) && m.ack == Some(1)
    ensures AcksNothing(m.bytes)
  {
    if m.data.Some? {
      ParseDataMsg(Mod(m.data.value), r.sent[m.data.value], AckField(m.ack));
    } else {
      ParsePureAck(AckField(m.ack).value);
    }
  }

  lemma DoomedThenWedged(s: Link)
    requires Doomed(s)
    ensures Wedged(Act(s, Deliver(0)), s.peer.ch.reasm)
  {
    Forgotten(s, 0);
    assert MsgOk(s.peer, s.incoming[0], s.me.got, s.me.held);
    StaleField(s.peer, s.incoming[0], s.me.got, s.me.held);
    DoomedReceiver(s);
  }

  lemma DoomedReceiver(s: Link)
    requires Doomed(s) && AcksNothing(s.incoming[0].bytes)
    ensures WedgedReceiver(s.peer.ch, s.peer.ch.reasm)
  {
    var r := s.peer;
    assert ReceiverOk(r, s.me.sent) && SenderOk(r);
    assert r.ch.inFlight[r.base - r.base].msg == DataMsg(Mod(r.base), r.sent[r.base], AckField(r.acks[r.base]));
  }

  /**
   With data both ways some schedule wedges the link for good: seventeen
   one-byte datagrams were accepted, eleven were delivered, and no continuation
   of the run delivers another.
   */
  lemma TwoWayWedges() returns (steps: seq<Step>)
    ensures |Deliverables(Run(Start(0), steps).me.accepted)| == 17
    ensures forall more :: |Run(Start(0), steps + more).peer.ch.reasm.out| == 11
  {
    var a := Reach();
    var s := Run(Start(0), a);
    DoomedThenWedged(s);
    FeedSmall(s.me.sent[..11]);
    DeliverablesSmall(s.me.accepted);
    RunSnoc(Start(0), a, Step(true, Deliver(0)));
    steps := a + [Step(true, Deliver(0))];
    var t := Run(Start(0), steps);
    assert t.me.accepted == s.me.accepted;
    forall more
      ensures |Run(Start(0), steps + more).peer.ch.reasm.out| == 11
    {
      RunConcat(Start(0), steps, more);
      WedgedRun(t, more, s.peer.ch.reasm);
    }
  }
}
