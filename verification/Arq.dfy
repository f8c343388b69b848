/**
 The reliable channel's state as a value, and every operation on it as a function.
 `ReliableChannel` (the class) is proved to compute these functions in place.

 Time is a parameter, in milliseconds. `reasm.out` is the stream handed to
 `datagram_tx`.
 */
module Arq {
  import opened Wire
  import opened Fragmentation

  const SEQ_MODULUS := 16
  const WINDOW_SIZE := 6
  const ACK_DELAY := 15
  const SEND_QUEUE_CAPACITY := 32

  datatype InFlight = InFlight(seqNum: SeqNum, msg: Bytes)
  datatype Buffered = Buffered(seqNum: SeqNum, frag: Frag)

  datatype Chan = Chan(
    sendQueue: seq<Bytes>,
    fragQueue: seq<Frag>,
    sendNext: SeqNum,
    sendBase: SeqNum,
    inFlight: seq<InFlight>,
    recvNext: SeqNum,
    reasm: Reasm,
    recvBuf: seq<Buffered>,
    ackPending: Option<SeqNum>,
    ackDeadline: Option<int>,
    lastProgress: int,
    linkDead: bool)

  datatype SendAction = Send(msg: Bytes) | Wait | Dead

  function Fresh(now: int): Chan {
    Chan([], [], 0, 0, [], 0, EMPTY, [], None, None, now, false)
  }

  /** Distance from `a` to `b`: an 8-bit wrapping subtraction reduced modulo 16. */
  function SeqDist(a: SeqNum, b: SeqNum): (d: SeqNum)
    ensures d == if a <= b then b - a else b - a + SEQ_MODULUS
  {
    (b - a) % 256 % SEQ_MODULUS
  }

  /** The sequence number `k` places after `s`. */
  function Plus(s: SeqNum, k: nat): (t: SeqNum)
    ensures k < SEQ_MODULUS ==> t == if s + k < SEQ_MODULUS then s + k else s + k - SEQ_MODULUS
  {
    (s + k) % SEQ_MODULUS
  }

  function InFlightCount(c: Chan): SeqNum {
    SeqDist(c.sendBase, c.sendNext)
  }

  predicate CanSend(c: Chan) {
    InFlightCount(c) < WINDOW_SIZE
  }

  predicate InRecvWindow(c: Chan, s: SeqNum) {
    SeqDist(c.recvNext, s) < WINDOW_SIZE
  }

  predicate IsBuffered(c: Chan, s: SeqNum) {
    exists k :: 0 <= k < |c.recvBuf| && c.recvBuf[k].seqNum == s
  }

  function ScheduleAck(c: Chan, s: SeqNum, now: int): Chan {
    c.(ackPending := Some(s), ackDeadline := if c.ackDeadline.None? then Some(now + ACK_DELAY) else c.ackDeadline)
  }

  /** The number before `recvNext`: what a cumulative ACK names. */
  function AckPosition(c: Chan): SeqNum {
    Plus(c.recvNext, SEQ_MODULUS - 1)
  }

  function TakeAck(c: Chan): Chan {
    c.(ackPending := None, ackDeadline := None)
  }

  function Enqueue(c: Chan, d: Bytes): (Chan, bool) {
    if |c.sendQueue| + |c.fragQueue| >= SEND_QUEUE_CAPACITY then (c, false)
    else (c.(sendQueue := c.sendQueue + [d]), true)
  }

  // ---------- receiving ----------

  /** How many fragments an ACK releases; zero when it is stale or bogus. */
  function AckedCount(c: Chan, ack: SeqNum): nat {
    var n := SeqDist(c.sendBase, Plus(ack, 1));
    if 0 < n <= WINDOW_SIZE && n <= InFlightCount(c) then n else 0
  }

  function ReceiveAck(c: Chan, ack: SeqNum, now: int): Chan {
    var n := AckedCount(c, ack);
    if n == 0 then c
    else
      var cut := if n <= |c.inFlight| then n else |c.inFlight|;
      c.(inFlight := c.inFlight[cut..], sendBase := Plus(ack, 1), lastProgress := now)
  }

  function Accept(c: Chan, f: Frag, now: int): Chan {
    var c1 := c.(reasm := Feed(c.reasm, f), recvNext := Plus(c.recvNext, 1));
    ScheduleAck(c1, AckPosition(c1), now)
  }

  /** First buffer position holding `s`, or the buffer's length. */
  function Find(buf: seq<Buffered>, s: SeqNum): (k: nat)
    ensures k <= |buf|
    ensures k < |buf| ==> buf[k].seqNum == s
    ensures forall j :: 0 <= j < k ==> buf[j].seqNum != s
  {
    if buf == [] then 0 else if buf[0].seqNum == s then 0 else 1 + Find(buf[1..], s)
  }

  function Drain(c: Chan, now: int): Chan
    decreases |c.recvBuf|
  {
    var k := Find(c.recvBuf, c.recvNext);
    if k == |c.recvBuf| then c
    else Drain(Accept(c.(recvBuf := c.recvBuf[..k] + c.recvBuf[k + 1..]), c.recvBuf[k].frag, now), now)
  }

  function ReceiveData(c: Chan, s: SeqNum, f: Frag, now: int): Chan {
    if s == c.recvNext then Drain(Accept(c, f, now), now)
    else if InRecvWindow(c, s) && !IsBuffered(c, s) then
      ScheduleAck(c.(recvBuf := c.recvBuf + [Buffered(s, f)]), AckPosition(c), now)
    else if !InRecvWindow(c, s) then ScheduleAck(c, AckPosition(c), now)
    else c
  }

  function ReceivePacket(c: Chan, p: Packet, now: int): Chan {
    var c1 := match p.ack case None => c case Some(a) => ReceiveAck(c, a, now);
    if p.HasData() then ReceiveData(c1, p.seqNum, p.frag, now) else c1
  }

  function Receive(c: Chan, value: Bytes, now: int): Chan {
    match Parse(value)
    case None => c
    case Some(p) => ReceivePacket(c, p, now)
  }

  // ---------- sending ----------

  function Refill(c: Chan, chunk: ChunkSize): Chan {
    if c.fragQueue == [] && c.sendQueue != [] then
      c.(sendQueue := c.sendQueue[1..], fragQueue := c.fragQueue + Fragment(c.sendQueue[0], chunk))
    else c
  }

  /** Sends the next fragment, piggybacking a pending ACK. */
  function SendData(c: Chan, now: int): (Chan, SendAction)
    requires c.fragQueue != []
  {
    var msg := DataMsg(c.sendNext, c.fragQueue[0], c.ackPending);
    (TakeAck(c).(
       fragQueue := c.fragQueue[1..],
       lastProgress := if c.inFlight == [] then now else c.lastProgress,
       inFlight := c.inFlight + [InFlight(c.sendNext, msg)],
       sendNext := Plus(c.sendNext, 1)),
     Send(msg))
  }

  predicate AckDue(c: Chan, now: int) {
    c.ackPending.Some? && (c.ackDeadline.Some? ==> now >= c.ackDeadline.value)
  }

  function SendAckOrWait(c: Chan, now: int): (Chan, SendAction) {
    if AckDue(c, now) then (TakeAck(c), Send(PureAck(c.ackPending.value))) else (c, Wait)
  }

  function NextSend(c: Chan, chunk: ChunkSize, now: int): (Chan, SendAction) {
    if c.linkDead then (c, Dead)
    else
      var c1 := Refill(c, chunk);
      if CanSend(c1) && Refill(c1, chunk).fragQueue != [] then SendData(Refill(c1, chunk), now)
      else if CanSend(c1) then SendAckOrWait(Refill(c1, chunk), now)
      else SendAckOrWait(c1, now)
  }

  /** The message a retransmission puts on the air, and the state after it. */
  function Retransmit(c: Chan): (Chan, Option<Bytes>) {
    if c.inFlight == [] then (c, None)
    else
      var m := c.inFlight[0].msg;
      (TakeAck(c), Some(if c.ackPending.Some? && |m| >= HEADER_SIZE then SetAck(m, c.ackPending.value) else m))
  }

  // ---------- what holds whatever bytes arrive ----------

  /** Window bookkeeping that no input can break. */
  ghost predicate WindowOk(c: Chan) {
    && |c.inFlight| <= WINDOW_SIZE
    && c.sendNext == Plus(c.sendBase, |c.inFlight|)
    && (forall k :: 0 <= k < |c.inFlight| ==>
          && c.inFlight[k].seqNum == Plus(c.sendBase, k)
          && |c.inFlight[k].msg| > HEADER_SIZE)
    && BufferOk(c)
    && (c.ackPending.Some? ==> c.ackPending.value == AckPosition(c))
  }

  ghost predicate BufferOk(c: Chan) {
    && (forall k :: 0 <= k < |c.recvBuf| ==> 1 <= SeqDist(c.recvNext, c.recvBuf[k].seqNum) < WINDOW_SIZE)
    && (forall j, k :: 0 <= j < k < |c.recvBuf| ==> c.recvBuf[j].seqNum != c.recvBuf[k].seqNum)
  }

  lemma PlusPlus(s: SeqNum, a: nat, b: nat)
    requires a + b < SEQ_MODULUS
    ensures Plus(Plus(s, a), b) == Plus(s, a + b)
  {
  }

  lemma WindowOkAck(c: Chan, ack: SeqNum, now: int)
    requires WindowOk(c)
    ensures WindowOk(ReceiveAck(c, ack, now))
    ensures AckedCount(c, ack) <= |c.inFlight|
  {
    assert InFlightCount(c) == |c.inFlight|;
    var n := AckedCount(c, ack);
    var d := ReceiveAck(c, ack, now);
    if n > 0 {
      assert d.sendBase == Plus(c.sendBase, n);
      forall k | 0 <= k <= |d.inFlight|
        ensures Plus(d.sendBase, k) == Plus(c.sendBase, k + n)
      {
        PlusPlus(c.sendBase, n, k);
      }
      assert forall k :: 0 <= k < |d.inFlight| ==> d.inFlight[k] == c.inFlight[k + n];
    }
  }

  /** Between accepting and draining, the buffer may hold the next number itself. */
  ghost predicate DrainOk(c: Chan) {
    && (forall k :: 0 <= k < |c.recvBuf| ==> SeqDist(c.recvNext, c.recvBuf[k].seqNum) < WINDOW_SIZE - 1)
    && (forall j, k :: 0 <= j < k < |c.recvBuf| ==> c.recvBuf[j].seqNum != c.recvBuf[k].seqNum)
  }

  /** Everything `Accept` and `Drain` leave alone. */
  ghost predicate SameSender(c: Chan, d: Chan) {
    d == c.(recvNext := d.recvNext, reasm := d.reasm, recvBuf := d.recvBuf,
            ackPending := d.ackPending, ackDeadline := d.ackDeadline)
  }

  lemma {:induction false} DrainKeeps(c: Chan, now: int)
    requires DrainOk(c) && c.ackPending == Some(AckPosition(c))
    ensures var d := Drain(c, now);
            SameSender(c, d) && BufferOk(d) && d.ackPending == Some(AckPosition(d))
    decreases |c.recvBuf|
  {
    var k := Find(c.recvBuf, c.recvNext);
    if k < |c.recvBuf| {
      var rest := c.recvBuf[..k] + c.recvBuf[k + 1..];
      forall j | 0 <= j < |rest|
        ensures 1 <= SeqDist(c.recvNext, rest[j].seqNum) < WINDOW_SIZE - 1
      {
        assert rest[j] == c.recvBuf[if j < k then j else j + 1];
      }
      DrainKeeps(Accept(c.(recvBuf := rest), c.recvBuf[k].frag, now), now);
    }
  }

  lemma WindowOkData(c: Chan, s: SeqNum, f: Frag, now: int)
    requires WindowOk(c)
    ensures WindowOk(ReceiveData(c, s, f, now))
  {
    if s == c.recvNext {
      DrainKeeps(Accept(c, f, now), now);
    }
  }

  /** Whatever bytes arrive, the window bookkeeping survives. */
  lemma WindowOkReceive(c: Chan, value: Bytes, now: int)
    requires WindowOk(c)
    ensures WindowOk(Receive(c, value, now))
  {
    if Parse(value).Some? {
      var p := Parse(value).value;
      if p.ack.Some? {
        WindowOkAck(c, p.ack.value, now);
      }
      var c1 := match p.ack case None => c case Some(a) => ReceiveAck(c, a, now);
      if p.HasData() {
        WindowOkData(c1, p.seqNum, p.frag, now);
      }
    }
  }

  lemma WindowOkRefill(c: Chan, chunk: ChunkSize)
    requires WindowOk(c)
    ensures WindowOk(Refill(c, chunk)) && Refill(c, chunk).inFlight == c.inFlight
  {
  }

  lemma WindowOkSendData(c: Chan, now: int)
    requires WindowOk(c) && CanSend(c) && c.fragQueue != []
    ensures WindowOk(SendData(c, now).0)
  {
    assert InFlightCount(c) == |c.inFlight|;
  }

  lemma WindowOkSend(c: Chan, chunk: ChunkSize, now: int)
    requires WindowOk(c)
    ensures WindowOk(NextSend(c, chunk, now).0)
  {
    var c1 := Refill(c, chunk);
    var c2 := Refill(c1, chunk);
    WindowOkRefill(c, chunk);
    WindowOkRefill(c1, chunk);
    if !c.linkDead && CanSend(c1) && c2.fragQueue != [] {
      WindowOkSendData(c2, now);
    }
  }

  lemma WindowOkRetransmit(c: Chan)
    requires WindowOk(c)
    ensures WindowOk(Retransmit(c).0)
  {
  }

  lemma {:induction false} DrainSameSender(c: Chan, now: int)
    ensures SameSender(c, Drain(c, now))
    decreases |c.recvBuf|
  {
    var k := Find(c.recvBuf, c.recvNext);
    if k < |c.recvBuf| {
      DrainSameSender(Accept(c.(recvBuf := c.recvBuf[..k] + c.recvBuf[k + 1..]), c.recvBuf[k].frag, now), now);
    }
  }

  lemma ReceiveDataSameSender(c: Chan, s: SeqNum, f: Frag, now: int)
    ensures SameSender(c, ReceiveData(c, s, f, now))
  {
    if s == c.recvNext {
      DrainSameSender(Accept(c, f, now), now);
    }
  }

  /** Whatever bytes arrive, what waits to be sent stays. */
  lemma ReceiveKeepsQueues(c: Chan, value: Bytes, now: int)
    ensures var d := Receive(c, value, now);
            d.sendQueue == c.sendQueue && d.fragQueue == c.fragQueue && d.linkDead == c.linkDead
  {
    if Parse(value).Some? {
      var p := Parse(value).value;
      var c1 := match p.ack case None => c case Some(a) => ReceiveAck(c, a, now);
      ReceiveDataSameSender(c1, p.seqNum, p.frag, now);
    }
  }
}
