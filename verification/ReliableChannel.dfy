/**
 The reliable channel as the object it is: queues, counters and buffers updated in
 place. Every method is tied to its specification function in `Arq` through
 `View`, and keeps `WindowOk`.
 */
module ReliableChannels {
  import opened Wire
  import opened Fragmentation
  import opened Arq

  class ReliableChannel {
    var sendQueue: seq<Bytes>
    var fragQueue: seq<Frag>
    var sendNext: SeqNum
    var sendBase: SeqNum
    var inFlight: seq<InFlight>
    var recvNext: SeqNum
    var reassembly: Bytes
    var reassemblyOverflow: bool
    var delivered: seq<Bytes>
    var recvBuf: seq<Buffered>
    var ackPending: Option<SeqNum>
    var ackDeadline: Option<int>
    var lastProgressAt: int
    var linkDead: bool
    var chunkSize: ChunkSize

    function View(): Chan
      reads this
    {
      Chan(sendQueue, fragQueue, sendNext, sendBase, inFlight, recvNext,
           Reasm(reassembly, reassemblyOverflow, delivered), recvBuf, ackPending, ackDeadline, lastProgressAt, linkDead)
    }

    ghost predicate Valid()
      reads this
    {
      WindowOk(View())
    }

    constructor (chunk: ChunkSize, now: int)
      ensures Valid() && View() == Fresh(now) && chunkSize == chunk
    {
      sendQueue, fragQueue, sendNext, sendBase, inFlight := [], [], 0, 0, [];
      recvNext, reassembly, reassemblyOverflow, delivered, recvBuf := 0, [], false, [], [];
      ackPending, ackDeadline, lastProgressAt, linkDead := None, None, now, false;
      chunkSize := chunk;
    }

    method SetChunkSize(chunk: ChunkSize)
      modifies this`chunkSize
      ensures chunkSize == chunk
    {
      chunkSize := chunk;
    }

    method MarkDead()
      modifies this`linkDead
      ensures View() == old(View()).(linkDead := true)
    {
      linkDead := true;
    }

    method EnqueueDatagram(d: Bytes) returns (ok: bool)
      requires Valid()
      modifies this`sendQueue
      ensures Valid() && (View(), ok) == Enqueue(old(View()), d)
    {
      if |sendQueue| + |fragQueue| >= SEND_QUEUE_CAPACITY {
        return false;
      }
      sendQueue := sendQueue + [d];
      return true;
    }

    method Schedule(s: SeqNum, now: int)
      modifies this`ackPending, this`ackDeadline
      ensures View() == ScheduleAck(old(View()), s, now)
    {
      ackPending := Some(s);
      if ackDeadline.None? {
        ackDeadline := Some(now + ACK_DELAY);
      }
    }

    method TakePendingAck() returns (a: Option<SeqNum>)
      modifies this`ackPending, this`ackDeadline
      ensures View() == TakeAck(old(View())) && a == old(ackPending)
    {
      a := ackPending;
      ackDeadline := None;
      ackPending := None;
    }

    // ---------- receiving ----------

    method ReceiveFragment(value: Bytes, now: int)
      requires Valid()
      modifies this
      ensures Valid() && View() == Receive(old(View()), value, now) && chunkSize == old(chunkSize)
    {
      WindowOkReceive(View(), value, now);
      var parsed := Parse(value);
      if parsed.None? {
        return;
      }
      var p := parsed.value;
      if p.ack.Some? {
        WindowOkAck(View(), p.ack.value, now);
        HandleAck(p.ack.value, now);
      }
      if p.HasData() {
        HandleData(p.seqNum, p.frag, now);
      }
    }

    /** Releases acknowledged fragments from the front of the window, one by one. */
    method HandleAck(ack: SeqNum, now: int)
      modifies this`inFlight, this`sendBase, this`lastProgressAt
      ensures View() == ReceiveAck(old(View()), ack, now)
    {
      var acked := SeqDist(sendBase, Plus(ack, 1));
      if 0 < acked && acked <= WINDOW_SIZE && acked <= SeqDist(sendBase, sendNext) {
        var n := if acked <= |inFlight| then acked else |inFlight|;
        for k := 0 to n
          invariant inFlight == old(inFlight)[k..]
        {
          inFlight := inFlight[1..];
        }
        sendBase := Plus(ack, 1);
        lastProgressAt := now;
      }
    }

    method HandleData(s: SeqNum, f: Frag, now: int)
      modifies this`reassembly, this`reassemblyOverflow, this`delivered, this`recvNext, this`recvBuf, this`ackPending, this`ackDeadline
      ensures View() == ReceiveData(old(View()), s, f, now)
    {
      var buffered := HasBuffered(s);
      var inWindow := SeqDist(recvNext, s) < WINDOW_SIZE;
      if s == recvNext {
        AcceptAndDeliver(f, now);
        DrainRecvBuf(now);
      } else if inWindow && !buffered {
        recvBuf := recvBuf + [Buffered(s, f)];
        Schedule(Plus(recvNext, SEQ_MODULUS - 1), now);
      } else if !inWindow {
        Schedule(Plus(recvNext, SEQ_MODULUS - 1), now);
      }
    }

    method HasBuffered(s: SeqNum) returns (found: bool)
      ensures found <==> IsBuffered(View(), s)
    {
      found := false;
      for k := 0 to |recvBuf|
        invariant found <==> exists j :: 0 <= j < k && recvBuf[j].seqNum == s
      {
        if recvBuf[k].seqNum == s {
          found := true;
        }
      }
    }

    /** Reassembly: a first fragment starts over, overflow drops the datagram, a last fragment delivers it. */
    method Reassemble(f: Frag)
      modifies this`reassembly, this`reassemblyOverflow, this`delivered
      ensures Reasm(reassembly, reassemblyOverflow, delivered) == Feed(old(Reasm(reassembly, reassemblyOverflow, delivered)), f)
    {
      if f.first {
        reassembly := [];
        reassemblyOverflow := false;
      }
      if !reassemblyOverflow {
        reassembly := reassembly + f.payload;
        if |reassembly| > MAX_DATAGRAM_SIZE {
          reassembly := [];
          reassemblyOverflow := true;
        }
      }
      if f.last {
        reassemblyOverflow := false;
        var complete := reassembly;
        reassembly := [];
        if complete != [] {
          delivered := delivered + [complete];
        }
      }
    }

    method AcceptAndDeliver(f: Frag, now: int)
      modifies this`reassembly, this`reassemblyOverflow, this`delivered, this`recvNext, this`ackPending, this`ackDeadline
      ensures View() == Accept(old(View()), f, now)
    {
      Reassemble(f);
      recvNext := Plus(recvNext, 1);
      Schedule(Plus(recvNext, SEQ_MODULUS - 1), now);
    }

    method PositionOf(s: SeqNum) returns (k: nat)
      ensures k == Find(recvBuf, s)
    {
      k := 0;
      while k < |recvBuf| && recvBuf[k].seqNum != s
        invariant k <= |recvBuf|
        invariant Find(recvBuf, s) == k + Find(recvBuf[k..], s)
      {
        assert recvBuf[k..][1..] == recvBuf[k + 1..];
        k := k + 1;
      }
    }

    method DrainRecvBuf(now: int)
      modifies this`reassembly, this`reassemblyOverflow, this`delivered, this`recvNext, this`recvBuf, this`ackPending, this`ackDeadline
      ensures View() == Drain(old(View()), now)
    {
      while true
        invariant Drain(View(), now) == Drain(old(View()), now)
        decreases |recvBuf|
      {
        var k := PositionOf(recvNext);
        if k == |recvBuf| {
          break;
        }
        var frag := recvBuf[k].frag;
        recvBuf := recvBuf[..k] + recvBuf[k + 1..];
        AcceptAndDeliver(frag, now);
      }
    }

    // ---------- sending ----------

    /** Cuts a datagram at `chunkSize` and queues its fragments. */
    method FragmentInto(d: Bytes)
      modifies this`fragQueue
      ensures fragQueue == old(fragQueue) + Fragment(d, chunkSize)
    {
      var max := chunkSize - OVERHEAD;
      if |d| <= max {
        fragQueue := fragQueue + [Frag(d, true, true)];
        return;
      }
      var rest, first := d, true;
      while |rest| > max
        invariant fragQueue + Chunks(rest, max, first) == old(fragQueue) + Chunks(d, max, true)
        invariant rest != []
        decreases |rest|
      {
        fragQueue := fragQueue + [Frag(rest[..max], first, false)];
        rest, first := rest[max..], false;
      }
      fragQueue := fragQueue + [Frag(rest, first, true)];
    }

    method RefillFragments()
      modifies this`fragQueue, this`sendQueue
      ensures View() == Refill(old(View()), chunkSize)
    {
      if fragQueue == [] && sendQueue != [] {
        var d := sendQueue[0];
        sendQueue := sendQueue[1..];
        FragmentInto(d);
      }
    }

    /** Stamps the next fragment, with any pending ACK, and puts it in flight. */
    method SendFragment(now: int) returns (action: SendAction)
      requires fragQueue != []
      modifies this
      ensures (View(), action) == SendData(old(View()), now) && chunkSize == old(chunkSize)
    {
      var frag, s := fragQueue[0], sendNext;
      fragQueue := fragQueue[1..];
      var ack := TakePendingAck();
      var msg := DataMsg(s, frag, ack);
      if inFlight == [] {
        lastProgressAt := now;
      }
      inFlight := inFlight + [InFlight(s, msg)];
      sendNext := Plus(sendNext, 1);
      action := Send(msg);
    }

    method SendPureAck(now: int) returns (action: SendAction)
      modifies this`ackPending, this`ackDeadline
      ensures (View(), action) == SendAckOrWait(old(View()), now)
    {
      if ackPending.Some? && (ackDeadline.None? || now >= ackDeadline.value) {
        var ack := TakePendingAck();
        return Send(PureAck(ack.value));
      }
      return Wait;
    }

    method NextSendAction(now: int) returns (action: SendAction)
      requires Valid()
      modifies this
      ensures Valid() && (View(), action) == NextSend(old(View()), chunkSize, now) && chunkSize == old(chunkSize)
    {
      WindowOkSend(View(), chunkSize, now);
      if linkDead {
        return Dead;
      }
      RefillFragments();
      if SeqDist(sendBase, sendNext) < WINDOW_SIZE {
        RefillFragments();
        if fragQueue != [] {
          action := SendFragment(now);
          return;
        }
      }
      action := SendPureAck(now);
    }

    /** The retransmission arm of the send loop: the oldest fragment, with a pending ACK if there is one. */
    method RetransmitOldest() returns (resend: Option<Bytes>)
      requires Valid()
      modifies this`ackPending, this`ackDeadline
      ensures Valid() && (View(), resend) == Retransmit(old(View()))
    {
      resend := None;
      if inFlight != [] {
        var m := inFlight[0].msg;
        var ack := TakePendingAck();
        if ack.Some? && |m| >= HEADER_SIZE {
          m := SetAck(m, ack.value);
        }
        resend := Some(m);
      }
    }
  }
}
