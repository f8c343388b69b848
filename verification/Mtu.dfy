/** From the ATT MTU to the size of a fragment on the wire. */
module Mtu {
  import opened Wire
  import opened Fragmentation

  const MAX_CHUNK_SIZE := 509
  const MIN_SANE_MTU := 24
  const DEFAULT_FALLBACK_MTU := 512
  const MTU_READY_DEADLINE := 3000
  const MTU_POLL_INTERVAL := 50
  const ATT_OVERHEAD := 3

  /** What a pipe uses until its MTU is resolved. */
  const INITIAL_CHUNK_SIZE: ChunkSize := MIN_SANE_MTU - ATT_OVERHEAD

  function ChunkFor(mtu: nat): nat {
    var usable := if mtu < ATT_OVERHEAD then 0 else mtu - ATT_OVERHEAD;
    if usable < MAX_CHUNK_SIZE then usable else MAX_CHUNK_SIZE
  }

  predicate SaneAt(mtu: nat -> nat, k: nat) {
    mtu(k) >= MIN_SANE_MTU
  }

  /**
   Polls until a sane reading or the deadline. `mtu(k)` is the k-th reading and
   `now(k)` the time after it, counted from the start; polls are at least one
   interval apart.
   */
  method ResolveChunkSize(mtu: nat -> nat, now: nat -> int) returns (chunk: ChunkSize, ghost polls: nat)
    requires forall k: nat :: now(k) >= MTU_POLL_INTERVAL * k
    ensures INITIAL_CHUNK_SIZE <= chunk <= MAX_CHUNK_SIZE
    ensures forall k: nat :: k < polls ==> !SaneAt(mtu, k) && now(k) < MTU_READY_DEADLINE
    ensures if SaneAt(mtu, polls) then chunk + ATT_OVERHEAD == (if mtu(polls) < 512 then mtu(polls) else 512)
            else now(polls) >= MTU_READY_DEADLINE && chunk == MAX_CHUNK_SIZE
  {
    var k := 0;
    var m := mtu(k);
    while m < MIN_SANE_MTU && now(k) < MTU_READY_DEADLINE
      invariant k <= MTU_READY_DEADLINE / MTU_POLL_INTERVAL && m == mtu(k)
      invariant forall i: nat :: i < k ==> !SaneAt(mtu, i) && now(i) < MTU_READY_DEADLINE
      decreases MTU_READY_DEADLINE / MTU_POLL_INTERVAL - k
    {
      assert MTU_POLL_INTERVAL * k < MTU_READY_DEADLINE;
      k := k + 1;
      m := mtu(k);
    }
    polls := k;
    var chosen := if m >= MIN_SANE_MTU then m else DEFAULT_FALLBACK_MTU;
    chunk := ChunkFor(chosen);
  }

  /** With a sane reading, every data message of every datagram fits the negotiated MTU, ATT overhead included. */
  lemma MessagesFitMtu(mtu: nat, d: Bytes, k: nat, s: SeqNum, ack: Option<SeqNum>)
    requires mtu >= MIN_SANE_MTU && ChunkFor(mtu) > OVERHEAD && k < |Fragment(d, ChunkFor(mtu))|
    ensures |DataMsg(s, Fragment(d, ChunkFor(mtu))[k], ack)| + ATT_OVERHEAD <= mtu
  {
    FragmentsFit(d, ChunkFor(mtu) - OVERHEAD, true, k, s, ack);
  }
}
