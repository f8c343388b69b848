/**
 Cutting datagrams into fragments and putting them back together.

 `Chunks` is the sender's cut (`fragment_into`), `Feed` is one reassembly step
 of the receiver (`accept_and_deliver` without its sequence numbers).
 */
module Fragmentation {
  import opened Wire

  const MAX_DATAGRAM_SIZE := 1472

  /** Header plus canary: what a fragment costs on top of its payload. */
  const OVERHEAD := 3

  /** A chunk size leaves room for at least one payload byte. */
  type ChunkSize = n: int | OVERHEAD < n witness 21

  /** Splits `d` into pieces of at most `max` bytes; only the outer ones are flagged. */
  function Chunks(d: Bytes, max: nat, first: bool): (fs: seq<Frag>)
    requires max > 0
    ensures fs != []
    decreases |d|
  {
    if |d| <= max then [Frag(d, first, true)]
    else [Frag(d[..max], first, false)] + Chunks(d[max..], max, false)
  }

  function Fragment(d: Bytes, chunk: ChunkSize): seq<Frag> {
    Chunks(d, chunk - OVERHEAD, true)
  }

  /** Reassembly state: the bytes so far, the overflow flag, the datagrams handed up. */
  datatype Reasm = Reasm(partial: Bytes, overflow: bool, out: seq<Bytes>)

  const EMPTY := Reasm([], false, [])

  function Feed(r: Reasm, f: Frag): Reasm {
    var r1 := if f.first then r.(partial := [], overflow := false) else r;
    var r2 :=
      if r1.overflow then r1
      else if |r1.partial + f.payload| > MAX_DATAGRAM_SIZE then r1.(partial := [], overflow := true)
      else r1.(partial := r1.partial + f.payload);
    if !f.last then r2
    else Reasm([], false, if r2.partial == [] then r2.out else r2.out + [r2.partial])
  }

  function FeedAll(r: Reasm, fs: seq<Frag>): Reasm {
    if fs == [] then r else Feed(FeedAll(r, fs[..|fs| - 1]), fs[|fs| - 1])
  }

  /** A datagram together with the chunk size in force when it was cut. */
  datatype Cut = Cut(datagram: Bytes, chunk: ChunkSize)

  function CutFrags(cs: seq<Cut>): seq<Frag> {
    if cs == [] then []
    else CutFrags(cs[..|cs| - 1]) + Fragment(cs[|cs| - 1].datagram, cs[|cs| - 1].chunk)
  }

  function Datagrams(cs: seq<Cut>): seq<Bytes> {
    seq(|cs|, i requires 0 <= i < |cs| => cs[i].datagram)
  }

  predicate Deliverable(d: Bytes) {
    1 <= |d| <= MAX_DATAGRAM_SIZE
  }

  /** The datagrams the channel promises to deliver, in order. */
  function Deliverables(ds: seq<Bytes>): seq<Bytes> {
    if ds == [] then []
    else Deliverables(ds[..|ds| - 1]) + if Deliverable(ds[|ds| - 1]) then [ds[|ds| - 1]] else []
  }

  lemma {:induction false} FeedAllConcat(r: Reasm, a: seq<Frag>, b: seq<Frag>)
    ensures FeedAll(r, a + b) == FeedAll(FeedAll(r, a), b)
    decreases |b|
  {
    if b == [] {
      assert a + b == a;
    } else {
      assert (a + b)[..|a + b| - 1] == a + b[..|b| - 1];
      FeedAllConcat(r, a, b[..|b| - 1]);
    }
  }

  /** Feeding more fragments only ever appends to the delivered datagrams. */
  lemma {:induction false} FeedAllGrows(r: Reasm, fs: seq<Frag>)
    ensures r.out <= FeedAll(r, fs).out
  {
    if fs != [] {
      FeedAllGrows(r, fs[..|fs| - 1]);
    }
  }

  /** The datagrams handed up once the last byte of `whole` is in. */
  function Finish(out: seq<Bytes>, overflow: bool, whole: Bytes): Reasm {
    Reasm([], false, if !overflow && Deliverable(whole) then out + [whole] else out)
  }

  /** What the remaining fragments of a datagram do, once its first one is in. */
  lemma {:induction false} FeedRest(r: Reasm, d: Bytes, max: nat)
    requires max > 0 && d != []
    requires |r.partial| <= MAX_DATAGRAM_SIZE && (r.overflow ==> r.partial == [])
    ensures FeedAll(r, Chunks(d, max, false)) == Finish(r.out, r.overflow, r.partial + d)
    decreases |d|
  {
    if |d| <= max {
      FeedOne(r, Frag(d, false, true));
    } else {
      var f, rest := Frag(d[..max], false, false), Chunks(d[max..], max, false);
      FeedAllConcat(r, [f], rest);
      FeedOne(r, f);
      FeedRest(Feed(r, f), d[max..], max);
      assert r.partial + d[..max] + d[max..] == r.partial + d;
    }
  }

  /** What all the fragments of one datagram do, from any reassembly state. */
  lemma {:induction false} FeedDatagram(r: Reasm, d: Bytes, max: nat)
    requires max > 0
    ensures FeedAll(r, Chunks(d, max, true)) == Finish(r.out, false, d)
  {
    if |d| <= max {
      FeedOne(r, Frag(d, true, true));
      assert [] + d == d;
    } else {
      var f, rest := Frag(d[..max], true, false), Chunks(d[max..], max, false);
      FeedAllConcat(r, [f], rest);
      FeedOne(r, f);
      assert [] + d[..max] == d[..max];
      var r1 := Feed(r, f);
      FeedRest(r1, d[max..], max);
      assert r1.overflow ==> |d| > MAX_DATAGRAM_SIZE;
      assert !r1.overflow ==> r1.partial + d[max..] == d;
    }
  }

  lemma {:induction false} FeedOne(r: Reasm, f: Frag)
    ensures FeedAll(r, [f]) == Feed(r, f)
  {
    assert [f][..0] == [];
    assert FeedAll(r, [f][..0]) == r;
  }

  /**
   Reassembling the fragments of any datagrams, each cut with its own chunk size,
   returns exactly those of 1 to 1472 bytes, in order, and leaves nothing behind.
   */
  lemma {:induction false} RoundTrip(cs: seq<Cut>)
    ensures FeedAll(EMPTY, CutFrags(cs)) == Reasm([], false, Deliverables(Datagrams(cs)))
  {
    if cs != [] {
      var init, c := cs[..|cs| - 1], cs[|cs| - 1];
      RoundTrip(init);
      FeedAllConcat(EMPTY, CutFrags(init), Fragment(c.datagram, c.chunk));
      FeedDatagram(FeedAll(EMPTY, CutFrags(init)), c.datagram, c.chunk - OVERHEAD);
      var ds := Datagrams(cs);
      assert ds[..|ds| - 1] == Datagrams(init) && ds[|ds| - 1] == c.datagram;
      assert Deliverables(ds) == Deliverables(Datagrams(init)) + if Deliverable(c.datagram) then [c.datagram] else [];
    }
  }

  /** A receiver that has seen only some of the fragments has delivered only whole datagrams. */
  lemma {:induction false} PrefixRoundTrip(cs: seq<Cut>, k: nat)
    requires k <= |CutFrags(cs)|
    ensures FeedAll(EMPTY, CutFrags(cs)[..k]).out <= Deliverables(Datagrams(cs))
  {
    var fs := CutFrags(cs);
    assert fs == fs[..k] + fs[k..];
    FeedAllConcat(EMPTY, fs[..k], fs[k..]);
    FeedAllGrows(FeedAll(EMPTY, fs[..k]), fs[k..]);
    RoundTrip(cs);
  }

  /** Appending datagrams only ever appends to what must be delivered. */
  lemma {:induction false} DeliverablesConcat(a: seq<Bytes>, b: seq<Bytes>)
    ensures Deliverables(a + b) == Deliverables(a) + Deliverables(b)
    decreases |b|
  {
    if b == [] {
      assert a + b == a;
    } else {
      assert (a + b)[..|a + b| - 1] == a + b[..|b| - 1];
      DeliverablesConcat(a, b[..|b| - 1]);
    }
  }

  /** Every fragment, once encoded, fits the chunk size it was cut for. */
  lemma {:induction false} FragmentsFit(d: Bytes, max: nat, first: bool, k: nat, s: SeqNum, ack: Option<SeqNum>)
    requires max > 0 && k < |Chunks(d, max, first)|
    ensures |DataMsg(s, Chunks(d, max, first)[k], ack)| <= max + OVERHEAD
    decreases |d|
  {
    if |d| > max && k > 0 {
      FragmentsFit(d[max..], max, false, k - 1, s, ack);
    }
  }

  /** The fragments carry the datagram's bytes in order: nothing lost, nothing added. */
  lemma {:induction false} ChunksCarryAll(d: Bytes, max: nat, first: bool)
    requires max > 0
    ensures Payload(Chunks(d, max, first)) == d
    decreases |d|
  {
    if |d| > max {
      ChunksCarryAll(d[max..], max, false);
      assert Chunks(d, max, first)[1..] == Chunks(d[max..], max, false);
      assert d[..max] + d[max..] == d;
    } else {
      assert Chunks(d, max, first)[1..] == [];
      assert d + [] == d;
    }
  }

  /** The receiver recognises every fragment as data. */
  lemma {:induction false} CutFragsAreData(cs: seq<Cut>, k: nat)
    requires k < |CutFrags(cs)|
    ensures var f := CutFrags(cs)[k]; f.first || f.last || f.payload != []
  {
    var init, c := cs[..|cs| - 1], cs[|cs| - 1];
    if k < |CutFrags(init)| {
      CutFragsAreData(init, k);
    } else {
      ChunksAreData(c.datagram, c.chunk - OVERHEAD, true, k - |CutFrags(init)|);
    }
  }

  lemma {:induction false} ChunksAreData(d: Bytes, max: nat, first: bool, k: nat)
    requires max > 0 && k < |Chunks(d, max, first)|
    ensures var f := Chunks(d, max, first)[k]; f.first || f.last || f.payload != []
    decreases |d|
  {
    if |d| > max && k > 0 {
      ChunksAreData(d[max..], max, false, k - 1);
    }
  }

  function Payload(fs: seq<Frag>): Bytes {
    if fs == [] then [] else fs[0].payload + Payload(fs[1..])
  }
}
