/**
 The connection registry as a value: live connections in buckets by endpoint and pipe,
 and a short memory of closed pipes. The memory is characterised by the full history
 of closes. Times are in milliseconds.
 */
module ConnsSpec {
  import opened Wire
  import opened Identity

  const CLOSED_PIPE_TTL := 30000
  const MAX_CLOSED_PIPES := 128

  /** An iroh connection the registry holds a weak handle to. */
  type Conn = nat

  datatype Cause = Cause(code: nat, reason: string)

  const EVICTED := Cause(1, "ble_evicted")
  const PIPE_CLOSED := Cause(1, "ble_pipe_closed")

  datatype Closed = Closed(cause: Cause, at: int, seqNo: nat)

  datatype Key = Key(endpoint: EndpointId, pipe: ConnId)

  datatype Conns = Conns(
    buckets: map<Key, map<nat, Conn>>,
    closed: map<ConnId, Closed>,
    nextSeq: nat,
    nextWatch: nat)

  const NO_CONNS := Conns(map[], map[], 0, 0)

  // ---------- operations ----------

  function Young(closed: map<ConnId, Closed>, now: int): map<ConnId, Closed> {
    map p | p in closed && now - closed[p].at <= CLOSED_PIPE_TTL :: closed[p]
  }

  function Above(closed: map<ConnId, Closed>, seqNo: nat): set<ConnId> {
    set p | p in closed && closed[p].seqNo > seqNo
  }

  /** The unexpired closes that have fewer than the limit above them. */
  function Prune(closed: map<ConnId, Closed>, now: int): map<ConnId, Closed> {
    var young := Young(closed, now);
    map p | p in young && |Above(young, young[p].seqNo)| < MAX_CLOSED_PIPES :: young[p]
  }

  function BucketOf(c: Conns, key: Key): map<nat, Conn> {
    if key in c.buckets then c.buckets[key] else map[]
  }

  /** The new registry, the watch id, and the cause to close the connection with if it came too late. */
  function Insert(c: Conns, key: Key, conn: Conn, now: int): (Conns, nat, Option<Cause>) {
    var id := c.nextWatch + 1;
    var d := c.(nextWatch := id, closed := Prune(c.closed, now));
    if key.pipe in d.closed then (d, id, Some(d.closed[key.pipe].cause))
    else (d.(buckets := d.buckets[key := BucketOf(d, key)[id := conn]]), id, None)
  }

  function RemoveAndIsEmpty(c: Conns, key: Key, watch: nat): (Conns, bool) {
    if key !in c.buckets then (c, true)
    else
      var rest := c.buckets[key] - {watch};
      if rest == map[] then (c.(buckets := c.buckets - {key}), true)
      else (c.(buckets := c.buckets[key := rest]), false)
  }

  /** Connections registered on a pipe, under any endpoint. */
  function Riding(c: Conns, pipe: ConnId): set<Conn> {
    set key, w | key in c.buckets && key.pipe == pipe && w in c.buckets[key] :: c.buckets[key][w]
  }

  /** The new registry and the connections asked to close. */
  function ClosePipe(c: Conns, pipe: ConnId, cause: Cause, now: int): (Conns, set<Conn>) {
    (c.(nextSeq := c.nextSeq + 1,
        closed := Prune(c.closed[pipe := Closed(cause, now, c.nextSeq)], now)),
     Riding(c, pipe))
  }

  // ---------- the closed memory against the history of closes ----------

  datatype Close = Close(pipe: ConnId, cause: Cause, at: int)

  ghost predicate InTime(h: seq<Close>, now: int) {
    && (forall i, j :: 0 <= i < j < |h| ==> h[i].at <= h[j].at)
    && (forall i :: 0 <= i < |h| ==> h[i].at <= now)
  }

  /** The distinct pipes closed after close `k`. */
  function NewerPipes(h: seq<Close>, k: nat): set<ConnId> {
    set j | k < j < |h| :: h[j].pipe
  }

  /** Close `k` is the last one of its pipe, unexpired, and fewer than 128 other pipes were closed since. */
  ghost predicate Remembered(h: seq<Close>, now: int, k: nat) {
    k < |h| && h[k].pipe !in NewerPipes(h, k) && now - h[k].at <= CLOSED_PIPE_TTL && |NewerPipes(h, k)| < MAX_CLOSED_PIPES
  }

  ghost predicate Records(closed: map<ConnId, Closed>, h: seq<Close>) {
    forall p :: p in closed ==>
      var k := closed[p].seqNo;
      k < |h| && h[k] == Close(p, closed[p].cause, closed[p].at) && p !in NewerPipes(h, k)
  }

  /** The memory holds exactly the remembered closes. */
  ghost predicate Exact(closed: map<ConnId, Closed>, h: seq<Close>, now: int) {
    && Records(closed, h)
    && (forall p :: p in closed ==> Remembered(h, now, closed[p].seqNo))
    && (forall k :: 0 <= k < |h| && Remembered(h, now, k) ==> h[k].pipe in closed)
  }

  lemma SubsetSize<T>(a: set<T>, b: set<T>)
    requires a <= b
    ensures |a| <= |b|
  {
    assert b == a + (b - a);
  }

  /** Going back one close adds at most that pipe. */
  lemma NewerStep(h: seq<Close>, k: nat)
    requires k + 1 < |h|
    ensures NewerPipes(h, k) == NewerPipes(h, k + 1) + {h[k + 1].pipe}
  {
  }

  lemma NewerShrinks(h: seq<Close>, i: nat, k: nat)
    requires i <= k < |h|
    ensures NewerPipes(h, k) <= NewerPipes(h, i) && |NewerPipes(h, k)| <= |NewerPipes(h, i)|
  {
    SubsetSize(NewerPipes(h, k), NewerPipes(h, i));
  }

  /** Pipes whose last close comes after `k` and has fewer than the limit above it. */
  ghost function Recent(h: seq<Close>, k: nat): set<ConnId> {
    set j | k < j < |h| && h[j].pipe !in NewerPipes(h, j) && |NewerPipes(h, j)| < MAX_CLOSED_PIPES :: h[j].pipe
  }

  lemma {:induction false} LastOf(h: seq<Close>, k: nat, p: ConnId) returns (j: nat)
    requires k < |h| && p in NewerPipes(h, k)
    ensures k < j < |h| && h[j].pipe == p && p !in NewerPipes(h, j)
    decreases |h| - k
  {
    j :| k < j < |h| && h[j].pipe == p;
    if p in NewerPipes(h, j) {
      j := LastOf(h, j, p);
    }
  }

  /** If the limit is reached above `k`, it is reached by remembered-rank pipes alone. */
  lemma {:induction false} ManyRecent(h: seq<Close>, k: nat)
    requires k < |h| && |NewerPipes(h, k)| >= MAX_CLOSED_PIPES
    ensures |Recent(h, k)| >= MAX_CLOSED_PIPES
    decreases |h| - k
  {
    assert k + 1 == |h| ==> NewerPipes(h, k) == {};
    if k + 1 < |h| {
      NewerStep(h, k);
      if |NewerPipes(h, k + 1)| >= MAX_CLOSED_PIPES {
        ManyRecent(h, k + 1);
        SubsetSize(Recent(h, k + 1), Recent(h, k));
      } else {
        forall p | p in NewerPipes(h, k)
          ensures p in Recent(h, k)
        {
          var j := LastOf(h, k, p);
          NewerShrinks(h, k + 1, j);
        }
        SubsetSize(NewerPipes(h, k), Recent(h, k));
      }
    }
  }

  /** Everything remembered is recorded, though perhaps more. */
  ghost predicate Covers(closed: map<ConnId, Closed>, h: seq<Close>, now: int) {
    Records(closed, h) && forall k :: 0 <= k < |h| && Remembered(h, now, k) ==> h[k].pipe in closed
  }

  lemma AboveIsNewer(closed: map<ConnId, Closed>, h: seq<Close>, k: nat)
    requires Records(closed, h)
    ensures Above(closed, k) <= NewerPipes(h, k)
  {
  }

  lemma RecentIsAbove(closed: map<ConnId, Closed>, h: seq<Close>, now: int, k: nat)
    requires Covers(closed, h, now) && InTime(h, now) && k < |h| && now - h[k].at <= CLOSED_PIPE_TTL
    ensures Recent(h, k) <= Above(Young(closed, now), k)
  {
    forall p | p in Recent(h, k)
      ensures p in Above(Young(closed, now), k)
    {
      var j :| k < j < |h| && h[j].pipe !in NewerPipes(h, j) && |NewerPipes(h, j)| < MAX_CLOSED_PIPES && h[j].pipe == p;
      assert Remembered(h, now, j);
      SameLast(h, j, closed[p].seqNo);
    }
  }

  /** A pipe has one last close. */
  lemma SameLast(h: seq<Close>, i: nat, j: nat)
    requires i < |h| && j < |h| && h[i].pipe == h[j].pipe
    requires h[i].pipe !in NewerPipes(h, i) && h[j].pipe !in NewerPipes(h, j)
    ensures i == j
  {
  }

  /** Pruning a covering memory makes it exact. */
  lemma PruneMakesExact(closed: map<ConnId, Closed>, h: seq<Close>, now: int)
    requires Covers(closed, h, now) && InTime(h, now)
    ensures Exact(Prune(closed, now), h, now)
  {
    var young := Young(closed, now);
    forall p | p in young
      ensures |Above(young, young[p].seqNo)| < MAX_CLOSED_PIPES <==> |NewerPipes(h, young[p].seqNo)| < MAX_CLOSED_PIPES
    {
      var k := young[p].seqNo;
      AboveIsNewer(young, h, k);
      SubsetSize(Above(young, k), NewerPipes(h, k));
      if |NewerPipes(h, k)| >= MAX_CLOSED_PIPES {
        ManyRecent(h, k);
        RecentIsAbove(closed, h, now, k);
        SubsetSize(Recent(h, k), Above(young, k));
      }
    }
    forall k | 0 <= k < |h| && Remembered(h, now, k)
      ensures h[k].pipe in Prune(closed, now)
    {
      var p := h[k].pipe;
      SameLast(h, k, closed[p].seqNo);
      assert p in young;
    }
  }

  lemma NewerSnoc(h: seq<Close>, c: Close, k: nat)
    requires k < |h|
    ensures NewerPipes(h + [c], k) == NewerPipes(h, k) + {c.pipe}
  {
    assert (h + [c])[|h|] == c;
    assert forall j :: 0 <= j < |h| ==> (h + [c])[j] == h[j];
  }

  /** Recording a close keeps the memory exact for the longer history. */
  lemma CloseExact(closed: map<ConnId, Closed>, h: seq<Close>, before: int, c: Close)
    requires Exact(closed, h, before) && InTime(h, before) && before <= c.at
    ensures Exact(Prune(closed[c.pipe := Closed(c.cause, c.at, |h|)], c.at), h + [c], c.at)
    ensures c.pipe in Prune(closed[c.pipe := Closed(c.cause, c.at, |h|)], c.at)
  {
    var g, more := h + [c], closed[c.pipe := Closed(c.cause, c.at, |h|)];
    assert NewerPipes(g, |h|) == {};
    forall p | p in more
      ensures var k := more[p].seqNo; k < |g| && g[k] == Close(p, more[p].cause, more[p].at) && p !in NewerPipes(g, k)
    {
      if p != c.pipe {
        NewerSnoc(h, c, closed[p].seqNo);
      }
    }
    forall k | 0 <= k < |g| && Remembered(g, c.at, k)
      ensures g[k].pipe in more
    {
      if k < |h| {
        NewerSnoc(h, c, k);
        SubsetSize(NewerPipes(h, k), NewerPipes(g, k));
        assert Remembered(h, before, k);
      }
    }
    PruneMakesExact(more, g, c.at);
    assert Remembered(g, c.at, |h|);
  }

  /** Time alone. */
  lemma LaterExact(closed: map<ConnId, Closed>, h: seq<Close>, before: int, now: int)
    requires Exact(closed, h, before) && InTime(h, before) && before <= now
    ensures Exact(Prune(closed, now), h, now)
  {
    forall k | 0 <= k < |h| && Remembered(h, now, k)
      ensures h[k].pipe in closed
    {
      assert Remembered(h, before, k);
    }
    PruneMakesExact(closed, h, now);
  }
}
