/**
 The connection registry against pipe teardown. A handshake promotes its pipe, closes
 the connections of the pipes it displaced one by one, and only then registers its own
 connection. A dying pipe leaves the routing pools, has its connections closed, and
 only then disappears. Every interleaving of these steps is a run.

 A close request is recorded at the moment its connections are collected. History
 variables: `history` lists every pipe close, `pruned` is when the closed memory was
 last pruned, `requests` what each connection was asked to close with, `ended` the
 connections that are closed.
 */
module ConnRace {
  import opened Wire
  import opened Identity
  import opened Dedup
  import opened Peers
  import opened ConnsSpec
  import RoutingSpec
  import RoutingRun

  /** How far `after_handshake` has come with a connection it accepted. */
  datatype Hand =
    | Promoted(key: Key, losers: seq<ConnId>)
    | Inserted(key: Key, watch: nat, at: nat, when: int, late: Option<Cause>)

  datatype Race = Race(
    routing: RoutingRun.Sys,
    shut: set<ConnId>,
    conns: Conns,
    now: int,
    pruned: int,
    history: seq<Close>,
    hands: map<Conn, Hand>,
    ended: set<Conn>,
    requests: map<Conn, seq<Cause>>)

  datatype Event =
    | Wait(until: int)
    | Route(event: RoutingRun.Event)
    | Handshake(conn: Conn, key: Key, losers: seq<ConnId>)
    | CloseLoser(conn: Conn)
    | Register(conn: Conn)
    | Leave(pipe: ConnId)
    | Shut(pipe: ConnId)
    | Gone(pipe: ConnId, overflow: set<ConnId>)
    | End(conn: Conn)
    | Watch(conn: Conn)

  function Start(me: EndpointId): Race {
    Race(RoutingRun.Start(me), {}, NO_CONNS, 0, 0, [], map[], {}, map[])
  }

  function RequestsOf(r: Race, c: Conn): seq<Cause> {
    if c in r.requests then r.requests[c] else []
  }

  function Ask(r: Race, asked: set<Conn>, cause: Cause): map<Conn, seq<Cause>> {
    map c | c in r.requests.Keys + asked :: if c in asked then RequestsOf(r, c) + [cause] else RequestsOf(r, c)
  }

  function Close1(r: Race, pipe: ConnId, cause: Cause): Race {
    var (conns, asked) := ClosePipe(r.conns, pipe, cause, r.now);
    r.(conns := conns, pruned := r.now, history := r.history + [Close(pipe, cause, r.now)], requests := Ask(r, asked, cause))
  }

  function Insert1(r: Race, c: Conn, key: Key): Race {
    var (conns, watch, late) := Insert(r.conns, key, c, r.now);
    r.(conns := conns, pruned := r.now,
       hands := r.hands[c := Inserted(key, watch, |r.history|, r.now, late)],
       requests := if late.Some? then Ask(r, {c}, late.value) else r.requests)
  }

  predicate Accepted(r: Race, c: Conn, key: Key, losers: seq<ConnId>) {
    && c !in r.hands
    && RoutingRun.MayHandshake(r.routing, key.pipe, key.endpoint)
    && RoutingSpec.Promotes(r.routing.t, key.pipe, r.routing.me, key.endpoint)
    && (set p | p in losers) == RoutingSpec.Rivals(r.routing.t, key.pipe, key.endpoint)
  }

  function Next(r: Race, ev: Event): Race {
    match ev
    case Wait(until) => if r.now <= until then r.(now := until) else r
    case Route(e) =>
      if e.Handshake? || e.Leave? || e.Gone? then r else r.(routing := RoutingRun.Next(r.routing, e))
    case Handshake(c, key, losers) =>
      if Accepted(r, c, key, losers)
      then r.(routing := RoutingRun.Next(r.routing, RoutingRun.Handshake(key.pipe, key.endpoint)),
              hands := r.hands[c := Promoted(key, losers)])
      else r
    case CloseLoser(c) =>
      if c in r.hands && r.hands[c].Promoted? && r.hands[c].losers != []
      then Close1(r, r.hands[c].losers[0], EVICTED).(hands := r.hands[c := r.hands[c].(losers := r.hands[c].losers[1..])])
      else r
    case Register(c) =>
      if c in r.hands && r.hands[c].Promoted? && r.hands[c].losers == [] then Insert1(r, c, r.hands[c].key) else r
    case Leave(p) => r.(routing := RoutingRun.Next(r.routing, RoutingRun.Leave(p)))
    case Shut(p) =>
      if p in r.routing.leaving && p !in r.shut then Close1(r, p, PIPE_CLOSED).(shut := r.shut + {p}) else r
    case Gone(p, overflow) =>
      if p in r.shut then r.(routing := RoutingRun.Next(r.routing, RoutingRun.Gone(p, r.now, overflow))) else r
    case End(c) => r.(ended := r.ended + {c})
    case Watch(c) =>
      if c in r.hands && r.hands[c].Inserted? && c in r.ended
      then r.(conns := RemoveAndIsEmpty(r.conns, r.hands[c].key, r.hands[c].watch).0)
      else r
  }

  function Run(r: Race, events: seq<Event>): Race {
    if events == [] then r else Next(Run(r, events[..|events| - 1]), events[|events| - 1])
  }

  // ---------- the invariant ----------

  ghost predicate MemoryOk(r: Race) {
    && r.conns.nextSeq == |r.history| && r.pruned <= r.now
    && InTime(r.history, r.pruned) && Exact(r.conns.closed, r.history, r.pruned)
  }

  ghost predicate InBucket(c: Conns, key: Key, w: nat, conn: Conn) {
    key in c.buckets && w in c.buckets[key] && c.buckets[key][w] == conn
  }

  /** Whatever is in a bucket was registered there, in time. */
  ghost predicate HeldOk(conns: Conns, hands: map<Conn, Hand>) {
    forall key, w :: key in conns.buckets && w in conns.buckets[key] ==>
      && w <= conns.nextWatch
      && conns.buckets[key][w] in hands
      && var i := hands[conns.buckets[key][w]]; i.Inserted? && i.key == key && i.watch == w && i.late.None?
  }

  ghost predicate WatchesOk(conns: Conns, hands: map<Conn, Hand>) {
    && (forall c :: c in hands && hands[c].Inserted? ==> hands[c].watch <= conns.nextWatch)
    && (forall c, d :: c in hands && d in hands && hands[c].Inserted? && hands[d].Inserted? && c != d ==>
          hands[c].watch != hands[d].watch)
  }

  /** Buckets hold exactly the connections registered in time and not yet removed by their watcher. */
  ghost predicate BucketsOk(conns: Conns, hands: map<Conn, Hand>, ended: set<Conn>) {
    && HeldOk(conns, hands) && WatchesOk(conns, hands)
    && (forall c :: c in hands && hands[c].Inserted? && hands[c].late.None? && c !in ended ==>
          InBucket(conns, hands[c].key, hands[c].watch, c))
  }

  /** A connection found its pipe closed exactly when the memory still had it. */
  ghost predicate LateOk(history: seq<Close>, i: Hand)
    requires i.Inserted?
  {
    && i.at <= |history|
    && (i.late.Some? ==> exists k :: 0 <= k < i.at && Remembered(history[..i.at], i.when, k)
                                     && history[k].pipe == i.key.pipe && history[k].cause == i.late.value)
    && (i.late.None? ==> forall k :: 0 <= k < i.at && Remembered(history[..i.at], i.when, k) ==> history[k].pipe != i.key.pipe)
  }

  ghost predicate ClosedSince(history: seq<Close>, pipe: ConnId, at: nat) {
    exists k :: at <= k < |history| && history[k].pipe == pipe
  }

  /** What a registered connection has been asked. */
  ghost predicate AskedOk(history: seq<Close>, i: Hand, ended: bool, requests: seq<Cause>)
    requires i.Inserted?
  {
    && (i.late.Some? ==> i.late.value in requests)
    && (i.late.None? && !ended ==> forall k :: i.at <= k < |history| && history[k].pipe == i.key.pipe ==> history[k].cause in requests)
    && (requests != [] ==> i.late.Some? || ClosedSince(history, i.key.pipe, i.at))
  }

  ghost predicate ConnOk(r: Race, c: Conn) {
    if c in r.hands && r.hands[c].Inserted?
    then LateOk(r.history, r.hands[c]) && AskedOk(r.history, r.hands[c], c in r.ended, RequestsOf(r, c))
    else RequestsOf(r, c) == []
  }

  ghost predicate Inv(r: Race) {
    MemoryOk(r) && BucketsOk(r.conns, r.hands, r.ended) && forall c :: ConnOk(r, c)
  }

  // ---------- closing a pipe ----------

  lemma LateSnoc(history: seq<Close>, x: Close, i: Hand)
    requires i.Inserted? && LateOk(history, i)
    ensures LateOk(history + [x], i)
  {
    assert (history + [x])[..i.at] == history[..i.at];
    assert forall k :: 0 <= k < i.at ==> (history + [x])[k] == history[k];
  }

  lemma AskedSnoc(history: seq<Close>, x: Close, i: Hand, ended: bool, before: seq<Cause>, after: seq<Cause>)
    requires i.Inserted? && i.at <= |history| && AskedOk(history, i, ended, before)
    requires after == before || (after == before + [x.cause] && x.pipe == i.key.pipe)
    requires i.late.None? && !ended && x.pipe == i.key.pipe ==> after == before + [x.cause]
    ensures AskedOk(history + [x], i, ended, after)
  {
    assert forall k :: 0 <= k < |history| ==> (history + [x])[k] == history[k];
    assert (history + [x])[|history|] == x;
    if before != [] && i.late.None? {
      var k :| i.at <= k < |history| && history[k].pipe == i.key.pipe;
      assert (history + [x])[k].pipe == i.key.pipe;
    }
  }

  /** Exactly the connections registered on the pipe are asked. */
  lemma RidingIs(r: Race, pipe: ConnId, c: Conn)
    requires BucketsOk(r.conns, r.hands, r.ended)
    ensures c in Riding(r.conns, pipe) ==> c in r.hands && r.hands[c].Inserted? && r.hands[c].late.None? && r.hands[c].key.pipe == pipe
    ensures c in r.hands && r.hands[c].Inserted? && r.hands[c].late.None? && c !in r.ended && r.hands[c].key.pipe == pipe ==>
              c in Riding(r.conns, pipe)
  {
    if c in r.hands && r.hands[c].Inserted? && r.hands[c].late.None? && c !in r.ended && r.hands[c].key.pipe == pipe {
      assert InBucket(r.conns, r.hands[c].key, r.hands[c].watch, c);
    }
  }

  lemma Close1Ok(r: Race, pipe: ConnId, cause: Cause)
    requires Inv(r)
    ensures Inv(Close1(r, pipe, cause))
  {
    var x := Close(pipe, cause, r.now);
    CloseExact(r.conns.closed, r.history, r.pruned, x);
    var s := Close1(r, pipe, cause);
    forall c
      ensures ConnOk(s, c)
    {
      assert ConnOk(r, c);
      RidingIs(r, pipe, c);
      if c in r.hands && r.hands[c].Inserted? {
        LateSnoc(r.history, x, r.hands[c]);
        AskedSnoc(r.history, x, r.hands[c], c in r.ended, RequestsOf(r, c), RequestsOf(s, c));
      }
    }
  }

  // ---------- registering a connection ----------

  lemma InsertHeld(r: Race, c: Conn, key: Key)
    requires HeldOk(r.conns, r.hands) && WatchesOk(r.conns, r.hands) && c in r.hands && r.hands[c].Promoted?
    ensures var s := Insert1(r, c, key); HeldOk(s.conns, s.hands) && WatchesOk(s.conns, s.hands)
  {
    var s, id := Insert1(r, c, key), r.conns.nextWatch + 1;
    forall k, w | k in s.conns.buckets && w in s.conns.buckets[k] && (k != key || w != id)
      ensures k in r.conns.buckets && w in r.conns.buckets[k] && s.conns.buckets[k][w] == r.conns.buckets[k][w] != c
    {
    }
  }

  lemma InsertBuckets(r: Race, c: Conn, key: Key)
    requires BucketsOk(r.conns, r.hands, r.ended) && c in r.hands && r.hands[c].Promoted?
    ensures var s := Insert1(r, c, key); BucketsOk(s.conns, s.hands, s.ended)
  {
    InsertHeld(r, c, key);
    var s := Insert1(r, c, key);
    forall d | d in s.hands && s.hands[d].Inserted? && s.hands[d].late.None? && d !in s.ended
      ensures InBucket(s.conns, s.hands[d].key, s.hands[d].watch, d)
    {
      if d != c {
        assert InBucket(r.conns, r.hands[d].key, r.hands[d].watch, d);
      }
    }
  }

  lemma InsertLate(r: Race, c: Conn, key: Key)
    requires MemoryOk(r)
    ensures var i := Insert1(r, c, key).hands[c]; LateOk(r.history, i) && AskedOk(r.history, i, c in r.ended, if i.late.Some? then [i.late.value] else [])
    ensures MemoryOk(Insert1(r, c, key))
  {
    LaterExact(r.conns.closed, r.history, r.pruned, r.now);
    var closed := Prune(r.conns.closed, r.now);
    assert r.history[..|r.history|] == r.history;
    if key.pipe in closed {
      var k := closed[key.pipe].seqNo;
      assert Remembered(r.history, r.now, k) && r.history[k] == Close(key.pipe, closed[key.pipe].cause, closed[key.pipe].at);
    }
  }

  /** Registering one connection leaves what is known of the others. */
  lemma InsertOthers(r: Race, c: Conn, key: Key, d: Conn)
    requires ConnOk(r, d) && d != c
    ensures ConnOk(Insert1(r, c, key), d)
  {
    var s := Insert1(r, c, key);
    assert RequestsOf(s, d) == RequestsOf(r, d);
  }

  lemma InsertOwn(r: Race, c: Conn, key: Key)
    requires MemoryOk(r) && RequestsOf(r, c) == []
    ensures ConnOk(Insert1(r, c, key), c)
  {
    InsertLate(r, c, key);
    var s := Insert1(r, c, key);
    assert RequestsOf(s, c) == if s.hands[c].late.Some? then [s.hands[c].late.value] else [];
  }

  lemma Insert1Ok(r: Race, c: Conn, key: Key)
    requires Inv(r) && c in r.hands && r.hands[c].Promoted?
    ensures Inv(Insert1(r, c, key))
  {
    InsertBuckets(r, c, key);
    InsertLate(r, c, key);
    assert ConnOk(r, c);
    InsertOwn(r, c, key);
    forall d
      ensures ConnOk(Insert1(r, c, key), d)
    {
      if d != c {
        assert ConnOk(r, d);
        InsertOthers(r, c, key, d);
      }
    }
  }

  // ---------- the other steps ----------

  lemma WatchOk(r: Race, c: Conn)
    requires Inv(r) && c in r.hands && r.hands[c].Inserted? && c in r.ended
    ensures Inv(r.(conns := RemoveAndIsEmpty(r.conns, r.hands[c].key, r.hands[c].watch).0))
  {
    var s := r.(conns := RemoveAndIsEmpty(r.conns, r.hands[c].key, r.hands[c].watch).0);
    forall d | d in s.hands && s.hands[d].Inserted? && s.hands[d].late.None? && d !in s.ended
      ensures InBucket(s.conns, s.hands[d].key, s.hands[d].watch, d)
    {
      assert InBucket(r.conns, r.hands[d].key, r.hands[d].watch, d);
      assert r.hands[d].watch != r.hands[c].watch;
      if s.hands[d].key == r.hands[c].key {
        assert r.hands[d].watch in r.conns.buckets[r.hands[c].key] - {r.hands[c].watch};
      }
    }
    forall d
      ensures ConnOk(s, d)
    {
      assert ConnOk(r, d);
    }
  }

  /** A step that changes no connection that is registered. */
  ghost predicate Sideways(r: Race, s: Race) {
    && s.conns == r.conns && s.history == r.history && s.pruned == r.pruned && r.now <= s.now && s.requests == r.requests
    && r.ended <= s.ended
    && (forall c :: c in r.hands && r.hands[c].Inserted? ==> c in s.hands && s.hands[c] == r.hands[c])
    && (forall c :: c in s.hands && s.hands[c].Inserted? ==> c in r.hands && r.hands[c].Inserted?)
  }

  lemma SidewaysOk(r: Race, s: Race)
    requires Inv(r) && Sideways(r, s)
    ensures Inv(s)
  {
    forall c
      ensures ConnOk(s, c)
    {
      assert ConnOk(r, c);
    }
  }

  lemma InvCloses(r: Race, ev: Event)
    requires Inv(r) && (ev.CloseLoser? || ev.Shut?)
    ensures Inv(Next(r, ev))
  {
    if ev.CloseLoser? {
      var c := ev.conn;
      if c in r.hands && r.hands[c].Promoted? && r.hands[c].losers != [] {
        Close1Ok(r, r.hands[c].losers[0], EVICTED);
        SidewaysOk(Close1(r, r.hands[c].losers[0], EVICTED), Next(r, ev));
      }
    } else if ev.pipe in r.routing.leaving && ev.pipe !in r.shut {
      Close1Ok(r, ev.pipe, PIPE_CLOSED);
      SidewaysOk(Close1(r, ev.pipe, PIPE_CLOSED), Next(r, ev));
    }
  }

  lemma InvNext(r: Race, ev: Event)
    requires Inv(r)
    ensures Inv(Next(r, ev))
  {
    match ev
    case CloseLoser(_) => InvCloses(r, ev);
    case Shut(_) => InvCloses(r, ev);
    case Register(c) =>
      if c in r.hands && r.hands[c].Promoted? && r.hands[c].losers == [] {
        Insert1Ok(r, c, r.hands[c].key);
      }
    case Watch(c) =>
      if c in r.hands && r.hands[c].Inserted? && c in r.ended {
        WatchOk(r, c);
      }
    case _ => SidewaysOk(r, Next(r, ev));
  }

  lemma {:induction false} InvRun(me: EndpointId, events: seq<Event>)
    ensures Inv(Run(Start(me), events))
  {
    if events != [] {
      InvRun(me, events[..|events| - 1]);
      InvNext(Run(Start(me), events[..|events| - 1]), events[|events| - 1]);
    }
  }

  // ---------- theorems ----------

  /** In every run the closed memory is exactly the unexpired closes among the 128 newest pipes. */
  lemma MemoryExact(me: EndpointId, events: seq<Event>)
    ensures var r := Run(Start(me), events); Exact(r.conns.closed, r.history, r.pruned) && r.pruned <= r.now
  {
    InvRun(me, events);
  }

  /**
   No stranded connection, and exactly when there is one. A registered connection that
   is still open has been asked to close if and only if its pipe was closed after it
   registered, or the memory still had a close of its pipe when it registered.
   */
  lemma StrandedExactly(me: EndpointId, events: seq<Event>, c: Conn)
    requires var r := Run(Start(me), events); c in r.hands && r.hands[c].Inserted? && c !in r.ended
    ensures var r := Run(Start(me), events);
            var i := r.hands[c];
            RequestsOf(r, c) != [] <==>
              || ClosedSince(r.history, i.key.pipe, i.at)
              || (exists k :: 0 <= k < i.at <= |r.history| && Remembered(r.history[..i.at], i.when, k) && r.history[k].pipe == i.key.pipe)
  {
    InvRun(me, events);
    var r := Run(Start(me), events);
    assert ConnOk(r, c);
  }

  /** A connection that registers within 30 s of its pipe's close, fewer than 128 other pipes later, is closed with the recorded cause. */
  lemma LateIsServed(me: EndpointId, events: seq<Event>, c: Conn, k: nat)
    requires var r := Run(Start(me), events); c in r.hands && r.hands[c].Inserted?
    requires var r := Run(Start(me), events);
             var i := r.hands[c];
             k < i.at <= |r.history| && Remembered(r.history[..i.at], i.when, k) && r.history[k].pipe == i.key.pipe
    ensures var r := Run(Start(me), events); r.history[k].cause in RequestsOf(r, c)
  {
    InvRun(me, events);
    var r := Run(Start(me), events);
    var i := r.hands[c];
    assert ConnOk(r, c);
    var h := r.history[..i.at];
    var j :| 0 <= j < i.at && Remembered(h, i.when, j) && r.history[j].pipe == i.key.pipe && r.history[j].cause == i.late.value;
    SameLast(h, j, k);
  }

  /** A connection registered in time is asked with the cause of every later close of its pipe, while it is open. */
  lemma EarlyIsServed(me: EndpointId, events: seq<Event>, c: Conn, k: nat)
    requires var r := Run(Start(me), events); c in r.hands && r.hands[c].Inserted? && c !in r.ended
    requires var r := Run(Start(me), events);
             r.hands[c].at <= k < |r.history| && r.history[k].pipe == r.hands[c].key.pipe
    ensures var r := Run(Start(me), events);
            var i := r.hands[c];
            RequestsOf(r, c) != [] && (i.late.None? ==> r.history[k].cause in RequestsOf(r, c))
  {
    InvRun(me, events);
    var r := Run(Start(me), events);
    assert ConnOk(r, c);
  }

  /**
   When the watcher of a closed connection removes it, it is told that nothing is left
   exactly if no other connection is still registered under the same endpoint and pipe; then
   every connection that was registered there in time has closed.
   */
  lemma WatchDecides(me: EndpointId, events: seq<Event>, c: Conn)
    requires var r := Run(Start(me), events); c in r.hands && r.hands[c].Inserted? && c in r.ended
    ensures var r := Run(Start(me), events);
            var i := r.hands[c];
            var empty := RemoveAndIsEmpty(r.conns, i.key, i.watch).1;
            && (empty <==> forall d :: d in r.hands && r.hands[d].Inserted? && d != c ==> !InBucket(r.conns, i.key, r.hands[d].watch, d))
            && (empty ==> forall d :: d in r.hands && r.hands[d].Inserted? && r.hands[d].key == i.key && r.hands[d].late.None? ==> d in r.ended)
  {
    InvRun(me, events);
    var r := Run(Start(me), events);
    WatchLeaves(r.conns, r.hands, r.ended, c);
  }

  lemma WatchLeaves(conns: Conns, hands: map<Conn, Hand>, ended: set<Conn>, c: Conn)
    requires BucketsOk(conns, hands, ended) && c in hands && hands[c].Inserted? && c in ended
    ensures var i := hands[c];
            var empty := RemoveAndIsEmpty(conns, i.key, i.watch).1;
            && (empty <==> forall d :: d in hands && hands[d].Inserted? && d != c ==> !InBucket(conns, i.key, hands[d].watch, d))
            && (empty ==> forall d :: d in hands && hands[d].Inserted? && hands[d].key == i.key && hands[d].late.None? ==> d in ended)
  {
    var key, watch := hands[c].key, hands[c].watch;
    if key in conns.buckets {
      var rest := conns.buckets[key] - {watch};
      forall d | d in hands && hands[d].Inserted? && d != c && InBucket(conns, key, hands[d].watch, d)
        ensures hands[d].watch in rest
      {
      }
      if rest != map[] {
        var w :| w in rest;
        assert InBucket(conns, key, w, rest[w]);
        assert hands[rest[w]].watch == w;
      }
    }
    forall d | d in hands && hands[d].Inserted? && hands[d].key == key && hands[d].late.None? && d !in ended
      ensures d != c && InBucket(conns, key, hands[d].watch, d)
    {
    }
  }

  // ---------- routes left behind ----------

  ghost predicate Owned(r: Race, ep: EndpointId, pipe: ConnId) {
    exists c :: c in r.hands && r.hands[c].key == Key(ep, pipe)
  }

  /** Every routable entry belongs to an accepted connection, and every pipe that is gone was closed. */
  ghost predicate Traced(r: Race) {
    && (forall ep :: ep in r.routing.t.routable ==> Owned(r, ep, r.routing.t.routable[ep].pipe))
    && (forall p :: p in r.routing.bound ==> p in r.routing.t.pipes || p in r.shut)
    && (forall p :: p in r.shut ==> ClosedSince(r.history, p, 0))
  }

  /** A step that drops no hand, adds no route, loses no pipe and keeps the history. */
  ghost predicate KeepsTraces(r: Race, s: Race) {
    && (forall c :: c in r.hands ==> c in s.hands && s.hands[c].key == r.hands[c].key)
    && (forall ep :: ep in s.routing.t.routable ==> ep in r.routing.t.routable && s.routing.t.routable[ep].pipe == r.routing.t.routable[ep].pipe)
    && (forall p :: p in s.routing.bound ==> p in s.routing.t.pipes || p in s.shut || p in r.routing.bound)
    && (forall p :: p in r.routing.t.pipes ==> p in s.routing.t.pipes || p in s.shut)
    && r.shut <= s.shut && |r.history| <= |s.history|
    && (forall k :: 0 <= k < |r.history| ==> s.history[k] == r.history[k])
    && (forall p :: p in s.shut ==> p in r.shut || ClosedSince(s.history, p, 0))
  }

  lemma TracedKept(r: Race, s: Race)
    requires Traced(r) && KeepsTraces(r, s)
    ensures Traced(s)
  {
    forall ep | ep in s.routing.t.routable
      ensures Owned(s, ep, s.routing.t.routable[ep].pipe)
    {
      assert Owned(r, ep, r.routing.t.routable[ep].pipe);
    }
    forall p | p in s.shut
      ensures ClosedSince(s.history, p, 0)
    {
      if p in r.shut {
        assert ClosedSince(r.history, p, 0);
      }
    }
  }

  ghost predicate RoutesKept(s: RoutingRun.Sys, t: RoutingRun.Sys) {
    && (forall ep :: ep in t.t.routable ==> ep in s.t.routable && t.t.routable[ep] == s.t.routable[ep])
    && (forall p :: p in t.bound ==> p in t.t.pipes || p in s.bound)
    && s.t.pipes.Keys <= t.t.pipes.Keys
  }

  lemma RegisterKeeps(s: RoutingRun.Sys, now: int, overflow: set<ConnId>)
    ensures RoutesKept(s, RoutingRun.RegisterHeld(s, now, overflow))
  {
  }

  lemma RouteKeeps(s: RoutingRun.Sys, e: RoutingRun.Event)
    requires !e.Handshake? && !e.Leave? && !e.Gone?
    ensures RoutesKept(s, RoutingRun.Next(s, e))
  {
    if RoutingRun.Minor(e) {
      RoutingRun.MinorRemoves(s, e);
    } else if e.Register? {
      RegisterKeeps(s, e.now, e.overflow);
    }
  }

  lemma TracedHandshake(r: Race, c: Conn, key: Key, losers: seq<ConnId>)
    requires Traced(r) && Accepted(r, c, key, losers)
    ensures Traced(Next(r, Handshake(c, key, losers)))
  {
    var s := Next(r, Handshake(c, key, losers));
    forall ep | ep in s.routing.t.routable
      ensures Owned(s, ep, s.routing.t.routable[ep].pipe)
    {
      if ep == key.endpoint {
        assert s.hands[c].key == Key(ep, s.routing.t.routable[ep].pipe);
      } else {
        assert Owned(r, ep, r.routing.t.routable[ep].pipe);
        var d :| d in r.hands && r.hands[d].key == Key(ep, r.routing.t.routable[ep].pipe);
        assert s.hands[d] == r.hands[d];
      }
    }
  }

  lemma TracedClose(r: Race, p: ConnId)
    requires p in r.routing.leaving && p !in r.shut
    ensures KeepsTraces(r, Next(r, Shut(p)))
  {
    var s := Next(r, Shut(p));
    assert s.history[|r.history|].pipe == p;
  }

  lemma TracedRoute(r: Race, e: RoutingRun.Event)
    ensures KeepsTraces(r, Next(r, Route(e)))
  {
    if !e.Handshake? && !e.Leave? && !e.Gone? {
      RouteKeeps(r.routing, e);
    }
  }

  lemma TracedTeardown(r: Race, ev: Event)
    requires ev.Leave? || ev.Gone?
    ensures KeepsTraces(r, Next(r, ev))
  {
  }

  lemma TracedRegistry(r: Race, ev: Event)
    requires ev.CloseLoser? || ev.Register? || ev.Wait? || ev.End? || ev.Watch?
    ensures KeepsTraces(r, Next(r, ev))
  {
  }

  lemma TracedNext(r: Race, ev: Event)
    requires Traced(r)
    ensures Traced(Next(r, ev))
  {
    match ev
    case Handshake(c, key, losers) =>
      if Accepted(r, c, key, losers) {
        TracedHandshake(r, c, key, losers);
      }
    case Route(e) =>
      TracedRoute(r, e);
      TracedKept(r, Next(r, ev));
    case Shut(p) =>
      if p in r.routing.leaving && p !in r.shut {
        TracedClose(r, p);
        TracedKept(r, Next(r, ev));
      }
    case Leave(_) =>
      TracedTeardown(r, ev);
      TracedKept(r, Next(r, ev));
    case Gone(_, _) =>
      TracedTeardown(r, ev);
      TracedKept(r, Next(r, ev));
    case _ =>
      TracedRegistry(r, ev);
      TracedKept(r, Next(r, ev));
  }

  lemma {:induction false} TracedRun(me: EndpointId, events: seq<Event>)
    ensures Traced(Run(Start(me), events))
  {
    if events != [] {
      TracedRun(me, events[..|events| - 1]);
      TracedNext(Run(Start(me), events[..|events| - 1]), events[|events| - 1]);
    }
  }

  /** The routing table moves only by its own protocol. */
  lemma {:induction false} RoutingIsRun(me: EndpointId, events: seq<Event>) returns (trace: seq<RoutingRun.Event>)
    ensures Run(Start(me), events).routing == RoutingRun.Run(RoutingRun.Start(me), trace)
  {
    trace := [];
    if events != [] {
      var before := RoutingIsRun(me, events[..|events| - 1]);
      var r, ev := Run(Start(me), events[..|events| - 1]), events[|events| - 1];
      trace := before;
      var step: Option<RoutingRun.Event> := RoutingStep(r, ev);
      if step.Some? {
        trace := before + [step.value];
        assert trace[..|before|] == before;
      }
    }
  }

  function RoutingStep(r: Race, ev: Event): Option<RoutingRun.Event> {
    match ev
    case Route(e) => if e.Handshake? || e.Leave? || e.Gone? then None else Some(e)
    case Handshake(c, key, losers) =>
      if Accepted(r, c, key, losers) then Some(RoutingRun.Handshake(key.pipe, key.endpoint)) else None
    case Leave(p) => Some(RoutingRun.Leave(p))
    case Gone(p, overflow) => if p in r.shut then Some(RoutingRun.Gone(p, r.now, overflow)) else None
    case _ => None
  }

  /**
   A route that points at a pipe that is gone belongs to an accepted connection that
   is still being registered, has closed, or has been asked to close; otherwise it
   registered after the memory of the close was lost.
   */
  lemma DanglingRoute(me: EndpointId, events: seq<Event>, ep: EndpointId) returns (c: Conn)
    requires var r := Run(Start(me), events); ep in r.routing.t.routable && r.routing.t.routable[ep].pipe !in r.routing.t.pipes
    ensures var r := Run(Start(me), events);
            && c in r.hands && r.hands[c].key == Key(ep, r.routing.t.routable[ep].pipe)
            && ClosedSince(r.history, r.hands[c].key.pipe, 0)
            && (r.hands[c].Inserted? && c !in r.ended && RequestsOf(r, c) == [] ==>
                  forall k :: 0 <= k < |r.history| && r.history[k].pipe == r.hands[c].key.pipe ==>
                    k < r.hands[c].at <= |r.history| && !Remembered(r.history[..r.hands[c].at], r.hands[c].when, k))
  {
    var r := Run(Start(me), events);
    TracedRun(me, events);
    InvRun(me, events);
    var trace := RoutingIsRun(me, events);
    RoutingRun.PoolDiscipline(me, trace);
    assert RoutingRun.RoutableOk(r.routing, ep);
    assert Owned(r, ep, r.routing.t.routable[ep].pipe);
    c :| c in r.hands && r.hands[c].key == Key(ep, r.routing.t.routable[ep].pipe);
    assert ConnOk(r, c);
  }
}
