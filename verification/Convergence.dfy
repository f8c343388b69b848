/**
 Two nodes decide on their own which of several pipes between them survives, and
 agree: the one that the higher endpoint dialed.
 */
module Convergence {
  import opened Wire
  import opened Identity
  import opened Dedup
  import opened Peers
  import opened RoutingSpec
  import opened RoutingRun

  /** The event does not take away a higher-dialed pipe that is `peer`'s route. Losers may go at any time. */
  predicate Keeps(s: Sys, ev: Event, peer: EndpointId) {
    ev.Leave? || (ev.ConnectionClosed? && ev.endpoint == peer) ==>
      !(peer in s.t.routable && s.t.routable[peer] == Routable(ev.id, High))
  }

  predicate KeepsAll(s: Sys, events: seq<Event>, peer: EndpointId) {
    events == [] || (KeepsAll(s, events[..|events| - 1], peer) && Keeps(Run(s, events[..|events| - 1]), events[|events| - 1], peer))
  }

  predicate IsHigh(me: EndpointId, a: Attempt) {
    ComputeDialer(me, a.endpoint, a.direction) == High
  }

  /** A higher-dialed pipe has been promoted to `peer`. */
  ghost predicate Tried(s: Sys, peer: EndpointId) {
    exists k :: 0 <= k < |s.log| && s.log[k].endpoint == peer && IsHigh(s.me, s.log[k])
  }

  /** The pipe routable to `peer` is higher-dialed, and was promoted as such. */
  ghost predicate HighRoutable(s: Sys, peer: EndpointId) {
    && peer in s.t.routable && s.t.routable[peer].dialer == High
    && (exists k :: 0 <= k < |s.log| && s.log[k].endpoint == peer && IsHigh(s.me, s.log[k]) && s.log[k].id == s.t.routable[peer].pipe)
  }

  /** A lower-dialed pipe cannot displace a higher-dialed one, and a higher-dialed one is always accepted. */
  lemma HighPrevails(s: Sys, id: ConnId, peer: EndpointId)
    requires PoolsOk(s) && MayHandshake(s, id, peer)
    requires ComputeDialer(s.me, peer, s.t.pipes[id].direction) == High || (peer in s.t.routable && s.t.routable[peer].dialer == High)
    ensures var t := Promote(s.t, id, s.me, peer).0;
            && peer in t.routable && t.routable[peer].dialer == High
            && ((t.routable[peer].pipe == id && ComputeDialer(s.me, peer, s.t.pipes[id].direction) == High)
                || (peer in s.t.routable && t.routable[peer] == s.t.routable[peer]))
  {
    if peer in s.t.routable {
      assert RoutableOk(s, peer);
    }
  }

  lemma HandshakeKeepsHigh(s: Sys, id: ConnId, ep: EndpointId, peer: EndpointId)
    requires PoolsOk(s) && (Tried(s, peer) ==> HighRoutable(s, peer))
    ensures var r := Next(s, Handshake(id, ep)); Tried(r, peer) ==> HighRoutable(r, peer)
  {
    var r := Next(s, Handshake(id, ep));
    if MayHandshake(s, id, ep) && Tried(r, peer) {
      var a := r.log[|s.log|];
      assert forall k :: 0 <= k < |s.log| ==> r.log[k] == s.log[k];
      if ep != peer {
        var k :| 0 <= k < |r.log| && r.log[k].endpoint == peer && IsHigh(r.me, r.log[k]);
        assert k < |s.log| && s.log[k].endpoint == peer && IsHigh(s.me, s.log[k]);
        OthersLeaveAlone(s, id, ep, peer);
        var j :| 0 <= j < |s.log| && s.log[j].endpoint == peer && IsHigh(s.me, s.log[j]) && s.log[j].id == s.t.routable[peer].pipe;
        assert r.log[j].id == r.t.routable[peer].pipe;
      } else {
        if !IsHigh(s.me, a) {
          var k :| 0 <= k < |r.log| && r.log[k].endpoint == peer && IsHigh(r.me, r.log[k]);
          assert k < |s.log| && s.log[k].endpoint == peer && IsHigh(s.me, s.log[k]);
        }
        HighPrevails(s, id, peer);
        if r.t.routable[peer].pipe == id && IsHigh(s.me, a) {
          assert r.log[|s.log|].id == r.t.routable[peer].pipe;
        } else {
          var j :| 0 <= j < |s.log| && s.log[j].endpoint == peer && IsHigh(s.me, s.log[j]) && s.log[j].id == s.t.routable[peer].pipe;
          assert r.log[j].id == r.t.routable[peer].pipe;
        }
      }
    }
  }

  /** Every other event leaves a higher-dialed route and the log as they are. */
  lemma QuietKeepsHigh(s: Sys, ev: Event, peer: EndpointId)
    requires PoolsOk(s) && !ev.Handshake? && Keeps(s, ev, peer)
    ensures var r := Next(s, ev);
            && r.log == s.log && r.me == s.me
            && (peer in s.t.routable && s.t.routable[peer].dialer == High ==>
                  peer in r.t.routable && r.t.routable[peer] == s.t.routable[peer])
  {
    QuietLog(s, ev);
    if peer in s.t.routable && s.t.routable[peer].dialer == High {
      QuietRoute(s, ev, peer);
    }
  }

  lemma {:induction false} HighStays(me: EndpointId, events: seq<Event>, peer: EndpointId)
    requires KeepsAll(Start(me), events, peer)
    ensures var s := Run(Start(me), events); Tried(s, peer) ==> HighRoutable(s, peer)
  {
    if events != [] {
      var init, ev := events[..|events| - 1], events[|events| - 1];
      HighStays(me, init, peer);
      PoolDiscipline(me, init);
      var s := Run(Start(me), init);
      if ev.Handshake? {
        HandshakeKeepsHigh(s, ev.id, ev.endpoint, peer);
      } else {
        QuietKeepsHigh(s, ev, peer);
      }
    }
  }

  /** The only higher-dialed pipe promoted to `peer` is `h`. */
  ghost predicate OnlyLogged(s: Sys, peer: EndpointId, h: ConnId) {
    forall k :: 0 <= k < |s.log| && s.log[k].endpoint == peer && IsHigh(s.me, s.log[k]) ==> s.log[k].id == h
  }

  /** No event of the run tears down `h` or evicts `peer`'s route over it. */
  predicate SparesWinner(events: seq<Event>, peer: EndpointId, h: ConnId) {
    forall k :: 0 <= k < |events| ==>
      (events[k].Leave? ==> events[k].id != h) && (events[k].ConnectionClosed? && events[k].endpoint == peer ==> events[k].id != h)
  }

  lemma LogGrows(s: Sys, ev: Event, peer: EndpointId, h: ConnId)
    requires OnlyLogged(Next(s, ev), peer, h)
    ensures OnlyLogged(s, peer, h) && Next(s, ev).me == s.me
  {
    var r := Next(s, ev);
    assert |s.log| <= |r.log| && r.me == s.me && forall k :: 0 <= k < |s.log| ==> r.log[k] == s.log[k] by {
      if !ev.Handshake? {
        QuietLog(s, ev);
      }
    }
  }

  /** A higher-dialed route was promoted as such. */
  ghost predicate Logged(s: Sys, peer: EndpointId) {
    peer in s.t.routable && s.t.routable[peer].dialer == High ==>
      exists k :: 0 <= k < |s.log| && s.log[k].endpoint == peer && IsHigh(s.me, s.log[k]) && s.log[k].id == s.t.routable[peer].pipe
  }

  lemma {:induction false} HighWasLogged(me: EndpointId, events: seq<Event>, peer: EndpointId)
    ensures Logged(Run(Start(me), events), peer)
  {
    if events != [] {
      var init, ev := events[..|events| - 1], events[|events| - 1];
      HighWasLogged(me, init, peer);
      LoggedNext(Run(Start(me), init), ev, peer);
    }
  }

  lemma LoggedNext(s: Sys, ev: Event, peer: EndpointId)
    requires Logged(s, peer)
    ensures Logged(Next(s, ev), peer)
  {
    var r := Next(s, ev);
    if ev.Handshake? {
      if MayHandshake(s, ev.id, ev.endpoint) {
        assert forall k :: 0 <= k < |s.log| ==> r.log[k] == s.log[k];
        assert r.log[|s.log|] == Attempt(ev.id, ev.endpoint, s.t.pipes[ev.id].direction);
      }
    } else {
      QuietLog(s, ev);
      QuietShrinks(s, ev, peer);
    }
  }

  /** Only the winner has to stay for the route to be kept. */
  lemma {:induction false} SparingKeeps(me: EndpointId, events: seq<Event>, peer: EndpointId, h: ConnId)
    requires SparesWinner(events, peer, h) && OnlyLogged(Run(Start(me), events), peer, h)
    ensures KeepsAll(Start(me), events, peer)
  {
    if events != [] {
      var init, ev := events[..|events| - 1], events[|events| - 1];
      LogGrows(Run(Start(me), init), ev, peer, h);
      SparingKeeps(me, init, peer, h);
      HighWasLogged(me, init, peer);
    }
  }

  /**
   Settling. Once a higher-dialed pipe has been promoted to `peer` and as long as the
   one in use is not taken away, the route is higher-dialed (`HighStays`). If only `h`
   is higher-dialed and `h` stays, the route is `h`, whatever the order of promotions
   and whenever the losing pipes are torn down.
   */
  lemma Settles(me: EndpointId, events: seq<Event>, peer: EndpointId, h: ConnId)
    requires SparesWinner(events, peer, h)
    requires var s := Run(Start(me), events); Tried(s, peer) && OnlyLogged(s, peer, h)
    ensures var s := Run(Start(me), events); peer in s.t.routable && s.t.routable[peer] == Routable(h, High)
  {
    SparingKeeps(me, events, peer, h);
    HighStays(me, events, peer);
  }

  /** A physical pipe between two nodes: its handle at each end, and its direction as node A sees it. */
  datatype Link = Link(atA: ConnId, atB: ConnId, direction: Direction)

  /** Node A promotes only pipes that are links, under their own direction. */
  ghost predicate LogsLinksA(s: Sys, peer: EndpointId, links: seq<Link>) {
    forall k :: 0 <= k < |s.log| && s.log[k].endpoint == peer ==>
      exists i :: 0 <= i < |links| && links[i].atA == s.log[k].id && links[i].direction == s.log[k].direction
  }

  ghost predicate LogsLinksB(s: Sys, peer: EndpointId, links: seq<Link>) {
    forall k :: 0 <= k < |s.log| && s.log[k].endpoint == peer ==>
      exists i :: 0 <= i < |links| && links[i].atB == s.log[k].id && Opposite(links[i].direction) == s.log[k].direction
  }

  /** Among the links, `h` is the only one dialed by the higher endpoint. */
  predicate OnlyHigh(a: EndpointId, b: EndpointId, links: seq<Link>, h: nat) {
    h < |links| && forall i :: 0 <= i < |links| ==> (ComputeDialer(a, b, links[i].direction) == High <==> i == h)
  }

  ghost predicate Promoted(s: Sys, peer: EndpointId, id: ConnId, direction: Direction) {
    exists k :: 0 <= k < |s.log| && s.log[k] == Attempt(id, peer, direction)
  }

  /**
   Two-node convergence. Two nodes share one link dialed by the higher endpoint and any
   number dialed by the lower one. If each has promoted the former and it stays up, both
   route over that same link, in any order of promotions on each side, amid any other
   traffic and with the losing links torn down at any time.
   */
  lemma BothSettle(a: EndpointId, b: EndpointId, atA: seq<Event>, atB: seq<Event>, links: seq<Link>, h: nat)
    requires a != b && OnlyHigh(a, b, links, h)
    requires SparesWinner(atA, b, links[h].atA) && SparesWinner(atB, a, links[h].atB)
    requires LogsLinksA(Run(Start(a), atA), b, links) && LogsLinksB(Run(Start(b), atB), a, links)
    requires Promoted(Run(Start(a), atA), b, links[h].atA, links[h].direction)
    requires Promoted(Run(Start(b), atB), a, links[h].atB, Opposite(links[h].direction))
    ensures var sa, sb := Run(Start(a), atA).t, Run(Start(b), atB).t;
            && b in sa.routable && sa.routable[b].pipe == links[h].atA
            && a in sb.routable && sb.routable[a].pipe == links[h].atB
  {
    var sa, sb := Run(Start(a), atA), Run(Start(b), atB);
    MeStays(a, atA);
    MeStays(b, atB);
    forall i | 0 <= i < |links|
      ensures ComputeDialer(a, b, links[i].direction) == ComputeDialer(b, a, Opposite(links[i].direction))
    {
      DialerSymmetric(a, b, links[i].direction);
    }
    var j :| 0 <= j < |sa.log| && sa.log[j] == Attempt(links[h].atA, b, links[h].direction);
    assert IsHigh(sa.me, sa.log[j]);
    var k :| 0 <= k < |sb.log| && sb.log[k] == Attempt(links[h].atB, a, Opposite(links[h].direction));
    assert IsHigh(sb.me, sb.log[k]);
    Settles(a, atA, b, links[h].atA);
    Settles(b, atB, a, links[h].atB);
  }

  lemma {:induction false} MeStays(me: EndpointId, events: seq<Event>)
    ensures Run(Start(me), events).me == me
  {
    if events != [] {
      MeStays(me, events[..|events| - 1]);
    }
  }
}
