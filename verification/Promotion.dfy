/** Which handshakes are accepted and what they do to the pools, from the state before alone. */
module Promotion {
  import opened Wire
  import opened Identity
  import opened Dedup
  import opened Peers
  import opened RoutingSpec
  import opened RoutingRun

  /** Another pipe in line for `ep`: its route, or a live pipe pending toward it. */
  predicate Candidate(s: Sys, id: ConnId, ep: EndpointId, other: ConnId) {
    && other != id
    && ((ep in s.t.routable && s.t.routable[ep].pipe == other)
        || (other in s.t.pipes && other in s.t.pending && s.t.pending[other] == Some(ep)))
  }

  /** Who dialed it: by its direction while it is live, by what was recorded for a route left behind. */
  function DialedBy(s: Sys, ep: EndpointId, other: ConnId): Dialer {
    if other in s.t.pipes then ComputeDialer(s.me, ep, s.t.pipes[other].direction)
    else if ep in s.t.routable then s.t.routable[ep].dialer
    else Low
  }

  /** A lower-dialed pipe meets a higher-dialed candidate. */
  ghost predicate Outranked(s: Sys, id: ConnId, ep: EndpointId) {
    DialedBy(s, ep, id) == Low && exists other :: Candidate(s, id, ep, other) && DialedBy(s, ep, other) == High
  }

  lemma RivalsAreCandidates(s: Sys, id: ConnId, ep: EndpointId, other: ConnId)
    ensures other in Rivals(s.t, id, ep) <==> Candidate(s, id, ep, other)
  {
  }

  lemma RefusedExactly(s: Sys, id: ConnId, ep: EndpointId)
    requires PoolsOk(s) && id in s.t.pipes
    ensures Promotes(s.t, id, s.me, ep) <==> !Outranked(s, id, ep)
  {
    if ep in s.t.routable {
      assert RoutableOk(s, ep);
    }
    if AnyHigh(s.t, id, s.me, ep) {
      if Incumbent(s.t, id, ep) && s.t.routable[ep].dialer == High {
        assert Candidate(s, id, ep, s.t.routable[ep].pipe);
      } else {
        var other :| other in s.t.pending && Aspires(s.t, id, ep, other) && ComputeDialer(s.me, ep, s.t.pipes[other].direction) == High;
        assert Candidate(s, id, ep, other);
        RivalsAreCandidates(s, id, ep, other);
      }
    }
  }

  /** What an accepted promotion leaves behind. */
  ghost predicate Promoted(s: Sys, id: ConnId, ep: EndpointId, t: Table) {
    && ep in t.routable && t.routable[ep] == Routable(id, DialedBy(s, ep, id)) && id !in t.pending
    && (forall other :: Candidate(s, id, ep, other) ==> other !in t.pending)
    && (forall x, other :: x in t.routable && Candidate(s, id, ep, other) ==> t.routable[x].pipe != other)
    && t.pipes == s.t.pipes
    && (forall x :: x in s.t.pending && x != id && !Candidate(s, id, ep, x) ==> x in t.pending && t.pending[x] == s.t.pending[x])
    && (forall x :: x in s.t.routable && x != ep ==> x in t.routable && t.routable[x] == s.t.routable[x])
  }

  lemma PromoteDoes(s: Sys, id: ConnId, ep: EndpointId)
    requires PoolsOk(s) && MayHandshake(s, id, ep) && Promotes(s.t, id, s.me, ep)
    ensures Promoted(s, id, ep, Promote(s.t, id, s.me, ep).0)
  {
    var t := Promote(s.t, id, s.me, ep).0;
    forall other | Candidate(s, id, ep, other)
      ensures other !in t.pending && forall x :: x in t.routable ==> t.routable[x].pipe != other
    {
      RivalsAreCandidates(s, id, ep, other);
    }
    forall x | x in s.t.pending && x != id && !Candidate(s, id, ep, x)
      ensures x in t.pending && t.pending[x] == s.t.pending[x]
    {
      RivalsAreCandidates(s, id, ep, x);
    }
    forall x | x in s.t.routable && x != ep
      ensures x in t.routable && t.routable[x] == s.t.routable[x]
    {
      OthersLeaveAlone(s, id, ep, x);
    }
  }

  /**
   The promotion rule over every run. A handshake on a live pipe is refused if and only
   if the pipe is lower-dialed and some other candidate for the endpoint is higher-dialed.
   Otherwise the route is that pipe, every other candidate leaves both pools, and
   everything else stays.
   */
  lemma HandshakeExactly(me: EndpointId, events: seq<Event>, id: ConnId, ep: EndpointId)
    requires MayHandshake(Run(Start(me), events), id, ep)
    ensures var s := Run(Start(me), events);
            var t := Next(s, Handshake(id, ep)).t;
            if Outranked(s, id, ep) then t == s.t else Promoted(s, id, ep, t)
  {
    PoolDiscipline(me, events);
    var s := Run(Start(me), events);
    RefusedExactly(s, id, ep);
    if !Outranked(s, id, ep) {
      PromoteDoes(s, id, ep);
    }
  }

  /** The event neither takes the route to `ep` over `id` away nor promotes another pipe to `ep`. */
  predicate Leaves(ev: Event, ep: EndpointId, id: ConnId) {
    && ev != Leave(id) && ev != ConnectionClosed(ep, id)
    && (ev.Handshake? ==> ev.endpoint != ep)
  }

  lemma RouteHolds(s: Sys, ev: Event, ep: EndpointId, id: ConnId)
    requires PoolsOk(s) && ep in s.t.routable && s.t.routable[ep].pipe == id && Leaves(ev, ep, id)
    ensures var r := Next(s, ev); ep in r.t.routable && r.t.routable[ep] == s.t.routable[ep]
  {
    if !ev.Handshake? {
      QuietRoute(s, ev, ep);
    } else if MayHandshake(s, ev.id, ev.endpoint) {
      OthersLeaveAlone(s, ev.id, ev.endpoint, ep);
    }
  }

  lemma {:induction false} RunConcat(s: Sys, a: seq<Event>, b: seq<Event>)
    ensures Run(s, a + b) == Run(Run(s, a), b)
    decreases |b|
  {
    if b == [] {
      assert a + b == a;
    } else {
      assert (a + b)[..|a + b| - 1] == a + b[..|b| - 1];
      RunConcat(s, a, b[..|b| - 1]);
    }
  }

  lemma {:induction false} RouteHoldsOn(s: Sys, events: seq<Event>, ep: EndpointId, id: ConnId)
    requires Handles(s) && PoolsOk(s) && ep in s.t.routable && s.t.routable[ep].pipe == id
    requires forall k :: 0 <= k < |events| ==> Leaves(events[k], ep, id)
    ensures var t := Run(s, events);
            Handles(t) && PoolsOk(t) && ep in t.t.routable && t.t.routable[ep] == s.t.routable[ep]
  {
    if events != [] {
      var init, last := events[..|events| - 1], events[|events| - 1];
      RouteHoldsOn(s, init, ep, id);
      var t := Run(s, init);
      HandlesNext(t, last);
      PoolsNext(t, last);
      RouteHolds(t, last, ep, id);
    }
  }

  /**
   The latest accepted promotion is the route, until its pipe leaves or its connection
   closes. With only lower-dialed candidates every promotion is accepted, so then the
   route is the latest one promoted: a peer that dials again moves to its new pipe.
   */
  lemma LatestPromotedIsRoute(me: EndpointId, before: seq<Event>, id: ConnId, ep: EndpointId, after: seq<Event>)
    requires var s := Run(Start(me), before); MayHandshake(s, id, ep) && !Outranked(s, id, ep)
    requires forall k :: 0 <= k < |after| ==> Leaves(after[k], ep, id)
    ensures var s, t := Run(Start(me), before), Run(Start(me), before + [Handshake(id, ep)] + after);
            ep in t.t.routable && t.t.routable[ep] == Routable(id, DialedBy(s, ep, id))
  {
    HandshakeExactly(me, before, id, ep);
    RunSnoc(Start(me), before, Handshake(id, ep));
    HandleDiscipline(me, before + [Handshake(id, ep)]);
    PoolDiscipline(me, before + [Handshake(id, ep)]);
    RunConcat(Start(me), before + [Handshake(id, ep)], after);
    RouteHoldsOn(Run(Start(me), before + [Handshake(id, ep)]), after, ep, id);
  }

  lemma LowAmongLow(s: Sys, id: ConnId, ep: EndpointId)
    requires forall other :: Candidate(s, id, ep, other) ==> DialedBy(s, ep, other) == Low
    ensures !Outranked(s, id, ep)
  {
  }

  // ---------- scan hints ----------

  /** A live pipe to `device` carries the route to `ep`. */
  predicate RoutedTo(s: Sys, ep: EndpointId, device: DeviceId) {
    ep in s.t.routable && s.t.routable[ep].pipe in s.t.pipes && s.t.pipes[s.t.routable[ep].pipe].device == device
  }

  ghost predicate HintSafe(s: Sys, r: Sys, p: KeyPrefix, device: DeviceId) {
    p in r.t.scanHint ==> r.t.scanHint[p] == device || (p in s.t.scanHint && s.t.scanHint[p] == r.t.scanHint[p])
  }

  lemma HintStep(s: Sys, ev: Event, ep: EndpointId, device: DeviceId)
    requires RoutedTo(s, ep, device)
    ensures HintSafe(s, Next(s, ev), PrefixOf(ep), device)
  {
    if ev.Hint? && ev.prefix == PrefixOf(ep) && ev.device != device {
      assert BoundElsewhere(s.t, ev.prefix, ev.device);
    }
  }

  predicate RoutedThroughout(s: Sys, events: seq<Event>, ep: EndpointId, device: DeviceId) {
    events == [] || (RoutedThroughout(s, events[..|events| - 1], ep, device) && RoutedTo(Run(s, events[..|events| - 1]), ep, device))
  }

  /**
   For as long as a live pipe to one device carries the route to an endpoint, no
   advertisement moves the hint of that endpoint's prefix to another device.
   */
  lemma {:induction false} HintHolds(s: Sys, events: seq<Event>, ep: EndpointId, device: DeviceId)
    requires RoutedThroughout(s, events, ep, device)
    ensures HintSafe(s, Run(s, events), PrefixOf(ep), device)
  {
    if events != [] {
      var init := events[..|events| - 1];
      HintHolds(s, init, ep, device);
      HintStep(Run(s, init), events[|init|], ep, device);
    }
  }

  /** Without such a route an advertisement is always recorded. */
  lemma HintRecorded(s: Sys, prefix: KeyPrefix, device: DeviceId)
    requires forall ep, other :: RoutedTo(s, ep, other) && PrefixOf(ep) == prefix ==> other == device
    ensures Next(s, Hint(prefix, device)).t.scanHint == s.t.scanHint[prefix := device]
  {
    if BoundElsewhere(s.t, prefix, device) {
      var ep :| ep in s.t.routable && PrefixOf(ep) == prefix && s.t.routable[ep].pipe in s.t.pipes
                && s.t.pipes[s.t.routable[ep].pipe].device != device;
      assert RoutedTo(s, ep, s.t.pipes[s.t.routable[ep].pipe].device);
    }
  }

  // ---------- reservations keep their promise ----------

  /** Not a step of the driver's pipe opening. */
  predicate NotOpening(ev: Event) {
    !ev.Begin? && !ev.TakeForEndpoint? && !ev.TakeForDevice? && !ev.Register? && !ev.Enter?
  }

  /** While the driver does not consume it, a reservation stays, however often it is asked for again. */
  lemma ReservationStays(s: Sys, ev: Event, p: KeyPrefix)
    requires p in s.t.reservations && !ev.TakeForEndpoint? && !ev.TakeForDevice?
    ensures var r := Next(s, ev); p in r.t.reservations && r.t.reservations[p] == s.t.reservations[p]
  {
  }

  lemma OpeningStays(s: Sys, ev: Event)
    requires NotOpening(ev)
    ensures Next(s, ev).opening == s.opening
  {
  }

  lemma {:induction false} OpeningStaysAll(s: Sys, events: seq<Event>)
    requires forall k :: 0 <= k < |events| ==> NotOpening(events[k])
    ensures Run(s, events).opening == s.opening
  {
    if events != [] {
      OpeningStaysAll(s, events[..|events| - 1]);
      OpeningStays(Run(s, events[..|events| - 1]), events[|events| - 1]);
    }
  }

  /** The handle a pipe gets is the one that was promised for its target. */
  lemma PromiseTaken(s: Sys)
    requires s.opening.Begun? && s.opening.target.Some? && PrefixOf(s.opening.target.value) in s.t.reservations
    ensures var res := s.t.reservations[PrefixOf(s.opening.target.value)];
            Next(s, TakeForEndpoint).opening == Held(Some(res), s.opening.device, s.opening.direction)
  {
  }

  lemma PromiseBound(s: Sys, now: int, overflow: set<ConnId>)
    requires s.opening.Held? && s.opening.reservation.Some?
    ensures var r, res := Next(s, Register(now, overflow)), s.opening.reservation.value;
            && r.opening == Registered(res.id, Some(res.endpoint))
            && res.id in r.t.pipes && r.t.pipes[res.id] == Pipe(s.opening.device, s.opening.direction)
  {
  }

  lemma PromiseRegisters(s: Sys, a: seq<Event>, now: int, overflow: set<ConnId>)
    requires s.opening.Held? && s.opening.reservation.Some?
    requires forall k :: 0 <= k < |a| ==> NotOpening(a[k])
    ensures var r, res := Next(Run(s, a), Register(now, overflow)), s.opening.reservation.value;
            && r.opening == Registered(res.id, Some(res.endpoint))
            && res.id in r.t.pipes && r.t.pipes[res.id] == Pipe(s.opening.device, s.opening.direction)
  {
    OpeningStaysAll(s, a);
    PromiseBound(Run(s, a), now, overflow);
  }

  lemma PromiseEnters(s: Sys, b: seq<Event>)
    requires s.opening.Registered?
    requires forall k :: 0 <= k < |b| ==> NotOpening(b[k])
    ensures var r := Next(Run(s, b), Enter);
            s.opening.id in r.t.pending && r.t.pending[s.opening.id] == s.opening.target && r.opening.Idle?
  {
    OpeningStaysAll(s, b);
  }

  /**
   Reservations keep their promise, amid any other traffic: if the driver opens a pipe for
   an endpoint whose prefix holds a reservation, the pipe carries the reserved handle, and
   it enters the pending pool under the endpoint the handle was promised for.
   */
  lemma PromiseKept(s: Sys, a: seq<Event>, now: int, overflow: set<ConnId>, b: seq<Event>)
    requires s.opening.Begun? && s.opening.target.Some? && PrefixOf(s.opening.target.value) in s.t.reservations
    requires forall k :: 0 <= k < |a| ==> NotOpening(a[k])
    requires forall k :: 0 <= k < |b| ==> NotOpening(b[k])
    ensures var res := s.t.reservations[PrefixOf(s.opening.target.value)];
            var bound := Next(Run(Next(s, TakeForEndpoint), a), Register(now, overflow));
            var done := Next(Run(bound, b), Enter);
            && res.id in bound.t.pipes && bound.t.pipes[res.id] == Pipe(s.opening.device, s.opening.direction)
            && res.id in done.t.pending && done.t.pending[res.id] == Some(res.endpoint) && done.opening.Idle?
  {
    PromiseTaken(s);
    var s1 := Next(s, TakeForEndpoint);
    PromiseRegisters(s1, a, now, overflow);
    PromiseEnters(Next(Run(s1, a), Register(now, overflow)), b);
  }

  /** The same for a pipe whose target is unknown, if the scan hint of its device names a reserved prefix. */
  lemma PromiseKeptByHint(s: Sys, p: KeyPrefix, a: seq<Event>, now: int, overflow: set<ConnId>, b: seq<Event>)
    requires s.opening.Missed? && p in s.t.scanHint && s.t.scanHint[p] == s.opening.device && p in s.t.reservations
    requires forall k :: 0 <= k < |a| ==> NotOpening(a[k])
    requires forall k :: 0 <= k < |b| ==> NotOpening(b[k])
    ensures var res := s.t.reservations[p];
            var bound := Next(Run(Next(s, TakeForDevice(Some(p))), a), Register(now, overflow));
            var done := Next(Run(bound, b), Enter);
            && res.id in bound.t.pipes && bound.t.pipes[res.id] == Pipe(s.opening.device, s.opening.direction)
            && res.id in done.t.pending && done.t.pending[res.id] == Some(res.endpoint) && done.opening.Idle?
  {
    var s1 := Next(s, TakeForDevice(Some(p)));
    assert s1.opening == Held(Some(s.t.reservations[p]), s.opening.device, s.opening.direction);
    PromiseRegisters(s1, a, now, overflow);
    PromiseEnters(Next(Run(s1, a), Register(now, overflow)), b);
  }
}
