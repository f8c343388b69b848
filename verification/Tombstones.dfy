/** What is remembered of a pipe that is gone, and for how long. */
module Tombstones {
  import opened Wire
  import opened Identity
  import opened Dedup
  import opened Peers
  import opened RoutingSpec
  import opened RoutingRun
  import opened Promotion

  /** Events that forget old tombstones on the way. */
  predicate Prunes(ev: Event) {
    ev.Reserve? || ev.Register? || ev.Gone? || ev.Transmit?
  }

  /** The event comes within 30 s of `at` and does not push `id` over the limit. */
  predicate InMemory(ev: Event, id: ConnId, at: int) {
    Prunes(ev) ==> ev.now - at <= 30000 && id !in ev.overflow
  }

  function SentTo(events: seq<Event>, id: ConnId): nat {
    if events == [] then 0
    else
      var ev := events[|events| - 1];
      SentTo(events[..|events| - 1], id) + if ev.Transmit? && ev.id == id then 1 else 0
  }

  /** The tombstone of `id` stays, with `more` further datagrams counted. */
  ghost predicate StaysWith(t: Table, r: Table, id: ConnId, more: nat) {
    id in t.tombstones && id in r.tombstones && r.tombstones[id] == t.tombstones[id].(dropped := t.tombstones[id].dropped + more)
  }

  lemma PruneStays(t: Table, now: int, overflow: set<ConnId>, id: ConnId)
    requires id in t.tombstones && now - t.tombstones[id].evictedAt <= PIPE_TOMBSTONE_TTL && id !in overflow
    ensures StaysWith(t, PruneTombstones(t, now, overflow), id, 0)
  {
  }

  lemma TombstoneStep(s: Sys, ev: Event, id: ConnId)
    requires Handles(s) && id in s.t.tombstones && InMemory(ev, id, s.t.tombstones[id].evictedAt)
    ensures StaysWith(s.t, Next(s, ev).t, id, if ev.Transmit? && ev.id == id then 1 else 0)
  {
    if ev.TakeForEndpoint? || ev.TakeForDevice? {
      TombstoneTake(s, ev, id);
    } else if Prunes(ev) {
      PruneStays(s.t, ev.now, ev.overflow, id);
      assert id in s.bound;
      TombstonePrune(s, ev, id);
    } else {
      TombstoneOther(s, ev, id);
    }
  }

  lemma TombstoneOther(s: Sys, ev: Event, id: ConnId)
    requires id in s.t.tombstones && !Prunes(ev) && !ev.TakeForEndpoint? && !ev.TakeForDevice?
    ensures StaysWith(s.t, Next(s, ev).t, id, 0)
  {
    if ev.Handshake? {
      assert Promote(s.t, ev.id, s.me, ev.endpoint).0.tombstones == s.t.tombstones;
    }
  }

  /** A tombstone's handle has neither a pipe nor a place in the driver's hand. */
  lemma TombstonePrune(s: Sys, ev: Event, id: ConnId)
    requires id !in InHand(s.opening) && id !in s.t.pipes
    requires Prunes(ev) && StaysWith(s.t, PruneTombstones(s.t, ev.now, ev.overflow), id, 0)
    ensures StaysWith(s.t, Next(s, ev).t, id, if ev.Transmit? && ev.id == id then 1 else 0)
  {
    if ev.Register? {
      RegisterStays(s, ev.now, ev.overflow, id);
    }
  }

  lemma RegisterStays(s: Sys, now: int, overflow: set<ConnId>, id: ConnId)
    requires id !in InHand(s.opening) && StaysWith(s.t, PruneTombstones(s.t, now, overflow), id, 0)
    ensures StaysWith(s.t, RegisterHeld(s, now, overflow).t, id, 0)
  {
  }

  /** A handle that is reserved was never given to a pipe, so it has no tombstone. */
  lemma TombstoneTake(s: Sys, ev: Event, id: ConnId)
    requires Handles(s) && id in s.t.tombstones && (ev.TakeForEndpoint? || ev.TakeForDevice?)
    ensures StaysWith(s.t, Next(s, ev).t, id, 0)
  {
    assert id in s.bound && id !in s.t.reservedIds;
    if ev.TakeForEndpoint? {
      if s.opening.Begun? && s.opening.target.Some? {
        ConsumeStays(s, PrefixOf(s.opening.target.value), id);
      }
    } else if ev.hint.Some? {
      ConsumeStays(s, ev.hint.value, id);
    }
  }

  lemma ConsumeStays(s: Sys, p: KeyPrefix, id: ConnId)
    requires MutualInverses(s.t) && id in s.t.tombstones && id !in s.t.reservedIds
    ensures StaysWith(s.t, ConsumeReservation(s.t, p).0, id, 0)
  {
  }

  lemma {:induction false} TombstoneRun(s: Sys, events: seq<Event>, id: ConnId)
    requires Handles(s) && id in s.t.tombstones
    requires forall k :: 0 <= k < |events| ==> InMemory(events[k], id, s.t.tombstones[id].evictedAt)
    ensures var r := Run(s, events);
            Handles(r) && id in r.t.tombstones
            && r.t.tombstones[id] == s.t.tombstones[id].(dropped := s.t.tombstones[id].dropped + SentTo(events, id))
  {
    if events != [] {
      var init, last := events[..|events| - 1], events[|events| - 1];
      TombstoneRun(s, init, id);
      HandlesNext(Run(s, init), last);
      TombstoneStep(Run(s, init), last, id);
    }
  }

  /**
   In every run a pipe that is gone leaves a tombstone that names its device and counts
   every datagram still sent to it, for thirty seconds and whatever else happens, unless
   younger tombstones push it out.
   */
  lemma Remembers(me: EndpointId, before: seq<Event>, id: ConnId, at: int, overflow: set<ConnId>, after: seq<Event>)
    requires id in Run(Start(me), before).leaving
    requires forall k :: 0 <= k < |after| ==> InMemory(after[k], id, at)
    ensures var s, r := Run(Start(me), before), Run(Start(me), before + [Gone(id, at, overflow)] + after);
            && id in s.t.pipes && id in r.t.tombstones
            && r.t.tombstones[id] == Tombstone(s.t.pipes[id], at, SentTo(after, id))
  {
    var events := before + [Gone(id, at, overflow)];
    PoolDiscipline(me, before);
    HandleDiscipline(me, events);
    RunSnoc(Start(me), before, Gone(id, at, overflow));
    RunConcat(Start(me), events, after);
    TombstoneRun(Run(Start(me), events), after, id);
  }

  /** After that it is forgotten by the first event that looks. */
  lemma Forgets(s: Sys, id: ConnId, x: ConnId, now: int, overflow: set<ConnId>)
    requires id in s.t.tombstones && now - s.t.tombstones[id].evictedAt > 30000
    ensures id !in Next(s, Transmit(x, now, overflow)).t.tombstones
  {
  }
}
