/**
 The routing table under the driver's protocol: a resolver that reserves handles, one
 pipe opening at a time, pipe workers that leave on their own, and handshakes that
 complete at any moment in between.

 Each pipe authenticates as one endpoint, and a handshake completes on a pipe only
 once its worker runs, that is, after the pipe has entered the pending pool.

 History variables: `minted` and `bound` list the handles minted and the handles
 given to a pipe, `owner` the endpoint each pipe authenticated as, `late` the pipes
 promoted while leaving, `log` every promotion attempted on a live pipe.
 */
module RoutingRun {
  import opened Wire
  import opened Identity
  import opened Dedup
  import opened Peers
  import opened RoutingSpec

  /** How far the driver has come with the pipe it is opening. */
  datatype Opening =
    | Idle
    | Begun(target: Option<EndpointId>, device: DeviceId, direction: Direction)
    | Missed(device: DeviceId, direction: Direction)
    | Held(reservation: Option<Reservation>, device: DeviceId, direction: Direction)
    | Registered(id: ConnId, target: Option<EndpointId>)

  datatype Attempt = Attempt(id: ConnId, endpoint: EndpointId, direction: Direction)

  datatype Sys = Sys(
    t: Table,
    me: EndpointId,
    opening: Opening,
    leaving: set<ConnId>,
    minted: seq<ConnId>,
    bound: seq<ConnId>,
    owner: map<ConnId, EndpointId>,
    late: set<ConnId>,
    log: seq<Attempt>)

  datatype Event =
    | Reserve(endpoint: EndpointId, now: int, overflow: set<ConnId>)
    | Begin(target: Option<EndpointId>, device: DeviceId, direction: Direction)
    | TakeForEndpoint
    | TakeForDevice(hint: Option<KeyPrefix>)
    | Register(now: int, overflow: set<ConnId>)
    | Enter
    | Hint(prefix: KeyPrefix, device: DeviceId)
    | Unhint(prefix: KeyPrefix)
    | Handshake(id: ConnId, endpoint: EndpointId)
    | Leave(id: ConnId)
    | Gone(id: ConnId, now: int, overflow: set<ConnId>)
    | ConnectionClosed(endpoint: EndpointId, id: ConnId)
    | Transmit(id: ConnId, now: int, overflow: set<ConnId>)

  function Start(me: EndpointId): Sys {
    Sys(EMPTY_TABLE, me, Idle, {}, [], [], map[], {}, [])
  }

  /** A minting call: history records the handle if one was minted. */
  function Mint(s: Sys, t: Table): Sys {
    s.(t := t, minted := if t.nextId == s.t.nextId + 1 then s.minted + [t.nextId] else s.minted)
  }

  function Bind(s: Sys, id: ConnId): Sys {
    s.(bound := s.bound + [id])
  }

  predicate HintFits(t: Table, device: DeviceId, hint: Option<KeyPrefix>) {
    match hint
    case Some(p) => p in t.scanHint && t.scanHint[p] == device
    case None => forall p :: p in t.scanHint ==> t.scanHint[p] != device
  }

  predicate WorkerRuns(s: Sys, id: ConnId) {
    id in s.t.pipes && !(s.opening.Registered? && s.opening.id == id)
  }

  predicate MayHandshake(s: Sys, id: ConnId, ep: EndpointId) {
    WorkerRuns(s, id) && (id in s.owner ==> s.owner[id] == ep)
  }

  /** The pipe gets the consumed handle, or a fresh one. */
  function RegisterHeld(s: Sys, now: int, overflow: set<ConnId>): Sys {
    if !s.opening.Held? then s
    else
      var t := PruneTombstones(s.t, now, overflow);
      match s.opening.reservation
      case Some(res) =>
        Bind(s.(t := RegisterPipeWithId(t, res.id, s.opening.device, s.opening.direction),
                opening := Registered(res.id, Some(res.endpoint))), res.id)
      case None =>
        Bind(Mint(s, RegisterPipe(t, s.opening.device, s.opening.direction)).(opening := Registered(t.nextId + 1, None)),
             t.nextId + 1)
  }

  function Next(s: Sys, ev: Event): Sys {
    match ev
    case Reserve(ep, now, overflow) => Mint(s, ReserveOutbound(PruneTombstones(s.t, now, overflow), ep))
    case Begin(target, device, direction) =>
      if s.opening.Idle? then s.(opening := Begun(target, device, direction)) else s
    case TakeForEndpoint =>
      if !s.opening.Begun? then s
      else if s.opening.target.None? then s.(opening := Missed(s.opening.device, s.opening.direction))
      else
        var (t, r) := ConsumeReservation(s.t, PrefixOf(s.opening.target.value));
        s.(t := t, opening := if r.Some? then Held(r, s.opening.device, s.opening.direction)
                              else Missed(s.opening.device, s.opening.direction))
    case TakeForDevice(hint) =>
      if !s.opening.Missed? || !HintFits(s.t, s.opening.device, hint) then s
      else if hint.None? then s.(opening := Held(None, s.opening.device, s.opening.direction))
      else
        var (t, r) := ConsumeReservation(s.t, hint.value);
        s.(t := t, opening := Held(r, s.opening.device, s.opening.direction))
    case Register(now, overflow) => RegisterHeld(s, now, overflow)
    case Enter =>
      if !s.opening.Registered? then s
      else s.(t := RegisterPending(s.t, s.opening.id, s.opening.target), opening := Idle)
    case Hint(prefix, device) => s.(t := NoteScanHint(s.t, prefix, device))
    case Unhint(prefix) => s.(t := s.t.(scanHint := s.t.scanHint - {prefix}))
    case Handshake(id, ep) =>
      if !MayHandshake(s, id, ep) then s
      else
        s.(t := Promote(s.t, id, s.me, ep).0,
           owner := s.owner[id := ep],
           late := if Promotes(s.t, id, s.me, ep) && id in s.leaving then s.late + {id} else s.late,
           log := s.log + [Attempt(id, ep, s.t.pipes[id].direction)])
    case Leave(id) =>
      if WorkerRuns(s, id) && id !in s.leaving then s.(t := EvictPipeState(s.t, id), leaving := s.leaving + {id}) else s
    case Gone(id, now, overflow) =>
      if id in s.leaving
      then s.(t := EvictPipe(PruneTombstones(s.t, now, overflow), id, now), leaving := s.leaving - {id})
      else s
    case ConnectionClosed(ep, id) => s.(t := EvictRoutableIfPipe(s.t, ep, id))
    case Transmit(id, now, overflow) =>
      var t := PruneTombstones(s.t, now, overflow);
      s.(t := if id in t.tombstones
              then t.(tombstones := t.tombstones[id := t.tombstones[id].(dropped := t.tombstones[id].dropped + 1)])
              else t)
  }

  function Run(s: Sys, events: seq<Event>): Sys {
    if events == [] then s else Next(Run(s, events[..|events| - 1]), events[|events| - 1])
  }

  // ---------- handles ----------

  ghost predicate MutualInverses(t: Table) {
    && (forall p :: p in t.reservations ==>
          PrefixOf(t.reservations[p].endpoint) == p && t.reservations[p].id in t.reservedIds && t.reservedIds[t.reservations[p].id] == p)
    && (forall id :: id in t.reservedIds ==> t.reservedIds[id] in t.reservations && t.reservations[t.reservedIds[id]].id == id)
  }

  /** The reserved handle the driver has consumed but not yet given to a pipe. */
  function InHand(o: Opening): set<ConnId> {
    if o.Held? && o.reservation.Some? then {o.reservation.value.id} else {}
  }

  ghost predicate Minted(minted: seq<ConnId>, nextId: nat) {
    |minted| == nextId && forall i :: 0 <= i < |minted| ==> minted[i] == i + 1
  }

  ghost predicate NoRepeats(ids: seq<ConnId>) {
    forall i, j :: 0 <= i < j < |ids| ==> ids[i] != ids[j]
  }

  ghost predicate HandlesOk(t: Table, opening: Opening, minted: seq<ConnId>, bound: seq<ConnId>) {
    && MutualInverses(t)
    && Minted(minted, t.nextId)
    && NoRepeats(bound)
    && (forall id :: id in bound || id in t.reservedIds || id in InHand(opening) ==> 0 < id <= t.nextId)
    && (forall id :: id in bound ==> id !in t.reservedIds && id !in InHand(opening))
    && (forall id :: id in InHand(opening) ==> id !in t.reservedIds)
    && (forall id :: id in t.pipes ==> id in bound && id !in t.tombstones)
    && (forall id :: id in t.tombstones ==> id in bound)
  }

  ghost predicate Handles(s: Sys) {
    HandlesOk(s.t, s.opening, s.minted, s.bound)
  }

  lemma HandlesPrune(t: Table, opening: Opening, minted: seq<ConnId>, bound: seq<ConnId>, now: int, overflow: set<ConnId>)
    requires HandlesOk(t, opening, minted, bound)
    ensures HandlesOk(PruneTombstones(t, now, overflow), opening, minted, bound)
  {
  }

  lemma HandlesReserve(s: Sys, ep: EndpointId)
    requires Handles(s)
    ensures Handles(Mint(s, ReserveOutbound(s.t, ep)))
  {
  }

  lemma HandlesConsume(s: Sys, p: KeyPrefix, o: Opening)
    requires Handles(s) && InHand(s.opening) == {} && InHand(o) == (if p in s.t.reservations then {s.t.reservations[p].id} else {})
    ensures Handles(s.(t := ConsumeReservation(s.t, p).0, opening := o))
  {
  }

  lemma HandlesBind(t: Table, o: Opening, q: Opening, minted: seq<ConnId>, bound: seq<ConnId>)
    requires HandlesOk(t, o, minted, bound) && o.Held? && o.reservation.Some? && InHand(q) == {}
    ensures o.reservation.value.id !in t.pipes
    ensures var id := o.reservation.value.id;
            HandlesOk(RegisterPipeWithId(t, id, o.device, o.direction), q, minted, bound + [id])
  {
  }

  lemma MintedSnoc(minted: seq<ConnId>, nextId: nat)
    requires Minted(minted, nextId)
    ensures Minted(minted + [nextId + 1], nextId + 1)
  {
  }

  lemma NoRepeatsSnoc(ids: seq<ConnId>, id: ConnId)
    requires NoRepeats(ids) && id !in ids
    ensures NoRepeats(ids + [id]) && forall x :: x in ids + [id] <==> x in ids || x == id
  {
  }

  lemma HandlesFresh(t: Table, o: Opening, q: Opening, minted: seq<ConnId>, bound: seq<ConnId>, device: DeviceId, direction: Direction)
    requires HandlesOk(t, o, minted, bound) && InHand(o) == {} && InHand(q) == {}
    ensures HandlesOk(RegisterPipe(t, device, direction), q, minted + [t.nextId + 1], bound + [t.nextId + 1])
  {
    var id := t.nextId + 1;
    assert id !in bound && id !in t.reservedIds && id !in t.tombstones;
    MintedSnoc(minted, t.nextId);
    NoRepeatsSnoc(bound, id);
  }

  lemma HandlesRegister(s: Sys, now: int, overflow: set<ConnId>)
    requires Handles(s)
    ensures Handles(Next(s, Register(now, overflow)))
  {
    if s.opening.Held? {
      var t := PruneTombstones(s.t, now, overflow);
      HandlesPrune(s.t, s.opening, s.minted, s.bound, now, overflow);
      match s.opening.reservation
      case Some(res) => HandlesBind(t, s.opening, Registered(res.id, Some(res.endpoint)), s.minted, s.bound);
      case None => HandlesFresh(t, s.opening, Registered(t.nextId + 1, None), s.minted, s.bound, s.opening.device, s.opening.direction);
    }
  }

  lemma HandlesNext(s: Sys, ev: Event)
    requires Handles(s)
    ensures Handles(Next(s, ev))
  {
    match ev
    case Reserve(ep, now, overflow) =>
      HandlesPrune(s.t, s.opening, s.minted, s.bound, now, overflow);
      HandlesReserve(s.(t := PruneTombstones(s.t, now, overflow)), ep);
    case TakeForEndpoint => HandlesTake(s, ev);
    case TakeForDevice(_) => HandlesTake(s, ev);
    case Register(now, overflow) => HandlesRegister(s, now, overflow);
    case Gone(id, now, overflow) => HandlesGone(s, id, now, overflow);
    case Transmit(id, now, overflow) => HandlesTransmit(s, id, now, overflow);
    case _ =>
  }

  lemma HandlesTake(s: Sys, ev: Event)
    requires Handles(s) && (ev.TakeForEndpoint? || ev.TakeForDevice?)
    ensures Handles(Next(s, ev))
  {
    if ev.TakeForEndpoint? {
      if s.opening.Begun? && s.opening.target.Some? {
        HandlesConsume(s, PrefixOf(s.opening.target.value), Next(s, ev).opening);
      }
    } else if s.opening.Missed? && HintFits(s.t, s.opening.device, ev.hint) && ev.hint.Some? {
      HandlesConsume(s, ev.hint.value, Next(s, ev).opening);
    }
  }

  lemma HandlesTransmit(s: Sys, id: ConnId, now: int, overflow: set<ConnId>)
    requires Handles(s)
    ensures Handles(Next(s, Transmit(id, now, overflow)))
  {
    HandlesPrune(s.t, s.opening, s.minted, s.bound, now, overflow);
  }

  lemma HandlesGone(s: Sys, id: ConnId, now: int, overflow: set<ConnId>)
    requires Handles(s)
    ensures Handles(Next(s, Gone(id, now, overflow)))
  {
    HandlesPrune(s.t, s.opening, s.minted, s.bound, now, overflow);
  }

  /**
   Handle discipline over every run: reservations and reserved handles are mutual
   inverses, every handle is non-zero and minted once, no handle is in two places,
   and none is given to a second pipe.
   */
  lemma {:induction false} HandleDiscipline(me: EndpointId, events: seq<Event>)
    ensures Handles(Run(Start(me), events))
  {
    if events != [] {
      HandleDiscipline(me, events[..|events| - 1]);
      HandlesNext(Run(Start(me), events[..|events| - 1]), events[|events| - 1]);
    }
  }

  /** A handle is in at most one of: reserved, in the driver's hand, live pipe, tombstone. */
  lemma OnePlace(me: EndpointId, events: seq<Event>, id: ConnId)
    ensures var s := Run(Start(me), events);
            Bit(id in s.t.reservedIds) + Bit(id in InHand(s.opening)) + Bit(id in s.t.pipes) + Bit(id in s.t.tombstones) <= 1
  {
    HandleDiscipline(me, events);
  }

  /** The driver never registers a reserved handle that a live pipe already carries. */
  lemma NoCollision(me: EndpointId, events: seq<Event>)
    ensures var s := Run(Start(me), events);
            s.opening.Held? && s.opening.reservation.Some? ==> s.opening.reservation.value.id !in s.t.pipes
  {
    HandleDiscipline(me, events);
  }

  // ---------- pools ----------

  ghost predicate PoolsOk(s: Sys) {
    && s.leaving <= s.t.pipes.Keys
    && (s.opening.Registered? ==>
          s.opening.id in s.t.pipes && s.opening.id !in s.leaving && s.opening.id !in s.t.pending && s.opening.id !in s.owner)
    && (forall id :: id in s.t.pending ==> id in s.t.pipes && id !in s.leaving)
    && (forall ep :: ep in s.t.routable ==> RoutableOk(s, ep))
    && (forall id :: id in s.owner ==> id in s.bound)
  }

  /** An authenticated pipe, no longer pending, and live unless it was promoted while leaving. */
  ghost predicate RoutableOk(s: Sys, ep: EndpointId)
    requires ep in s.t.routable
  {
    var id := s.t.routable[ep].pipe;
    && id in s.owner && s.owner[id] == ep && id !in s.t.pending
    && (id in s.late || (id in s.t.pipes && id !in s.leaving))
    && (id in s.t.pipes ==> s.t.routable[ep].dialer == ComputeDialer(s.me, ep, s.t.pipes[id].direction))
  }

  /** What a step must leave alone for a routable entry to stay in order. */
  ghost predicate Spares(s: Sys, r: Sys, ep: EndpointId)
    requires ep in s.t.routable
  {
    var id := s.t.routable[ep].pipe;
    && ep in r.t.routable && r.t.routable[ep] == s.t.routable[ep] && r.me == s.me
    && (id in s.owner ==> id in r.owner && r.owner[id] == s.owner[id])
    && (id in r.t.pending ==> id in s.t.pending)
    && (id in s.late ==> id in r.late)
    && (id in s.t.pipes && id !in s.leaving ==> id in r.t.pipes && id !in r.leaving)
    && (id in r.t.pipes ==> id in s.t.pipes && r.t.pipes[id] == s.t.pipes[id])
  }

  lemma Spared(s: Sys, r: Sys, ep: EndpointId)
    requires ep in s.t.routable && RoutableOk(s, ep) && Spares(s, r, ep)
    ensures RoutableOk(r, ep)
  {
  }

  ghost predicate AddsPipe(s: Sys, r: Sys, id: ConnId) {
    && id !in s.bound && r.bound == s.bound + [id]
    && r.t.pipes.Keys == s.t.pipes.Keys + {id} && (forall x :: x in s.t.pipes ==> r.t.pipes[x] == s.t.pipes[x])
    && r.t.pending == s.t.pending && r.t.routable == s.t.routable
    && r.me == s.me && r.owner == s.owner && r.leaving == s.leaving && r.late == s.late
    && r.opening.Registered? && r.opening.id == id
  }

  lemma PoolsAdd(s: Sys, r: Sys, id: ConnId)
    requires Handles(s) && PoolsOk(s) && AddsPipe(s, r, id)
    ensures PoolsOk(r)
  {
    assert id !in s.t.pipes && id !in s.t.pending && id !in s.owner;
    forall ep | ep in r.t.routable
      ensures RoutableOk(r, ep)
    {
      assert RoutableOk(s, ep);
      Spared(s, r, ep);
    }
  }

  lemma RegisterAdds(s: Sys, now: int, overflow: set<ConnId>)
    requires Handles(s) && s.opening.Held?
    ensures var r := RegisterHeld(s, now, overflow); r.opening.Registered? && AddsPipe(s, r, r.opening.id)
  {
    var r := RegisterHeld(s, now, overflow);
    var id := if s.opening.reservation.Some? then s.opening.reservation.value.id else s.t.nextId + 1;
    assert s.opening.reservation.Some? ==> id in InHand(s.opening);
    assert id !in s.bound;
    assert r.opening.id == id;
    assert r.t.pipes == s.t.pipes[id := Pipe(s.opening.device, s.opening.direction)];
    assert id !in s.t.pipes;
  }

  lemma PoolsRegister(s: Sys, now: int, overflow: set<ConnId>)
    requires Handles(s) && PoolsOk(s)
    ensures PoolsOk(RegisterHeld(s, now, overflow))
  {
    if s.opening.Held? {
      RegisterAdds(s, now, overflow);
      var r := RegisterHeld(s, now, overflow);
      PoolsAdd(s, r, r.opening.id);
    }
  }

  lemma PoolsHandshake(s: Sys, id: ConnId, ep: EndpointId)
    requires Handles(s) && PoolsOk(s)
    ensures PoolsOk(Next(s, Handshake(id, ep)))
  {
    var r := Next(s, Handshake(id, ep));
    forall x | x in r.t.routable
      ensures RoutableOk(r, x)
    {
      if x != ep || !Promotes(s.t, id, s.me, ep) || !MayHandshake(s, id, ep) {
        assert RoutableOk(s, x);
        Spared(s, r, x);
      }
    }
  }

  lemma PoolsLeave(s: Sys, id: ConnId)
    requires Handles(s) && PoolsOk(s)
    ensures PoolsOk(Next(s, Leave(id)))
  {
    var r := Next(s, Leave(id));
    forall ep | ep in r.t.routable
      ensures RoutableOk(r, ep)
    {
      assert RoutableOk(s, ep);
      Spared(s, r, ep);
    }
  }

  lemma PoolsGone(s: Sys, id: ConnId, now: int, overflow: set<ConnId>)
    requires Handles(s) && PoolsOk(s)
    ensures PoolsOk(Next(s, Gone(id, now, overflow)))
  {
    var r := Next(s, Gone(id, now, overflow));
    forall ep | ep in r.t.routable
      ensures RoutableOk(r, ep)
    {
      assert RoutableOk(s, ep);
      Spared(s, r, ep);
    }
  }

  lemma PoolsEnter(s: Sys)
    requires Handles(s) && PoolsOk(s)
    ensures PoolsOk(Next(s, Enter))
  {
    var r := Next(s, Enter);
    forall ep | ep in r.t.routable
      ensures RoutableOk(r, ep)
    {
      assert RoutableOk(s, ep);
      Spared(s, r, ep);
    }
  }

  /** Pipes and the pending pool stay, and routable entries are at most removed. */
  ghost predicate OnlyRemoves(s: Sys, r: Sys) {
    && r.t.pipes == s.t.pipes && r.t.pending == s.t.pending && r.owner == s.owner && r.bound == s.bound
    && r.leaving == s.leaving && r.late == s.late && r.me == s.me
    && (forall ep :: ep in r.t.routable ==> ep in s.t.routable && r.t.routable[ep] == s.t.routable[ep])
    && (r.opening.Registered? ==> r.opening == s.opening)
  }

  lemma PoolsRemove(s: Sys, r: Sys)
    requires PoolsOk(s) && OnlyRemoves(s, r)
    ensures PoolsOk(r)
  {
    forall ep | ep in r.t.routable
      ensures RoutableOk(r, ep)
    {
      assert RoutableOk(s, ep);
      Spared(s, r, ep);
    }
  }

  predicate Minor(ev: Event) {
    !ev.Register? && !ev.Handshake? && !ev.Leave? && !ev.Gone? && !ev.Enter?
  }

  lemma MinorRemoves(s: Sys, ev: Event)
    requires Minor(ev)
    ensures OnlyRemoves(s, Next(s, ev))
  {
  }

  lemma PoolsNext(s: Sys, ev: Event)
    requires Handles(s) && PoolsOk(s)
    ensures PoolsOk(Next(s, ev))
  {
    match ev
    case Register(now, overflow) => PoolsRegister(s, now, overflow);
    case Handshake(id, ep) => PoolsHandshake(s, id, ep);
    case Leave(id) => PoolsLeave(s, id);
    case Gone(id, now, overflow) => PoolsGone(s, id, now, overflow);
    case Enter => PoolsEnter(s);
    case _ =>
      MinorRemoves(s, ev);
      PoolsRemove(s, Next(s, ev));
  }

  lemma {:induction false} PoolDiscipline(me: EndpointId, events: seq<Event>)
    ensures PoolsOk(Run(Start(me), events))
  {
    if events != [] {
      PoolDiscipline(me, events[..|events| - 1]);
      HandleDiscipline(me, events[..|events| - 1]);
      PoolsNext(Run(Start(me), events[..|events| - 1]), events[|events| - 1]);
    }
  }

  // ---------- what an event does to one route ----------

  /** Promoting another endpoint's pipe leaves `peer`'s entry alone. */
  lemma OthersLeaveAlone(s: Sys, id: ConnId, ep: EndpointId, peer: EndpointId)
    requires PoolsOk(s) && peer in s.t.routable && ep != peer && MayHandshake(s, id, ep)
    ensures var t := Promote(s.t, id, s.me, ep).0; peer in t.routable && t.routable[peer] == s.t.routable[peer]
  {
    assert RoutableOk(s, peer);
    assert ep in s.t.routable ==> RoutableOk(s, ep);
  }

  lemma QuietLog(s: Sys, ev: Event)
    requires !ev.Handshake?
    ensures Next(s, ev).log == s.log && Next(s, ev).me == s.me && Next(s, ev).owner == s.owner
  {
  }

  /** Without a handshake a route at most disappears. */
  lemma QuietShrinks(s: Sys, ev: Event, ep: EndpointId)
    requires !ev.Handshake?
    ensures ep in Next(s, ev).t.routable ==> ep in s.t.routable && Next(s, ev).t.routable[ep] == s.t.routable[ep]
  {
    if Minor(ev) {
      MinorRemoves(s, ev);
    }
  }

  /** And it disappears only when its own pipe leaves or its connection closes. */
  lemma QuietRoute(s: Sys, ev: Event, ep: EndpointId)
    requires !ev.Handshake? && ep in s.t.routable
    requires ev.Leave? ==> ev.id != s.t.routable[ep].pipe
    requires ev.ConnectionClosed? && ev.endpoint == ep ==> ev.id != s.t.routable[ep].pipe
    ensures var r := Next(s, ev); ep in r.t.routable && r.t.routable[ep] == s.t.routable[ep]
  {
  }

  // ---------- routes left behind ----------

  /** A route to a pipe that is gone. */
  predicate Dangling(s: Sys, ep: EndpointId, id: ConnId) {
    ep in s.t.routable && s.t.routable[ep].pipe == id && id !in s.t.pipes
  }

  /** The event puts `id` on the route to `ep` while `id` is leaving. */
  predicate PromotesLate(s: Sys, ev: Event, ep: EndpointId, id: ConnId) {
    ev == Handshake(id, ep) && MayHandshake(s, id, ep) && Promotes(s.t, id, s.me, ep) && id in s.leaving
  }

  /** The event evicts the route to `ep` over a pipe that has left: its connection closed, or another pipe took over. */
  predicate Evicts(s: Sys, ev: Event, ep: EndpointId, id: ConnId) {
    || ev == ConnectionClosed(ep, id)
    || (ev.Handshake? && ev.endpoint == ep && ev.id != id && MayHandshake(s, ev.id, ep) && Promotes(s.t, ev.id, s.me, ep))
  }

  /** `id` was promoted to `ep` while leaving, and the route was not evicted since. */
  predicate LateAndKept(me: EndpointId, events: seq<Event>, ep: EndpointId, id: ConnId) {
    if events == [] then false
    else
      var init, ev := events[..|events| - 1], events[|events| - 1];
      var s := Run(Start(me), init);
      PromotesLate(s, ev, ep, id) || (LateAndKept(me, init, ep, id) && !Evicts(s, ev, ep, id))
  }

  /** A route over a pipe that is leaving or gone. */
  predicate Stale(s: Sys, ep: EndpointId, id: ConnId) {
    ep in s.t.routable && s.t.routable[ep].pipe == id && (id in s.leaving || id !in s.t.pipes)
  }

  lemma StaleHandshake(s: Sys, x: ConnId, p: EndpointId, ep: EndpointId, id: ConnId)
    requires PoolsOk(s)
    ensures var ev := Handshake(x, p);
            Stale(Next(s, ev), ep, id) <==> PromotesLate(s, ev, ep, id) || (Stale(s, ep, id) && !Evicts(s, ev, ep, id))
  {
    if MayHandshake(s, x, p) && p != ep && ep in s.t.routable {
      OthersLeaveAlone(s, x, p, ep);
    }
  }

  lemma StaleQuiet(s: Sys, ev: Event, ep: EndpointId, id: ConnId)
    requires Handles(s) && PoolsOk(s) && !ev.Handshake?
    ensures Stale(Next(s, ev), ep, id) <==> Stale(s, ep, id) && ev != ConnectionClosed(ep, id)
  {
    QuietShrinks(s, ev, ep);
    if ep in s.t.routable && s.t.routable[ep].pipe == id {
      assert RoutableOk(s, ep);
      PipeStays(s, ev, id);
      if Stale(s, ep, id) && ev != ConnectionClosed(ep, id) && !(ev == Leave(id)) {
        QuietRoute(s, ev, ep);
      }
    }
  }

  /** A pipe that was ever given a handle comes back in no way, and leaves only by its own events. */
  lemma PipeStays(s: Sys, ev: Event, id: ConnId)
    requires Handles(s) && PoolsOk(s) && id in s.bound && !ev.Handshake?
    ensures var r := Next(s, ev);
            && (id !in s.t.pipes ==> id !in r.t.pipes)
            && (id in s.leaving ==> id in r.leaving || id !in r.t.pipes)
            && (id in s.t.pipes && id !in s.leaving && ev != Leave(id) ==> id in r.t.pipes && id !in r.leaving)
  {
    if ev.Register? && s.opening.Held? {
      RegisterAdds(s, ev.now, ev.overflow);
    } else if Minor(ev) {
      MinorRemoves(s, ev);
    }
  }

  lemma {:induction false} StaleExactly(me: EndpointId, events: seq<Event>, ep: EndpointId, id: ConnId)
    ensures Stale(Run(Start(me), events), ep, id) <==> LateAndKept(me, events, ep, id)
  {
    if events != [] {
      var init, ev := events[..|events| - 1], events[|events| - 1];
      StaleExactly(me, init, ep, id);
      HandleDiscipline(me, init);
      PoolDiscipline(me, init);
      if ev.Handshake? {
        StaleHandshake(Run(Start(me), init), ev.id, ev.endpoint, ep, id);
      } else {
        StaleQuiet(Run(Start(me), init), ev, ep, id);
      }
    }
  }

  /**
   Exactly when the table routes to a pipe that is gone: the pipe was promoted between
   its worker leaving the pools and the pipe being evicted, it is gone, and neither its
   connection has closed nor another pipe taken over since.
   */
  lemma DanglingExactly(me: EndpointId, events: seq<Event>, ep: EndpointId, id: ConnId)
    ensures Dangling(Run(Start(me), events), ep, id) <==> LateAndKept(me, events, ep, id) && id !in Run(Start(me), events).t.pipes
  {
    StaleExactly(me, events, ep, id);
  }

  /** The pending pool never holds a pipe that is gone. */
  lemma PendingIsLive(me: EndpointId, events: seq<Event>, id: ConnId)
    ensures var s := Run(Start(me), events); id in s.t.pending ==> id in s.t.pipes && id !in s.leaving
  {
    PoolDiscipline(me, events);
  }

  /** One run that leaves such a route: a pipe is opened, leaves, completes a handshake and goes. */
  function LateRun(ep: EndpointId): seq<Event> {
    OPENING + [Leave(1), Handshake(1, ep), Gone(1, 0, {})]
  }

  const OPENING: seq<Event> := [Begin(None, 1, Inbound), TakeForEndpoint, TakeForDevice(None), Register(0, {}), Enter]

  lemma RunSnoc(s: Sys, events: seq<Event>, ev: Event)
    ensures Run(s, events + [ev]) == Next(Run(s, events), ev)
  {
    assert (events + [ev])[..|events|] == events;
  }

  lemma LateRunOpens(me: EndpointId)
    ensures var s := Run(Start(me), OPENING);
            s.t == EMPTY_TABLE.(pipes := map[1 := Pipe(1, Inbound)], pending := map[1 := None], nextId := 1)
            && s.me == me && s.opening.Idle? && s.leaving == {} && s.owner == map[]
  {
    var s0 := Start(me);
    var s1 := Next(s0, OPENING[0]);
    var s2 := Next(s1, OPENING[1]);
    var s3 := Next(s2, OPENING[2]);
    var s4 := Next(s3, OPENING[3]);
    assert OPENING == [] + [OPENING[0]] + [OPENING[1]] + [OPENING[2]] + [OPENING[3]] + [OPENING[4]];
    RunSnoc(s0, [], OPENING[0]);
    RunSnoc(s0, [] + [OPENING[0]], OPENING[1]);
    RunSnoc(s0, [] + [OPENING[0]] + [OPENING[1]], OPENING[2]);
    RunSnoc(s0, [] + [OPENING[0]] + [OPENING[1]] + [OPENING[2]], OPENING[3]);
    RunSnoc(s0, [] + [OPENING[0]] + [OPENING[1]] + [OPENING[2]] + [OPENING[3]], OPENING[4]);
    assert s3.opening == Held(None, 1, Inbound);
    assert s4.t.pipes == map[1 := Pipe(1, Inbound)] && s4.t.tombstones == map[];
  }

  /** Such a run exists, whoever the two endpoints are. */
  lemma LateRunDangles(me: EndpointId, ep: EndpointId)
    ensures Dangling(Run(Start(me), LateRun(ep)), ep, 1)
  {
    LateRunOpens(me);
    var s := Run(Start(me), OPENING);
    var s1 := Next(s, Leave(1));
    var s2 := Next(s1, Handshake(1, ep));
    assert LateRun(ep) == OPENING + [Leave(1)] + [Handshake(1, ep)] + [Gone(1, 0, {})];
    RunSnoc(Start(me), OPENING, Leave(1));
    RunSnoc(Start(me), OPENING + [Leave(1)], Handshake(1, ep));
    RunSnoc(Start(me), OPENING + [Leave(1)] + [Handshake(1, ep)], Gone(1, 0, {}));
    assert Promotes(s1.t, 1, me, ep);
  }
}
