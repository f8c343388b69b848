/**
 The routing table as a value: live pipes, tombstones, scan hints, the pending and
 routable pools, and outbound reservations. Times are in milliseconds.
 */
module RoutingSpec {
  import opened Wire
  import opened Identity
  import opened Dedup
  import opened Peers

  const PIPE_TOMBSTONE_TTL := 30000
  const MAX_PIPE_TOMBSTONES := 128

  datatype Pipe = Pipe(device: DeviceId, direction: Direction)
  datatype Routable = Routable(pipe: ConnId, dialer: Dialer)
  datatype Reservation = Reservation(id: ConnId, endpoint: EndpointId)
  datatype Tombstone = Tombstone(pipe: Pipe, evictedAt: int, dropped: nat)

  datatype Table = Table(
    pipes: map<ConnId, Pipe>,
    tombstones: map<ConnId, Tombstone>,
    scanHint: map<KeyPrefix, DeviceId>,
    pending: map<ConnId, Option<EndpointId>>,
    routable: map<EndpointId, Routable>,
    reservations: map<KeyPrefix, Reservation>,
    reservedIds: map<ConnId, KeyPrefix>,
    nextId: nat)

  const EMPTY_TABLE := Table(map[], map[], map[], map[], map[], map[], map[], 0)

  // ---------- tombstones ----------

  /** Forgets expired tombstones, and the `dropped` oldest beyond the limit. */
  function PruneTombstones(t: Table, now: int, overflow: set<ConnId>): Table {
    t.(tombstones := map id | id in t.tombstones && now - t.tombstones[id].evictedAt <= PIPE_TOMBSTONE_TTL
                              && id !in overflow :: t.tombstones[id])
  }

  // ---------- pipes and reservations ----------

  function RegisterPipe(t: Table, device: DeviceId, direction: Direction): Table {
    t.(nextId := t.nextId + 1, pipes := t.pipes[t.nextId + 1 := Pipe(device, direction)])
  }

  function RegisterPipeWithId(t: Table, id: ConnId, device: DeviceId, direction: Direction): Table {
    t.(tombstones := t.tombstones - {id}, pipes := t.pipes[id := Pipe(device, direction)])
  }

  function EvictPipe(t: Table, id: ConnId, now: int): Table {
    if id in t.pipes
    then t.(pipes := t.pipes - {id}, tombstones := t.tombstones[id := Tombstone(t.pipes[id], now, 0)])
    else t
  }

  function ReserveOutbound(t: Table, ep: EndpointId): Table {
    var p := PrefixOf(ep);
    if p in t.reservations then t
    else
      var id := t.nextId + 1;
      t.(nextId := id, reservations := t.reservations[p := Reservation(id, ep)], reservedIds := t.reservedIds[id := p])
  }

  function ConsumeReservation(t: Table, p: KeyPrefix): (Table, Option<Reservation>) {
    if p !in t.reservations then (t, None)
    else
      var res := t.reservations[p];
      (t.(reservations := t.reservations - {p}, reservedIds := t.reservedIds - {res.id}, tombstones := t.tombstones - {res.id}),
       Some(res))
  }

  // ---------- scan hints ----------

  /** Some routable pipe binds the prefix to another device. */
  predicate BoundElsewhere(t: Table, prefix: KeyPrefix, device: DeviceId) {
    exists ep :: ep in t.routable && PrefixOf(ep) == prefix && t.routable[ep].pipe in t.pipes
                 && t.pipes[t.routable[ep].pipe].device != device
  }

  function NoteScanHint(t: Table, prefix: KeyPrefix, device: DeviceId): Table {
    if BoundElsewhere(t, prefix, device) then t else t.(scanHint := t.scanHint[prefix := device])
  }

  // ---------- pools ----------

  function RegisterPending(t: Table, id: ConnId, target: Option<EndpointId>): Table {
    t.(pending := t.pending[id := target])
  }

  function EvictRoutableIfPipe(t: Table, ep: EndpointId, id: ConnId): Table {
    if ep in t.routable && t.routable[ep].pipe == id then t.(routable := t.routable - {ep}) else t
  }

  /** Removes the pipe from whichever pool holds it. */
  function EvictPipeState(t: Table, id: ConnId): Table {
    t.(pending := t.pending - {id},
       routable := map ep | ep in t.routable && t.routable[ep].pipe != id :: t.routable[ep])
  }

  // ---------- the promotion rule ----------

  datatype Decision = Accept | AcceptEvictingAll | Reject

  function Decide(new_: Dialer, rivals: bool, anyHigh: bool): Decision {
    if !rivals then Accept
    else if new_ == Low && anyHigh then Reject
    else AcceptEvictingAll
  }

  /** The routable pipe of `ep`, unless it is the one being promoted. */
  predicate Incumbent(t: Table, id: ConnId, ep: EndpointId) {
    ep in t.routable && t.routable[ep].pipe != id
  }

  /** A live pipe still pending toward `ep`. */
  predicate Aspires(t: Table, id: ConnId, ep: EndpointId, other: ConnId) {
    other in t.pending && other != id && t.pending[other] == Some(ep) && other in t.pipes
  }

  function Rivals(t: Table, id: ConnId, ep: EndpointId): set<ConnId> {
    (set other | other in t.pending && Aspires(t, id, ep, other))
    + (if Incumbent(t, id, ep) then {t.routable[ep].pipe} else {})
  }

  predicate AnyHigh(t: Table, id: ConnId, me: EndpointId, ep: EndpointId) {
    || (Incumbent(t, id, ep) && t.routable[ep].dialer == High)
    || (exists other :: other in t.pending && Aspires(t, id, ep, other) && ComputeDialer(me, ep, t.pipes[other].direction) == High)
  }

  predicate Promotes(t: Table, id: ConnId, me: EndpointId, ep: EndpointId) {
    && id in t.pipes
    && !Decide(ComputeDialer(me, ep, t.pipes[id].direction), Rivals(t, id, ep) != {}, AnyHigh(t, id, me, ep)).Reject?
  }

  /** The new table and the pipes to tear down; nothing changes when the promotion is rejected. */
  function Promote(t: Table, id: ConnId, me: EndpointId, ep: EndpointId): (r: (Table, Option<set<ConnId>>))
    ensures r.1.Some? <==> Promotes(t, id, me, ep)
  {
    if !Promotes(t, id, me, ep) then (t, None)
    else
      var rivals := Rivals(t, id, ep);
      var cleared := map x | x in t.routable && t.routable[x].pipe !in rivals :: t.routable[x];
      (t.(pending := t.pending - rivals - {id},
          routable := cleared[ep := Routable(id, ComputeDialer(me, ep, t.pipes[id].direction))]),
       Some(rivals))
  }
}
