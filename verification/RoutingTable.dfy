/** The routing table as the object the driver, the resolver and the handshake hook share. */
module RoutingTables {
  import opened Wire
  import opened Identity
  import opened Dedup
  import opened Peers
  import Spec = RoutingSpec

  datatype Contender = Contender(pipe: ConnId, dialer: Dialer)

  /** The pipes in a list of contenders. */
  function PipesOf(cs: seq<Contender>): set<ConnId> {
    set i | 0 <= i < |cs| :: cs[i].pipe
  }

  class Routing {
    var pipes: map<ConnId, Spec.Pipe>
    var tombstones: map<ConnId, Spec.Tombstone>
    var scanHint: map<KeyPrefix, DeviceId>
    var pending: map<ConnId, Option<EndpointId>>
    var routable: map<EndpointId, Spec.Routable>
    var reservations: map<KeyPrefix, Spec.Reservation>
    var reservedIds: map<ConnId, KeyPrefix>
    var nextId: nat

    ghost function View(): Spec.Table
      reads this
    {
      Spec.Table(pipes, tombstones, scanHint, pending, routable, reservations, reservedIds, nextId)
    }

    /** No pipe is routable for two endpoints. */
    ghost predicate Valid()
      reads this
    {
      forall x, y :: x in routable && y in routable && x != y ==> routable[x].pipe != routable[y].pipe
    }

    constructor ()
      ensures Valid() && View() == Spec.EMPTY_TABLE
    {
      pipes, tombstones, scanHint, pending := map[], map[], map[], map[];
      routable, reservations, reservedIds, nextId := map[], map[], map[], 0;
    }

    /** Drops expired tombstones, then the oldest ones beyond the limit; the newest survive. */
    method PruneTombstones(now: int) returns (overflow: set<ConnId>)
      modifies this`tombstones
      ensures View() == Spec.PruneTombstones(old(View()), now, overflow)
      ensures |tombstones| <= Spec.MAX_PIPE_TOMBSTONES
      ensures |tombstones| < Spec.MAX_PIPE_TOMBSTONES ==> overflow == {}
      ensures overflow <= old(tombstones).Keys
      ensures exists cut :: Older(old(tombstones), overflow, cut) && Younger(tombstones, cut)
    {
      tombstones := map id | id in tombstones && now - tombstones[id].evictedAt <= Spec.PIPE_TOMBSTONE_TTL :: tombstones[id];
      overflow := DropOverflow();
    }

    method DropOverflow() returns (overflow: set<ConnId>)
      modifies this`tombstones
      ensures overflow <= old(tombstones).Keys && tombstones == old(tombstones) - overflow
      ensures |tombstones| <= Spec.MAX_PIPE_TOMBSTONES
      ensures |tombstones| < Spec.MAX_PIPE_TOMBSTONES ==> overflow == {}
      ensures exists cut :: Older(old(tombstones), overflow, cut) && Younger(tombstones, cut)
    {
      overflow := {};
      ghost var cut := 0;
      if |tombstones| > Spec.MAX_PIPE_TOMBSTONES {
        var oldest := OldestTombstone();
        cut := tombstones[oldest].evictedAt;
      } else {
        cut := LowerBound(tombstones);
      }
      while |tombstones| > Spec.MAX_PIPE_TOMBSTONES
        invariant overflow <= old(tombstones).Keys && tombstones == old(tombstones) - overflow
        invariant overflow != {} ==> |tombstones| >= Spec.MAX_PIPE_TOMBSTONES
        invariant Older(old(tombstones), overflow, cut) && Younger(tombstones, cut)
        decreases |tombstones|
      {
        var oldest := OldestTombstone();
        cut := tombstones[oldest].evictedAt;
        DropStep(old(tombstones), overflow, tombstones, oldest);
        tombstones := tombstones - {oldest};
        overflow := overflow + {oldest};
      }
    }

    method OldestTombstone() returns (oldest: ConnId)
      requires |tombstones| > 0
      ensures oldest in tombstones && forall id :: id in tombstones ==> tombstones[oldest].evictedAt <= tombstones[id].evictedAt
    {
      assert tombstones.Keys != {};
      oldest :| oldest in tombstones.Keys;
      var left := tombstones.Keys;
      while left != {}
        invariant left <= tombstones.Keys && oldest in tombstones
        invariant forall id :: id in tombstones && id !in left ==> tombstones[oldest].evictedAt <= tombstones[id].evictedAt
      {
        var id :| id in left;
        left := left - {id};
        if tombstones[id].evictedAt < tombstones[oldest].evictedAt {
          oldest := id;
        }
      }
    }

    method RegisterPipe(device: DeviceId, direction: Direction, now: int) returns (id: ConnId, ghost overflow: set<ConnId>)
      modifies this
      ensures View() == Spec.RegisterPipe(Spec.PruneTombstones(old(View()), now, overflow), device, direction)
      ensures id == old(nextId) + 1
    {
      id := nextId + 1;
      nextId := id;
      overflow := PruneTombstones(now);
      pipes := pipes[id := Spec.Pipe(device, direction)];
    }

    method RegisterPipeWithId(id: ConnId, device: DeviceId, direction: Direction, now: int) returns (ghost overflow: set<ConnId>)
      requires id !in pipes
      modifies this
      ensures View() == Spec.RegisterPipeWithId(Spec.PruneTombstones(old(View()), now, overflow), id, device, direction)
    {
      overflow := PruneTombstones(now);
      tombstones := tombstones - {id};
      pipes := pipes[id := Spec.Pipe(device, direction)];
    }

    method EvictPipe(id: ConnId, now: int) returns (ghost overflow: set<ConnId>)
      modifies this
      ensures View() == if id in old(pipes) then Spec.EvictPipe(Spec.PruneTombstones(old(View()), now, overflow), id, now)
                        else old(View())
    {
      overflow := {};
      if id in pipes {
        var pipe := pipes[id];
        pipes := pipes - {id};
        overflow := PruneTombstones(now);
        tombstones := tombstones[id := Spec.Tombstone(pipe, now, 0)];
      }
    }

    method ReserveOutbound(ep: EndpointId, now: int) returns (id: ConnId, ghost overflow: set<ConnId>)
      modifies this
      ensures View() == Spec.ReserveOutbound(Spec.PruneTombstones(old(View()), now, overflow), ep)
      ensures PrefixOf(ep) in reservations && id == reservations[PrefixOf(ep)].id
    {
      var p := PrefixOf(ep);
      overflow := PruneTombstones(now);
      if p in reservations {
        return reservations[p].id, overflow;
      }
      id := nextId + 1;
      nextId := id;
      reservations := reservations[p := Spec.Reservation(id, ep)];
      reservedIds := reservedIds[id := p];
    }

    method ConsumeReservationForPrefix(p: KeyPrefix) returns (r: Option<Spec.Reservation>)
      modifies this
      ensures (View(), r) == Spec.ConsumeReservation(old(View()), p)
    {
      if p !in reservations {
        return None;
      }
      var res := reservations[p];
      reservations := reservations - {p};
      reservedIds := reservedIds - {res.id};
      tombstones := tombstones - {res.id};
      r := Some(res);
    }

    /** Finds a prefix last seen advertising from `device`. */
    method PrefixForDevice(device: DeviceId) returns (hint: Option<KeyPrefix>)
      ensures hint.Some? ==> hint.value in scanHint && scanHint[hint.value] == device
      ensures hint.None? ==> forall p :: p in scanHint ==> scanHint[p] != device
    {
      var left := scanHint.Keys;
      while left != {}
        invariant forall p :: p in scanHint && p !in left ==> scanHint[p] != device
      {
        var p :| p in left;
        if p in scanHint && scanHint[p] == device {
          return Some(p);
        }
        left := left - {p};
      }
      hint := None;
    }

    method ConsumeReservationForDevice(device: DeviceId) returns (r: Option<Spec.Reservation>, hint: Option<KeyPrefix>)
      modifies this
      ensures hint.Some? ==> hint.value in old(scanHint) && old(scanHint)[hint.value] == device
      ensures hint.None? ==> forall p :: p in old(scanHint) ==> old(scanHint)[p] != device
      ensures (View(), r) == if hint.Some? then Spec.ConsumeReservation(old(View()), hint.value) else (old(View()), None)
    {
      hint := PrefixForDevice(device);
      r := None;
      if hint.Some? {
        r := ConsumeReservationForPrefix(hint.value);
      }
    }

    method RegisterPending(id: ConnId, target: Option<EndpointId>)
      modifies this
      ensures View() == Spec.RegisterPending(old(View()), id, target)
    {
      pending := pending[id := target];
    }

    method EvictRoutableIfPipe(ep: EndpointId, id: ConnId)
      requires Valid()
      modifies this
      ensures Valid() && View() == Spec.EvictRoutableIfPipe(old(View()), ep, id)
    {
      if ep in routable && routable[ep].pipe == id {
        routable := routable - {ep};
      }
    }

    method EndpointOf(id: ConnId) returns (ep: Option<EndpointId>)
      ensures ep.Some? ==> ep.value in routable && routable[ep.value].pipe == id
      ensures ep.None? ==> forall x :: x in routable ==> routable[x].pipe != id
    {
      var left := routable.Keys;
      while left != {}
        invariant forall x :: x in routable && x !in left ==> routable[x].pipe != id
      {
        var x :| x in left;
        if x in routable && routable[x].pipe == id {
          return Some(x);
        }
        left := left - {x};
      }
      ep := None;
    }

    method EvictPipeState(id: ConnId) returns (removed: bool)
      requires Valid()
      modifies this
      ensures Valid() && View() == Spec.EvictPipeState(old(View()), id)
      ensures removed <==> View() != old(View())
    {
      removed := id in pending;
      pending := pending - {id};
      var ep := EndpointOf(id);
      ghost var was := routable;
      if ep.Some? {
        routable := routable - {ep.value};
        removed := true;
      }
      assert routable == map x | x in was && was[x].pipe != id :: was[x];
      assert ep.Some? ==> ep.value in was && ep.value !in routable;
    }

    /** Everyone else in line for `ep`: the incumbent, and the live pipes pending toward it. */
    method Contenders(id: ConnId, me: EndpointId, ep: EndpointId) returns (cs: seq<Contender>)
      ensures PipesOf(cs) == Spec.Rivals(View(), id, ep)
      ensures (exists i :: 0 <= i < |cs| && cs[i].dialer == High) <==> Spec.AnyHigh(View(), id, me, ep)
    {
      cs := [];
      if ep in routable && routable[ep].pipe != id {
        cs := [Contender(routable[ep].pipe, routable[ep].dialer)];
      }
      ghost var first := cs;
      var left := pending.Keys;
      while left != {}
        invariant left <= pending.Keys && |first| <= |cs| && cs[..|first|] == first
        invariant forall i :: |first| <= i < |cs| ==>
                    cs[i].pipe !in left && Spec.Aspires(View(), id, ep, cs[i].pipe)
                    && cs[i].dialer == ComputeDialer(me, ep, pipes[cs[i].pipe].direction)
        invariant forall x :: x in pending && x !in left && Spec.Aspires(View(), id, ep, x) ==>
                    exists i :: |first| <= i < |cs| && cs[i].pipe == x
      {
        var x :| x in left;
        left := left - {x};
        if x != id && pending[x] == Some(ep) && x in pipes {
          ghost var before := cs;
          cs := cs + [Contender(x, ComputeDialer(me, ep, pipes[x].direction))];
          assert cs[|before|].pipe == x;
          assert forall i :: 0 <= i < |before| ==> cs[i] == before[i];
        }
      }
      assert forall i :: 0 <= i < |first| ==> cs[i] == first[i];
      assert Spec.Incumbent(View(), id, ep) ==> cs[0] == Contender(routable[ep].pipe, routable[ep].dialer);
    }

    /** Removes one loser from whichever pool holds it. */
    method EvictLoser(id: ConnId)
      requires Valid()
      modifies this`pending, this`routable
      ensures Valid() && pending == old(pending) - {id}
      ensures routable == map x | x in old(routable) && old(routable)[x].pipe != id :: old(routable)[x]
    {
      pending := pending - {id};
      var ep := EndpointOf(id);
      if ep.Some? {
        routable := routable - {ep.value};
      }
    }

    /** Removes the losers from both pools. */
    method EvictLosers(cs: seq<Contender>) returns (evicted: seq<ConnId>)
      requires Valid()
      modifies this`pending, this`routable
      ensures Valid() && pending == old(pending) - PipesOf(cs)
      ensures routable == map x | x in old(routable) && old(routable)[x].pipe !in PipesOf(cs) :: old(routable)[x]
      ensures |evicted| == |cs| && forall i :: 0 <= i < |cs| ==> evicted[i] == cs[i].pipe
    {
      evicted := [];
      var i := 0;
      while i < |cs|
        invariant 0 <= i <= |cs| && Valid()
        invariant |evicted| == i && forall j :: 0 <= j < i ==> evicted[j] == cs[j].pipe
        invariant pending == old(pending) - PipesOf(cs[..i])
        invariant routable == map x | x in old(routable) && old(routable)[x].pipe !in PipesOf(cs[..i]) :: old(routable)[x]
      {
        EvictLoser(cs[i].pipe);
        evicted := evicted + [cs[i].pipe];
        PipesSnoc(cs, i);
        i := i + 1;
      }
      assert cs[..i] == cs;
    }

    /**
     The promotion rule. Each pipe authenticates as one endpoint, so `id` is not
     routable for another one.
     */
    method Promote(id: ConnId, me: EndpointId, ep: EndpointId) returns (evicted: Option<seq<ConnId>>)
      requires Valid() && forall x :: x in routable && x != ep ==> routable[x].pipe != id
      modifies this
      ensures Valid()
      ensures View() == Spec.Promote(old(View()), id, me, ep).0
      ensures evicted.Some? <==> Spec.Promotes(old(View()), id, me, ep)
      ensures evicted.Some? ==> (set x | x in evicted.value) == Spec.Rivals(old(View()), id, ep)
    {
      if id !in pipes {
        return None;
      }
      var dialer := ComputeDialer(me, ep, pipes[id].direction);
      var cs := Contenders(id, me, ep);
      var anyHigh := false;
      for i := 0 to |cs|
        invariant anyHigh <==> exists j :: 0 <= j < i && cs[j].dialer == High
      {
        anyHigh := anyHigh || cs[i].dialer == High;
      }
      assert cs == [] <==> PipesOf(cs) == {} by {
        if cs != [] {
          assert cs[0].pipe in PipesOf(cs);
        }
      }
      if Spec.Decide(dialer, cs != [], anyHigh).Reject? {
        return None;
      }
      var losers := EvictLosers(cs);
      pending := pending - {id};
      routable := routable[ep := Spec.Routable(id, dialer)];
      evicted := Some(losers);
      assert (set x | x in losers) == PipesOf(cs) by {
        assert forall i :: 0 <= i < |cs| ==> losers[i] == cs[i].pipe;
      }
    }
  }

  /** None of `ids` was evicted after `cut`. */
  ghost predicate Older(tombstones: map<ConnId, Spec.Tombstone>, ids: set<ConnId>, cut: int) {
    forall id :: id in ids && id in tombstones ==> tombstones[id].evictedAt <= cut
  }

  /** All of them were evicted at `cut` or later. */
  ghost predicate Younger(tombstones: map<ConnId, Spec.Tombstone>, cut: int) {
    forall id :: id in tombstones ==> cut <= tombstones[id].evictedAt
  }

  lemma {:induction false} LowerBound(tombstones: map<ConnId, Spec.Tombstone>) returns (cut: int)
    ensures Younger(tombstones, cut)
    decreases |tombstones|
  {
    if tombstones == map[] {
      cut := 0;
    } else {
      var id :| id in tombstones;
      var rest := tombstones - {id};
      assert rest.Keys == tombstones.Keys - {id};
      assert |rest.Keys| < |tombstones.Keys|;
      var low := LowerBound(rest);
      cut := Min(low, tombstones[id].evictedAt);
      assert forall x :: x in tombstones && x != id ==> x in rest && rest[x] == tombstones[x];
    }
  }

  lemma DropStep(all: map<ConnId, Spec.Tombstone>, dropped: set<ConnId>, kept: map<ConnId, Spec.Tombstone>, oldest: ConnId)
    requires dropped <= all.Keys && kept == all - dropped && oldest in kept
    ensures kept - {oldest} == all - (dropped + {oldest}) && |kept - {oldest}| == |kept| - 1
  {
    assert (kept - {oldest}).Keys == kept.Keys - {oldest};
    assert |(kept - {oldest}).Keys| == |kept.Keys| - 1;
  }

  lemma PipesSnoc(cs: seq<Contender>, i: nat)
    requires i < |cs|
    ensures PipesOf(cs[..i + 1]) == PipesOf(cs[..i]) + {cs[i].pipe}
  {
    forall x
      ensures x in PipesOf(cs[..i + 1]) <==> x in PipesOf(cs[..i]) + {cs[i].pipe}
    {
      if x in PipesOf(cs[..i + 1]) {
        var k :| 0 <= k < i + 1 && cs[..i + 1][k].pipe == x;
        if k < i {
          assert cs[..i][k].pipe == x;
        }
      }
      if x in PipesOf(cs[..i]) {
        var k :| 0 <= k < i && cs[..i][k].pipe == x;
        assert cs[..i + 1][k].pipe == x;
      }
      assert cs[..i + 1][i] == cs[i];
    }
  }
}
