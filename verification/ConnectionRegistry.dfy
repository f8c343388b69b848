/** The connection registry as the object that handshakes and pipe workers share. */
module ConnectionRegistries {
  import opened Wire
  import opened Identity
  import Spec = ConnsSpec

  class ConnectionRegistry {
    var buckets: map<Spec.Key, map<nat, Spec.Conn>>
    var closed: map<ConnId, Spec.Closed>
    var nextSeq: nat
    var nextWatch: nat

    ghost function View(): Spec.Conns
      reads this
    {
      Spec.Conns(buckets, closed, nextSeq, nextWatch)
    }

    /** Closes are numbered apart. */
    ghost predicate Valid()
      reads this
    {
      && (forall p :: p in closed ==> closed[p].seqNo < nextSeq)
      && Distinct(closed)
    }

    constructor ()
      ensures Valid() && View() == Spec.NO_CONNS
    {
      buckets, closed, nextSeq, nextWatch := map[], map[], 0, 0;
    }

    method OldestClose() returns (oldest: ConnId)
      requires |closed| > 0 && Distinct(closed)
      ensures oldest in closed && forall p :: p in closed && p != oldest ==> closed[oldest].seqNo < closed[p].seqNo
    {
      assert closed.Keys != {};
      oldest :| oldest in closed.Keys;
      var left := closed.Keys;
      while left != {}
        invariant left <= closed.Keys && oldest in closed
        invariant forall p :: p in closed && p !in left ==> closed[oldest].seqNo <= closed[p].seqNo
      {
        var p :| p in left;
        left := left - {p};
        if closed[p].seqNo < closed[oldest].seqNo {
          oldest := p;
        }
      }
    }

    /** Drops the oldest closes one by one until the limit is met. */
    method DropOldest() returns (ghost floor: nat)
      requires Distinct(closed)
      modifies this`closed
      ensures closed == From(old(closed), floor) && |closed| <= Spec.MAX_CLOSED_PIPES
      ensures closed == old(closed) || |closed| == Spec.MAX_CLOSED_PIPES
    {
      floor := 0;
      assert closed == From(closed, 0);
      while |closed| > Spec.MAX_CLOSED_PIPES
        invariant closed == From(old(closed), floor)
        invariant closed == old(closed) || |closed| >= Spec.MAX_CLOSED_PIPES
        decreases |closed|
      {
        var oldest := OldestClose();
        FromStep(old(closed), floor, oldest);
        floor := closed[oldest].seqNo + 1;
        closed := closed - {oldest};
      }
    }

    method PruneClosed(now: int)
      requires Valid()
      modifies this`closed
      ensures Valid() && closed == Spec.Prune(old(closed), now)
    {
      closed := Spec.Young(closed, now);
      ghost var young := closed;
      ghost var floor := DropOldest();
      KeptAreAbove(young, floor);
    }

    /** Registers a connection, or says with what cause to close it because its pipe is already closed. */
    method Insert(key: Spec.Key, conn: Spec.Conn, now: int) returns (watch: nat, late: Option<Spec.Cause>)
      requires Valid()
      modifies this
      ensures Valid()
      ensures var (view, w, l) := Spec.Insert(old(View()), key, conn, now); View() == view && watch == w && late == l
    {
      watch := nextWatch + 1;
      nextWatch := watch;
      PruneClosed(now);
      if key.pipe in closed {
        late := Some(closed[key.pipe].cause);
      } else {
        late := None;
        var bucket := if key in buckets then buckets[key] else map[];
        assert bucket == Spec.BucketOf(View(), key);
        buckets := buckets[key := bucket[watch := conn]];
      }
    }

    method RemoveAndIsEmpty(key: Spec.Key, watch: nat) returns (empty: bool)
      requires Valid()
      modifies this`buckets
      ensures Valid()
      ensures (View(), empty) == Spec.RemoveAndIsEmpty(old(View()), key, watch)
    {
      if key !in buckets {
        return true;
      }
      var ids := buckets[key] - {watch};
      if ids == map[] {
        buckets := buckets - {key};
        empty := true;
      } else {
        buckets := buckets[key := ids];
        empty := false;
      }
    }

    /** Collects the connections riding a pipe. */
    method CollectRiding(pipe: ConnId) returns (handles: set<Spec.Conn>)
      ensures handles == Spec.Riding(View(), pipe)
    {
      handles := {};
      var left := buckets.Keys;
      while left != {}
        invariant left <= buckets.Keys
        invariant handles == set key, w | key in buckets && key !in left && key.pipe == pipe && w in buckets[key] :: buckets[key][w]
      {
        var key :| key in left;
        left := left - {key};
        if key.pipe == pipe {
          handles := handles + buckets[key].Values;
        }
      }
    }

    /** Remembers the pipe as closed and returns the connections to ask to close. */
    method ClosePipe(pipe: ConnId, cause: Spec.Cause, now: int) returns (handles: set<Spec.Conn>)
      requires Valid()
      modifies this
      ensures Valid()
      ensures (View(), handles) == Spec.ClosePipe(old(View()), pipe, cause, now)
    {
      closed := closed[pipe := Spec.Closed(cause, now, nextSeq)];
      nextSeq := nextSeq + 1;
      PruneClosed(now);
      handles := CollectRiding(pipe);
    }
  }

  ghost predicate Distinct(closed: map<ConnId, Spec.Closed>) {
    forall p, q :: p in closed && q in closed && p != q ==> closed[p].seqNo != closed[q].seqNo
  }

  /** The closes numbered from `floor` on. */
  function From(closed: map<ConnId, Spec.Closed>, floor: nat): map<ConnId, Spec.Closed> {
    map p | p in closed && closed[p].seqNo >= floor :: closed[p]
  }

  lemma FromStep(all: map<ConnId, Spec.Closed>, floor: nat, oldest: ConnId)
    requires var kept := From(all, floor);
             oldest in kept && forall p :: p in kept && p != oldest ==> kept[oldest].seqNo < kept[p].seqNo
    ensures var kept := From(all, floor);
            kept - {oldest} == From(all, kept[oldest].seqNo + 1) && |kept - {oldest}| == |kept| - 1
  {
    var kept := From(all, floor);
    assert (kept - {oldest}).Keys == kept.Keys - {oldest};
    assert |(kept - {oldest}).Keys| == |kept.Keys| - 1;
  }

  /** Dropping the oldest down to the limit keeps exactly those with fewer than the limit above them. */
  lemma KeptAreAbove(young: map<ConnId, Spec.Closed>, floor: nat)
    requires var kept := From(young, floor);
             |kept| <= Spec.MAX_CLOSED_PIPES && (kept == young || |kept| == Spec.MAX_CLOSED_PIPES)
    ensures From(young, floor) == map p | p in young && |Spec.Above(young, young[p].seqNo)| < Spec.MAX_CLOSED_PIPES :: young[p]
  {
    var kept := From(young, floor);
    forall p | p in young
      ensures |Spec.Above(young, young[p].seqNo)| < Spec.MAX_CLOSED_PIPES <==> p in kept
    {
      var above := Spec.Above(young, young[p].seqNo);
      if p in kept {
        Spec.SubsetSize(above, kept.Keys - {p});
      } else {
        Spec.SubsetSize(kept.Keys, above);
      }
    }
  }
}
