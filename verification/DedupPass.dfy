/** The dedup pass of a verified endpoint: exactly one connection of the peer survives it. */
module DedupPass {
  import opened Wire
  import opened Identity
  import opened Dedup
  import opened Peers
  import opened RegistrySpec

  function Holders(peers: map<DeviceId, Entry>, prefix: KeyPrefix): set<DeviceId> {
    set d | d in peers && ConnectedAs(peers[d], prefix)
  }

  ghost predicate Keyed(r: Registry) {
    forall d :: d in r.peers ==> r.peers[d].device == d
  }

  /** Same peers in the same roles, and of those the ones in `lost` no longer hold a connection; the others hold it as long as before. */
  ghost predicate Loses(r: Registry, s: Registry, prefix: KeyPrefix, lost: set<DeviceId>) {
    && r.me == s.me && r.peers.Keys == s.peers.Keys
    && (forall d :: d in r.peers ==>
          && r.peers[d].device == s.peers[d].device && r.peers[d].role == s.peers[d].role
          && (ConnectedAs(s.peers[d], prefix) <==> ConnectedAs(r.peers[d], prefix) && d !in lost)
          && (ConnectedAs(s.peers[d], prefix) ==> s.peers[d].phase.since == r.peers[d].phase.since))
  }

  lemma LosesTrans(r: Registry, s: Registry, t: Registry, prefix: KeyPrefix, a: set<DeviceId>, b: set<DeviceId>)
    requires Loses(r, s, prefix, a) && Loses(s, t, prefix, b)
    ensures Loses(r, t, prefix, a + b)
  {
  }

  /** Who loses the connection when `d` is visited. */
  function Losers(t: Task, d: DeviceId): set<DeviceId> {
    if t.Lose? && d != t.winner then {d} else {}
  }

  /** One step of one peer: same role, and it loses the connection exactly if it is a loser. */
  ghost predicate StepLoses(e: Entry, f: Entry, prefix: KeyPrefix, lost: bool) {
    && e.device == f.device && e.role == f.role && (ConnectedAs(f, prefix) <==> ConnectedAs(e, prefix) && !lost)
    && (ConnectedAs(f, prefix) ==> f.phase.since == e.phase.since)
  }

  predicate InPass(t: Task, prefix: KeyPrefix) {
    t.Cancel? || t.Raise? || (t.Lose? && t.prefix == prefix)
  }

  lemma TaskLoses(t: Task, e: Entry, n: nat, up: bool, prefix: KeyPrefix)
    requires InPass(t, prefix)
    ensures StepLoses(e, Do(t, e, n, up).entry, prefix, e.device in Losers(t, e.device))
  {
  }

  lemma VisitLoses(r: Registry, d: DeviceId, t: Task, prefix: KeyPrefix)
    requires Keyed(r) && InPass(t, prefix)
    ensures Loses(r, WithPeer(r, d, t).reg, prefix, Losers(t, d))
  {
    if d in r.peers {
      var f := Do(t, r.peers[d], r.nextLifecycle, UpgradeOnConnect(r, r.peers[d])).entry;
      TaskLoses(t, r.peers[d], r.nextLifecycle, UpgradeOnConnect(r, r.peers[d]), prefix);
      PutLoses(r, WithPeer(r, d, t).reg, d, f, prefix, Losers(t, d));
    }
  }

  lemma PutLoses(r: Registry, s: Registry, d: DeviceId, f: Entry, prefix: KeyPrefix, lost: set<DeviceId>)
    requires d in r.peers && s.peers == r.peers[d := f] && s.me == r.me
    requires StepLoses(r.peers[d], f, prefix, d in lost) && lost <= {d}
    ensures Loses(r, s, prefix, lost)
  {
  }

  function AllLosers(t: Task, order: seq<DeviceId>): set<DeviceId> {
    set d | d in order && d in Losers(t, d)
  }

  lemma {:induction false} WalkLoses(r: Registry, order: seq<DeviceId>, t: Task, prefix: KeyPrefix)
    requires Keyed(r) && InPass(t, prefix)
    ensures Loses(r, Walk(r, order, t).reg, prefix, AllLosers(t, order))
  {
    if order != [] {
      var init, d := order[..|order| - 1], order[|order| - 1];
      var before := Walk(r, init, t).reg;
      WalkLoses(r, init, t, prefix);
      VisitLoses(before, d, t, prefix);
      LosesTrans(r, before, Walk(r, order, t).reg, prefix, AllLosers(t, init), Losers(t, d));
      assert AllLosers(t, order) == AllLosers(t, init) + Losers(t, d);
    }
  }

  predicate HasWinner(r: Registry, held: set<DeviceId>, ep: EndpointId) {
    exists d :: d in held && d in r.peers && ShouldWin(r.peers[d].role, r.me, ep)
  }

  /** One survivor if there was any holder, with the winning role if any holder has it, and else the latest of them. */
  ghost predicate OneOf(r: Registry, before: set<DeviceId>, after: set<DeviceId>, ep: EndpointId) {
    && after <= before
    && |after| == (if before == {} then 0 else 1)
    && (forall w, d :: w in after && d in before && w in r.peers && d in r.peers ==>
          (ShouldWin(r.peers[d].role, r.me, ep) ==> ShouldWin(r.peers[w].role, r.me, ep)))
    && (!HasWinner(r, before, ep) ==> forall w, d :: w in after && d in before ==> LaterThan(r, w, d))
  }

  predicate LaterThan(r: Registry, w: DeviceId, d: DeviceId) {
    w in r.peers && d in r.peers && r.peers[w].phase.Connected? && r.peers[d].phase.Connected? && Newer(r, w, d)
  }

  lemma SameHolders(r: Registry, s: Registry, prefix: KeyPrefix)
    requires Loses(r, s, prefix, {})
    ensures Holders(s.peers, prefix) == Holders(r.peers, prefix)
  {
  }

  /** `s` keeps every peer of `r` in its role, and one connection of `ep`. */
  ghost predicate KeepsOne(r: Registry, s: Registry, ep: EndpointId) {
    var before, after := Holders(r.peers, PrefixOf(ep)), Holders(s.peers, PrefixOf(ep));
    Loses(r, s, PrefixOf(ep), before - after) && OneOf(r, before, after, ep)
  }

  lemma KeepsOneThen(r: Registry, s: Registry, t: Registry, ep: EndpointId)
    requires KeepsOne(r, s, ep) && Loses(s, t, PrefixOf(ep), {})
    ensures KeepsOne(r, t, ep)
  {
    SameHolders(s, t, PrefixOf(ep));
  }

  lemma ThenKeepsOne(r: Registry, s: Registry, t: Registry, ep: EndpointId)
    requires Loses(r, s, PrefixOf(ep), {}) && KeepsOne(s, t, ep)
    ensures KeepsOne(r, t, ep)
  {
    SameHolders(r, s, PrefixOf(ep));
  }

  lemma OthersDrained(r: Registry, now: int, ep: EndpointId, order: seq<DeviceId>, w: DeviceId)
    requires Keyed(r) && (forall d :: d in r.peers ==> d in order) && w in Holders(r.peers, PrefixOf(ep))
    ensures var s := Walk(r, order, Lose(now, PrefixOf(ep), w)).reg;
            Loses(r, s, PrefixOf(ep), Holders(r.peers, PrefixOf(ep)) - {w}) && Holders(s.peers, PrefixOf(ep)) == {w}
  {
    WalkLoses(r, order, Lose(now, PrefixOf(ep), w), PrefixOf(ep));
  }

  /** The losers are drained and the winner is kept. */
  lemma LosersDrained(r: Registry, now: int, ep: EndpointId, order: seq<DeviceId>)
    requires Keyed(r) && forall d :: d in r.peers ==> d in order
    ensures KeepsOne(r, DrainLosers(r, now, ep, order).reg, ep)
  {
    var held := Holders(r.peers, PrefixOf(ep));
    var c := Candidates(r, order, PrefixOf(ep));
    assert held == set d | d in c;
    if |c| >= 2 {
      OthersDrained(r, now, ep, order, Winner(r, c, ep));
    } else if |c| == 1 {
      assert held == {c[0]};
    }
  }

  lemma CancelKeeps(r: Registry, now: int, ep: EndpointId, order: seq<DeviceId>)
    requires Keyed(r)
    ensures Loses(r, Walk(r, order, Cancel(now, PrefixOf(ep))).reg, PrefixOf(ep), {})
  {
    WalkLoses(r, order, Cancel(now, PrefixOf(ep)), PrefixOf(ep));
    assert AllLosers(Cancel(now, PrefixOf(ep)), order) == {};
  }

  /**
   Dedup never drains everyone. For any peer map and any walking order that visits
   every peer, the connections of the verified peer go down to exactly one if there
   was one, and the survivor has the winning role whenever some connection had it; if
   none had it, the survivor is the one connected last.
   */
  lemma DedupKeepsOne(r: Registry, now: int, ep: EndpointId, exact: Option<DeviceId>, order: seq<DeviceId>)
    requires Keyed(r) && forall d :: d in r.peers ==> d in order
    ensures KeepsOne(Stamp(r, ep, exact), HandleVerified(r, now, ep, exact, order).reg, ep)
  {
    var r1 := Stamp(r, ep, exact);
    var r2 := Walk(r1, order, Cancel(now, PrefixOf(ep))).reg;
    CancelKeeps(r1, now, ep, order);
    var r3 := DrainLosers(r2, now, ep, order).reg;
    LosersDrained(r2, now, ep, order);
    var r4 := RaiseAll(r3, ep, order).reg;
    RaiseKeeps(r3, ep, order);
    KeepsOneThen(r2, r3, r4, ep);
    ThenKeepsOne(r1, r2, r4, ep);
  }

  lemma RaiseKeeps(r: Registry, ep: EndpointId, order: seq<DeviceId>)
    requires Keyed(r)
    ensures Loses(r, RaiseAll(r, ep, order).reg, PrefixOf(ep), {})
  {
    if r.preferL2cap {
      var t := Raise(ConnectedCount(r.peers, PrefixOf(ep)), r.me, ep);
      WalkLoses(r, order, t, PrefixOf(ep));
      assert AllLosers(t, order) == {};
    }
  }

  // ---------- the survivor moves to L2CAP ----------

  /** Whoever still holds a connection was not touched. */
  ghost predicate Untouched(r: Registry, s: Registry, prefix: KeyPrefix) {
    && s.me == r.me && s.preferL2cap == r.preferL2cap && s.peers.Keys == r.peers.Keys
    && (forall d :: d in s.peers && ConnectedAs(s.peers[d], prefix) ==> s.peers[d] == r.peers[d])
  }

  lemma {:induction false} WalkUntouched(r: Registry, order: seq<DeviceId>, t: Task, prefix: KeyPrefix)
    requires t.Cancel? || t.Lose?
    ensures Untouched(r, Walk(r, order, t).reg, prefix)
  {
    if order != [] {
      WalkUntouched(r, order[..|order| - 1], t, prefix);
      VisitUntouched(Walk(r, order[..|order| - 1], t).reg, order[|order| - 1], t, prefix);
    }
  }

  lemma VisitUntouched(r: Registry, d: DeviceId, t: Task, prefix: KeyPrefix)
    requires t.Cancel? || t.Lose?
    ensures Untouched(r, WithPeer(r, d, t).reg, prefix)
  {
  }

  /** An entry after it was asked to upgrade, if it wants to. */
  function Raised(e: Entry, count: nat, me: EndpointId, ep: EndpointId): Entry {
    if WantsUpgrade(e, count, me, ep) then e.(phase := e.phase.(upgrading := true), upgradeGen := e.upgradeGen + 1) else e
  }

  lemma {:induction false} WalkRaises(r: Registry, order: seq<DeviceId>, count: nat, ep: EndpointId, d: DeviceId)
    requires d in r.peers
    ensures var s := Walk(r, order, Raise(count, r.me, ep)).reg;
            d in s.peers && s.peers[d] == if d in order then Raised(r.peers[d], count, r.me, ep) else r.peers[d]
  {
    if order != [] {
      var init := order[..|order| - 1];
      WalkRaises(r, init, count, ep, d);
      assert d in order <==> d in init || d == order[|init|];
    }
  }

  /**
   The connection that survives a verification moves to L2CAP exactly if policy prefers
   it, this side dialed it, it is still on GATT and no upgrade of it has failed; unless it
   was already on its way.
   */
  lemma SurvivorUpgrades(r: Registry, now: int, ep: EndpointId, exact: Option<DeviceId>, order: seq<DeviceId>, w: DeviceId)
    requires Keyed(r) && forall d :: d in r.peers ==> d in order
    requires w in Holders(HandleVerified(r, now, ep, exact, order).reg.peers, PrefixOf(ep))
    ensures var s := HandleVerified(r, now, ep, exact, order).reg;
            w in r.peers && var e := Stamp(r, ep, exact).peers[w];
            && e.phase.Connected?
            && (s.peers[w].phase.upgrading <==>
                  e.phase.upgrading || (r.preferL2cap && e.role == Central && e.phase.channel.path == Gatt && !e.upgradeFailed))
  {
    var r1 := Stamp(r, ep, exact);
    var r3 := DrainLosers(Walk(r1, order, Cancel(now, PrefixOf(ep))).reg, now, ep, order).reg;
    OneLeft(r1, now, ep, order);
    RaiseKeeps(r3, ep, order);
    SameHolders(r3, RaiseAll(r3, ep, order).reg, PrefixOf(ep));
    OneAtMost(Holders(r3.peers, PrefixOf(ep)), w);
    RaiseDecides(r3, ep, order, w);
  }

  /** Before the survivors are raised, at most one is left, as it was. */
  lemma OneLeft(r: Registry, now: int, ep: EndpointId, order: seq<DeviceId>)
    requires Keyed(r) && forall d :: d in r.peers ==> d in order
    ensures var s := DrainLosers(Walk(r, order, Cancel(now, PrefixOf(ep))).reg, now, ep, order).reg;
            Keyed(s) && Untouched(r, s, PrefixOf(ep)) && |Holders(s.peers, PrefixOf(ep))| <= 1
  {
    var r2 := Walk(r, order, Cancel(now, PrefixOf(ep))).reg;
    WalkUntouched(r, order, Cancel(now, PrefixOf(ep)), PrefixOf(ep));
    CancelKeeps(r, now, ep, order);
    LosersUntouched(r2, now, ep, order);
    LosersDrained(r2, now, ep, order);
  }

  lemma OneAtMost(held: set<DeviceId>, w: DeviceId)
    requires w in held && |held| <= 1
    ensures |held| == 1
  {
    assert held == {w} + (held - {w});
  }

  lemma RaiseDecides(r: Registry, ep: EndpointId, order: seq<DeviceId>, w: DeviceId)
    requires w in r.peers && w in order && w in Holders(r.peers, PrefixOf(ep)) && |Holders(r.peers, PrefixOf(ep))| == 1
    ensures var e, s := r.peers[w], RaiseAll(r, ep, order).reg;
            w in s.peers && s.peers[w].phase.Connected?
            && (s.peers[w].phase.upgrading <==>
                  e.phase.upgrading || (r.preferL2cap && e.role == Central && e.phase.channel.path == Gatt && !e.upgradeFailed))
  {
    if r.preferL2cap {
      assert Holders(r.peers, PrefixOf(ep)) == set d | d in r.peers && ConnectedAs(r.peers[d], PrefixOf(ep));
      WalkRaises(r, order, ConnectedCount(r.peers, PrefixOf(ep)), ep, w);
    }
  }

  lemma LosersUntouched(r: Registry, now: int, ep: EndpointId, order: seq<DeviceId>)
    ensures Untouched(r, DrainLosers(r, now, ep, order).reg, PrefixOf(ep))
  {
    var c := Candidates(r, order, PrefixOf(ep));
    if |c| >= 2 {
      WalkUntouched(r, order, Lose(now, PrefixOf(ep), Winner(r, c, ep)), PrefixOf(ep));
    }
  }

  // ---------- both ends of two links ----------

  /** Besides the connection it dialed, a node holds the one its peer dialed; nothing else of that peer. */
  ghost predicate HoldsBoth(r: Registry, ep: EndpointId, dialed: DeviceId, accepted: DeviceId) {
    && Holders(r.peers, PrefixOf(ep)) == {dialed, accepted}
    && r.peers[dialed].role == Central && r.peers[accepted].role == Peripheral
  }

  /** The pass keeps the dialed connection exactly if the dialing side wins. */
  lemma KeepsWinning(r: Registry, s: Registry, ep: EndpointId, dialed: DeviceId, accepted: DeviceId)
    requires KeepsOne(r, s, ep) && HoldsBoth(r, ep, dialed, accepted)
    ensures Holders(s.peers, PrefixOf(ep)) == if ShouldWin(Central, r.me, ep) then {dialed} else {accepted}
  {
    var after := Holders(s.peers, PrefixOf(ep));
    assert dialed in Holders(r.peers, PrefixOf(ep)) && accepted in Holders(r.peers, PrefixOf(ep));
    assert after != {};
    var w :| w in after;
    assert |after - {w}| == 0;
    assert after == {w};
  }

  /**
   Two nodes hold one link each way between them. After each has verified the other,
   their registries hold the two ends of one and the same link, and it is the one that
   both routing tables call higher-dialed.
   */
  lemma SameLinkSurvives(ra: Registry, rb: Registry, now: int, orderA: seq<DeviceId>, orderB: seq<DeviceId>,
                         exactA: Option<DeviceId>, exactB: Option<DeviceId>,
                         dialedA: DeviceId, acceptedA: DeviceId, dialedB: DeviceId, acceptedB: DeviceId)
    requires ra.me != rb.me && Keyed(ra) && Keyed(rb)
    requires (forall d :: d in ra.peers ==> d in orderA) && (forall d :: d in rb.peers ==> d in orderB)
    requires HoldsBoth(Stamp(ra, rb.me, exactA), rb.me, dialedA, acceptedA)
    requires HoldsBoth(Stamp(rb, ra.me, exactB), ra.me, dialedB, acceptedB)
    ensures var heldA := Holders(HandleVerified(ra, now, rb.me, exactA, orderA).reg.peers, PrefixOf(rb.me));
            var heldB := Holders(HandleVerified(rb, now, ra.me, exactB, orderB).reg.peers, PrefixOf(ra.me));
            if ComputeDialer(ra.me, rb.me, Outbound) == High
            then heldA == {dialedA} && heldB == {acceptedB} && ComputeDialer(rb.me, ra.me, Inbound) == High
            else heldA == {acceptedA} && heldB == {dialedB} && ComputeDialer(rb.me, ra.me, Outbound) == High
  {
    DedupKeepsOne(ra, now, rb.me, exactA, orderA);
    DedupKeepsOne(rb, now, ra.me, exactB, orderB);
    KeepsWinning(Stamp(ra, rb.me, exactA), HandleVerified(ra, now, rb.me, exactA, orderA).reg, rb.me, dialedA, acceptedA);
    KeepsWinning(Stamp(rb, ra.me, exactB), HandleVerified(rb, now, ra.me, exactB, orderB).reg, ra.me, dialedB, acceptedB);
    OneLinkSurvives(ra.me, rb.me, Central);
    DialerSymmetric(ra.me, rb.me, Outbound);
    DialerSymmetric(ra.me, rb.me, Inbound);
    TiebreakersAgree(Central, ra.me, rb.me);
    TiebreakersAgree(Central, rb.me, ra.me);
  }

  predicate Defers(r: Registry, now: int, peer: EndpointId, fairnessEnd: int) {
    AdvertiseTask(r, now, PrefixOf(peer), fairnessEnd).defer.Some?
  }

  /**
   Two nodes see each other advertise. They never both wait for the other; if they are
   strangers exactly one waits, and the link the other one dials is the one that both
   tiebreakers would keep.
   */
  lemma OneSideDefers(ra: Registry, rb: Registry, now: int, endA: int, endB: int)
    requires PrefixOf(ra.me) != PrefixOf(rb.me)
    ensures !(Defers(ra, now, rb.me, endA) && Defers(rb, now, ra.me, endB))
    ensures !KnownAs(ra, PrefixOf(rb.me)) && !KnownAs(rb, PrefixOf(ra.me)) ==> Defers(ra, now, rb.me, endA) != Defers(rb, now, ra.me, endB)
    ensures Defers(ra, now, rb.me, endA) ==> ShouldWin(Central, rb.me, ra.me) && ComputeDialer(rb.me, ra.me, Outbound) == High
    ensures Defers(ra, now, rb.me, endA) ==> !KnownAs(ra, PrefixOf(rb.me))
  {
    LessTotal(PrefixOf(ra.me), PrefixOf(rb.me));
    LessAsymmetric(PrefixOf(ra.me), PrefixOf(rb.me));
    LessByPrefix(ra.me, rb.me, KEY_PREFIX_LEN);
    LessAsymmetric(ra.me, rb.me);
    TiebreakersAgree(Central, rb.me, ra.me);
  }

  /**
   Of two nodes that hold the two ends of one link, exactly the one that dialed it asks for
   the upgrade: always if it is their only link, and otherwise if it is the one they keep.
   */
  lemma OneSideUpgrades(a: EndpointId, b: EndpointId, roleAtA: ConnectRole, countA: nat, countB: nat)
    requires a != b
    ensures !(ShouldEmitUpgrade(countA, roleAtA, a, b) && ShouldEmitUpgrade(countB, OtherRole(roleAtA), b, a))
    ensures ShouldWin(roleAtA, a, b) ==>
              (ShouldEmitUpgrade(countA, roleAtA, a, b) <==> roleAtA == Central)
              && (ShouldEmitUpgrade(countB, OtherRole(roleAtA), b, a) <==> roleAtA == Peripheral)
    ensures countA <= 1 ==> (ShouldEmitUpgrade(countA, roleAtA, a, b) <==> roleAtA == Central)
    ensures countA > 1 && ShouldEmitUpgrade(countA, roleAtA, a, b) ==> ShouldWin(roleAtA, a, b)
  {
    OneLinkSurvives(a, b, roleAtA);
  }
}
