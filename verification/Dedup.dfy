/**
 The two tiebreakers: the registry's role rule (`dedup.rs`) and the routing
 table's observer-independent `Dialer` (`routing.rs`).
 */
module Dedup {
  import opened Wire
  import opened Identity

  datatype ConnectRole = Central | Peripheral
  datatype Direction = Outbound | Inbound
  datatype Dialer = Low | High

  /** Keep the connection that the higher endpoint dialed. */
  predicate ShouldWin(role: ConnectRole, me: EndpointId, peer: EndpointId) {
    if Less(me, peer) then role == Peripheral else role == Central
  }

  predicate ShouldDialL2cap(role: ConnectRole, me: EndpointId, peer: EndpointId) {
    role == Central && ShouldWin(role, me, peer)
  }

  function DirectionFor(role: ConnectRole): Direction {
    match role
    case Central => Outbound
    case Peripheral => Inbound
  }

  function Opposite(d: Direction): Direction {
    match d
    case Outbound => Inbound
    case Inbound => Outbound
  }

  function ComputeDialer(me: EndpointId, remote: EndpointId, d: Direction): Dialer {
    if Less(me, remote) == (d == Outbound) then Low else High
  }

  /** The registry keeps a role exactly when routing calls that role's pipe higher-dialed. */
  lemma TiebreakersAgree(role: ConnectRole, me: EndpointId, peer: EndpointId)
    ensures ShouldWin(role, me, peer) <==> ComputeDialer(me, peer, DirectionFor(role)) == High
  {
  }

  /** Both ends of a pipe compute the same dialer for it. */
  lemma DialerSymmetric(a: EndpointId, b: EndpointId, d: Direction)
    requires a != b
    ensures ComputeDialer(a, b, d) == ComputeDialer(b, a, Opposite(d))
  {
    LessTotal(a, b);
    LessAsymmetric(a, b);
  }

  function OtherRole(role: ConnectRole): ConnectRole {
    match role
    case Central => Peripheral
    case Peripheral => Central
  }

  /**
   With one link each way, both registries keep the same physical link and both
   routing tables call that one, and only that one, higher-dialed.
   */
  lemma OneLinkSurvives(a: EndpointId, b: EndpointId, roleAtA: ConnectRole)
    requires a != b
    ensures ShouldWin(roleAtA, a, b) <==> ShouldWin(OtherRole(roleAtA), b, a)
    ensures ShouldWin(roleAtA, a, b) <==> !ShouldWin(OtherRole(roleAtA), a, b)
    ensures ShouldWin(roleAtA, a, b) <==> ComputeDialer(b, a, DirectionFor(OtherRole(roleAtA))) == High
    ensures !(ShouldDialL2cap(roleAtA, a, b) && ShouldDialL2cap(OtherRole(roleAtA), b, a))
  {
    LessTotal(a, b);
    LessAsymmetric(a, b);
  }
}
