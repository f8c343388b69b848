/** The registry's data: peer entries, phases, commands and actions. Times are in milliseconds. */
module Peers {
  import opened Wire
  import opened Identity
  import opened Dedup

  /** Stands for the device's address text; the order is that of the text. */
  type DeviceId = nat
  type CharUuid = nat

  datatype ConnectPath = L2cap | Gatt
  datatype FragmentSource = CentralReceivedP2c | PeripheralReceivedC2p
  datatype StallCause = LinkDead | LocalClose

  datatype Reason =
    | ByLocalClose | ByRemoteClose | ByLinkLoss | ByAdapterOff | ByGatt133 | ByTimeout
    | ByLinkDead | ByProtocolMismatch | ByDedupLoser | ByUnknown(code: int)

  datatype DeadReason = MaxRetries | Drained | ProtocolMismatch | Forgotten

  datatype ChannelHandle = ChannelHandle(id: nat, path: ConnectPath)

  datatype Phase =
    | Unknown
    | Discovered(since: int)
    | PendingDial(since: int, deadline: int, prefix: KeyPrefix)
    | Connecting(attempt: nat, started: int)
    | Handshaking(since: int, channel: ChannelHandle)
    | Connected(since: int, channel: ChannelHandle, txGen: nat, upgrading: bool)
    | Draining(since: int, reason: Reason)
    | Reconnecting(attempt: nat, nextAt: int, reason: Reason)
    | Dead(why: DeadReason, at: int)
    | Restoring(since: int)

  /** A datagram handed to the registry, with the generation it was minted for. */
  datatype Outgoing = Outgoing(txGen: nat, datagram: nat)

  /** `pipe` is the generation of the installed data pipe, if there is one. */
  datatype Entry = Entry(
    device: DeviceId,
    phase: Phase,
    failures: nat,
    txGen: nat,
    lifecycle: nat,
    upgradeGen: nat,
    pending: seq<Outgoing>,
    role: ConnectRole,
    pipe: Option<nat>,
    chars: set<CharUuid>,
    prefix: Option<KeyPrefix>,
    target: Option<EndpointId>,
    verified: Option<EndpointId>,
    upgradeFailed: bool,
    resumeAfterDrain: bool)

  function NewEntry(device: DeviceId, lifecycle: nat): Entry {
    Entry(device, Unknown, 0, 0, lifecycle, 0, [], Central, None, {}, None, None, None, false, false)
  }

  /** What the registry sees of a pipe's bounded outbound queue while it handles one command. */
  datatype Queue = Queue(free: nat, closed: bool)

  datatype Ack = Accepted | WouldBlock | BrokenPipe | Aborted

  datatype Action =
    | StartConnect(device: DeviceId, attempt: nat, lifecycle: nat)
    | ReadVersion(device: DeviceId, lifecycle: nat)
    | RetireLifecycle(device: DeviceId, lifecycle: nat)
    | CloseChannel(device: DeviceId, lifecycle: nat, channel: ChannelHandle, reason: Reason)
    | CloseNativeConnection(device: DeviceId, lifecycle: nat)
    | Refresh(device: DeviceId, lifecycle: nat)
    | StartDataPipe(device: DeviceId, lifecycle: nat, txGen: nat, role: ConnectRole, target: Option<EndpointId>, path: ConnectPath)
    | UpgradeToL2cap(device: DeviceId, lifecycle: nat, upgradeGen: nat)
    | SwapPipeToL2cap(device: DeviceId)
    | AckSend(device: DeviceId, send: Outgoing, result: Ack)
    | PipeSend(device: DeviceId, pipe: nat, send: Outgoing)
}
