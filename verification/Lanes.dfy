/**
 Per-device lanes: a FIFO of jobs, the lifecycle that owns the native connection in
 dispatch order, and the separately retired current lifecycle.
 */
module Lanes {
  import opened Wire
  import opened Peers

  datatype Op = Dialing | Disconnecting | Refreshing | ReadingVersion | OpeningL2cap

  /** What abandoning a device does to a job: nothing, drop it while queued, or cut it short. */
  datatype Cancellation = Never | WhileQueued | Immediate

  datatype LaneJob =
    | Activate(lifecycle: nat)
    | Work(lifecycle: nat, op: Op, cancellation: Cancellation)

  /** A running job stays at the head of `jobs`, so the lane's outstanding count is `|jobs|`. */
  datatype Lane = Lane(jobs: seq<LaneJob>, running: bool, owner: Option<nat>, current: Option<nat>)

  type LaneMap = map<DeviceId, Lane>

  const NEW_LANE := Lane([], false, None, None)

  /** One native operation that was actually started. */
  datatype Native = Native(op: Op, lifecycle: nat)

  predicate Retained(lane: Lane) {
    lane.current.Some? || lane.jobs != []
  }

  function ActivateLane(lanes: LaneMap, d: DeviceId, lifecycle: nat): LaneMap {
    var kept := map x | x in lanes && (x == d || Retained(lanes[x])) :: lanes[x];
    var lane := if d in kept then kept[d] else NEW_LANE;
    kept[d := lane.(current := Some(lifecycle), jobs := lane.jobs + [Activate(lifecycle)])]
  }

  function RetireLane(lanes: LaneMap, d: DeviceId, lifecycle: nat): LaneMap {
    if d in lanes && lanes[d].current == Some(lifecycle) then lanes[d := lanes[d].(current := None)] else lanes
  }

  function Dispatch(lanes: LaneMap, d: DeviceId, job: LaneJob): LaneMap {
    if d in lanes then lanes[d := lanes[d].(jobs := lanes[d].jobs + [job])] else lanes
  }

  /** The lane part of executing an action. */
  function Execute(lanes: LaneMap, a: Action): LaneMap {
    match a
    case StartConnect(d, _, lc) => Dispatch(ActivateLane(lanes, d, lc), d, Work(lc, Dialing, WhileQueued))
    case StartDataPipe(d, lc, _, _, _, _) => ActivateLane(lanes, d, lc)
    case ReadVersion(d, lc) => Dispatch(lanes, d, Work(lc, ReadingVersion, Immediate))
    case UpgradeToL2cap(d, lc, _) => Dispatch(lanes, d, Work(lc, OpeningL2cap, Immediate))
    case CloseChannel(d, lc, _, _) => Dispatch(lanes, d, Work(lc, Disconnecting, Never))
    case CloseNativeConnection(d, lc) => Dispatch(lanes, d, Work(lc, Disconnecting, Never))
    case Refresh(d, lc) => Dispatch(lanes, d, Work(lc, Refreshing, Never))
    case RetireLifecycle(d, lc) => RetireLane(lanes, d, lc)
    case _ => lanes
  }

  predicate Runs(lane: Lane, job: LaneJob) {
    && job.Work?
    && lane.owner == Some(job.lifecycle)
    && (job.cancellation == Never || lane.current == Some(job.lifecycle))
  }

  /** The worker takes its next job: ownership changes, or work starts or is dropped. */
  function Take(lane: Lane): (Lane, seq<Native>) {
    if lane.running || lane.jobs == [] then (lane, [])
    else
      var job := lane.jobs[0];
      match job
      case Activate(lc) => (lane.(owner := Some(lc), jobs := lane.jobs[1..]), [])
      case Work(lc, op, _) =>
        if Runs(lane, job) then (lane.(running := true), [Native(op, lc)]) else (lane.(jobs := lane.jobs[1..]), [])
  }

  /** The running job ends, on its own or cut short. */
  function Finish(lane: Lane): Lane {
    if lane.running && lane.jobs != [] then lane.(running := false, jobs := lane.jobs[1..]) else lane
  }

  /** Jobs not yet started. */
  function Waiting(lane: Lane): seq<LaneJob> {
    if lane.running && lane.jobs != [] then lane.jobs[1..] else lane.jobs
  }

  function FinalOwner(owner: Option<nat>, jobs: seq<LaneJob>): Option<nat>
    decreases |jobs|
  {
    if jobs == [] then owner
    else FinalOwner(if jobs[0].Activate? then Some(jobs[0].lifecycle) else owner, jobs[1..])
  }

  /** Cleanup and cache refresh are never cancelled; everything else can be. */
  predicate KindOk(job: LaneJob) {
    job.Work? ==> (job.cancellation == Never <==> job.op == Disconnecting || job.op == Refreshing)
  }

  /** Every waiting job but a refresh will find its lifecycle owning the connection. */
  predicate WillRun(owner: Option<nat>, jobs: seq<LaneJob>)
    decreases |jobs|
  {
    if jobs == [] then true
    else if jobs[0].Activate? then WillRun(Some(jobs[0].lifecycle), jobs[1..])
    else
      && KindOk(jobs[0]) && (jobs[0].op != Refreshing ==> owner == Some(jobs[0].lifecycle))
      && WillRun(owner, jobs[1..])
  }

  function Disconnects(log: seq<Native>): seq<nat> {
    if log == [] then []
    else Disconnects(log[..|log| - 1]) + if log[|log| - 1].op == Disconnecting then [log[|log| - 1].lifecycle] else []
  }

  function QueuedDisconnects(jobs: seq<LaneJob>): seq<nat> {
    if jobs == [] then []
    else (if jobs[0].Work? && jobs[0].op == Disconnecting then [jobs[0].lifecycle] else []) + QueuedDisconnects(jobs[1..])
  }

  lemma {:induction false} AppendJob(owner: Option<nat>, jobs: seq<LaneJob>, job: LaneJob)
    ensures FinalOwner(owner, jobs + [job]) == if job.Activate? then Some(job.lifecycle) else FinalOwner(owner, jobs)
    ensures WillRun(owner, jobs)
            && KindOk(job) && (job.Work? && job.op != Refreshing ==> FinalOwner(owner, jobs) == Some(job.lifecycle))
            ==> WillRun(owner, jobs + [job])
    ensures QueuedDisconnects(jobs + [job])
            == QueuedDisconnects(jobs) + if job.Work? && job.op == Disconnecting then [job.lifecycle] else []
    decreases |jobs|
  {
    if jobs == [] {
      assert [job][1..] == [];
    } else {
      assert (jobs + [job])[1..] == jobs[1..] + [job];
      AppendJob(if jobs[0].Activate? then Some(jobs[0].lifecycle) else owner, jobs[1..], job);
    }
  }
}
