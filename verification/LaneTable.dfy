/** The driver's lanes as the object the actor and the lane workers share. */
module LaneTables {
  import opened Wire
  import opened Peers
  import opened Lanes

  class LaneTable {
    var lanes: LaneMap

    constructor ()
      ensures lanes == map[]
    {
      lanes := map[];
    }

    /** Collects idle lanes of other devices, then queues the activation on this one. */
    method Activate(d: DeviceId, lifecycle: nat)
      modifies this
      ensures lanes == ActivateLane(old(lanes), d, lifecycle)
    {
      var left := lanes.Keys;
      var kept: LaneMap := map[];
      while left != {}
        invariant left <= lanes.Keys
        invariant kept == map x | x in lanes && x !in left && (x == d || Retained(lanes[x])) :: lanes[x]
      {
        var x :| x in left;
        left := left - {x};
        if x == d || lanes[x].current.Some? || lanes[x].jobs != [] {
          kept := kept[x := lanes[x]];
        }
      }
      var lane := if d in kept then kept[d] else NEW_LANE;
      lane := lane.(current := Some(lifecycle));
      lane := lane.(jobs := lane.jobs + [LaneJob.Activate(lifecycle)]);
      lanes := kept[d := lane];
    }

    method Retire(d: DeviceId, lifecycle: nat)
      modifies this
      ensures lanes == RetireLane(old(lanes), d, lifecycle)
    {
      if d in lanes && lanes[d].current == Some(lifecycle) {
        lanes := lanes[d := lanes[d].(current := None)];
      }
    }

    method Enqueue(d: DeviceId, job: LaneJob)
      modifies this
      ensures lanes == Dispatch(old(lanes), d, job)
    {
      if d in lanes {
        lanes := lanes[d := lanes[d].(jobs := lanes[d].jobs + [job])];
      }
    }

    /** The lane part of the driver's `execute`. */
    method ExecuteAction(a: Action)
      modifies this
      ensures lanes == Execute(old(lanes), a)
    {
      match a {
        case StartConnect(d, _, lc) =>
          Activate(d, lc);
          Enqueue(d, Work(lc, Dialing, WhileQueued));
        case StartDataPipe(d, lc, _, _, _, _) => Activate(d, lc);
        case ReadVersion(d, lc) => Enqueue(d, Work(lc, ReadingVersion, Immediate));
        case UpgradeToL2cap(d, lc, _) => Enqueue(d, Work(lc, OpeningL2cap, Immediate));
        case CloseChannel(d, lc, _, _) => Enqueue(d, Work(lc, Disconnecting, Never));
        case CloseNativeConnection(d, lc) => Enqueue(d, Work(lc, Disconnecting, Never));
        case Refresh(d, lc) => Enqueue(d, Work(lc, Refreshing, Never));
        case RetireLifecycle(d, lc) => Retire(d, lc);
        case SwapPipeToL2cap(_) =>
        case AckSend(_, _, _) =>
        case PipeSend(_, _, _) =>
      }
    }

    /** The worker's next turn: it takes over ownership, starts a job or drops one. */
    method TakeJob(d: DeviceId) returns (started: seq<Native>)
      requires d in lanes
      modifies this
      ensures lanes == old(lanes)[d := Take(old(lanes)[d]).0] && started == Take(old(lanes)[d]).1
    {
      var lane := lanes[d];
      started := [];
      if !lane.running && lane.jobs != [] {
        var job := lane.jobs[0];
        if job.Activate? {
          lane := lane.(owner := Some(job.lifecycle), jobs := lane.jobs[1..]);
        } else if lane.owner == Some(job.lifecycle) && (job.cancellation == Never || lane.current == Some(job.lifecycle)) {
          lane := lane.(running := true);
          started := [Native(job.op, job.lifecycle)];
        } else {
          lane := lane.(jobs := lane.jobs[1..]);
        }
      }
      lanes := lanes[d := lane];
    }

    method FinishJob(d: DeviceId)
      requires d in lanes
      modifies this
      ensures lanes == old(lanes)[d := Finish(old(lanes)[d])]
    {
      var lane := lanes[d];
      if lane.running && lane.jobs != [] {
        lane := lane.(running := false, jobs := lane.jobs[1..]);
      }
      lanes := lanes[d := lane];
    }
  }
}
