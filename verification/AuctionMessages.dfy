/** The typed messages of idl/mission.idl, reduced to the fields the agents decide on. Doubles are
    reals, times are milliseconds. */
module AuctionMessages {
  datatype Pose = Pose(east: real, north: real, up: real, heading: real)

  datatype Request = Request(id: string, capability: string, predecessor: string, payload: real, target: Pose)

  datatype Capability = Capability(agent: string, capability: string, available: bool)

  datatype Bid = Bid(id: string, task: string, agent: string, feasible: bool, eta: real, cost: real, ttl: int, createdAt: int)

  datatype Assignment = Assignment(task: string, agent: string, bidId: string, eta: real, epoch: int, accepted: bool)

  datatype Phase = Idle | Assigned | EnRoute | Executing | Completed

  datatype Event = TaskPublished | BidSubmitted | TaskAssigned | Progress | TaskCompleted

  datatype Msg =
    | RequestMsg(request: Request)
    | CapabilityMsg(capability: Capability)
    | BidMsg(bid: Bid)
    | AssignMsg(assignment: Assignment)
    | StateMsg(agent: string, task: string, phase: Phase)
    | TransformMsg(target: string, pose: Pose)
    | EventMsg(about: string, event: Event)

  /** Successive readings of `now_ms`. */
  ghost predicate Nondecreasing(clock: nat -> int) {
    forall i: nat, j: nat :: i <= j ==> clock(i) <= clock(j)
  }
}
