/** The planner, the vehicles and the coordinator over shared topics. `log` is everything published
    so far, in order. A node may be handed any published message, in any order, late, again or never;
    nothing is handed over that was not published. A call's publications leave the node one by one,
    and other nodes may act between them. */
module AuctionSystem {
  import opened AuctionMessages
  import C = CoordinatorAgent
  import V = VehicleAgents

  /** A vehicle between two publications: the assignments it has taken but not handled, and the
      messages it has yet to publish. */
  datatype Agent = Agent(profile: V.Profile, v: V.State, queue: seq<Assignment>, out: seq<Msg>)

  datatype World = World(log: seq<Msg>, c: C.State, cOut: seq<Msg>, agents: map<string, Agent>)

  datatype Action =
    | PublishRequest(r: Request)
    | PublishTransform(task: string, pose: Pose)
    | Announce(agent: string)
    | SubmitBids(agent: string, batch: seq<Msg>, order: seq<string>, distance: (Pose, Pose) -> real, clock: nat -> int)
    | TakeAssignments(agent: string, batch: seq<Msg>, taken: seq<Assignment>)
    | HandleNext(agent: string)
    | Emit(agent: string)
    | Schedule(batch: seq<Msg>, order: seq<string>, clock: nat -> int)
    | EmitDecision

  ghost predicate Delivered(log: seq<Msg>, batch: seq<Msg>) {
    forall m :: m in batch ==> m in log
  }

  predicate Idle(w: World, g: string) {
    g in w.agents && w.agents[g].out == [] && w.agents[g].queue == []
  }

  ghost predicate Enabled(w: World, a: Action) {
    match a
    case PublishRequest(r) => forall q :: RequestMsg(q) in w.log && q.id == r.id ==> q == r
    case PublishTransform(_, _) => true
    case Announce(g) => Idle(w, g)
    case SubmitBids(g, batch, order, _, _) =>
      Idle(w, g) && Delivered(w.log, batch) && forall id :: id in order ==> id in V.Sync(w.agents[g].v, batch).tasks
    case TakeAssignments(g, batch, taken) =>
      Idle(w, g) && Delivered(w.log, batch) && forall t :: t in taken ==> AssignMsg(t) in w.log
    case HandleNext(g) => g in w.agents && w.agents[g].out == [] && w.agents[g].queue != []
    case Emit(g) => g in w.agents && w.agents[g].out != []
    case Schedule(batch, order, _) =>
      w.cOut == [] && Delivered(w.log, batch) && forall id :: id in order ==> id in C.Sync(w.c, batch).tasks
    case EmitDecision => w.cOut != []
  }

  function WithAgent(w: World, g: string, ag: Agent): World {
    w.(agents := w.agents[g := ag])
  }

  ghost function Step(w: World, a: Action): World
    requires Speeds(w) && Enabled(w, a)
  {
    match a
    case PublishRequest(r) => w.(log := w.log + [RequestMsg(r)])
    case PublishTransform(task, pose) => w.(log := w.log + [TransformMsg(task, pose)])
    case Announce(g) =>
      var p := w.agents[g].profile;
      WithAgent(w, g, w.agents[g].(out := [CapabilityMsg(Capability(p.id, p.capability, true)), StateMsg(p.id, "", Phase.Idle)]))
    case SubmitBids(g, batch, order, distance, clock) =>
      var r := V.Bids(w.agents[g].profile, V.Sync(w.agents[g].v, batch), order, distance, clock, 0);
      WithAgent(w, g, w.agents[g].(v := r.0, out := r.1))
    case TakeAssignments(g, batch, taken) =>
      WithAgent(w, g, w.agents[g].(v := V.Sync(w.agents[g].v, batch), queue := taken))
    case HandleNext(g) =>
      var r := V.Handle(w.agents[g].profile, w.agents[g].v, w.agents[g].queue[0]);
      WithAgent(w, g, w.agents[g].(v := r.0, queue := w.agents[g].queue[1..], out := r.1))
    case Emit(g) =>
      WithAgent(w, g, w.agents[g].(out := w.agents[g].out[1..])).(log := w.log + [w.agents[g].out[0]])
    case Schedule(batch, order, clock) =>
      var r := C.Schedule(C.Sync(w.c, batch), order, clock, 0);
      w.(c := r.0, cOut := r.1)
    case EmitDecision => w.(cOut := w.cOut[1..], log := w.log + [w.cOut[0]])
  }

  /** Bidding divides by the cruise speed. */
  predicate Speeds(w: World) {
    forall g :: g in w.agents ==> w.agents[g].profile.speed != 0.0
  }

  ghost predicate Init(w: World) {
    && w.log == [] && w.c == C.EMPTY && w.cOut == [] && Speeds(w)
    && forall g :: g in w.agents ==>
         && w.agents[g].profile.id == g && w.agents[g].queue == [] && w.agents[g].out == []
         && w.agents[g].v == V.Fresh(w.agents[g].v.pose, w.agents[g].v.battery)
  }

  lemma StepKeepsSpeeds(w: World, a: Action)
    requires Speeds(w) && Enabled(w, a)
    ensures Speeds(Step(w, a)) && Step(w, a).agents.Keys == w.agents.Keys
    ensures w.log <= Step(w, a).log
  {
    hide V.Sync, V.Bids, V.Handle, C.Schedule, C.Sync, Delivered;
  }

  /** The worlds some run of enabled steps leads to. */
  ghost predicate Run(w: World, actions: seq<Action>, end: World)
    requires Speeds(w)
    decreases |actions|
  {
    if |actions| == 0 then w == end
    else
      && Enabled(w, actions[0])
      && (StepKeepsSpeeds(w, actions[0]); Run(Step(w, actions[0]), actions[1..], end))
  }
}
