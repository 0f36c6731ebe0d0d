/** A whole mapping run, under each of the schedulers. */
module Mapping {
  import opened Collections
  import opened Topologies
  import opened Schedules
  import opened Sorts
  import opened Devices
  import opened Routing
  import opened CircuitTopologies
  import opened CircuitOrders
  import opened Routers
  import opened Replicas
  import opened Schedulers
  import opened SearchSchedulers

  datatype Strategy = ById | Naive | Random(choices: seq<nat>) | Search(conf: Conf, lookahead: nat)

  /** A choice for every gate, or a search that may look at something. */
  ghost predicate StrategyOk(strategy: Strategy, gates: nat) {
    match strategy
    case Random(choices) => |choices| == gates
    case Search(conf, lookahead) => lookahead >= 1 && conf.candidates >= 1
    case _ => true
  }

  /** Which gate comes when. */
  ghost predicate Chosen(strategy: Strategy, j: Job, first: Replica, ids: seq<nat>) {
    match strategy
    case ById => ids == Iota(|j.circuit.gates|)
    case Naive => NaiveRun(j, first, ids)
    case Random(choices) => RandomRun(j, first, choices, ids)
    case Search(conf, lookahead) => SearchRun(Setting(Effective(conf, lookahead), j), first, lookahead, ids)
  }

  /** The run consists of rounds each of which is a best one. */
  ghost predicate SearchRun(e: Setting, first: Replica, lookahead: nat, ids: seq<nat>) {
    exists rounds :: Flat(rounds) == ids && BestRounds(e, first, lookahead, rounds)
  }

  method RunScheduler(scheduler: Scheduler, router: Router, sort: Sorting, strategy: Strategy, ghost first: Replica)
    requires scheduler.Running(router, first) && scheduler.InTurn() && scheduler.ids == []
    requires StrategyOk(strategy, |scheduler.topology.circuit.gates|)
    modifies scheduler, scheduler.topology, router, router.device`qubits
    ensures Carried(router.device.adj, SnapshotOf(first.router.qubits), router.device.Snapshot(), scheduler.operations, scheduler.topology.circuit,
                    scheduler.ids)
    ensures SortedByStart(scheduler.operations) && Permutation(OpsAll(scheduler.TheJob(router), first, scheduler.ids), scheduler.operations)
    ensures Chosen(strategy, scheduler.TheJob(router), first, scheduler.ids)
    ensures strategy.ById? || (scheduler.InTurn() && |scheduler.ids| == |scheduler.topology.circuit.gates|)
  {
    hide Carried, Ordered, RouterOk, CircuitOk, NaiveRun, RandomRun, BestRounds, StepAll, OpsAll, SortedByStart, Permutation, Flat;
    match strategy {
      case ById => scheduler.AssignById(router, first);
      case Naive => scheduler.AssignNaively(router, first);
      case Random(choices) => scheduler.AssignRandomly(router, choices, first);
      case Search(conf, lookahead) =>
        var search := new SearchScheduler(scheduler, conf, lookahead);
        ghost var rounds := search.AssignGates(router, first);
        assert SearchRun(search.TheSetting(router), first, lookahead, scheduler.ids);
    }
    scheduler.Sort(router, sort, first);
  }

  /** What a run starts with: the router that is asked for, on an idle device with the given placement, and an untouched circuit. */
  ghost predicate StartsWith(j: Job, first: Replica, circuit: Circuit, adj: seq<seq<nat>>, placement: seq<nat>, duostra: bool, minTie: bool, sort: Sorting) {
    && j.circuit == circuit && j.policy.adj == adj && j.policy.duostra == duostra && j.policy.minTie == minTie && j.policy.sort == sort
    && RouterOk(j.policy, first.router) && SnapshotOf(first.router.qubits) == State(seq(|adj|, _ => 0), placement)
    && first.progress == Start(circuit)
  }

  /** The operations are those of a run of these gates, gate after gate from the start on; sorting changes their order only. */
  ghost predicate RunOf(j: Job, first: Replica, ids: seq<nat>, ops: seq<Operation>) {
    && Permutation(OpsAll(j, first, ids), ops)
    && forall k :: 0 <= k < |ids| ==> RoutedAt(j, first, ids, k)
  }

  /** Maps a circuit onto a connected device: a valid schedule, sorted by start time, in which every
      logical qubit meets exactly its gates, each on its own operands, and no operation starts later than its qubits
      allow. Each gate is the one that the strategy picks, and takes the operations of its own that the chosen router
      gives it. The gates come in circuit order, except that routing by id keeps it exactly when the ids grow along
      every qubit. The placement the schedule rests on is the true one throughout exactly when the circuit has no swap
      gate. */
  method MapCircuit(circuit: Circuit, adj: seq<seq<nat>>, placement: seq<nat>, duostra: bool, minTie: bool, sort: Sorting, strategy: Strategy)
    returns (ops: seq<Operation>, final: seq<nat>, ghost job: Job, ghost first: Replica, ghost ids: seq<nat>)
    requires IsCoupling(adj) && Connected(adj) && |adj| <= MAX_DIST && CircuitOk(circuit, |adj|)
    requires |placement| == |adj| && Distinct(placement) && forall q :: 0 <= q < |adj| ==> placement[q] < |adj|
    requires StrategyOk(strategy, |circuit.gates|)
    ensures var start := State(seq(|adj|, _ => 0), placement); FitsAll(adj, start, ops) && Prompt(start, ops)
    ensures SortedByStart(ops) && final == Final(placement, ops)
    ensures Below(ids, |circuit.gates|) && Meets(placement, ops, circuit, ids)
    ensures |ids| == |circuit.gates| && Members(ids) == UpTo(|circuit.gates|)
    ensures StartsWith(job, first, circuit, adj, placement, duostra, minTie, sort) && RunOf(job, first, ids, ops) && Chosen(strategy, job, first, ids)
    ensures Respects(circuit, ids) <==> (strategy.ById? ==> IdsAscend(circuit))
    ensures TruePlacement(placement, ops) <==> !HasSwapGate(circuit)
  {
    hide Connected, FitsAll, AfterAll, CircuitOk, StateOk, SortedByStart, Final, Carried, Distinct, IsCoupling, UpTo, Ordered, Permutation,
         Respects, IdsAscend, Meets, TruePlacement, HasSwapGate, Start, Below, RouterOk, StrategyOk, Prompt, Chosen, RoutedAt;
    var device := new Device(adj, placement);
    ghost var start := device.Snapshot();
    var router := new Router(device, duostra, !duostra, minTie, sort);
    var topology := new CircuitTopology(circuit);
    var scheduler := new Scheduler(topology);
    StartOk(device);
    NothingCarried(adj, start, circuit);
    OrderedStart(circuit);
    job, first := scheduler.TheJob(router), scheduler.Now(router);
    RunScheduler(scheduler, router, sort, strategy, first);
    ops, final, ids := scheduler.operations, device.Snapshot().logical, scheduler.ids;
    if strategy.ById? {
      IdOrderRespects(circuit);
      IdsAreAll(|circuit.gates|);
      ChosenById(job, first, ids);
    } else {
      CompleteRun(circuit, topology.State(), ids);
    }
    WholeMapping(adj, start, device.Snapshot(), ops, circuit, ids);
    forall k | 0 <= k < |ids|
      ensures RoutedAt(job, first, ids, k)
    {
      RunRoutes(job, first, ids, k);
    }
  }

  lemma ChosenById(j: Job, first: Replica, ids: seq<nat>)
    requires Chosen(ById, j, first, ids)
    ensures ids == Iota(|j.circuit.gates|)
  {
  }

  lemma IdsAreAll(n: nat)
    ensures Members(Iota(n)) == UpTo(n)
  {
    IotaMembers(n);
  }

  /** What a finished run amounts to. */
  lemma WholeMapping(adj: seq<seq<nat>>, start: State, now: State, ops: seq<Operation>, c: Circuit, ids: seq<nat>)
    requires Carried(adj, start, now, ops, c, ids) && Members(ids) == UpTo(|c.gates|) && CircuitOk(c, |adj|)
    ensures FitsAll(adj, start, ops) && Prompt(start, ops) && now.logical == Final(start.logical, ops)
    ensures Below(ids, |c.gates|) && Meets(start.logical, ops, c, ids)
    ensures TruePlacement(start.logical, ops) <==> !HasSwapGate(c)
  {
    hide FitsAll, AfterAll, Meets, UpTo, TruePlacement, NoSwapGates, HasSwapGate;
    FinalIsAfter(start, ops);
    SwapGatesShow(c, |adj|, start.logical, ops, ids);
    FitsByQubit(adj, start, ops);
    LastsOnDevice(adj, ops);
    TrueWithoutSwapGates(adj, start.logical, ops);
  }

  lemma StartOk(device: Device)
    requires device.Valid()
    ensures StateOk(device.Snapshot(), |device.adj|)
  {
  }
}
