/** Schedulers, and what a whole mapping run delivers. */
module Schedulers {
  import opened Collections
  import opened Topologies
  import opened Schedules
  import opened Devices
  import opened Routing
  import opened Sorts
  import opened CircuitTopologies
  import opened CircuitOrders
  import opened Routers
  import opened Replicas

  // ---------------------------------------------------------------- progress of a run

  /** The device has carried out the operations from the start state, and with the swaps undone every
      logical qubit has met the gates with these ids, in this order. */
  ghost predicate Carried(adj: seq<seq<nat>>, start: State, now: State, ops: seq<Operation>, c: Circuit, ids: seq<nat>) {
    && StateOk(start, |adj|) && FitsAll(adj, start, ops) && Prompt(start, ops) && now == AfterAll(start, ops)
    && Below(ids, |c.gates|) && Meets(start.logical, ops, c, ids) && SwapsOf(c, ops)
  }

  ghost predicate Meets(logical: seq<nat>, ops: seq<Operation>, c: Circuit, ids: seq<nat>)
    requires Below(ids, |c.gates|)
  {
    forall l: nat :: EventsOn(Trace(logical, ops), l) == EventsOn(EventsOf(c, ids), l)
  }

  /** A gate of the circuit swaps on the device exactly when it is a swap gate. */
  ghost predicate SwapsOf(c: Circuit, ops: seq<Operation>) {
    forall i :: 0 <= i < |ops| && ops[i].gate.Some? ==> ops[i].gate.value < |c.gates| && ops[i].swap == c.gates[ops[i].gate.value].swap
  }

  lemma CarriedMore(adj: seq<seq<nat>>, start: State, now: State, ops: seq<Operation>, c: Circuit, ids: seq<nat>, g: nat,
                    more: seq<Operation>)
    requires Carried(adj, start, now, ops, c, ids)
    requires |now.occupied| == |adj| && g < |c.gates| && Routed(adj, now, more, g, c.gates[g])
    ensures Carried(adj, start, AfterAll(now, more), ops + more, c, ids + [g])
  {
    hide FitsAll, AfterAll, Trace, Routed, EventsOn, Prompt;
    RoutedSwaps(adj, now, more, g, c);
    RoutedFits(adj, now, more, g, c.gates[g]);
    FitsAppend(adj, start, ops, more);
    PromptAppend(start, ops, more);
    AfterAppend(start, ops, more);
    TraceAppend(start.logical, ops, more);
    FinalIsAfter(start, ops);
    RoutedTrace(adj, now, more, g, c.gates[g]);
    assert (ids + [g])[..|ids|] == ids;
    forall l: nat
      ensures EventsOn(Trace(start.logical, ops + more), l) == EventsOn(EventsOf(c, ids + [g]), l)
    {
      EventsOnAppend(Trace(start.logical, ops), [EventOfGate(c, g)], l);
      EventsOnAppend(EventsOf(c, ids), [EventOfGate(c, g)], l);
    }
  }

  lemma RoutedSwaps(adj: seq<seq<nat>>, s: State, ops: seq<Operation>, g: nat, c: Circuit)
    requires |s.occupied| == |adj| && g < |c.gates| && Routed(adj, s, ops, g, c.gates[g])
    ensures SwapsOf(c, ops)
  {
  }

  lemma RoutedFits(adj: seq<seq<nat>>, s: State, ops: seq<Operation>, id: nat, g: LogicalGate)
    requires |s.occupied| == |adj| && Routed(adj, s, ops, id, g)
    ensures FitsAll(adj, s, ops) && Prompt(s, ops)
  {
  }

  lemma NothingCarried(adj: seq<seq<nat>>, start: State, c: Circuit)
    requires StateOk(start, |adj|)
    ensures Carried(adj, start, start, [], c, [])
  {
  }

  /** Sorting keeps the run a run, with the same gates for every logical qubit. */
  lemma SortedIsCarried(adj: seq<seq<nat>>, start: State, now: State, ops: seq<Operation>, sorted: seq<Operation>, c: Circuit,
                        ids: seq<nat>)
    requires Carried(adj, start, now, ops, c, ids) && SortedByStart(sorted) && Permutation(ops, sorted)
    ensures Carried(adj, start, now, sorted, c, ids)
  {
    hide FitsAll, AfterAll, Trace, StateOk, EventsOf, Prompt;
    SortedRun(adj, start, ops, sorted);
    SortedPrompt(adj, start, ops, sorted);
    forall i | 0 <= i < |sorted|
      ensures sorted[i] in ops
    {
      CountIn(sorted, sorted[i]);
      CountIn(ops, sorted[i]);
      assert Count(ops, sorted[i]) == Count(sorted, sorted[i]);
    }
    forall l: nat
      ensures EventsOn(Trace(start.logical, sorted), l) == EventsOn(EventsOf(c, ids), l)
    {
      assert EventsOn(Trace(start.logical, ops), l) == EventsOn(EventsOf(c, ids), l);
    }
  }

  // ---------------------------------------------------------------- the schedulers

  class Scheduler {
    const topology: CircuitTopology
    var operations: seq<Operation>
    ghost var ids: seq<nat>

    constructor (topology: CircuitTopology)
      ensures this.topology == topology && operations == [] && ids == []
    {
      this.topology := topology;
      operations, ids := [], [];
    }

    function TheJob(router: Router): Job
      reads router.device.topology
    {
      Job(topology.circuit, router.Rules())
    }

    function Now(router: Router): Replica
      reads topology, router, router.device
    {
      Replica(router.State(), topology.State())
    }

    /** The operations so far carry out the gates routed so far; they and what the router and the topology have
        become are those of the run that routes these gates from the first state on. */
    ghost predicate Running(router: Router, first: Replica)
      reads this, topology, router, router.device, router.device.topology
    {
      && router.Valid() && CircuitOk(topology.circuit, |router.device.adj|)
      && Carried(router.device.adj, SnapshotOf(first.router.qubits), router.device.Snapshot(), operations, topology.circuit, ids)
      && Now(router) == StepAll(TheJob(router), first, ids) && operations == OpsAll(TheJob(router), first, ids)
    }

    /** Each of them was ready when it was routed. */
    ghost predicate InTurn()
      reads this, topology
    {
      Ordered(topology.circuit, topology.State(), ids)
    }

    /** Routes a gate, ready or not, and records it. */
    method RouteOneGate(router: Router, g: nat, ghost first: Replica)
      requires Running(router, first) && g < |topology.circuit.gates|
      modifies this, topology, router, router.device`qubits
      ensures Running(router, first) && ids == old(ids) + [g]
      ensures topology.State() == Update(topology.circuit, old(topology.State()), g)
    {
      hide Carried, Routed, CircuitOk, AfterAll, Update, RouteOf, RouterOk, StepAll, OpsAll;
      ghost var before := router.device.Snapshot();
      GateIsOk(topology.circuit, g, |router.device.adj|);
      StepMore(TheJob(router), first, ids, g);
      var ops := router.AssignGate(g, topology.circuit.gates[g]);
      CarriedMore(router.device.adj, SnapshotOf(first.router.qubits), before, operations, topology.circuit, ids, g, ops);
      operations, ids := operations + ops, ids + [g];
      topology.UpdateAvailableGates(g);
    }

    /** The same for an available gate. */
    method RouteAvailable(router: Router, g: nat, ghost first: Replica)
      requires Running(router, first) && InTurn() && g in topology.available
      modifies this, topology, router, router.device`qubits
      ensures Running(router, first) && InTurn() && ids == old(ids) + [g]
    {
      hide Carried, Ordered, Update, CircuitOk, RouteOf, RouterOk, StepAll, OpsAll;
      OrderedMore(topology.circuit, topology.State(), ids, g, |router.device.adj|);
      RouteOneGate(router, g, first);
    }

    /** The first available gate that needs no routing. */
    method GetExecutableGate(router: Router) returns (g: Option<nat>)
      requires router.Valid() && CircuitOk(topology.circuit, |router.device.adj|) && InTurn()
      ensures if g.Some? then FirstAtHand(TheJob(router), Now(router), g.value) else NoneAtHand(TheJob(router), Now(router))
    {
      hide CircuitOk, Ordered, Executable, RouterOk;
      var i := 0;
      while i < |topology.available|
        invariant i <= |topology.available| && forall k :: 0 <= k < i ==> !AtHand(TheJob(router), Now(router), topology.available[k])
      {
        var h := topology.available[i];
        assert h in topology.available;
        AvailableExists(topology.circuit, topology.State(), ids, h);
        GateIsOk(topology.circuit, h, |router.device.adj|);
        var ok := router.IsExecutable(topology.circuit.gates[h]);
        if ok {
          assert FirstAtHandAt(TheJob(router), Now(router), h, i);
          return Some(h);
        }
        i := i + 1;
      }
      return None;
    }

    /** Gates by id. */
    method AssignById(router: Router, ghost first: Replica)
      requires Running(router, first) && ids == []
      modifies this, topology, router, router.device`qubits
      ensures Running(router, first) && ids == Iota(|topology.circuit.gates|)
    {
      hide Carried, CircuitOk, StepAll, OpsAll, RouterOk;
      var g := 0;
      while g < |topology.circuit.gates|
        invariant g <= |topology.circuit.gates| && Running(router, first) && ids == Iota(g)
      {
        RouteOneGate(router, g, first);
        g := g + 1;
      }
    }

    /** A gate that needs no routing if there is one, otherwise the first one available. */
    method AssignNaively(router: Router, ghost first: Replica)
      requires Running(router, first) && InTurn() && ids == []
      modifies this, topology, router, router.device`qubits
      ensures Running(router, first) && InTurn() && |ids| == |topology.circuit.gates|
      ensures NaiveRun(TheJob(router), first, ids)
    {
      hide Carried, Ordered, CircuitOk, StepAll, OpsAll, FirstAtHand, NoneAtHand, RouterOk, NaiveRun;
      var count := 0;
      NoRun(TheJob(router), first, []);
      while count < |topology.circuit.gates|
        invariant count <= |topology.circuit.gates| && Running(router, first) && InTurn() && |ids| == count
        invariant NaiveRun(TheJob(router), first, ids)
      {
        SomethingAvailable(topology.circuit, topology.State(), ids);
        var g := GetExecutableGate(router);
        var choice := if g.Some? then g.value else topology.available[0];
        FirstChoiceListed(TheJob(router), Now(router), choice);
        NaiveRunMore(TheJob(router), first, ids, choice);
        RouteAvailable(router, choice, first);
        count := count + 1;
      }
    }

    /** Any available gate: the i-th choice decides the i-th one. */
    method AssignRandomly(router: Router, choices: seq<nat>, ghost first: Replica)
      requires Running(router, first) && InTurn() && ids == [] && |choices| == |topology.circuit.gates|
      modifies this, topology, router, router.device`qubits
      ensures Running(router, first) && InTurn() && |ids| == |topology.circuit.gates|
      ensures RandomRun(TheJob(router), first, choices, ids)
    {
      hide Carried, Ordered, CircuitOk, StepAll, OpsAll, RouterOk, RandomRun;
      var count := 0;
      NoRun(TheJob(router), first, choices);
      while count < |topology.circuit.gates|
        invariant count <= |topology.circuit.gates| && Running(router, first) && InTurn() && |ids| == count
        invariant RandomRun(TheJob(router), first, choices, ids)
      {
        SomethingAvailable(topology.circuit, topology.State(), ids);
        var choice := topology.available[choices[count] % |topology.available|];
        assert choice in topology.available;
        RandomRunMore(TheJob(router), first, choices, ids, choice);
        RouteAvailable(router, choice, first);
        count := count + 1;
      }
    }

    /** Sorts by start time, whatever the sort does with equal times. */
    method Sort(router: Router, sort: Sorting, ghost first: Replica)
      requires Running(router, first)
      modifies `operations
      ensures Carried(router.device.adj, SnapshotOf(first.router.qubits), router.device.Snapshot(), operations, topology.circuit, ids)
      ensures SortedByStart(operations) && Permutation(OpsAll(TheJob(router), first, ids), operations)
    {
      hide Carried, StepAll, OpsAll, CircuitOk, RouterOk;
      ghost var before := operations;
      Sorted(sort, operations);
      var sorted := sort(operations);
      SortedIsCarried(router.device.adj, SnapshotOf(first.router.qubits), router.device.Snapshot(), before, sorted, topology.circuit, ids);
      operations := sorted;
    }
  }

  // ---------------------------------------------------------------- which gates are routed next

  /** Each gate is the first one at hand when its turn comes, or else the first one listed. */
  ghost predicate NaiveRun(j: Job, first: Replica, ids: seq<nat>) {
    forall k :: 0 <= k < |ids| ==> FirstChoice(j, StepAll(j, first, ids[..k]), ids[k])
  }

  /** The i-th choice picks the i-th gate from those listed when its turn comes. */
  ghost predicate RandomRun(j: Job, first: Replica, choices: seq<nat>, ids: seq<nat>) {
    |ids| <= |choices| && forall k :: 0 <= k < |ids| ==> Picked(StepAll(j, first, ids[..k]).progress.available, choices[k], ids[k])
  }

  predicate Picked(available: seq<nat>, choice: nat, g: nat) {
    available != [] && g == available[choice % |available|]
  }

  lemma NoRun(j: Job, first: Replica, choices: seq<nat>)
    ensures NaiveRun(j, first, []) && RandomRun(j, first, choices, [])
  {
  }

  lemma FirstChoiceListed(j: Job, r: Replica, g: nat)
    requires FirstChoice(j, r, g)
    ensures g in r.progress.available
  {
  }

  lemma {:induction false} NaiveRunMore(j: Job, first: Replica, ids: seq<nat>, g: nat)
    requires NaiveRun(j, first, ids) && FirstChoice(j, StepAll(j, first, ids), g)
    ensures NaiveRun(j, first, ids + [g])
  {
    hide StepAll, FirstChoice;
    forall k | 0 <= k < |ids + [g]|
      ensures FirstChoice(j, StepAll(j, first, (ids + [g])[..k]), (ids + [g])[k])
    {
      assert (ids + [g])[..k] == ids[..k];
      assert k == |ids| ==> ids[..k] == ids;
    }
  }

  lemma {:induction false} RandomRunMore(j: Job, first: Replica, choices: seq<nat>, ids: seq<nat>, g: nat)
    requires RandomRun(j, first, choices, ids) && |ids| < |choices| && Picked(StepAll(j, first, ids).progress.available, choices[|ids|], g)
    ensures RandomRun(j, first, choices, ids + [g])
  {
    hide StepAll, Picked;
    forall k | 0 <= k < |ids + [g]|
      ensures Picked(StepAll(j, first, (ids + [g])[..k]).progress.available, choices[k], (ids + [g])[k])
    {
      assert (ids + [g])[..k] == ids[..k];
      assert k == |ids| ==> ids[..k] == ids;
    }
  }

  // ---------------------------------------------------------------- swap gates of the circuit

  /** The operation as the state of the circuit sees it: only inserted swaps move logical qubits. */
  function Plain(op: Operation): Operation {
    if op.gate.Some? then op.(swap := false) else op
  }

  function PlainAll(ops: seq<Operation>): (r: seq<Operation>)
    ensures |r| == |ops| && forall i :: 0 <= i < |ops| ==> r[i] == Plain(ops[i])
  {
    seq(|ops|, i requires 0 <= i < |ops| => Plain(ops[i]))
  }

  ghost predicate NoSwapGates(ops: seq<Operation>) {
    forall i :: 0 <= i < |ops| ==> !(ops[i].gate.Some? && ops[i].swap)
  }

  /** The device's placement is the true one after every operation. */
  ghost predicate TruePlacement(logical: seq<nat>, ops: seq<Operation>) {
    forall k :: 0 <= k <= |ops| ==> TrueAfter(logical, ops, k)
  }

  ghost predicate TrueAfter(logical: seq<nat>, ops: seq<Operation>, k: int)
    requires 0 <= k <= |ops|
  {
    Final(logical, ops[..k]) == Final(logical, PlainAll(ops)[..k])
  }

  /** A swap gate of the circuit moves the device's logical qubits although the circuit's do not move:
      the placement stays true exactly when there is none. */
  lemma TrueWithoutSwapGates(adj: seq<seq<nat>>, logical: seq<nat>, ops: seq<Operation>)
    requires PlacementOk(logical, |adj|) && AllOnDevice(adj, ops)
    ensures TruePlacement(logical, ops) <==> NoSwapGates(ops)
  {
    if NoSwapGates(ops) {
      assert PlainAll(ops) == ops;
    } else {
      var i :| 0 <= i < |ops| && ops[i].gate.Some? && ops[i].swap;
      SwapGateMoves(adj, logical, ops, i);
    }
  }

  lemma SwapGateMoves(adj: seq<seq<nat>>, logical: seq<nat>, ops: seq<Operation>, i: nat)
    requires PlacementOk(logical, |adj|) && AllOnDevice(adj, ops) && i < |ops| && ops[i].gate.Some? && ops[i].swap
    ensures !TruePlacement(logical, ops)
  {
    var p := PlainAll(ops);
    FinalStep(logical, ops, i);
    FinalStep(logical, p, i);
    FinalOk(adj, logical, ops[..i]);
    var now := Final(logical, ops[..i]);
    assert OnDevice(adj, ops[i]);
    var (a, b) := (ops[i].qubits[0], ops[i].qubits[1]);
    assert now[a] != now[b];
    assert Placement(now, ops[i])[a] == now[b];
    assert Placement(now, p[i]) == now;
    assert !(TrueAfter(logical, ops, i) && TrueAfter(logical, ops, i + 1));
  }

  lemma FinalStep(logical: seq<nat>, ops: seq<Operation>, i: nat)
    requires i < |ops|
    ensures Final(logical, ops[..i + 1]) == Placement(Final(logical, ops[..i]), ops[i])
  {
    assert ops[..i + 1] == ops[..i] + [ops[i]];
    TraceAppend(logical, ops[..i], [ops[i]]);
    FinalOne(Final(logical, ops[..i]), ops[i]);
  }

  lemma {:induction false} FinalOk(adj: seq<seq<nat>>, logical: seq<nat>, ops: seq<Operation>)
    requires PlacementOk(logical, |adj|) && AllOnDevice(adj, ops)
    ensures PlacementOk(Final(logical, ops), |adj|)
    decreases |ops|
  {
    if ops != [] {
      PlacementStaysOk(adj, logical, ops[0]);
      FinalOk(adj, Placement(logical, ops[0]), ops[1..]);
    }
  }

  lemma {:induction false} TraceGate(logical: seq<nat>, ops: seq<Operation>, e: Event) returns (i: nat)
    requires e in Trace(logical, ops)
    ensures i < |ops| && ops[i].gate == Some(e.gate)
    decreases |ops|
  {
    if e in EventOf(logical, ops[0]) {
      i := 0;
    } else {
      i := TraceGate(Placement(logical, ops[0]), ops[1..], e);
      i := i + 1;
    }
  }

  lemma {:induction false} EventsOnMembers(es: seq<Event>, l: nat, e: Event)
    requires e in EventsOn(es, l)
    ensures e in es
  {
    if !(l in es[0].qubits && e == es[0]) {
      EventsOnMembers(es[1..], l, e);
    }
  }

  lemma {:induction false} GateHasEvent(c: Circuit, l: nat, ids: seq<nat>, g: nat)
    requires Below(ids, |c.gates|) && g in ids && Uses(c, g, l)
    ensures EventOfGate(c, g) in EventsOn(EventsOf(c, ids), l)
    decreases |ids|
  {
    var m := |ids| - 1;
    var before, e := EventsOf(c, ids[..m]), EventOfGate(c, ids[m]);
    EventsOnAppend(before, [e], l);
    EventAlone(e, l);
    if g != ids[m] {
      assert ids == ids[..m] + [ids[m]];
      GateHasEvent(c, l, ids[..m], g);
    }
  }

  predicate HasSwapGate(c: Circuit) {
    exists g :: 0 <= g < |c.gates| && c.gates[g].swap
  }

  /** All gates have been carried out, so the run has a swap gate exactly when the circuit has. */
  lemma SwapGatesShow(c: Circuit, n: nat, logical: seq<nat>, ops: seq<Operation>, ids: seq<nat>)
    requires CircuitOk(c, n) && SwapsOf(c, ops) && Below(ids, |c.gates|) && Members(ids) == UpTo(|c.gates|)
    requires Meets(logical, ops, c, ids)
    ensures NoSwapGates(ops) <==> !HasSwapGate(c)
  {
    hide Trace, EventsOn, EventsOf;
    if HasSwapGate(c) {
      var g: nat :| g < |c.gates| && c.gates[g].swap;
      assert GateOk(c.gates[g], n) && g in Members(ids);
      var l, e := c.gates[g].qubits[0], EventOfGate(c, g);
      GateHasEvent(c, l, ids, g);
      EventsOnMembers(Trace(logical, ops), l, e);
      var i := TraceGate(logical, ops, e);
      assert ops[i].gate.Some? && ops[i].swap;
    }
  }
}
