/** What a run of gates makes of a router and of a topology, as functions of where they began. */
module Replicas {
  import opened Collections
  import opened Topologies
  import opened Schedules
  import opened Devices
  import opened Routing
  import opened CircuitTopologies
  import opened CircuitOrders
  import opened Routers

  /** What does not change during a run. */
  datatype Job = Job(circuit: Circuit, policy: Policy)

  /** Copies of a router and of a topology. */
  datatype Replica = Replica(router: RouterState, progress: Progress)

  function GateOf(c: Circuit, g: nat): LogicalGate {
    if g < |c.gates| then c.gates[g] else LogicalGate(false, [])
  }

  /** The operations of a copied router for a gate. */
  function OpsOf(j: Job, r: Replica, g: nat): seq<Operation> {
    RouteOf(j.policy, r.router, g, GateOf(j.circuit, g)).ops
  }

  /** The copies after a gate. */
  function StepOne(j: Job, r: Replica, g: nat): Replica {
    Replica(RouteOf(j.policy, r.router, g, GateOf(j.circuit, g)).router, if g < |j.circuit.gates| then Update(j.circuit, r.progress, g) else r.progress)
  }

  function StepAll(j: Job, r: Replica, ids: seq<nat>): Replica {
    if ids == [] then r else StepOne(j, StepAll(j, r, ids[..|ids| - 1]), ids[|ids| - 1])
  }

  /** All operations, gate after gate. */
  function OpsAll(j: Job, r: Replica, ids: seq<nat>): seq<Operation> {
    if ids == [] then []
    else
      var before := ids[..|ids| - 1];
      OpsAll(j, r, before) + OpsOf(j, StepAll(j, r, before), ids[|ids| - 1])
  }

  lemma {:induction false} StepMore(j: Job, r: Replica, ids: seq<nat>, g: nat)
    ensures StepAll(j, r, ids + [g]) == StepOne(j, StepAll(j, r, ids), g)
    ensures OpsAll(j, r, ids + [g]) == OpsAll(j, r, ids) + OpsOf(j, StepAll(j, r, ids), g)
  {
    hide StepOne, OpsOf;
    assert (ids + [g])[..|ids|] == ids;
  }

  lemma {:induction false} StepOn(j: Job, r: Replica, ids: seq<nat>, more: seq<nat>)
    ensures StepAll(j, r, ids + more) == StepAll(j, StepAll(j, r, ids), more)
    ensures OpsAll(j, r, ids + more) == OpsAll(j, r, ids) + OpsAll(j, StepAll(j, r, ids), more)
    decreases |more|
  {
    hide StepOne, OpsOf;
    if more == [] {
      assert ids + more == ids;
    } else {
      var m := |more| - 1;
      assert (ids + more)[..|ids + more| - 1] == ids + more[..m];
      StepOn(j, r, ids, more[..m]);
    }
  }

  // ---------------------------------------------------------------- what it costs

  /** When the last of the operations ends. */
  function LatestEnd(ops: seq<Operation>): nat {
    if ops == [] then 0 else Max(LatestEnd(ops[..|ops| - 1]), ops[|ops| - 1].end)
  }

  function CostAll(j: Job, r: Replica, ids: seq<nat>, cost: nat): nat {
    if ids == [] then cost
    else
      var before, g := ids[..|ids| - 1], ids[|ids| - 1];
      Max(CostAll(j, r, before, cost), LatestEnd(OpsOf(j, StepAll(j, r, before), g)))
  }

  /** The number is the larger of the cost so far and of the time at which the last of the operations ends. */
  ghost predicate LastEnd(ops: seq<Operation>, cost: nat, last: nat) {
    && cost <= last && (forall op :: op in ops ==> op.end <= last)
    && (last == cost || exists op :: op in ops && op.end == last)
  }

  lemma {:induction false} LatestEndIsLast(ops: seq<Operation>)
    ensures LastEnd(ops, 0, LatestEnd(ops))
    decreases |ops|
  {
    if ops != [] {
      var m := |ops| - 1;
      LatestEndIsLast(ops[..m]);
      assert ops == ops[..m] + [ops[m]];
      assert ops[m] in ops;
    }
  }

  lemma LastEndMore(ops: seq<Operation>, more: seq<Operation>, cost: nat, a: nat, b: nat)
    requires LastEnd(ops, cost, a) && LastEnd(more, 0, b)
    ensures LastEnd(ops + more, cost, Max(a, b))
  {
    if Max(a, b) != cost {
      if a >= b {
        var op :| op in ops && op.end == a;
        assert op in ops + more;
      } else {
        var op :| op in more && op.end == b;
        assert op in ops + more;
      }
    }
  }

  /** The cost is when the last operation of the run ends. */
  lemma {:induction false} CostIsLastEnd(j: Job, r: Replica, ids: seq<nat>, cost: nat)
    ensures LastEnd(OpsAll(j, r, ids), cost, CostAll(j, r, ids, cost))
    decreases |ids|
  {
    hide LastEnd, LatestEnd, OpsOf, StepAll;
    if ids == [] {
      NothingEnds(cost);
    } else {
      var before, g := ids[..|ids| - 1], ids[|ids| - 1];
      CostIsLastEnd(j, r, before, cost);
      LatestEndIsLast(OpsOf(j, StepAll(j, r, before), g));
      LastEndMore(OpsAll(j, r, before), OpsOf(j, StepAll(j, r, before), g), cost, CostAll(j, r, before, cost), LatestEnd(OpsOf(j, StepAll(j, r, before), g)));
    }
  }

  lemma NothingEnds(cost: nat)
    ensures LastEnd([], cost, cost)
  {
  }

  // ---------------------------------------------------------------- gates in turn

  /** Each gate is available when its turn comes. */
  ghost predicate InTurn(j: Job, r: Replica, ids: seq<nat>) {
    ids == [] || (InTurn(j, r, ids[..|ids| - 1]) && ids[|ids| - 1] in StepAll(j, r, ids[..|ids| - 1]).progress.available)
  }

  lemma {:induction false} InTurnMore(j: Job, r: Replica, ids: seq<nat>, g: nat)
    requires InTurn(j, r, ids) && g in StepAll(j, r, ids).progress.available
    ensures InTurn(j, r, ids + [g]) && StepAll(j, r, ids + [g]) == StepOne(j, StepAll(j, r, ids), g)
    ensures forall cost: nat :: CostAll(j, r, ids + [g], cost) == Max(CostAll(j, r, ids, cost), LatestEnd(OpsOf(j, StepAll(j, r, ids), g)))
  {
    hide StepOne, OpsOf;
    assert (ids + [g])[..|ids|] == ids;
  }

  lemma {:induction false} TurnOf(j: Job, r: Replica, ids: seq<nat>, k: nat)
    requires InTurn(j, r, ids) && k < |ids|
    ensures InTurn(j, r, ids[..k]) && ids[k] in StepAll(j, r, ids[..k]).progress.available
    decreases |ids|
  {
    hide StepAll;
    var m := |ids| - 1;
    if k < m {
      TurnOf(j, r, ids[..m], k);
      assert ids[..m][..k] == ids[..k];
    }
  }

  /** Going on from where the first gates lead. */
  lemma {:induction false} TurnsAppend(j: Job, r: Replica, ids: seq<nat>, more: seq<nat>, cost: nat)
    requires InTurn(j, r, ids) && InTurn(j, StepAll(j, r, ids), more)
    ensures InTurn(j, r, ids + more) && StepAll(j, r, ids + more) == StepAll(j, StepAll(j, r, ids), more)
    ensures CostAll(j, r, ids + more, cost) == CostAll(j, StepAll(j, r, ids), more, CostAll(j, r, ids, cost))
    decreases |more|
  {
    hide StepOne, OpsOf;
    if more == [] {
      assert ids + more == ids;
    } else {
      var m := |more| - 1;
      assert (ids + more)[..|ids + more| - 1] == ids + more[..m];
      TurnsAppend(j, r, ids, more[..m], cost);
    }
  }

  /** Gates routed in turn keep the run in order, and the tracker's knowledge with it. */
  lemma {:induction false} OrderedAlong(j: Job, r: Replica, past: seq<nat>, ids: seq<nat>, n: nat)
    requires CircuitOk(j.circuit, n) && Ordered(j.circuit, r.progress, past) && InTurn(j, r, ids)
    ensures Ordered(j.circuit, StepAll(j, r, ids).progress, past + ids)
    decreases |ids|
  {
    hide Ordered, CircuitOk, Update, RouteOf;
    if ids == [] {
      assert past + [] == past;
    } else {
      var m := |ids| - 1;
      OrderedAlong(j, r, past, ids[..m], n);
      OrderedMore(j.circuit, StepAll(j, r, ids[..m]).progress, past + ids[..m], ids[m], n);
      assert past + ids == past + ids[..m] + [ids[m]];
    }
  }

  /** The copied router is always one that could be real, and its operations for the next gate route it. */
  lemma {:induction false} CopyRoutes(j: Job, r: Replica, past: seq<nat>, ids: seq<nat>, g: nat)
    requires CircuitOk(j.circuit, |j.policy.adj|) && Ordered(j.circuit, r.progress, past) && RouterOk(j.policy, r.router)
    requires InTurn(j, r, ids) && g in StepAll(j, r, ids).progress.available
    ensures var now := StepAll(j, r, ids);
            && RouterOk(j.policy, now.router) && g < |j.circuit.gates| && |SnapshotOf(now.router.qubits).occupied| == |j.policy.adj|
            && Routed(j.policy.adj, SnapshotOf(now.router.qubits), OpsOf(j, now, g), g, j.circuit.gates[g])
    decreases |ids|
  {
    hide Ordered, CircuitOk, Update, RouteOf, RouterOk, Routed;
    OrderedAlong(j, r, past, ids, |j.policy.adj|);
    AvailableExists(j.circuit, StepAll(j, r, ids).progress, past + ids, g);
    GateIsOk(j.circuit, g, |j.policy.adj|);
    if ids != [] {
      var m := |ids| - 1;
      CopyRoutes(j, r, past, ids[..m], ids[m]);
      GateIsOk(j.circuit, ids[m], |j.policy.adj|);
      RouteOfRoutes(j.policy, StepAll(j, r, ids[..m]).router, ids[m], j.circuit.gates[ids[m]]);
    }
    RouterSized(j.policy, StepAll(j, r, ids).router);
    RouteOfRoutes(j.policy, StepAll(j, r, ids).router, g, j.circuit.gates[g]);
  }

  lemma RouterSized(policy: Policy, r: RouterState)
    requires RouterOk(policy, r)
    ensures |SnapshotOf(r.qubits).occupied| == |policy.adj|
  {
  }

  // ---------------------------------------------------------------- gate by gate

  /** The k-th gate of a run is routed from the state that the gates before it have led to, the way its router goes. */
  ghost predicate RoutedAt(j: Job, first: Replica, ids: seq<nat>, k: nat)
    requires k < |ids|
  {
    var now := AfterAll(SnapshotOf(first.router.qubits), OpsAll(j, first, ids[..k]));
    var ops := OpsOf(j, StepAll(j, first, ids[..k]), ids[k]);
    && ids[k] < |j.circuit.gates| && |now.occupied| == |j.policy.adj|
    && Routed(j.policy.adj, now, ops, ids[k], j.circuit.gates[ids[k]])
    && ByItsRouter(j.policy.adj, j.policy.duostra, j.policy.minTie, now, ops, ids[k], j.circuit.gates[ids[k]])
  }

  /** The router is always one that could be real, and its device is as the operations leave it. */
  lemma {:induction false} RunState(j: Job, first: Replica, ids: seq<nat>)
    requires RouterOk(j.policy, first.router) && CircuitOk(j.circuit, |j.policy.adj|) && Below(ids, |j.circuit.gates|)
    ensures RouterOk(j.policy, StepAll(j, first, ids).router)
    ensures SnapshotOf(StepAll(j, first, ids).router.qubits) == AfterAll(SnapshotOf(first.router.qubits), OpsAll(j, first, ids))
    decreases |ids|
  {
    hide RouterOk, CircuitOk, RouteOf, Update, AfterAll;
    if ids == [] {
      NoOperationYet(SnapshotOf(first.router.qubits));
    } else {
      var m := |ids| - 1;
      RunState(j, first, ids[..m]);
      GateIsOk(j.circuit, ids[m], |j.policy.adj|);
      var now := StepAll(j, first, ids[..m]);
      RouteOfRoutes(j.policy, now.router, ids[m], j.circuit.gates[ids[m]]);
      AfterAppend(SnapshotOf(first.router.qubits), OpsAll(j, first, ids[..m]), OpsOf(j, now, ids[m]));
    }
  }

  lemma NoOperationYet(s: State)
    ensures AfterAll(s, []) == s
  {
  }

  /** Every gate of a run is routed, whatever the order. */
  lemma RunRoutes(j: Job, first: Replica, ids: seq<nat>, k: nat)
    requires RouterOk(j.policy, first.router) && CircuitOk(j.circuit, |j.policy.adj|) && Below(ids, |j.circuit.gates|) && k < |ids|
    ensures RoutedAt(j, first, ids, k)
  {
    hide RouterOk, CircuitOk, RouteOf, AfterAll, Routed, ByItsRouter, StepAll, OpsAll;
    RunState(j, first, ids[..k]);
    var now := StepAll(j, first, ids[..k]);
    GateIsOk(j.circuit, ids[k], |j.policy.adj|);
    RouterSized(j.policy, now.router);
    RouteOfRoutes(j.policy, now.router, ids[k], j.circuit.gates[ids[k]]);
    RouteOfWalks(j.policy, now.router, ids[k], j.circuit.gates[ids[k]]);
  }

  // ---------------------------------------------------------------- which gate is next

  /** The gate can be carried out where its operands are. */
  predicate AtHand(j: Job, r: Replica, g: nat) {
    Executable(j.policy.adj, r.router, GateOf(j.circuit, g))
  }

  /** The first listed gate that can be carried out where its operands are. */
  ghost predicate FirstAtHand(j: Job, r: Replica, g: nat) {
    exists k :: 0 <= k < |r.progress.available| && FirstAtHandAt(j, r, g, k)
  }

  ghost predicate FirstAtHandAt(j: Job, r: Replica, g: nat, k: nat)
    requires k < |r.progress.available|
  {
    && r.progress.available[k] == g && AtHand(j, r, g)
    && forall i :: 0 <= i < k ==> !AtHand(j, r, r.progress.available[i])
  }

  ghost predicate NoneAtHand(j: Job, r: Replica) {
    forall i :: 0 <= i < |r.progress.available| ==> !AtHand(j, r, r.progress.available[i])
  }

  /** The first gate at hand, or else the first one listed. */
  ghost predicate FirstChoice(j: Job, r: Replica, g: nat) {
    FirstAtHand(j, r, g) || (NoneAtHand(j, r) && r.progress.available != [] && g == r.progress.available[0])
  }

  /** The first gate at hand, or else the only one listed. */
  ghost predicate NoChoice(j: Job, r: Replica, g: nat) {
    FirstAtHand(j, r, g) || (NoneAtHand(j, r) && r.progress.available == [g])
  }

  /** A gate is at hand exactly when routing it inserts no swap. */
  lemma AtHandMeans(j: Job, first: Replica, ids: seq<nat>, g: nat)
    requires RouterOk(j.policy, first.router) && CircuitOk(j.circuit, |j.policy.adj|) && Below(ids, |j.circuit.gates|) && g < |j.circuit.gates|
    ensures AtHand(j, StepAll(j, first, ids), g) <==> |OpsOf(j, StepAll(j, first, ids), g)| == 1
  {
    hide RouterOk, CircuitOk, RouteOf, StepAll, Executable;
    RunState(j, first, ids);
    GateIsOk(j.circuit, g, |j.policy.adj|);
    ExecutableNeedsNoSwap(j.policy, StepAll(j, first, ids).router, g, j.circuit.gates[g]);
  }
}
