/** The router: where each logical qubit is, and how a gate is assigned. */
module Routers {
  import opened Collections
  import opened Topologies
  import opened Schedules
  import opened Devices
  import opened Routing
  import opened DuostraSearch
  import opened DuostraRouting
  import opened DuostraPaths
  import opened Sorts

  /** An injective placement of n qubits on n qubits misses none. */
  lemma Onto(s: seq<nat>, l: nat) returns (q: nat)
    requires Distinct(s) && (forall p :: 0 <= p < |s| ==> s[p] < |s|) && l < |s|
    ensures q < |s| && s[q] == l
  {
    var n := |s|;
    if i :| 0 <= i < n && s[i] == l {
      q := i;
    } else {
      var w := seq(n, i requires 0 <= i < n => if s[i] == n - 1 then l else s[i]);
      var i, j := Pigeonhole(w, n - 1);
      assert false;
    }
  }

  /** Entries made for the physical qubits below i. */
  ghost predicate Located(logical: seq<nat>, where: seq<nat>, i: nat) {
    && |where| == |logical| && (forall p :: 0 <= p < |logical| ==> logical[p] < |logical|) && i <= |logical|
    && (forall p :: 0 <= p < i ==> where[logical[p]] == p)
  }

  lemma LocateOne(logical: seq<nat>, where: seq<nat>, i: nat)
    requires Distinct(logical) && Located(logical, where, i) && i < |logical|
    ensures logical[i] < |where| && Located(logical, where[logical[i] := i], i + 1)
  {
    var w: seq<nat> := where[logical[i] := i];
    forall p | 0 <= p < i + 1
      ensures w[logical[p]] == p
    {
      if p < i {
        assert logical[p] != logical[i];
      }
    }
  }

  lemma LocatedAll(logical: seq<nat>, where: seq<nat>)
    requires Distinct(logical) && Located(logical, where, |logical|)
    ensures forall l: nat :: l < |logical| ==> where[l] < |logical| && logical[where[l]] == l
  {
    forall l: nat | l < |logical|
      ensures where[l] < |logical| && logical[where[l]] == l
    {
      var q := Onto(logical, l);
      assert where[logical[q]] == q;
    }
  }

  // ---------------------------------------------------------------- the router as a function

  /** What a router goes by: couplings and paths, which search it uses and how ties fall. */
  datatype Policy = Policy(adj: seq<seq<nat>>, distance: Matrix, predecessor: Matrix, duostra: bool, minTie: bool, sort: Sorting)

  /** What a router changes: its device's qubits, and where each logical qubit is. */
  datatype RouterState = RouterState(qubits: seq<Qubit>, places: seq<nat>)

  datatype Assignment = Assignment(ops: seq<Operation>, router: RouterState)

  function WhereIs(r: RouterState, l: nat): nat {
    if l < |r.places| then r.places[l] else 0
  }

  /** Where the logical qubits of the first k physical ones are. */
  function Places(qs: seq<Qubit>, k: nat): (w: seq<nat>)
    requires k <= |qs|
    ensures |w| == |qs|
  {
    if k == 0 then seq(|qs|, _ => 0)
    else
      var w, l := Places(qs, k - 1), qs[k - 1].logical;
      if l < |w| then w[l := k - 1] else w
  }

  function SingleOp(r: RouterState, id: nat, q: nat): Operation {
    var start := QubitAt(r.qubits, q).occupied;
    Operation(Some(id), false, [q], start, start + Delay(false, 1))
  }

  /** The operations for a gate, and the router after them. */
  function RouteOf(policy: Policy, r: RouterState, id: nat, g: LogicalGate): Assignment {
    if |g.qubits| == 1 then
      var op := SingleOp(r, id, WhereIs(r, g.qubits[0]));
      Assignment([op], RouterState(AppliedSingle(r.qubits, WhereIs(r, g.qubits[0]), op.end), r.places))
    else if |g.qubits| == 2 then
      var p0, p1 := WhereIs(r, g.qubits[0]), WhereIs(r, g.qubits[1]);
      var o := if policy.duostra then TreesRoute(policy.adj, policy.minTie, policy.sort, id, g, r.qubits, p0, p1)
               else ApspRoute(policy.adj, policy.distance, policy.predecessor, policy.minTie, id, g, r.qubits, p0, p1);
      Assignment(o.ops, RouterState(o.qubits, Places(o.qubits, |o.qubits|)))
    else Assignment([], r)
  }

  ghost predicate Inverts(r: RouterState) {
    && |r.places| == |r.qubits|
    && forall l: nat :: l < |r.qubits| ==> r.places[l] < |r.qubits| && r.qubits[r.places[l]].logical == l
  }

  /** The map inverts the device's placement. Tree search needs a connected device at rest, the
      other router the shortest paths. */
  ghost predicate RouterOk(policy: Policy, r: RouterState) {
    && QubitsOk(policy.adj, r.qubits) && Connected(policy.adj) && |policy.adj| <= MAX_DIST && Inverts(r)
    && if policy.duostra then AtRest(r.qubits) else Paths(policy.adj, policy.distance, policy.predecessor)
  }

  lemma {:induction false} PlacesLocated(qs: seq<Qubit>, k: nat)
    requires StateOk(SnapshotOf(qs), |qs|) && k <= |qs|
    ensures Located(SnapshotOf(qs).logical, Places(qs, k), k)
  {
    if k > 0 {
      PlacesLocated(qs, k - 1);
      LocateOne(SnapshotOf(qs).logical, Places(qs, k - 1), k - 1);
    }
  }

  lemma PlacesInvert(adj: seq<seq<nat>>, qs: seq<Qubit>)
    requires QubitsOk(adj, qs)
    ensures Inverts(RouterState(qs, Places(qs, |qs|)))
  {
    PlacesLocated(qs, |qs|);
    LocatedAll(SnapshotOf(qs).logical, Places(qs, |qs|));
  }

  /** What the function gives routes the gate, from every state a router can be in. */
  lemma RouteOfRoutes(policy: Policy, r: RouterState, id: nat, g: LogicalGate)
    requires RouterOk(policy, r) && GateOk(g, |policy.adj|)
    ensures var a := RouteOf(policy, r, id, g);
            && RouterOk(policy, a.router) && Routed(policy.adj, SnapshotOf(r.qubits), a.ops, id, g)
            && SnapshotOf(a.router.qubits) == AfterAll(SnapshotOf(r.qubits), a.ops)
  {
    hide Routed, Connected, QubitsOk, AfterAll, Paths, TreesRoute, ApspRoute, AtRest, Inverts, WhereIs, AppliedSingle;
    OperandsPlaced(policy, r, g);
    if |g.qubits| == 1 {
      SingleRoutes(policy.adj, r, id, g);
    } else {
      PairRoutes(policy, r, id, g);
      PlacesInvert(policy.adj, RouteOf(policy, r, id, g).router.qubits);
    }
  }

  lemma PairRoutes(policy: Policy, r: RouterState, id: nat, g: LogicalGate)
    requires RouterOk(policy, r) && |g.qubits| == 2 && WhereIs(r, g.qubits[0]) != WhereIs(r, g.qubits[1])
    requires WhereIs(r, g.qubits[0]) < |policy.adj| && QubitAt(r.qubits, WhereIs(r, g.qubits[0])).logical == g.qubits[0]
    requires WhereIs(r, g.qubits[1]) < |policy.adj| && QubitAt(r.qubits, WhereIs(r, g.qubits[1])).logical == g.qubits[1]
    ensures var a := RouteOf(policy, r, id, g);
            && QubitsOk(policy.adj, a.router.qubits) && (policy.duostra ==> AtRest(a.router.qubits))
            && Routed(policy.adj, SnapshotOf(r.qubits), a.ops, id, g)
            && SnapshotOf(a.router.qubits) == AfterAll(SnapshotOf(r.qubits), a.ops)
  {
    hide Routed, Connected, QubitsOk, AfterAll, Paths, Within, TreesRoute, ApspRoute, AtRest, Inverts, WhereIs, QubitAt, Places;
    var p0, p1 := WhereIs(r, g.qubits[0]), WhereIs(r, g.qubits[1]);
    if policy.duostra {
      TreesRoutes(policy.adj, policy.minTie, policy.sort, id, g, r.qubits, p0, p1);
    } else {
      AllWithin(policy.adj, policy.distance, policy.predecessor, p0, p1);
      ApspRoutes(policy.adj, policy.distance, policy.predecessor, policy.minTie, id, g, r.qubits, p0, p1);
    }
  }

  /** Both operands are on the device, and no gate has the same one twice. */
  lemma OperandsPlaced(policy: Policy, r: RouterState, g: LogicalGate)
    requires RouterOk(policy, r) && GateOk(g, |policy.adj|)
    ensures forall i :: 0 <= i < |g.qubits| ==>
              WhereIs(r, g.qubits[i]) < |policy.adj| && QubitAt(r.qubits, WhereIs(r, g.qubits[i])).logical == g.qubits[i]
    ensures |g.qubits| == 2 ==> WhereIs(r, g.qubits[0]) != WhereIs(r, g.qubits[1])
  {
    hide Connected;
    if |g.qubits| == 2 {
      assert QubitAt(r.qubits, WhereIs(r, g.qubits[0])).logical == g.qubits[0];
      assert QubitAt(r.qubits, WhereIs(r, g.qubits[1])).logical == g.qubits[1];
    }
  }

  lemma SingleRoutes(adj: seq<seq<nat>>, r: RouterState, id: nat, g: LogicalGate)
    requires QubitsOk(adj, r.qubits) && Inverts(r) && |g.qubits| == 1 && !g.swap && WhereIs(r, g.qubits[0]) < |adj|
    requires QubitAt(r.qubits, WhereIs(r, g.qubits[0])).logical == g.qubits[0]
    ensures var q := WhereIs(r, g.qubits[0]);
            var op := SingleOp(r, id, q);
            var qs := AppliedSingle(r.qubits, q, op.end);
            && OnDevice(adj, op) && Routed(adj, SnapshotOf(r.qubits), [op], id, g)
            && QubitsOk(adj, qs) && SnapshotOf(qs) == AfterAll(SnapshotOf(r.qubits), [op]) && Inverts(RouterState(qs, r.places))
            && (AtRest(r.qubits) ==> AtRest(qs))
  {
    var s, op := SnapshotOf(r.qubits), SingleOp(r, id, WhereIs(r, g.qubits[0]));
    NoOperation(adj, s);
    SingleFits(adj, s, op, g);
    PromptMore(s, [], op, op.qubits[0]);
    GateEndsRouting(adj, s, [], id, g, op);
    assert [] + [op] == [op];
    SingleIsAfter(adj, r.qubits, op);
  }

  lemma SingleFits(adj: seq<seq<nat>>, s: State, op: Operation, g: LogicalGate)
    requires |s.occupied| == |s.logical| == |adj| && |op.qubits| == 1 && op.qubits[0] < |adj| && !op.swap
    requires op.start == s.occupied[op.qubits[0]] && op.end == op.start + Delay(false, 1) && g.qubits == [s.logical[op.qubits[0]]]
    ensures Fits(adj, AfterAll(s, []), op) && Operands(AfterAll(s, []).logical, op) == g.qubits && OnDevice(adj, op)
  {
  }

  // ---------------------------------------------------------------- which way the operands go

  /** A gate on one qubit takes one operation; the operands of a gate on two go the way of the router that is chosen. */
  ghost predicate ByItsRouter(adj: seq<seq<nat>>, duostra: bool, minTie: bool, s: State, ops: seq<Operation>, id: nat, g: LogicalGate) {
    if |g.qubits| == 1 then |ops| == 1
    else if duostra then WalksFromBoth(adj, minTie, s, ops, g)
    else WalksInward(adj, minTie, s, ops, id, g)
  }

  lemma RouteOfWalks(policy: Policy, r: RouterState, id: nat, g: LogicalGate)
    requires RouterOk(policy, r) && GateOk(g, |policy.adj|)
    ensures ByItsRouter(policy.adj, policy.duostra, policy.minTie, SnapshotOf(r.qubits), RouteOf(policy, r, id, g).ops, id, g)
  {
    hide Connected, QubitsOk, Paths, TreesRoute, ApspRoute, AtRest, Inverts, WhereIs, QubitAt, Places, WalksInward, WalksFromBoth, AppliedSingle;
    OperandsPlaced(policy, r, g);
    if |g.qubits| == 2 {
      var p0, p1 := WhereIs(r, g.qubits[0]), WhereIs(r, g.qubits[1]);
      if policy.duostra {
        TreesRouteWalks(policy.adj, policy.minTie, policy.sort, id, g, r.qubits, p0, p1);
      } else {
        AllWithin(policy.adj, policy.distance, policy.predecessor, p0, p1);
        ApspInward(policy.adj, policy.distance, policy.predecessor, policy.minTie, id, g, r.qubits, p0, p1);
      }
    }
  }

  /** No swap is inserted for a gate exactly when it can be carried out where its operands are. */
  lemma ExecutableNeedsNoSwap(policy: Policy, r: RouterState, id: nat, g: LogicalGate)
    requires RouterOk(policy, r) && GateOk(g, |policy.adj|)
    ensures Executable(policy.adj, r, g) <==> |RouteOf(policy, r, id, g).ops| == 1
  {
    hide Connected, QubitsOk, Paths, TreesRoute, ApspRoute, AtRest, Inverts, WhereIs, QubitAt, Places, WalksInward, WalksFromBoth, AppliedSingle,
         Routed, Coupled, Within, AfterAll;
    RouterFacts(policy, r, g);
    OperandsPlaced(policy, r, g);
    RouteOfRoutes(policy, r, id, g);
    if |g.qubits| == 2 {
      var p0, p1 := WhereIs(r, g.qubits[0]), WhereIs(r, g.qubits[1]);
      if Coupled(policy.adj, p0, p1) {
        CoupledNeedNoSwap(policy, r, id, g);
      } else if |RouteOf(policy, r, id, g).ops| == 1 {
        OneOperationOnCoupled(policy, r, RouteOf(policy, r, id, g).ops, id, g);
      }
    }
  }

  lemma CoupledNeedNoSwap(policy: Policy, r: RouterState, id: nat, g: LogicalGate)
    requires RouterOk(policy, r) && GateOk(g, |policy.adj|) && |g.qubits| == 2
    requires Coupled(policy.adj, WhereIs(r, g.qubits[0]), WhereIs(r, g.qubits[1]))
    ensures |RouteOf(policy, r, id, g).ops| == 1
  {
    hide Connected, QubitsOk, Paths, TreesRoute, ApspRoute, AtRest, Inverts, WhereIs, QubitAt, Places, WalksInward, WalksFromBoth, AppliedSingle,
         Routed, Coupled, AfterAll, Within;
    OperandsPlaced(policy, r, g);
    var p0, p1 := WhereIs(r, g.qubits[0]), WhereIs(r, g.qubits[1]);
    if policy.duostra {
      TreesRouteWalks(policy.adj, policy.minTie, policy.sort, id, g, r.qubits, p0, p1);
    } else {
      AllWithin(policy.adj, policy.distance, policy.predecessor, p0, p1);
      ApspRoutes(policy.adj, policy.distance, policy.predecessor, policy.minTie, id, g, r.qubits, p0, p1);
      CoupledAreNear(policy, p0, p1);
    }
  }

  lemma CoupledAreNear(policy: Policy, a: nat, b: nat)
    requires Paths(policy.adj, policy.distance, policy.predecessor) && a < |policy.adj| && b < |policy.adj| && a != b && Coupled(policy.adj, a, b)
    ensures Entry(policy.distance, a, b) == 1
  {
    assert DistanceOk(policy.adj, policy.distance, a, b);
    hide Table, Mirrored;
    assert At(policy.distance, a, b) == 1;
  }

  /** A single operation that routes a gate finds the operands coupled. */
  lemma OneOperationOnCoupled(policy: Policy, r: RouterState, ops: seq<Operation>, id: nat, g: LogicalGate)
    requires RouterOk(policy, r) && GateOk(g, |policy.adj|) && |g.qubits| == 2 && |ops| == 1
    requires |SnapshotOf(r.qubits).occupied| == |policy.adj| && Routed(policy.adj, SnapshotOf(r.qubits), ops, id, g)
    ensures Coupled(policy.adj, WhereIs(r, g.qubits[0]), WhereIs(r, g.qubits[1]))
  {
    var s, op := SnapshotOf(r.qubits), ops[0];
    assert ops[..0] == [];
    assert Fits(policy.adj, s, op);
    assert Operands(s.logical, op) == g.qubits;
    assert |op.qubits| == 2;
    assert s.logical[op.qubits[0]] == g.qubits[0] && s.logical[op.qubits[1]] == g.qubits[1];
    hide Connected, Paths, AtRest, Prompt, FitsAll;
    AtItsPlace(policy, r, op.qubits[0]);
    AtItsPlace(policy, r, op.qubits[1]);
  }

  lemma AtItsPlace(policy: Policy, r: RouterState, q: nat)
    requires RouterOk(policy, r) && q < |r.qubits|
    ensures WhereIs(r, r.qubits[q].logical) == q
  {
    hide Connected, Paths, AtRest;
    var s := SnapshotOf(r.qubits);
    var l := s.logical[q];
    assert s.logical[r.places[l]] == l;
  }

  /** On a connected device every qubit is within reach. */
  lemma AllWithin(adj: seq<seq<nat>>, d: Matrix, p: Matrix, a: nat, b: nat)
    requires Paths(adj, d, p) && Connected(adj) && |adj| <= MAX_DIST && a < |adj| && b < |adj|
    ensures Within(adj, d, p, a, b)
  {
    assert Linked(adj, a, b);
    FiniteIsLinked(adj, d, p, a, b);
  }

  // ---------------------------------------------------------------- the router

  class Router {
    const device: Device
    const minTie: bool
    const duostra: bool
    const sort: Sorting
    var logicalToPhysical: seq<nat>

    function Rules(): Policy
      reads device.topology
    {
      Policy(device.adj, device.topology.distance, device.topology.predecessor, duostra, minTie, sort)
    }

    function State(): RouterState
      reads this, device
    {
      RouterState(device.qubits, logicalToPhysical)
    }

    ghost predicate Valid()
      reads this, device, device.topology
    {
      device.Valid() && RouterOk(Rules(), State())
    }

    constructor (device: Device, duostra: bool, apsp: bool, minTie: bool, sort: Sorting)
      requires device.Valid() && device.Rested() && Connected(device.adj) && |device.adj| <= MAX_DIST && (duostra || apsp)
      modifies device.topology
      ensures Valid() && this.device == device && device.Snapshot() == old(device.Snapshot())
      ensures this.duostra == duostra && this.minTie == minTie && this.sort == sort
    {
      hide Connected, Paths;
      this.device, this.duostra, this.minTie, this.sort := device, duostra, minTie, sort;
      logicalToPhysical := [];
      new;
      if apsp {
        device.topology.FloydWarshall();
      }
      Locate();
      PlacesInvert(device.adj, device.qubits);
    }

    /** Reads the placement off the device. */
    method Locate()
      requires device.Valid()
      modifies `logicalToPhysical
      ensures logicalToPhysical == Places(device.qubits, |device.qubits|)
    {
      ghost var logical := device.Snapshot().logical;
      var places: seq<nat> := seq(|device.qubits|, _ => 0);
      var i := 0;
      while i < |device.qubits|
        invariant i <= |device.qubits| && places == Places(device.qubits, i)
      {
        assert logical[i] == device.qubits[i].logical < |places|;
        places := places[device.qubits[i].logical := i];
        i := i + 1;
      }
      logicalToPhysical := places;
    }

    /** Whether the gate's operands are where it can be carried out. */
    method IsExecutable(g: LogicalGate) returns (ok: bool)
      requires Valid() && GateOk(g, |device.adj|)
      ensures ok <==> Executable(device.adj, State(), g)
    {
      ok := |g.qubits| == 1 || Coupled(device.adj, logicalToPhysical[g.qubits[0]], logicalToPhysical[g.qubits[1]]);
    }

    method ExecuteSingle(id: nat, g: LogicalGate, q: nat) returns (ops: seq<Operation>)
      requires Valid() && GateOk(g, |device.adj|) && |g.qubits| == 1 && q == logicalToPhysical[g.qubits[0]]
      modifies device`qubits
      ensures Assignment(ops, State()) == RouteOf(Rules(), old(State()), id, g)
      ensures Valid() && Routed(device.adj, old(device.Snapshot()), ops, id, g)
    {
      hide Connected, Paths, Routed;
      OperandsPlaced(Rules(), State(), g);
      SingleRoutes(device.adj, State(), id, g);
      var start := device.qubits[q].occupied;
      var op := Operation(Some(id), false, [q], start, start + Delay(false, 1));
      device.ApplySingle(op);
      ops := [op];
    }

    /** Routes one gate: the operations put it on its own operands, and the map follows the swaps. They and the
        router after them depend on nothing but the router before. */
    method AssignGate(id: nat, g: LogicalGate) returns (ops: seq<Operation>)
      requires Valid() && GateOk(g, |device.adj|)
      modifies this, device`qubits
      ensures Valid() && Routed(device.adj, old(device.Snapshot()), ops, id, g)
      ensures device.Snapshot() == AfterAll(old(device.Snapshot()), ops)
      ensures Assignment(ops, State()) == RouteOf(Rules(), old(State()), id, g)
    {
      hide Routed, Connected, AfterAll, TreesRoute, ApspRoute, Paths, Within, QubitsOk, AtRest, Inverts, RouterOk, GateOk, WhereIs,
           QubitAt, Places;
      RouteOfRoutes(Rules(), State(), id, g);
      RouterFacts(Rules(), State(), g);
      var p0 := logicalToPhysical[g.qubits[0]];
      if |g.qubits| == 1 {
        ops := ExecuteSingle(id, g, p0);
        return;
      }
      var p1 := logicalToPhysical[g.qubits[1]];
      if duostra {
        ops := RouteByTrees(device, minTie, sort, id, g, p0, p1);
      } else {
        AllWithin(device.adj, device.topology.distance, device.topology.predecessor, p0, p1);
        ops := ApspRouting(device, minTie, id, g, p0, p1);
      }
      Locate();
    }
  }

  /** What routing a gate needs of the router. */
  lemma RouterFacts(policy: Policy, r: RouterState, g: LogicalGate)
    requires RouterOk(policy, r) && GateOk(g, |policy.adj|)
    ensures QubitsOk(policy.adj, r.qubits) && Connected(policy.adj) && |policy.adj| <= MAX_DIST && |r.places| == |r.qubits| == |policy.adj|
    ensures if policy.duostra then AtRest(r.qubits) else Paths(policy.adj, policy.distance, policy.predecessor)
    ensures 1 <= |g.qubits| <= 2 && forall i :: 0 <= i < |g.qubits| ==> g.qubits[i] < |r.places| && WhereIs(r, g.qubits[i]) == r.places[g.qubits[i]]
    ensures var p0 := r.places[g.qubits[0]]; p0 < |r.qubits| && r.qubits[p0].logical == g.qubits[0]
    ensures |g.qubits| == 2 ==> var p1 := r.places[g.qubits[1]]; p1 < |r.qubits| && r.qubits[p1].logical == g.qubits[1] && p1 != r.places[g.qubits[0]]
  {
    hide Connected, Paths, AtRest;
    OperandsPlaced(policy, r, g);
  }

  /** Whether a gate can be carried out where its operands are. */
  predicate Executable(adj: seq<seq<nat>>, r: RouterState, g: LogicalGate) {
    |g.qubits| == 1 || (|g.qubits| == 2 && Coupled(adj, WhereIs(r, g.qubits[0]), WhereIs(r, g.qubits[1])))
  }
}
