/** What routing one gate gives, and the router that walks both operands along one shortest path. */
module Routing {
  import opened Collections
  import opened Topologies
  import opened Schedules
  import opened Devices

  /** A gate of the logical circuit, on one or two logical qubits. */
  datatype LogicalGate = LogicalGate(swap: bool, qubits: seq<nat>)

  ghost predicate GateOk(g: LogicalGate, n: nat) {
    && 1 <= |g.qubits| <= 2 && (forall i :: 0 <= i < |g.qubits| ==> g.qubits[i] < n)
    && (|g.qubits| == 2 ==> g.qubits[0] != g.qubits[1]) && (g.swap ==> |g.qubits| == 2)
  }

  predicate Inserted(op: Operation) {
    op.gate.None? && op.swap
  }

  /** Inserted swaps, then the gate on its own operands, each operation as soon as its qubits are free. */
  ghost predicate Routed(adj: seq<seq<nat>>, s: State, ops: seq<Operation>, id: nat, g: LogicalGate)
    requires |s.occupied| == |adj|
  {
    && FitsAll(adj, s, ops) && Prompt(s, ops) && ops != []
    && (forall i :: 0 <= i < |ops| - 1 ==> Inserted(ops[i]))
    && var last := ops[|ops| - 1];
       last.gate == Some(id) && last.swap == g.swap && Operands(AfterAll(s, ops[..|ops| - 1]).logical, last) == g.qubits
  }

  // ---------------------------------------------------------------- traces of routed gates

  lemma {:induction false} NoGates(logical: seq<nat>, ops: seq<Operation>)
    requires forall i :: 0 <= i < |ops| ==> ops[i].gate.None?
    ensures Trace(logical, ops) == []
    decreases |ops|
  {
    if ops != [] {
      NoGates(Placement(logical, ops[0]), ops[1..]);
    }
  }

  /** With the swaps undone, routing a gate gives the gate. */
  lemma RoutedTrace(adj: seq<seq<nat>>, s: State, ops: seq<Operation>, id: nat, g: LogicalGate)
    requires |s.occupied| == |adj| && Routed(adj, s, ops, id, g)
    ensures Trace(s.logical, ops) == [Event(id, g.qubits)]
  {
    var m := |ops| - 1;
    var init, last := ops[..m], ops[m];
    assert ops == init + [last];
    NoGates(s.logical, init);
    TraceAppend(s.logical, init, [last]);
    FinalIsAfter(s, init);
    assert Trace(Final(s.logical, init), [last]) == [Event(id, g.qubits)] by {
      assert [last][1..] == [];
      assert Trace(Final(s.logical, init), [last]) == EventOf(Final(s.logical, init), last) + [];
    }
  }

  // ---------------------------------------------------------------- swaps along a path

  function SwapOp(a: nat, b: nat, start: nat): Operation {
    Operation(None, true, [a, b], start, start + SWAP_DELAY)
  }

  function GateOp2(id: nat, g: LogicalGate, a: nat, b: nat, start: nat): Operation {
    Operation(Some(id), g.swap, [a, b], start, start + Delay(g.swap, 2))
  }

  /** One more operation on free, coupled qubits. */
  lemma OneMoreOperation(adj: seq<seq<nat>>, s: State, ops: seq<Operation>, op: Operation)
    requires |s.occupied| == |adj| && FitsAll(adj, s, ops) && Fits(adj, AfterAll(s, ops), op)
    ensures FitsAll(adj, s, ops + [op]) && AfterAll(s, ops + [op]) == After(AfterAll(s, ops), op)
  {
    assert (ops + [op])[..|ops|] == ops;
  }

  lemma SwapFits(adj: seq<seq<nat>>, s: State, a: nat, b: nat)
    requires IsCoupling(adj) && |s.occupied| == |adj| && Coupled(adj, a, b)
    ensures b < |adj| && Fits(adj, s, SwapOp(a, b, Max(s.occupied[a], s.occupied[b])))
  {
  }

  lemma GateFits(adj: seq<seq<nat>>, s: State, id: nat, g: LogicalGate, a: nat, b: nat)
    requires IsCoupling(adj) && |s.occupied| == |s.logical| == |adj| && Coupled(adj, a, b)
    ensures b < |adj|
    ensures var op := GateOp2(id, g, a, b, Max(s.occupied[a], s.occupied[b]));
            Fits(adj, s, op) && Operands(s.logical, op) == [s.logical[a], s.logical[b]]
  {
  }

  lemma MoveAlong(s: seq<nat>, a: nat, b: nat, q: nat, start: nat)
    requires a < |s| && b < |s| && q < |s| && a != b && q != a && q != b
    ensures var r := Placement(s, SwapOp(a, b, start)); r[b] == s[a] && r[q] == s[q]
  {
  }

  lemma GateEndsRouting(adj: seq<seq<nat>>, s: State, ops: seq<Operation>, id: nat, g: LogicalGate, op: Operation)
    requires |s.occupied| == |adj| && FitsAll(adj, s, ops) && Fits(adj, AfterAll(s, ops), op)
    requires (forall i :: 0 <= i < |ops| ==> Inserted(ops[i])) && op.gate == Some(id) && op.swap == g.swap && Prompt(s, ops + [op])
    requires Operands(AfterAll(s, ops).logical, op) == g.qubits
    ensures Routed(adj, s, ops + [op], id, g) && AfterAll(s, ops + [op]) == After(AfterAll(s, ops), op)
  {
    hide FitsAll, AfterAll, Fits, Operands, Prompt;
    OneMoreOperation(adj, s, ops, op);
    assert (ops + [op])[..|ops + [op]| - 1] == ops;
  }

  /** The qubits have carried out the operations, all of them inserted swaps. */
  ghost predicate Underway(adj: seq<seq<nat>>, qs: seq<Qubit>, start: State, ops: seq<Operation>) {
    && QubitsOk(adj, qs) && |start.occupied| == |adj| && SnapshotOf(qs) == AfterAll(start, ops)
    && FitsAll(adj, start, ops) && Prompt(start, ops) && forall i :: 0 <= i < |ops| ==> Inserted(ops[i])
  }

  lemma SwapUnderway(adj: seq<seq<nat>>, qs: seq<Qubit>, start: State, ops: seq<Operation>, q: nat, next: nat, other: nat)
    requires Underway(adj, qs, start, ops) && q < |adj| && next < |adj| && other < |adj|
    requires Coupled(adj, q, next) && q != next && other != q && other != next
    ensures var op := SwapOp(q, next, Max(qs[q].occupied, qs[next].occupied));
            var qs' := Applied(qs, op);
            && OnDevice(adj, op) && Underway(adj, qs', start, ops + [op])
            && qs'[next].logical == qs[q].logical && qs'[other].logical == qs[other].logical
  {
    hide FitsAll, AfterAll, Fits, Applied, Prompt;
    var now := SnapshotOf(qs);
    var op := SwapOp(q, next, Max(qs[q].occupied, qs[next].occupied));
    SwapFits(adj, now, q, next);
    FitsIsOnDevice(adj, now, op);
    OneMoreOperation(adj, start, ops, op);
    PromptMore(start, ops, op, if qs[q].occupied >= qs[next].occupied then q else next);
    MoveAlong(now.logical, q, next, other, op.start);
    AppliedIsAfter(adj, qs, op);
    var after := SnapshotOf(Applied(qs, op));
    assert after.logical[next] == now.logical[q] && after.logical[other] == now.logical[other];
  }

  lemma FitsIsOnDevice(adj: seq<seq<nat>>, s: State, op: Operation)
    requires |s.occupied| == |adj| && Fits(adj, s, op)
    ensures OnDevice(adj, op)
  {
  }

  lemma GateUnderway(adj: seq<seq<nat>>, qs: seq<Qubit>, start: State, ops: seq<Operation>, id: nat, g: LogicalGate, q0: nat, q1: nat)
    requires Underway(adj, qs, start, ops) && Coupled(adj, q0, q1) && q0 < |adj| && q1 < |adj|
    requires g.qubits == [qs[q0].logical, qs[q1].logical]
    ensures var op := GateOp2(id, g, q0, q1, Max(qs[q0].occupied, qs[q1].occupied));
            && OnDevice(adj, op) && QubitsOk(adj, Applied(qs, op)) && Routed(adj, start, ops + [op], id, g)
            && SnapshotOf(Applied(qs, op)) == AfterAll(start, ops + [op])
  {
    hide FitsAll, AfterAll, Fits, Operands, Routed, Applied, Prompt;
    var op := GateOp2(id, g, q0, q1, Max(qs[q0].occupied, qs[q1].occupied));
    GateFits(adj, SnapshotOf(qs), id, g, q0, q1);
    FitsIsOnDevice(adj, SnapshotOf(qs), op);
    PromptMore(start, ops, op, if qs[q0].occupied >= qs[q1].occupied then q0 else q1);
    GateEndsRouting(adj, start, ops, id, g, op);
    AppliedIsAfter(adj, qs, op);
  }

  // ---------------------------------------------------------------- two walkers as a function

  /** What a router does with a gate: its operations, and the qubits after them. */
  datatype Outcome = Outcome(ops: seq<Operation>, qubits: seq<Qubit>)

  /** Where both operands have come to. */
  datatype Walkers = Walkers(q0: nat, q1: nat, ops: seq<Operation>, qubits: seq<Qubit>)

  function FreeAt(qs: seq<Qubit>, a: nat, b: nat): nat {
    Max(QubitAt(qs, a).occupied, QubitAt(qs, b).occupied)
  }

  /** The one of the two walkers that can go first takes a step towards the other's start. */
  function WalkOne(p: Matrix, minTie: bool, s0: nat, s1: nat, w: Walkers): Walkers {
    var n0, n1 := Entry(p, s1, w.q0), Entry(p, s0, w.q1);
    var cost0, cost1 := FreeAt(w.qubits, w.q0, n0), FreeAt(w.qubits, w.q1, n1);
    if cost0 < cost1 || (cost0 == cost1 && minTie && QubitAt(w.qubits, w.q0).logical < QubitAt(w.qubits, w.q1).logical) then
      Walkers(n0, w.q1, w.ops + [SwapOp(w.q0, n0, cost0)], Applied(w.qubits, SwapOp(w.q0, n0, cost0)))
    else
      Walkers(w.q0, n1, w.ops + [SwapOp(w.q1, n1, cost1)], Applied(w.qubits, SwapOp(w.q1, n1, cost1)))
  }

  function WalkAll(adj: seq<seq<nat>>, p: Matrix, minTie: bool, s0: nat, s1: nat, w: Walkers, steps: nat): Walkers
    decreases steps
  {
    if steps == 0 || Coupled(adj, w.q0, w.q1) then w else WalkAll(adj, p, minTie, s0, s1, WalkOne(p, minTie, s0, s1, w), steps - 1)
  }

  function FinishWalk(id: nat, g: LogicalGate, w: Walkers): Outcome {
    var op := GateOp2(id, g, w.q0, w.q1, FreeAt(w.qubits, w.q0, w.q1));
    Outcome(w.ops + [op], Applied(w.qubits, op))
  }

  /** The gate routed along the shortest path between its operands. */
  function ApspRoute(adj: seq<seq<nat>>, d: Matrix, p: Matrix, minTie: bool, id: nat, g: LogicalGate, qs: seq<Qubit>, s0: nat, s1: nat): Outcome {
    FinishWalk(id, g, WalkAll(adj, p, minTie, s0, s1, Walkers(s0, s1, [], qs), Entry(d, s0, s1)))
  }

  /** The walkers are on the path, a steps from one end and at position b. */
  ghost predicate WalkersOk(adj: seq<seq<nat>>, d: Matrix, p: Matrix, s0: nat, s1: nat, start: State, g: LogicalGate, w: Walkers, a: nat, b: nat) {
    && Paths(adj, d, p) && Within(adj, d, p, s0, s1) && Underway(adj, w.qubits, start, w.ops)
    && var way := WayOf(adj, d, p, s0, s1);
       && a < b < |way| && w.q0 == way[a] && w.q1 == way[b] && |w.ops| == a + (|way| - 1 - b)
       && w.q0 < |adj| && w.q1 < |adj| && g.qubits == [w.qubits[w.q0].logical, w.qubits[w.q1].logical]
  }

  /** Where the walkers go next. */
  lemma NextSteps(adj: seq<seq<nat>>, d: Matrix, p: Matrix, s0: nat, s1: nat, a: nat, b: nat)
    requires Paths(adj, d, p) && Within(adj, d, p, s0, s1) && a < b < |WayOf(adj, d, p, s0, s1)|
    requires !Coupled(adj, WayOf(adj, d, p, s0, s1)[a], WayOf(adj, d, p, s0, s1)[b])
    ensures var w := WayOf(adj, d, p, s0, s1);
            && a + 1 < b && w[a] < |adj| && w[b] < |adj| && w[a + 1] < |adj| && w[b - 1] < |adj|
            && w[a] != s1 && w[b] != s0 && Within(adj, d, p, s1, w[a]) && Within(adj, d, p, s0, w[b])
            && Entry(p, s1, w[a]) == w[a + 1] && Entry(p, s0, w[b]) == w[b - 1]
            && Coupled(adj, w[a], w[a + 1]) && Coupled(adj, w[b], w[b - 1])
            && w[a + 1] != w[b] && w[b - 1] != w[a] && w[a] != w[b] && w[a + 1] != w[a] && w[b - 1] != w[b]
  {
    hide Mirrored, Path, Coupled;
    NextOnPath(adj, d, p, s0, s1, a, b);
    PathNeighbours(adj, d, p, s0, s1, a, a + 1);
    PathNeighbours(adj, d, p, s0, s1, b - 1, b);
    PathStep(adj, d, p, s0, s1, a + 1);
    PathStep(adj, d, p, s0, s1, b - 1);
    CouplingBothWays(adj, WayOf(adj, d, p, s0, s1)[b - 1], WayOf(adj, d, p, s0, s1)[b]);
  }

  /** A step keeps the walkers on the path and brings them nearer by one. */
  lemma WalkOneKeeps(adj: seq<seq<nat>>, d: Matrix, p: Matrix, minTie: bool, s0: nat, s1: nat, start: State, g: LogicalGate, w: Walkers,
                     a: nat, b: nat)
    returns (a': nat, b': nat)
    requires WalkersOk(adj, d, p, s0, s1, start, g, w, a, b) && !Coupled(adj, w.q0, w.q1)
    ensures WalkersOk(adj, d, p, s0, s1, start, g, WalkOne(p, minTie, s0, s1, w), a', b') && b' - a' == b - a - 1
  {
    hide Paths, Within, WayOf, Underway, Applied, Coupled;
    NextSteps(adj, d, p, s0, s1, a, b);
    var way := WayOf(adj, d, p, s0, s1);
    UnderwaySized(adj, w.qubits, start, w.ops);
    SwapUnderway(adj, w.qubits, start, w.ops, w.q0, way[a + 1], w.q1);
    SwapUnderway(adj, w.qubits, start, w.ops, w.q1, way[b - 1], w.q0);
    var w' := WalkOne(p, minTie, s0, s1, w);
    a', b' := if w'.q0 == way[a + 1] then a + 1 else a, if w'.q0 == way[a + 1] then b else b - 1;
  }

  lemma UnderwaySized(adj: seq<seq<nat>>, qs: seq<Qubit>, start: State, ops: seq<Operation>)
    requires Underway(adj, qs, start, ops)
    ensures |qs| == |adj|
  {
  }

  /** With as many steps as the walkers are apart they end up coupled. */
  lemma {:induction false} WalkAllMeets(adj: seq<seq<nat>>, d: Matrix, p: Matrix, minTie: bool, s0: nat, s1: nat, start: State, g: LogicalGate,
                                        w: Walkers, a: nat, steps: nat)
    returns (c: nat)
    requires WalkersOk(adj, d, p, s0, s1, start, g, w, a, a + steps)
    ensures var w' := WalkAll(adj, p, minTie, s0, s1, w, steps);
            WalkersOk(adj, d, p, s0, s1, start, g, w', c, c + 1) && Coupled(adj, w'.q0, w'.q1)
    decreases steps
  {
    hide WalkersOk, WalkOne, Coupled;
    WalkersApart(adj, d, p, s0, s1, start, g, w, a, a + steps);
    if Coupled(adj, w.q0, w.q1) {
      c := a;
    } else {
      var a', b' := WalkOneKeeps(adj, d, p, minTie, s0, s1, start, g, w, a, a + steps);
      assert b' == a' + (steps - 1);
      c := WalkAllMeets(adj, d, p, minTie, s0, s1, start, g, WalkOne(p, minTie, s0, s1, w), a', steps - 1);
    }
  }

  lemma WalkersApart(adj: seq<seq<nat>>, d: Matrix, p: Matrix, s0: nat, s1: nat, start: State, g: LogicalGate, w: Walkers, a: nat, b: nat)
    requires WalkersOk(adj, d, p, s0, s1, start, g, w, a, b)
    ensures a < b && (Coupled(adj, w.q0, w.q1) ==> b == a + 1)
  {
    if Coupled(adj, w.q0, w.q1) {
      hide Table, Mirrored, Path, Coupled;
      NoShortcut(adj, d, p, s0, s1, a, b);
    }
  }

  lemma WalkersStart(adj: seq<seq<nat>>, d: Matrix, p: Matrix, s0: nat, s1: nat, g: LogicalGate, qs: seq<Qubit>)
    requires Paths(adj, d, p) && Within(adj, d, p, s0, s1) && s0 != s1 && QubitsOk(adj, qs)
    requires g.qubits == [QubitAt(qs, s0).logical, QubitAt(qs, s1).logical]
    ensures Entry(d, s0, s1) > 0
    ensures WalkersOk(adj, d, p, s0, s1, SnapshotOf(qs), g, Walkers(s0, s1, [], qs), 0, Entry(d, s0, s1))
  {
    hide Paths, Within, WayOf, StateOk, IsCoupling;
    WayBetween(adj, d, p, s0, s1);
    NoOperation(adj, SnapshotOf(qs));
    QubitsSized(adj, qs);
  }

  lemma WayBetween(adj: seq<seq<nat>>, d: Matrix, p: Matrix, s0: nat, s1: nat)
    requires Paths(adj, d, p) && Within(adj, d, p, s0, s1) && s0 != s1
    ensures s0 < |adj| && s1 < |adj| && Entry(d, s0, s1) > 0
    ensures var way := WayOf(adj, d, p, s0, s1); |way| == Entry(d, s0, s1) + 1 && way[0] == s0 && way[|way| - 1] == s1
  {
    PathIsWalk(adj, d, p, |adj|, s0, s1);
    assert DistanceOk(adj, d, s0, s1);
  }

  /** The function routes every gate between qubits within reach, with one swap less than the distance. */
  lemma ApspRoutes(adj: seq<seq<nat>>, d: Matrix, p: Matrix, minTie: bool, id: nat, g: LogicalGate, qs: seq<Qubit>, s0: nat, s1: nat)
    requires Paths(adj, d, p) && Within(adj, d, p, s0, s1) && s0 != s1 && QubitsOk(adj, qs)
    requires g.qubits == [QubitAt(qs, s0).logical, QubitAt(qs, s1).logical]
    ensures var o := ApspRoute(adj, d, p, minTie, id, g, qs, s0, s1);
            && QubitsOk(adj, o.qubits) && Routed(adj, SnapshotOf(qs), o.ops, id, g) && SnapshotOf(o.qubits) == AfterAll(SnapshotOf(qs), o.ops)
            && |o.ops| == Entry(d, s0, s1)
  {
    hide Paths, Within, WalkAll, Routed, AfterAll, QubitsOk, WalkersOk, FinishWalk;
    WalkersStart(adj, d, p, s0, s1, g, qs);
    var w := Walkers(s0, s1, [], qs);
    var c := WalkAllMeets(adj, d, p, minTie, s0, s1, SnapshotOf(qs), g, w, 0, Entry(d, s0, s1));
    WalkFinishes(adj, d, p, s0, s1, SnapshotOf(qs), id, g, WalkAll(adj, p, minTie, s0, s1, w, Entry(d, s0, s1)), c);
  }

  lemma WalkFinishes(adj: seq<seq<nat>>, d: Matrix, p: Matrix, s0: nat, s1: nat, start: State, id: nat, g: LogicalGate, w: Walkers, c: nat)
    requires WalkersOk(adj, d, p, s0, s1, start, g, w, c, c + 1) && Coupled(adj, w.q0, w.q1)
    ensures var o := FinishWalk(id, g, w);
            && QubitsOk(adj, o.qubits) && Routed(adj, start, o.ops, id, g) && SnapshotOf(o.qubits) == AfterAll(start, o.ops)
            && |o.ops| == Entry(d, s0, s1)
            && OnDevice(adj, GateOp2(id, g, w.q0, w.q1, FreeAt(w.qubits, w.q0, w.q1)))
  {
    hide Routed, AfterAll, Coupled, Applied, Mirrored, FitsAll;
    GateUnderway(adj, w.qubits, start, w.ops, id, g, w.q0, w.q1);
    PathIsWalk(adj, d, p, |adj|, s0, s1);
    assert DistanceOk(adj, d, s0, s1);
  }

  lemma NoOperation(adj: seq<seq<nat>>, s: State)
    requires |s.occupied| == |adj|
    ensures FitsAll(adj, s, []) && AfterAll(s, []) == s && Prompt(s, [])
  {
  }

  // ---------------------------------------------------------------- which walker moves, and when

  function Min(a: nat, b: nat): nat {
    if a <= b then a else b
  }

  ghost predicate ShortestWalk(adj: seq<seq<nat>>, way: seq<nat>, a: nat, b: nat) {
    && IsWalk(adj, way, a, b) && |way| <= MAX_DIST
    && forall w :: IsWalk(adj, w, a, b) && |w| <= MAX_DIST ==> |way| <= |w|
  }

  /** When q could next be swapped with r. */
  function SwapTime(s: State, q: nat, r: nat): nat
    requires q < |s.occupied| && r < |s.occupied|
  {
    Max(s.occupied[q], s.occupied[r])
  }

  /** The swaps bring the operands together along the path. Each starts at the lesser of the two times at which one
      of them could take its next step, and is that step; at equal times the first operand goes if it is the smaller
      one and has the priority, and the second otherwise. The gate follows on the operands in order. */
  ghost predicate Inward(adj: seq<seq<nat>>, minTie: bool, s: State, way: seq<nat>, a: nat, b: nat, ops: seq<Operation>, id: nat, g: LogicalGate)
    decreases |ops|
  {
    && |s.occupied| == |s.logical| == |adj| && (forall i :: 0 <= i < |way| ==> way[i] < |adj|) && a < b < |way| && ops != []
    && if |ops| == 1 then
         b == a + 1 && ops[0] == GateOp2(id, g, way[a], way[b], SwapTime(s, way[a], way[b]))
       else
         && Inserted(ops[0]) && ops[0].start == Min(SwapTime(s, way[a], way[a + 1]), SwapTime(s, way[b], way[b - 1]))
         && var first := ops[0].qubits == [way[a], way[a + 1]];
            && (first || ops[0].qubits == [way[b], way[b - 1]])
            && ops[0].start == (if first then SwapTime(s, way[a], way[a + 1]) else SwapTime(s, way[b], way[b - 1]))
            && (SwapTime(s, way[a], way[a + 1]) == SwapTime(s, way[b], way[b - 1]) ==> (first <==> minTie && s.logical[way[a]] < s.logical[way[b]]))
            && Inward(adj, minTie, After(s, ops[0]), way, if first then a + 1 else a, if first then b else b - 1, ops[1..], id, g)
  }

  /** The gate routed as two walkers on a shortest path between its operands. */
  ghost predicate WalksInward(adj: seq<seq<nat>>, minTie: bool, s: State, ops: seq<Operation>, id: nat, g: LogicalGate) {
    exists way: seq<nat> :: way != [] && InwardOn(adj, minTie, s, way, ops, id, g)
  }

  ghost predicate InwardOn(adj: seq<seq<nat>>, minTie: bool, s: State, way: seq<nat>, ops: seq<Operation>, id: nat, g: LogicalGate)
    requires way != []
  {
    && ShortestWalk(adj, way, way[0], way[|way| - 1]) && |ops| == |way| - 1 && way[0] < |s.logical| && way[|way| - 1] < |s.logical|
    && g.qubits == [s.logical[way[0]], s.logical[way[|way| - 1]]] && Inward(adj, minTie, s, way, 0, |way| - 1, ops, id, g)
  }

  /** One step of the walkers. */
  lemma WalkOneMoves(adj: seq<seq<nat>>, d: Matrix, p: Matrix, minTie: bool, s0: nat, s1: nat, start: State, g: LogicalGate, w: Walkers,
                     a: nat, b: nat)
    returns (op: Operation, first: bool)
    requires WalkersOk(adj, d, p, s0, s1, start, g, w, a, b) && !Coupled(adj, w.q0, w.q1)
    ensures var w' := WalkOne(p, minTie, s0, s1, w);
            var (s, way) := (SnapshotOf(w.qubits), WayOf(adj, d, p, s0, s1));
            && |s.occupied| == |s.logical| == |adj| && a + 1 < b < |way| && w.q0 == way[a] < |adj| && w.q1 == way[b] < |adj|
            && way[a] != way[b] && Paths(adj, d, p) && Within(adj, d, p, s0, s1) && way[a + 1] < |adj| && way[b - 1] < |adj|
            && w'.ops == w.ops + [op] && SnapshotOf(w'.qubits) == After(s, op) && Inserted(op)
            && op.start == Min(SwapTime(s, way[a], way[a + 1]), SwapTime(s, way[b], way[b - 1]))
            && op.start == (if first then SwapTime(s, way[a], way[a + 1]) else SwapTime(s, way[b], way[b - 1]))
            && op.qubits == (if first then [way[a], way[a + 1]] else [way[b], way[b - 1]])
            && (SwapTime(s, way[a], way[a + 1]) == SwapTime(s, way[b], way[b - 1]) ==> (first <==> minTie && s.logical[way[a]] < s.logical[way[b]]))
            && WalkersOk(adj, d, p, s0, s1, start, g, w', if first then a + 1 else a, if first then b else b - 1)
  {
    hide Paths, Within, WayOf, Underway, Applied, Coupled;
    NextSteps(adj, d, p, s0, s1, a, b);
    var way := WayOf(adj, d, p, s0, s1);
    UnderwaySized(adj, w.qubits, start, w.ops);
    SwapUnderway(adj, w.qubits, start, w.ops, w.q0, way[a + 1], w.q1);
    SwapUnderway(adj, w.qubits, start, w.ops, w.q1, way[b - 1], w.q0);
    UnderwayQubits(adj, w.qubits, start, w.ops);
    var w' := WalkOne(p, minTie, s0, s1, w);
    op, first := w'.ops[|w.ops|], w'.q0 == way[a + 1];
    AppliedIsAfter(adj, w.qubits, op);
  }

  lemma UnderwayQubits(adj: seq<seq<nat>>, qs: seq<Qubit>, start: State, ops: seq<Operation>)
    requires Underway(adj, qs, start, ops)
    ensures QubitsOk(adj, qs)
  {
  }

  lemma {:induction false} WalkAllInward(adj: seq<seq<nat>>, d: Matrix, p: Matrix, minTie: bool, s0: nat, s1: nat, start: State, id: nat, g: LogicalGate,
                                         w: Walkers, a: nat, steps: nat)
    requires Paths(adj, d, p) && Within(adj, d, p, s0, s1) && WalkersOk(adj, d, p, s0, s1, start, g, w, a, a + steps)
    ensures var ops := FinishWalk(id, g, WalkAll(adj, p, minTie, s0, s1, w, steps)).ops;
            && |w.ops| < |ops| && ops[..|w.ops|] == w.ops
            && Inward(adj, minTie, SnapshotOf(w.qubits), WayOf(adj, d, p, s0, s1), a, a + steps, ops[|w.ops|..], id, g)
    decreases steps
  {
    hide WalkersOk, Paths, Within, WayOf, WalkOne, Coupled, Applied, Inward, SnapshotOf, FinishWalk, SwapTime, After, IsWalk, ShortestWalk, Min, Inserted;
    WalkersApart(adj, d, p, s0, s1, start, g, w, a, a + steps);
    if Coupled(adj, w.q0, w.q1) {
      WalkEnds(adj, d, p, minTie, s0, s1, start, id, g, w, a);
    } else {
      var op, first := WalkOneMoves(adj, d, p, minTie, s0, s1, start, g, w, a, a + steps);
      var w' := WalkOne(p, minTie, s0, s1, w);
      WalkAllInward(adj, d, p, minTie, s0, s1, start, id, g, w', if first then a + 1 else a, steps - 1);
      WayInRange(adj, d, p, s0, s1);
      OneStepInward(adj, minTie, SnapshotOf(w.qubits), SnapshotOf(w'.qubits), WayOf(adj, d, p, s0, s1), a, a + steps, op, first, w.ops,
                    FinishWalk(id, g, WalkAll(adj, p, minTie, s0, s1, w, steps)).ops, id, g);
    }
  }

  lemma WalkEnds(adj: seq<seq<nat>>, d: Matrix, p: Matrix, minTie: bool, s0: nat, s1: nat, start: State, id: nat, g: LogicalGate, w: Walkers, a: nat)
    requires Paths(adj, d, p) && Within(adj, d, p, s0, s1) && WalkersOk(adj, d, p, s0, s1, start, g, w, a, a + 1)
    ensures var ops := FinishWalk(id, g, w).ops;
            && |w.ops| < |ops| && ops[..|w.ops|] == w.ops
            && Inward(adj, minTie, SnapshotOf(w.qubits), WayOf(adj, d, p, s0, s1), a, a + 1, ops[|w.ops|..], id, g)
  {
    hide Paths, Within, WayOf, Inward, Applied;
    WayInRange(adj, d, p, s0, s1);
    UnderwayQubits(adj, w.qubits, start, w.ops);
    QubitsSized(adj, w.qubits);
    var ops := FinishWalk(id, g, w).ops;
    assert ops[|w.ops|..] == [ops[|w.ops|]];
    InwardGate(adj, minTie, SnapshotOf(w.qubits), WayOf(adj, d, p, s0, s1), a, id, g, ops[|w.ops|..]);
  }

  /** A step of the walkers in front of the others. */
  lemma OneStepInward(adj: seq<seq<nat>>, minTie: bool, s: State, s': State, way: seq<nat>, a: nat, b: nat, op: Operation, first: bool,
                      before: seq<Operation>, ops: seq<Operation>, id: nat, g: LogicalGate)
    requires |s.occupied| == |s.logical| == |adj| && (forall i :: 0 <= i < |way| ==> way[i] < |adj|) && a + 1 < b < |way| && way[a] != way[b]
    requires Inserted(op) && s' == After(s, op) && op.start == Min(SwapTime(s, way[a], way[a + 1]), SwapTime(s, way[b], way[b - 1]))
    requires op.start == (if first then SwapTime(s, way[a], way[a + 1]) else SwapTime(s, way[b], way[b - 1]))
    requires op.qubits == (if first then [way[a], way[a + 1]] else [way[b], way[b - 1]])
    requires SwapTime(s, way[a], way[a + 1]) == SwapTime(s, way[b], way[b - 1]) ==> (first <==> minTie && s.logical[way[a]] < s.logical[way[b]])
    requires |before| + 1 < |ops| && ops[..|before| + 1] == before + [op]
    requires Inward(adj, minTie, s', way, if first then a + 1 else a, if first then b else b - 1, ops[|before| + 1..], id, g)
    ensures ops[..|before|] == before && Inward(adj, minTie, s, way, a, b, ops[|before|..], id, g)
  {
    hide Inward, SwapTime, After, Inserted, Min;
    assert ops[|before|] == ops[..|before| + 1][|before|] == op;
    assert ops[|before|..] == [op] + ops[|before| + 1..];
    assert ops[..|before|] == ops[..|before| + 1][..|before|] == before;
    InwardSwap(adj, minTie, s, way, a, b, op, first, ops[|before| + 1..], id, g);
  }

  lemma WayInRange(adj: seq<seq<nat>>, d: Matrix, p: Matrix, s0: nat, s1: nat)
    requires Paths(adj, d, p) && Within(adj, d, p, s0, s1)
    ensures var way := WayOf(adj, d, p, s0, s1);
            && (forall i :: 0 <= i < |way| ==> way[i] < |adj|) && |way| == Entry(d, s0, s1) + 1 && way[0] == s0 && way[|way| - 1] == s1
            && ShortestWalk(adj, way, s0, s1)
  {
    PathIsWalk(adj, d, p, |adj|, s0, s1);
    assert DistanceOk(adj, d, s0, s1);
    hide Table, Mirrored, Path;
    forall w | IsWalk(adj, w, s0, s1) && |w| <= MAX_DIST
      ensures |WayOf(adj, d, p, s0, s1)| <= |w|
    {
      WalkBound(adj, d, p, w, s0, s1);
    }
  }

  lemma InwardGate(adj: seq<seq<nat>>, minTie: bool, s: State, way: seq<nat>, a: nat, id: nat, g: LogicalGate, ops: seq<Operation>)
    requires |s.occupied| == |s.logical| == |adj| && (forall i :: 0 <= i < |way| ==> way[i] < |adj|) && a + 1 < |way|
    requires ops == [GateOp2(id, g, way[a], way[a + 1], SwapTime(s, way[a], way[a + 1]))]
    ensures Inward(adj, minTie, s, way, a, a + 1, ops, id, g)
  {
  }

  lemma InwardSwap(adj: seq<seq<nat>>, minTie: bool, s: State, way: seq<nat>, a: nat, b: nat, op: Operation, first: bool, rest: seq<Operation>, id: nat,
                   g: LogicalGate)
    requires |s.occupied| == |s.logical| == |adj| && (forall i :: 0 <= i < |way| ==> way[i] < |adj|) && a + 1 < b < |way|
    requires Inserted(op) && op.start == Min(SwapTime(s, way[a], way[a + 1]), SwapTime(s, way[b], way[b - 1]))
    requires op.start == (if first then SwapTime(s, way[a], way[a + 1]) else SwapTime(s, way[b], way[b - 1]))
    requires op.qubits == (if first then [way[a], way[a + 1]] else [way[b], way[b - 1]]) && way[a] != way[b]
    requires SwapTime(s, way[a], way[a + 1]) == SwapTime(s, way[b], way[b - 1]) ==> (first <==> minTie && s.logical[way[a]] < s.logical[way[b]])
    requires Inward(adj, minTie, After(s, op), way, if first then a + 1 else a, if first then b else b - 1, rest, id, g)
    ensures Inward(adj, minTie, s, way, a, b, [op] + rest, id, g)
  {
    assert [way[a], way[a + 1]] != [way[b], way[b - 1]] by { assert [way[a], way[a + 1]][0] != [way[b], way[b - 1]][0]; }
    assert ([op] + rest)[1..] == rest;
    NotEmptyInward(adj, minTie, After(s, op), way, if first then a + 1 else a, if first then b else b - 1, rest, id, g);
    hide Inward;
    InwardUnfold(adj, minTie, s, way, a, b, [op] + rest, id, g, first);
  }

  lemma NotEmptyInward(adj: seq<seq<nat>>, minTie: bool, s: State, way: seq<nat>, a: nat, b: nat, ops: seq<Operation>, id: nat, g: LogicalGate)
    requires Inward(adj, minTie, s, way, a, b, ops, id, g)
    ensures ops != []
  {
  }

  lemma InwardUnfold(adj: seq<seq<nat>>, minTie: bool, s: State, way: seq<nat>, a: nat, b: nat, ops: seq<Operation>, id: nat, g: LogicalGate, first: bool)
    requires |s.occupied| == |s.logical| == |adj| && (forall i :: 0 <= i < |way| ==> way[i] < |adj|) && a + 1 < b < |way| && |ops| > 1
    requires Inserted(ops[0]) && ops[0].start == Min(SwapTime(s, way[a], way[a + 1]), SwapTime(s, way[b], way[b - 1]))
    requires first <==> ops[0].qubits == [way[a], way[a + 1]]
    requires first || ops[0].qubits == [way[b], way[b - 1]]
    requires ops[0].start == (if first then SwapTime(s, way[a], way[a + 1]) else SwapTime(s, way[b], way[b - 1]))
    requires SwapTime(s, way[a], way[a + 1]) == SwapTime(s, way[b], way[b - 1]) ==> (first <==> minTie && s.logical[way[a]] < s.logical[way[b]])
    requires Inward(adj, minTie, After(s, ops[0]), way, if first then a + 1 else a, if first then b else b - 1, ops[1..], id, g)
    ensures Inward(adj, minTie, s, way, a, b, ops, id, g)
  {
  }

  /** The function brings the operands together along a shortest path, each step being the one that can be made first. */
  lemma ApspInward(adj: seq<seq<nat>>, d: Matrix, p: Matrix, minTie: bool, id: nat, g: LogicalGate, qs: seq<Qubit>, s0: nat, s1: nat)
    requires Paths(adj, d, p) && Within(adj, d, p, s0, s1) && s0 != s1 && QubitsOk(adj, qs)
    requires g.qubits == [QubitAt(qs, s0).logical, QubitAt(qs, s1).logical]
    ensures WalksInward(adj, minTie, SnapshotOf(qs), ApspRoute(adj, d, p, minTie, id, g, qs, s0, s1).ops, id, g)
  {
    hide Inward, WalkersOk, Paths, Within, WayOf, WalkAll, Routed, AfterAll, ShortestWalk;
    var w, way := Walkers(s0, s1, [], qs), WayOf(adj, d, p, s0, s1);
    WalkersStart(adj, d, p, s0, s1, g, qs);
    WayInRange(adj, d, p, s0, s1);
    WalkAllInward(adj, d, p, minTie, s0, s1, SnapshotOf(qs), id, g, w, 0, Entry(d, s0, s1));
    ApspRoutes(adj, d, p, minTie, id, g, qs, s0, s1);
    EndsInRange(adj, d, p, s0, s1);
    var ops := ApspRoute(adj, d, p, minTie, id, g, qs, s0, s1).ops;
    assert ops[0..] == ops;
    assert InwardOn(adj, minTie, SnapshotOf(qs), way, ops, id, g);
  }

  // ---------------------------------------------------------------- the walkers on the device

  method WalkersStep(device: Device, minTie: bool, s0: nat, s1: nat, q0: nat, q1: nat, ops: seq<Operation>, ghost start: State,
                     ghost g: LogicalGate, ghost a: nat, ghost b: nat)
    returns (r0: nat, r1: nat, more: seq<Operation>)
    requires device.Valid() && device.topology.Calculated() && !Coupled(device.adj, q0, q1)
    requires WalkersOk(device.adj, device.topology.distance, device.topology.predecessor, s0, s1, start, g,
                       Walkers(q0, q1, ops, device.qubits), a, b)
    modifies device`qubits
    ensures device.Valid()
    ensures Walkers(r0, r1, more, device.qubits)
            == WalkOne(device.topology.predecessor, minTie, s0, s1, Walkers(q0, q1, ops, old(device.qubits)))
  {
    hide Paths, Within, WayOf, Underway, Applied, Topology.Toward;
    NextSteps(device.adj, device.topology.distance, device.topology.predecessor, s0, s1, a, b);
    EndsInRange(device.adj, device.topology.distance, device.topology.predecessor, s0, s1);
    var q0Next, q0Cost := device.GetNextSwapCost(q0, s1);
    var q1Next, q1Cost := device.GetNextSwapCost(q1, s0);
    AsEntry(device.topology, q0, s1);
    AsEntry(device.topology, q1, s0);
    SwapUnderway(device.adj, device.qubits, start, ops, q0, q0Next, q1);
    SwapUnderway(device.adj, device.qubits, start, ops, q1, q1Next, q0);
    if q0Cost < q1Cost || (q0Cost == q1Cost && minTie && device.qubits[q0].logical < device.qubits[q1].logical) {
      var op := SwapOp(q0, q0Next, q0Cost);
      device.ApplyGate(op);
      r0, r1, more := q0Next, q1, ops + [op];
    } else {
      var op := SwapOp(q1, q1Next, q1Cost);
      device.ApplyGate(op);
      r0, r1, more := q0, q1Next, ops + [op];
    }
  }

  lemma EndsInRange(adj: seq<seq<nat>>, d: Matrix, p: Matrix, s0: nat, s1: nat)
    requires Paths(adj, d, p) && Within(adj, d, p, s0, s1)
    ensures s0 < |adj| && s1 < |adj|
  {
  }

  lemma AsEntry(t: Topology, source: nat, target: nat)
    requires t.Calculated() && source < |t.adj| && target < |t.adj|
    ensures t.Toward(source, target) == Entry(t.predecessor, target, source)
    ensures t.Distance(source, target) == Entry(t.distance, source, target)
  {
  }

  /** Walks both operands along one shortest path until they are coupled. */
  method ApspRouting(device: Device, minTie: bool, id: nat, g: LogicalGate, s0: nat, s1: nat) returns (ops: seq<Operation>)
    requires device.Valid() && device.topology.Calculated() && device.topology.Reaches(s0, s1) && s0 != s1
    requires g.qubits == [device.qubits[s0].logical, device.qubits[s1].logical]
    modifies device`qubits
    ensures device.Valid() && Routed(device.adj, old(device.Snapshot()), ops, id, g)
    ensures device.Snapshot() == AfterAll(old(device.Snapshot()), ops)
    ensures |ops| == device.topology.Distance(s0, s1)
    ensures Outcome(ops, device.qubits) == ApspRoute(device.adj, device.topology.distance, device.topology.predecessor, minTie, id, g,
                                                     old(device.qubits), s0, s1)
    ensures WalksInward(device.adj, minTie, old(device.Snapshot()), ops, id, g)
  {
    hide WalksInward, Paths, Within, WalkOne, WalkersOk, QubitsOk, Routed, AfterAll, FitsAll, Underway;
    ghost var start, d, p, steps := device.Snapshot(), device.topology.distance, device.topology.predecessor, Entry(device.topology.distance, s0, s1);
    EndsInRange(device.adj, d, p, s0, s1);
    AsEntry(device.topology, s0, s1);
    QubitsSized(device.adj, device.qubits);
    WalkersStart(device.adj, d, p, s0, s1, g, device.qubits);
    ApspRoutes(device.adj, d, p, minTie, id, g, device.qubits, s0, s1);
    ApspInward(device.adj, d, p, minTie, id, g, device.qubits, s0, s1);
    var q0, q1 := s0, s1;
    ops := [];
    ghost var a, b, first := 0, steps, Walkers(s0, s1, [], device.qubits);
    while !Coupled(device.adj, q0, q1)
      invariant device.Valid() && a < b
      invariant WalkersOk(device.adj, d, p, s0, s1, start, g, Walkers(q0, q1, ops, device.qubits), a, b)
      invariant WalkAll(device.adj, p, minTie, s0, s1, Walkers(q0, q1, ops, device.qubits), b - a)
                == WalkAll(device.adj, p, minTie, s0, s1, first, steps)
      decreases b - a
    {
      ghost var now := Walkers(q0, q1, ops, device.qubits);
      ghost var a', b' := WalkOneKeeps(device.adj, d, p, minTie, s0, s1, start, g, now, a, b);
      q0, q1, ops := WalkersStep(device, minTie, s0, s1, q0, q1, ops, start, g, a, b);
      a, b := a', b';
      WalkersApart(device.adj, d, p, s0, s1, start, g, Walkers(q0, q1, ops, device.qubits), a, b);
    }
    WalkersApart(device.adj, d, p, s0, s1, start, g, Walkers(q0, q1, ops, device.qubits), a, b);
    WalkFinishes(device.adj, d, p, s0, s1, start, id, g, Walkers(q0, q1, ops, device.qubits), a);
    WalkersInRange(device.adj, d, p, s0, s1, start, g, Walkers(q0, q1, ops, device.qubits), a, b);
    var op := GateOp2(id, g, q0, q1, Max(device.qubits[q0].occupied, device.qubits[q1].occupied));
    device.ApplyGate(op);
    ops := ops + [op];
  }

  lemma QubitsSized(adj: seq<seq<nat>>, qs: seq<Qubit>)
    requires QubitsOk(adj, qs)
    ensures |qs| == |adj|
  {
  }

  lemma WalkersInRange(adj: seq<seq<nat>>, d: Matrix, p: Matrix, s0: nat, s1: nat, start: State, g: LogicalGate, w: Walkers, a: nat, b: nat)
    requires WalkersOk(adj, d, p, s0, s1, start, g, w, a, b)
    ensures w.q0 < |w.qubits| == |adj| && w.q1 < |adj|
  {
  }
}
