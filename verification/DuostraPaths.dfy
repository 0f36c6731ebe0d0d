/** Where routing with two trees takes the operands, and which of the two trees grows first. */
module DuostraPaths {
  import opened Collections
  import opened Topologies
  import opened Schedules
  import opened Devices
  import opened Routing
  import opened DuostraSearch
  import opened DuostraRouting
  import opened Sorts

  // ---------------------------------------------------------------- walks in a tree

  /** The swaps carry what is on the first qubit of the walk along it. */
  ghost predicate SwapsAlong(ops: seq<Operation>, w: seq<nat>) {
    |w| == |ops| + 1 && forall i :: 0 <= i < |ops| ==> Inserted(ops[i]) && ops[i].qubits == [w[i + 1], w[i]]
  }

  /** The walk stays in one of the trees. */
  ghost predicate InTree(qs: seq<Qubit>, w: seq<nat>, source: bool) {
    forall i :: 0 <= i < |w| ==> w[i] < |qs| && qs[w[i]].marked && qs[w[i]].taken && qs[w[i]].source == source
  }

  ghost predicate Costlier(qs: seq<Qubit>, w: seq<nat>, cost: nat) {
    forall i :: 0 <= i < |w| ==> w[i] < |qs| && qs[w[i]].cost < cost
  }

  lemma LongerWalk(adj: seq<seq<nat>>, w: seq<nat>, a: nat, p: nat, q: nat)
    requires IsWalk(adj, w, a, p) && q < |adj| && Coupled(adj, p, q)
    ensures IsWalk(adj, w + [q], a, q)
  {
    var v := w + [q];
    forall i | 0 <= i < |v| - 1
      ensures StepOfWalk(adj, v, i)
    {
      assert i < |w| - 1 ==> StepOfWalk(adj, w, i);
    }
  }

  lemma TakenInTree(adj: seq<seq<nat>>, qs: seq<Qubit>, t0: nat, t1: nat, q: nat)
    requires Trees(adj, qs, t0, t1) && q < |adj| && qs[q].taken
    ensures qs[q].marked
  {
    assert TreeAt(adj, qs, q);
  }

  /** A climb swaps along a walk within its tree, from the root. */
  lemma {:induction false} ClimbWalk(adj: seq<seq<nat>>, qs: seq<Qubit>, t0: nat, t1: nat, q: nat) returns (w: seq<nat>)
    requires IsCoupling(adj) && Trees(adj, qs, t0, t1) && q < |adj| && qs[q].taken
    ensures IsWalk(adj, w, Root(qs, t0, t1, q), q) && SwapsAlong(Climb(adj, qs, t0, t1, q), w) && InTree(qs, w, qs[q].source) && Distinct(w)
    ensures Costlier(qs, w[..|w| - 1], qs[q].cost)
    decreases qs[q].cost
  {
    TreesSized(adj, qs, t0, t1);
    Parent(adj, qs, t0, t1, q);
    ClimbStep(adj, qs, t0, t1, q);
    TakenInTree(adj, qs, t0, t1, q);
    hide Trees, Climb, IsWalk, SwapsAlong, InTree, Costlier, Distinct, IsCoupling, Coupled;
    if q == Root(qs, t0, t1, q) {
      w := [q];
      WalkOfOne(adj, qs, q);
    } else {
      var p := qs[q].pred;
      CouplingBothWays(adj, q, p);
      var before := ClimbWalk(adj, qs, t0, t1, p);
      w := before + [q];
      ClimbMore(adj, qs, Climb(adj, qs, t0, t1, p), before, Root(qs, t0, t1, q), p, q);
    }
  }

  lemma WalkOfOne(adj: seq<seq<nat>>, qs: seq<Qubit>, q: nat)
    requires q < |adj| == |qs| && qs[q].marked && qs[q].taken
    ensures IsWalk(adj, [q], q, q) && SwapsAlong([], [q]) && InTree(qs, [q], qs[q].source) && Distinct([q])
    ensures Costlier(qs, [q][..|[q]| - 1], qs[q].cost)
  {
  }

  lemma ClimbMore(adj: seq<seq<nat>>, qs: seq<Qubit>, ops: seq<Operation>, before: seq<nat>, root: nat, p: nat, q: nat)
    requires p < |adj| == |qs| && q < |adj| && qs[q].marked && qs[q].taken && qs[q].source == qs[p].source && qs[p].cost < qs[q].cost
    requires IsWalk(adj, before, root, p) && SwapsAlong(ops, before) && InTree(qs, before, qs[p].source) && Distinct(before)
    requires Costlier(qs, before[..|before| - 1], qs[p].cost) && Coupled(adj, p, q)
    ensures var w := before + [q];
            && IsWalk(adj, w, root, q) && SwapsAlong(ops + [SwapOp(q, p, qs[q].swapTime)], w) && InTree(qs, w, qs[q].source) && Distinct(w)
            && Costlier(qs, w[..|w| - 1], qs[q].cost)
  {
    LongerWalk(adj, before, root, p, q);
    LaterCost(qs, before, p, q);
    hide IsWalk;
    WalkEndsAt(adj, before, root, p);
    assert (before + [q])[..|before + [q]| - 1] == before;
  }

  lemma WalkEndsAt(adj: seq<seq<nat>>, w: seq<nat>, a: nat, b: nat)
    requires IsWalk(adj, w, a, b)
    ensures w != [] && w[|w| - 1] == b
  {
  }

  lemma LaterCost(qs: seq<Qubit>, before: seq<nat>, p: nat, q: nat)
    requires before != [] && before[|before| - 1] == p < |qs| && q < |qs| && qs[p].cost < qs[q].cost && Distinct(before)
    requires Costlier(qs, before[..|before| - 1], qs[p].cost)
    ensures Costlier(qs, before, qs[q].cost) && Distinct(before + [q])
  {
    forall i | 0 <= i < |before|
      ensures before[i] < |qs| && qs[before[i]].cost < qs[q].cost
    {
      assert i < |before| - 1 ==> before[..|before| - 1][i] == before[i];
    }
  }

  // ---------------------------------------------------------------- who touches first

  /** Touching leaves seen qubits to their tree and claims the others for the one that touches. */
  lemma {:induction false} TouchSources(adj: seq<seq<nat>>, qs: seq<Qubit>, queue: seq<Node>, u: nat, source: bool, k: nat)
    ensures var r := TouchFrom(adj, qs, queue, u, source, k).qubits;
            |r| == |qs| && forall q :: 0 <= q < |qs| ==>
              if qs[q].marked then r[q].marked && r[q].source == qs[q].source else r[q].marked ==> r[q].source == source
    decreases if u < |adj| && k <= |adj[u]| then |adj[u]| - k else 0
  {
    if u < |adj| && k < |adj[u]| {
      var v := adj[u][k];
      if QubitAt(qs, v).marked {
        if !(QubitAt(qs, v).taken && QubitAt(qs, v).source != source) {
          TouchSources(adj, qs, queue, u, source, k + 1);
        }
      } else {
        var cost := Max(QubitAt(qs, u).cost, QubitAt(qs, v).occupied) + SWAP_DELAY;
        TouchSources(adj, Mark(qs, u, v, source), queue + [Node(cost, v, source)], u, source, k + 1);
      }
    }
  }

  /** Every neighbour of t0 but t1 belongs to the tree of t0. */
  ghost predicate Claimed(adj: seq<seq<nat>>, qs: seq<Qubit>, t0: nat, t1: nat) {
    forall v: nat :: v < |qs| && Coupled(adj, t0, v) && v != t1 ==> qs[v].marked && !qs[v].source
  }

  ghost predicate SourcesKept(qs: seq<Qubit>, qs': seq<Qubit>) {
    |qs'| == |qs| && forall q :: 0 <= q < |qs| && qs[q].marked ==> qs'[q].marked && qs'[q].source == qs[q].source
  }

  lemma StaysClaimed(adj: seq<seq<nat>>, qs: seq<Qubit>, qs': seq<Qubit>, t0: nat, t1: nat)
    requires Claimed(adj, qs, t0, t1) && SourcesKept(qs, qs')
    ensures Claimed(adj, qs', t0, t1)
  {
  }

  lemma AdvanceSources(adj: seq<seq<nat>>, h: Hunt)
    ensures SourcesKept(h.qubits, AdvanceOne(adj, h).qubits)
  {
    hide TouchFrom;
    if h.queue != [] {
      var k := Top(h.queue, |h.queue|);
      var next := h.queue[k];
      TouchSources(adj, Taken(h.qubits, next), Without(h.queue, k), next.id, next.source, 0);
    }
  }

  lemma {:induction false} SearchSources(adj: seq<seq<nat>>, h: Hunt, steps: nat)
    ensures SourcesKept(h.qubits, SearchOn(adj, h, steps).qubits)
    decreases steps
  {
    hide AdvanceOne;
    if !h.met && steps > 0 {
      AdvanceSources(adj, h);
      SearchSources(adj, AdvanceOne(adj, h), steps - 1);
    }
  }

  /** The first touch meets the other root exactly if it is a neighbour, and otherwise claims all neighbours. */
  lemma FirstTouch(adj: seq<seq<nat>>, qs: seq<Qubit>, t0: nat, t1: nat)
    requires IsCoupling(adj) && |qs| == |adj| && AtRest(qs) && t0 < |adj| && t1 < |adj| && t0 != t1
    ensures var a := TouchFrom(adj, Planted(qs, t0, t1), [], t0, false, 0);
            (a.met <==> Coupled(adj, t0, t1)) && (!a.met ==> Claimed(adj, a.qubits, t0, t1))
  {
    hide Trees, QueueOk, IsCoupling, TouchFrom, AtRest;
    var planted := Planted(qs, t0, t1);
    PlantedIsOk(adj, qs, t0, t1);
    RootFacts(adj, planted, t0, t1);
    TouchKeeps(adj, planted, [], 0, t0, t1, t0, false, 0);
    var a := TouchFrom(adj, planted, [], t0, false, 0);
    RootFacts(adj, a.qubits, t0, t1);
    OnlyRootsMarked(qs, t0, t1);
    TouchSources(adj, planted, [], t0, false, 0);
  }

  lemma OnlyRootsMarked(qs: seq<Qubit>, t0: nat, t1: nat)
    requires AtRest(qs) && t0 < |qs| && t1 < |qs|
    ensures forall q :: 0 <= q < |qs| ==> (Planted(qs, t0, t1)[q].marked <==> q == t0 || q == t1)
  {
  }

  /** Neighbouring operands meet where they are; otherwise the neighbours of t0 belong to its tree from the beginning. */
  lemma SearchClaims(adj: seq<seq<nat>>, qs: seq<Qubit>, t0: nat, t1: nat)
    requires IsCoupling(adj) && |qs| == |adj| && AtRest(qs) && t0 < |adj| && t1 < |adj| && t0 != t1
    ensures var h := SearchAll(adj, qs, t0, t1);
            if Coupled(adj, t0, t1) then h.q0 == t0 && h.q1 == t1 else Claimed(adj, h.qubits, t0, t1)
  {
    hide IsCoupling, TouchFrom, AtRest, Planted, AdvanceOne, Claimed;
    FirstTouch(adj, qs, t0, t1);
    var a := TouchFrom(adj, Planted(qs, t0, t1), [], t0, false, 0);
    TouchSources(adj, a.qubits, a.queue, t1, true, 0);
    var start := SearchStart(adj, qs, t0, t1);
    SearchSources(adj, start, |qs|);
    if !Coupled(adj, t0, t1) {
      StaysClaimed(adj, a.qubits, start.qubits, t0, t1);
      StaysClaimed(adj, start.qubits, SearchAll(adj, qs, t0, t1).qubits, t0, t1);
    }
  }

  // ---------------------------------------------------------------- the two walks of a routed gate

  /** The operand on t0 goes first: it is free earlier; at the same time it is the smaller one if that has priority,
      and the first one otherwise. */
  ghost predicate GoesBefore(minTie: bool, s: State, g: LogicalGate, t0: nat, t1: nat) {
    && t0 < |s.occupied| && t1 < |s.occupied| && t0 < |s.logical| && t1 < |s.logical|
    && (s.occupied[t0] < s.occupied[t1] ||
        (s.occupied[t0] == s.occupied[t1] && if minTie then s.logical[t0] < s.logical[t1] else g.qubits == [s.logical[t0], s.logical[t1]]))
    && (g.qubits == [s.logical[t0], s.logical[t1]] || g.qubits == [s.logical[t1], s.logical[t0]])
  }

  /** The operands walk without meeting a qubit twice until they are neighbours; the second one keeps off the neighbours
      of the place where the first one starts. */
  ghost predicate TwoWalks(adj: seq<seq<nat>>, w0: seq<nat>, w1: seq<nat>) {
    && w0 != [] && w1 != [] && Distinct(w0 + w1) && Coupled(adj, w0[|w0| - 1], w1[|w1| - 1])
    && IsWalk(adj, w0, w0[0], w0[|w0| - 1]) && IsWalk(adj, w1, w1[0], w1[|w1| - 1])
    && (Coupled(adj, w0[0], w1[0]) ==> |w0| == |w1| == 1)
    && forall i :: 1 <= i < |w1| ==> !Coupled(adj, w0[0], w1[i])
  }

  /** The operations are the swaps along both walks and the gate. */
  ghost predicate SwapsOfBoth(ops: seq<Operation>, w0: seq<nat>, w1: seq<nat>) {
    exists a, b, op :: SwapsAlong(a, w0) && SwapsAlong(b, w1) && Permutation(a + b + [op], ops)
  }

  /** The gate routed with two trees. */
  ghost predicate WalksFromBoth(adj: seq<seq<nat>>, minTie: bool, s: State, ops: seq<Operation>, g: LogicalGate) {
    exists w0: seq<nat>, w1: seq<nat> :: TwoWalks(adj, w0, w1) && SwapsOfBoth(ops, w0, w1) && |ops| == |w0| + |w1| - 1 && GoesBefore(minTie, s, g, w0[0], w1[0])
  }

  lemma {:induction false} CountedSize(a: seq<Operation>, b: seq<Operation>)
    requires Permutation(a, b)
    ensures |a| == |b|
  {
    forall x
      ensures multiset(a)[x] == multiset(b)[x]
    {
      CountIsMultiplicity(a, x);
      CountIsMultiplicity(b, x);
      assert Count(a, x) == Count(b, x);
    }
    assert multiset(a) == multiset(b);
    assert |multiset(a)| == |a| && |multiset(b)| == |b|;
  }

  lemma {:induction false} CountIsMultiplicity(a: seq<Operation>, x: Operation)
    ensures Count(a, x) == multiset(a)[x]
  {
    if a != [] {
      CountIsMultiplicity(a[1..], x);
      assert a == [a[0]] + a[1..];
    }
  }

  /** The trees give two walks. */
  lemma TreesWalk(adj: seq<seq<nat>>, qs: seq<Qubit>, t0: nat, t1: nat, q0: nat, q1: nat) returns (w0: seq<nat>, w1: seq<nat>)
    requires IsCoupling(adj) && Trees(adj, qs, t0, t1) && Meet(adj, qs, q0, q1)
    requires if Coupled(adj, t0, t1) then q0 == t0 && q1 == t1 else Claimed(adj, qs, t0, t1)
    ensures t0 < |qs| && t1 < |qs| && TwoWalks(adj, w0, w1) && w0[0] == t0 && w1[0] == t1
    ensures SwapsAlong(Climb(adj, qs, t0, t1, q0), w0) && SwapsAlong(Climb(adj, qs, t0, t1, q1), w1)
  {
    RootFacts(adj, qs, t0, t1);
    TreesSized(adj, qs, t0, t1);
    hide Trees, Climb, IsCoupling;
    w0 := ClimbWalk(adj, qs, t0, t1, q0);
    w1 := ClimbWalk(adj, qs, t0, t1, q1);
    if Coupled(adj, t0, t1) {
      AloneAtRoot(w0);
      AloneAtRoot(w1);
    }
    hide SwapsAlong;
    ApartWalks(qs, w0, w1);
    forall i | 1 <= i < |w1|
      ensures !Coupled(adj, t0, w1[i])
    {
      assert qs[w1[i]].source && w1[i] != w1[0];
    }
  }

  lemma AloneAtRoot(w: seq<nat>)
    requires w != [] && Distinct(w) && w[0] == w[|w| - 1]
    ensures |w| == 1
  {
  }

  lemma ApartWalks(qs: seq<Qubit>, w0: seq<nat>, w1: seq<nat>)
    requires InTree(qs, w0, false) && InTree(qs, w1, true) && Distinct(w0) && Distinct(w1)
    ensures Distinct(w0 + w1)
  {
    var w := w0 + w1;
    forall i, j | 0 <= i < j < |w|
      ensures w[i] != w[j]
    {
      assert i < |w0| ==> w[i] == w0[i];
      assert j >= |w0| ==> w[j] == w1[j - |w0|];
    }
  }

  /** What the router does with two trees: the operand that is free earlier claims its neighbours first, and both walk
      towards each other. */
  lemma TreesRouteWalks(adj: seq<seq<nat>>, minTie: bool, sort: Sorting, id: nat, g: LogicalGate, qs: seq<Qubit>, p0: nat, p1: nat)
    requires QubitsOk(adj, qs) && AtRest(qs) && Connected(adj) && p0 < |adj| && p1 < |adj| && p0 != p1
    requires g.qubits == [QubitAt(qs, p0).logical, QubitAt(qs, p1).logical]
    ensures var ops := TreesRoute(adj, minTie, sort, id, g, qs, p0, p1).ops;
            WalksFromBoth(adj, minTie, SnapshotOf(qs), ops, g) && (Coupled(adj, p0, p1) ==> |ops| == 1)
  {
    StateFits(adj, qs);
    QubitsSized(adj, qs);
    BeforeTheOther(adj, minTie, qs, g, p0, p1);
    hide QubitsOk, AtRest, Connected, IsCoupling, StateOk, SearchAll, Trees, Meet, Traced, TwoWalks, GoesBefore, Climb, Coupled, SecondFirst, SnapshotOf;
    var swapIds := SecondFirst(minTie, qs, p0, p1);
    var t0, t1 := if swapIds then p1 else p0, if swapIds then p0 else p1;
    SearchAllMeets(adj, qs, t0, t1);
    SearchClaims(adj, qs, t0, t1);
    var h := SearchAll(adj, qs, t0, t1);
    var w0, w1 := TreesWalk(adj, h.qubits, t0, t1, h.q0, h.q1);
    TracedSwaps(adj, sort, id, g, h.qubits, h.q0, h.q1, t0, t1, swapIds, w0, w1);
    CouplingEither(adj, p0, p1);
    if Coupled(adj, t0, t1) {
      CoupledWalks(adj, w0, w1);
    }
  }

  lemma CoupledWalks(adj: seq<seq<nat>>, w0: seq<nat>, w1: seq<nat>)
    requires TwoWalks(adj, w0, w1) && w0 != [] && w1 != [] && Coupled(adj, w0[0], w1[0])
    ensures |w0| == |w1| == 1
  {
  }

  lemma CouplingEither(adj: seq<seq<nat>>, a: nat, b: nat)
    requires IsCoupling(adj)
    ensures Coupled(adj, a, b) <==> Coupled(adj, b, a)
  {
    if Coupled(adj, a, b) {
      CouplingBothWays(adj, a, b);
    }
    if Coupled(adj, b, a) {
      CouplingBothWays(adj, b, a);
    }
  }

  /** The operand that is not second is first. */
  lemma BeforeTheOther(adj: seq<seq<nat>>, minTie: bool, qs: seq<Qubit>, g: LogicalGate, p0: nat, p1: nat)
    requires QubitsOk(adj, qs) && p0 < |adj| && p1 < |adj| && p0 != p1 && g.qubits == [QubitAt(qs, p0).logical, QubitAt(qs, p1).logical]
    ensures if SecondFirst(minTie, qs, p0, p1) then GoesBefore(minTie, SnapshotOf(qs), g, p1, p0) else GoesBefore(minTie, SnapshotOf(qs), g, p0, p1)
  {
    var s := SnapshotOf(qs);
    assert s.logical[p0] != s.logical[p1];
  }

  lemma TracedSwaps(adj: seq<seq<nat>>, sort: Sorting, id: nat, g: LogicalGate, qs: seq<Qubit>, q0: nat, q1: nat, t0: nat, t1: nat, swapIds: bool,
                    w0: seq<nat>, w1: seq<nat>)
    requires IsCoupling(adj) && Trees(adj, qs, t0, t1) && Meet(adj, qs, q0, q1) && |qs| == |adj| && w0 != [] && w1 != []
    requires SwapsAlong(Climb(adj, qs, t0, t1, q0), w0) && SwapsAlong(Climb(adj, qs, t0, t1, q1), w1)
    ensures var ops := Traced(sort, id, g, qs, q0, q1, t0, t1, swapIds); SwapsOfBoth(ops, w0, w1) && |ops| == |w0| + |w1| - 1
  {
    hide Trees, Climb, IsCoupling, Permutation, TraceFrom, MeetingGate, SwapsAlong;
    var op, ops := MeetingGate(id, g, qs, q0, q1, swapIds), Traced(sort, id, g, qs, q0, q1, t0, t1, swapIds);
    Sorted(sort, [op] + TraceFrom(qs, q0, t0) + TraceFrom(qs, q1, t1));
    TraceIsClimb(adj, qs, t0, t1, q0);
    TraceIsClimb(adj, qs, t0, t1, q1);
    var a, b := Climb(adj, qs, t0, t1, q0), Climb(adj, qs, t0, t1, q1);
    GateMovesBack(op, a, b, TraceFrom(qs, q0, t0), TraceFrom(qs, q1, t1), ops);
    CountedSize(a + b + [op], ops);
    AlongSized(a, w0);
    AlongSized(b, w1);
  }

  lemma AlongSized(ops: seq<Operation>, w: seq<nat>)
    requires SwapsAlong(ops, w)
    ensures |w| == |ops| + 1
  {
  }
}
