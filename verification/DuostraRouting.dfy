/** Tracing the two trees back to the operands, sorting the swaps by time and carrying them out. */
module DuostraRouting {
  import opened Collections
  import opened Topologies
  import opened Schedules
  import opened Devices
  import opened Routing
  import opened DuostraSearch
  import opened Sorts

  // ---------------------------------------------------------------- the way from a root

  function Root(qs: seq<Qubit>, t0: nat, t1: nat, q: nat): nat
    requires q < |qs|
  {
    if qs[q].source then t1 else t0
  }

  /** The parent of a taken qubit that is not a root. */
  lemma Parent(adj: seq<seq<nat>>, qs: seq<Qubit>, t0: nat, t1: nat, q: nat)
    requires IsCoupling(adj) && Trees(adj, qs, t0, t1) && q < |adj| && qs[q].taken
    ensures Root(qs, t0, t1, q) < |adj|
    ensures qs[q].pred == q <==> q == Root(qs, t0, t1, q)
    ensures q == Root(qs, t0, t1, q) ==> qs[q].cost == qs[q].occupied
    ensures q != Root(qs, t0, t1, q) ==>
              var p := qs[q].pred;
              && p < |adj| && Coupled(adj, q, p) && p != q && qs[p].taken && qs[p].source == qs[q].source
              && qs[q].swapTime == Max(qs[p].cost, qs[q].occupied) && qs[q].cost == qs[q].swapTime + SWAP_DELAY
  {
    assert TreeAt(adj, qs, q);
    if qs[q].pred != q {
      assert Coupled(adj, qs[q].pred, q);
    }
  }

  /** The swaps from the root of q's tree up to q, in the order they have to happen. */
  ghost function Climb(adj: seq<seq<nat>>, qs: seq<Qubit>, t0: nat, t1: nat, q: nat): seq<Operation>
    requires IsCoupling(adj) && Trees(adj, qs, t0, t1) && q < |adj| && qs[q].taken
    decreases qs[q].cost
  {
    Parent(adj, qs, t0, t1, q);
    if q == Root(qs, t0, t1, q) then []
    else Climb(adj, qs, t0, t1, qs[q].pred) + [SwapOp(q, qs[q].pred, qs[q].swapTime)]
  }

  /** The device has not touched q's tree yet. */
  ghost predicate TreeUntouched(s: State, qs: seq<Qubit>, source: bool) {
    && |s.occupied| == |s.logical| == |qs|
    && forall x :: 0 <= x < |qs| && qs[x].taken && qs[x].source == source ==> s.occupied[x] == qs[x].occupied
  }

  /** The qubits a climb to q may have used. */
  predicate BelowQ(qs: seq<Qubit>, q: nat, x: nat)
    requires q < |qs| && x < |qs|
  {
    qs[x].taken && qs[x].source == qs[q].source && qs[x].cost <= qs[q].cost
  }

  ghost predicate ClimbResult(s: State, s': State, qs: seq<Qubit>, q: nat, root: nat)
    requires |s.occupied| == |s.logical| == |s'.occupied| == |s'.logical| == |qs| && q < |qs| && root < |qs|
  {
    && s'.occupied[q] == qs[q].cost && s'.logical[q] == s.logical[root]
    && forall x: nat :: x < |qs| && !BelowQ(qs, q, x) ==> s'.occupied[x] == s.occupied[x] && s'.logical[x] == s.logical[x]
  }

  ghost predicate EarlySwaps(ops: seq<Operation>, time: nat) {
    forall i :: 0 <= i < |ops| ==> Inserted(ops[i]) && ops[i].start < time
  }

  lemma {:induction false} ClimbFits(adj: seq<seq<nat>>, qs: seq<Qubit>, t0: nat, t1: nat, q: nat, s: State)
    requires IsCoupling(adj) && Trees(adj, qs, t0, t1) && q < |adj| && qs[q].taken && TreeUntouched(s, qs, qs[q].source)
    ensures Root(qs, t0, t1, q) < |adj|
    ensures FitsAll(adj, s, Climb(adj, qs, t0, t1, q)) && EarlySwaps(Climb(adj, qs, t0, t1, q), qs[q].cost)
    ensures Prompt(s, Climb(adj, qs, t0, t1, q))
    ensures ClimbResult(s, AfterAll(s, Climb(adj, qs, t0, t1, q)), qs, q, Root(qs, t0, t1, q))
    decreases qs[q].cost
  {
    TreesSized(adj, qs, t0, t1);
    Parent(adj, qs, t0, t1, q);
    ClimbStep(adj, qs, t0, t1, q);
    hide Trees, FitsAll, AfterAll, Climb, IsCoupling, Coupled, ClimbResult, EarlySwaps, Prompt;
    if q == Root(qs, t0, t1, q) {
      ClimbBase(adj, s, qs, q);
      NothingLate(s);
    } else {
      var p := qs[q].pred;
      ClimbFits(adj, qs, t0, t1, p, s);
      ClimbOneMore(adj, s, Climb(adj, qs, t0, t1, p), qs, q, p, Root(qs, t0, t1, q));
    }
  }

  lemma ClimbBase(adj: seq<seq<nat>>, s: State, qs: seq<Qubit>, q: nat)
    requires |s.occupied| == |s.logical| == |qs| == |adj| && q < |qs| && qs[q].cost == qs[q].occupied == s.occupied[q]
    ensures FitsAll(adj, s, []) && EarlySwaps([], qs[q].cost) && ClimbResult(s, AfterAll(s, []), qs, q, q)
  {
  }

  lemma ClimbOneMore(adj: seq<seq<nat>>, s: State, ops: seq<Operation>, qs: seq<Qubit>, q: nat, p: nat, root: nat)
    requires |s.occupied| == |s.logical| == |qs| == |adj| && q < |qs| && p < |qs| && root < |qs| && p != q && Coupled(adj, q, p)
    requires FitsAll(adj, s, ops) && EarlySwaps(ops, qs[p].cost) && ClimbResult(s, AfterAll(s, ops), qs, p, root)
    requires qs[q].taken && qs[p].taken && qs[p].source == qs[q].source && s.occupied[q] == qs[q].occupied
    requires qs[q].swapTime == Max(qs[p].cost, qs[q].occupied) && qs[q].cost == qs[q].swapTime + SWAP_DELAY && Prompt(s, ops)
    ensures Prompt(s, ops + [SwapOp(q, p, qs[q].swapTime)])
    ensures var more := ops + [SwapOp(q, p, qs[q].swapTime)];
            FitsAll(adj, s, more) && EarlySwaps(more, qs[q].cost) && ClimbResult(s, AfterAll(s, more), qs, q, root)
  {
    hide FitsAll, AfterAll, Fits, ClimbResult, After, Coupled, EarlySwaps, Prompt;
    var op, now := SwapOp(q, p, qs[q].swapTime), AfterAll(s, ops);
    ClimbTimes(s, now, qs, q, p, root);
    SwapFitsAt(adj, now, q, p, qs[q].swapTime);
    OneMoreOperation(adj, s, ops, op);
    PromptMore(s, ops, op, if qs[p].cost >= qs[q].occupied then p else q);
    ClimbFitsStep(s, now, qs, q, p, root);
    LaterSwap(ops, op, qs[p].cost, qs[q].cost);
  }

  lemma LaterSwap(ops: seq<Operation>, op: Operation, before: nat, time: nat)
    requires EarlySwaps(ops, before) && before <= time && Inserted(op) && op.start < time
    ensures EarlySwaps(ops + [op], time)
  {
  }

  lemma ClimbTimes(s: State, now: State, qs: seq<Qubit>, q: nat, p: nat, root: nat)
    requires |s.occupied| == |s.logical| == |now.occupied| == |now.logical| == |qs| && q < |qs| && p < |qs| && root < |qs|
    requires ClimbResult(s, now, qs, p, root) && qs[p].cost < qs[q].cost
    ensures now.occupied[p] == qs[p].cost && now.occupied[q] == s.occupied[q]
  {
    assert !BelowQ(qs, p, q);
  }

  lemma SwapFitsAt(adj: seq<seq<nat>>, s: State, a: nat, b: nat, start: nat)
    requires |s.occupied| == |adj| && a < |adj| && b < |adj| && a != b && Coupled(adj, a, b)
    requires s.occupied[a] <= start && s.occupied[b] <= start
    ensures Fits(adj, s, SwapOp(a, b, start))
  {
  }

  lemma TreesSized(adj: seq<seq<nat>>, qs: seq<Qubit>, t0: nat, t1: nat)
    requires Trees(adj, qs, t0, t1)
    ensures |qs| == |adj|
  {
  }

  lemma ClimbStep(adj: seq<seq<nat>>, qs: seq<Qubit>, t0: nat, t1: nat, q: nat)
    requires IsCoupling(adj) && Trees(adj, qs, t0, t1) && q < |adj| && qs[q].taken
    ensures qs[q].pred < |adj| && (q != Root(qs, t0, t1, q) ==> qs[qs[q].pred].taken)
    ensures Climb(adj, qs, t0, t1, q) ==
            if q == Root(qs, t0, t1, q) then [] else Climb(adj, qs, t0, t1, qs[q].pred) + [SwapOp(q, qs[q].pred, qs[q].swapTime)]
  {
    Parent(adj, qs, t0, t1, q);
    assert TreeAt(adj, qs, q);
  }

  lemma ClimbFitsStep(s: State, now: State, qs: seq<Qubit>, q: nat, p: nat, root: nat)
    requires |s.occupied| == |s.logical| == |now.occupied| == |now.logical| == |qs| && q < |qs| && p < |qs| && root < |qs| && p != q
    requires qs[q].taken && qs[p].taken && qs[p].source == qs[q].source && qs[p].cost <= qs[q].cost
    requires qs[q].cost == qs[q].swapTime + SWAP_DELAY && ClimbResult(s, now, qs, p, root)
    ensures ClimbResult(s, After(now, SwapOp(q, p, qs[q].swapTime)), qs, q, root)
  {
    var s' := After(now, SwapOp(q, p, qs[q].swapTime));
    forall x: nat | x < |qs| && !BelowQ(qs, q, x)
      ensures s'.occupied[x] == s.occupied[x] && s'.logical[x] == s.logical[x]
    {
      assert !BelowQ(qs, p, x) && x != q && x != p;
    }
  }

  // ---------------------------------------------------------------- both ways and the gate

  function MeetingGate(id: nat, g: LogicalGate, qs: seq<Qubit>, q0: nat, q1: nat, swapIds: bool): Operation {
    GateOp2(id, g, if swapIds then q1 else q0, if swapIds then q0 else q1, Max(QubitAt(qs, q0).cost, QubitAt(qs, q1).cost))
  }

  /** Both climbs and then the gate form a run that brings the operands together. */
  lemma ClimbsMeet(adj: seq<seq<nat>>, qs: seq<Qubit>, t0: nat, t1: nat, q0: nat, q1: nat, s: State, id: nat, g: LogicalGate, swapIds: bool)
    requires IsCoupling(adj) && Trees(adj, qs, t0, t1) && Meet(adj, qs, q0, q1) && t0 < |qs| && t1 < |qs|
    requires TreeUntouched(s, qs, false) && TreeUntouched(s, qs, true)
    requires g.qubits == if swapIds then [s.logical[t1], s.logical[t0]] else [s.logical[t0], s.logical[t1]]
    ensures var c := Climb(adj, qs, t0, t1, q0) + Climb(adj, qs, t0, t1, q1);
            var op := MeetingGate(id, g, qs, q0, q1, swapIds);
            && FitsAll(adj, s, c) && FitsAll(adj, s, c + [op]) && EarlySwaps(c, op.start) && Operands(AfterAll(s, c).logical, op) == g.qubits
            && Prompt(s, c + [op])
  {
    hide Trees;
    TreesSized(adj, qs, t0, t1);
    var a, b := Climb(adj, qs, t0, t1, q0), Climb(adj, qs, t0, t1, q1);
    hide Trees, FitsAll, AfterAll, Climb, ClimbResult, TreeUntouched, IsCoupling, Coupled, Operands, EarlySwaps, Fits, MeetingGate, Prompt;
    RootFacts(adj, qs, t0, t1);
    ClimbFits(adj, qs, t0, t1, q0, s);
    var s0 := AfterAll(s, a);
    OtherTreeUntouched(s, s0, qs, q0, t0, true);
    ClimbFits(adj, qs, t0, t1, q1, s0);
    AfterAppend(s, a, b);
    FitsAppend(adj, s, a, b);
    BroughtTogether(s, s0, AfterAll(s0, b), qs, q0, q1, t0, t1);
    CouplingBothWays(adj, q0, q1);
    MeetingGateFits(adj, AfterAll(s0, b), qs, q0, q1, id, g, swapIds);
    OneMoreOperation(adj, s, a + b, MeetingGate(id, g, qs, q0, q1, swapIds));
    PromptAppend(s, a, b);
    MeetingQubits(id, g, qs, q0, q1, swapIds);
    PromptMore(s, a + b, MeetingGate(id, g, qs, q0, q1, swapIds), if qs[q0].cost >= qs[q1].cost then q0 else q1);
    BothEarly(a, b, qs, q0, q1, MeetingGate(id, g, qs, q0, q1, swapIds).start) by { MeetingStart(id, g, qs, q0, q1, swapIds); }
  }

  lemma MeetingQubits(id: nat, g: LogicalGate, qs: seq<Qubit>, q0: nat, q1: nat, swapIds: bool)
    requires q0 < |qs| && q1 < |qs|
    ensures var op := MeetingGate(id, g, qs, q0, q1, swapIds); q0 in op.qubits && q1 in op.qubits && op.start == Max(qs[q0].cost, qs[q1].cost)
  {
    var op := MeetingGate(id, g, qs, q0, q1, swapIds);
    assert op.qubits[0] in op.qubits && op.qubits[1] in op.qubits;
  }

  lemma BothEarly(a: seq<Operation>, b: seq<Operation>, qs: seq<Qubit>, q0: nat, q1: nat, time: nat)
    requires q0 < |qs| && q1 < |qs| && EarlySwaps(a, qs[q0].cost) && EarlySwaps(b, qs[q1].cost)
    requires time == Max(qs[q0].cost, qs[q1].cost)
    ensures EarlySwaps(a + b, time)
  {
  }

  lemma MeetingStart(id: nat, g: LogicalGate, qs: seq<Qubit>, q0: nat, q1: nat, swapIds: bool)
    requires q0 < |qs| && q1 < |qs|
    ensures MeetingGate(id, g, qs, q0, q1, swapIds).start == Max(qs[q0].cost, qs[q1].cost)
  {
  }

  lemma OtherTreeUntouched(s: State, s': State, qs: seq<Qubit>, q: nat, root: nat, source: bool)
    requires TreeUntouched(s, qs, source) && |s'.occupied| == |s'.logical| == |qs| && q < |qs| && root < |qs|
    requires ClimbResult(s, s', qs, q, root) && qs[q].source != source
    ensures TreeUntouched(s', qs, source)
  {
  }

  /** After both climbs the neighbours hold the operands and are free at their costs. */
  lemma BroughtTogether(s: State, s0: State, s1: State, qs: seq<Qubit>, q0: nat, q1: nat, t0: nat, t1: nat)
    requires |s.occupied| == |s.logical| == |s0.occupied| == |s0.logical| == |s1.occupied| == |s1.logical| == |qs|
    requires q0 < |qs| && q1 < |qs| && t0 < |qs| && t1 < |qs| && !qs[q0].source && qs[q1].source && qs[t1].source
    requires ClimbResult(s, s0, qs, q0, t0) && ClimbResult(s0, s1, qs, q1, t1)
    ensures s1.logical[q0] == s.logical[t0] && s1.logical[q1] == s.logical[t1]
    ensures s1.occupied[q0] == qs[q0].cost && s1.occupied[q1] == qs[q1].cost
  {
    assert !BelowQ(qs, q1, q0) && !BelowQ(qs, q0, t1);
  }

  lemma MeetingGateFits(adj: seq<seq<nat>>, s: State, qs: seq<Qubit>, q0: nat, q1: nat, id: nat, g: LogicalGate, swapIds: bool)
    requires IsCoupling(adj) && |s.occupied| == |s.logical| == |qs| == |adj| && q0 < |qs| && q1 < |qs|
    requires Coupled(adj, q0, q1) && Coupled(adj, q1, q0) && s.occupied[q0] == qs[q0].cost && s.occupied[q1] == qs[q1].cost
    requires g.qubits == if swapIds then [s.logical[q1], s.logical[q0]] else [s.logical[q0], s.logical[q1]]
    ensures var op := MeetingGate(id, g, qs, q0, q1, swapIds); Fits(adj, s, op) && Operands(s.logical, op) == g.qubits
  {
    if swapIds {
      GateFits(adj, s, id, g, q1, q0);
    } else {
      GateFits(adj, s, id, g, q0, q1);
    }
  }

  // ---------------------------------------------------------------- sorting

  /** An operation later than all others ends up last. */
  lemma LatestIsLast(c: seq<Operation>, op: Operation, sorted: seq<Operation>)
    requires Permutation(c + [op], sorted) && SortedByStart(sorted) && forall i :: 0 <= i < |c| ==> c[i].start < op.start
    ensures sorted != [] && sorted[|sorted| - 1] == op && Permutation(c, sorted[..|sorted| - 1])
  {
    var m := |sorted| - 1;
    CountIn(c + [op], op);
    CountIn(sorted, op);
    assert (c + [op])[|c|] == op;
    assert Count(c + [op], op) == Count(sorted, op);
    var last := sorted[m];
    CountIn(sorted, last);
    CountIn(c + [op], last);
    assert Count(c + [op], last) == Count(sorted, last);
    var j :| 0 <= j < |sorted| && sorted[j] == op;
    assert sorted[j].start <= last.start;
    WithoutLast(c, op, sorted);
  }

  lemma WithoutLast(c: seq<Operation>, op: Operation, sorted: seq<Operation>)
    requires Permutation(c + [op], sorted) && sorted != [] && sorted[|sorted| - 1] == op
    ensures Permutation(c, sorted[..|sorted| - 1])
  {
    var m := |sorted| - 1;
    forall y
      ensures Count(c, y) == Count(sorted[..m], y)
    {
      CountAppend(c, [op], y);
      assert sorted == sorted[..m] + [op];
      CountAppend(sorted[..m], [op], y);
      assert Count(c + [op], y) == Count(sorted, y);
    }
  }

  /** However the swaps are sorted by time, they route the gate. */
  lemma SortedRoutes(adj: seq<seq<nat>>, s: State, c: seq<Operation>, op: Operation, sorted: seq<Operation>, id: nat, g: LogicalGate)
    requires StateOk(s, |adj|) && FitsAll(adj, s, c) && FitsAll(adj, s, c + [op]) && EarlySwaps(c, op.start)
    requires Operands(AfterAll(s, c).logical, op) == g.qubits && op.gate == Some(id) && op.swap == g.swap && Prompt(s, c + [op])
    requires Permutation(c + [op], sorted) && SortedByStart(sorted)
    ensures Routed(adj, s, sorted, id, g)
  {
    hide FitsAll, AfterAll, Operands, StateOk, SameForLogical, Prompt;
    LatestIsLast(c, op, sorted);
    var m := |sorted| - 1;
    var init := sorted[..m];
    PrefixSorted(sorted, m);
    SortedRun(adj, s, c + [op], sorted);
    SortedPrompt(adj, s, c + [op], sorted);
    SortedRun(adj, s, c, init);
    forall i | 0 <= i < m
      ensures Inserted(sorted[i])
    {
      CountIn(init, sorted[i]);
      CountIn(c, sorted[i]);
      assert init[i] == sorted[i];
      assert Count(c, sorted[i]) == Count(init, sorted[i]);
    }
  }

  lemma PrefixSorted(ops: seq<Operation>, m: nat)
    requires SortedByStart(ops) && m <= |ops|
    ensures SortedByStart(ops[..m])
  {
  }

  // ---------------------------------------------------------------- tracing back

  /** The swaps from q down to its root. */
  function TraceFrom(qs: seq<Qubit>, q: nat, root: nat): seq<Operation>
    decreases QubitAt(qs, q).cost
  {
    var pred := QubitAt(qs, q).pred;
    if q == root || QubitAt(qs, pred).cost >= QubitAt(qs, q).cost then []
    else [SwapOp(q, pred, QubitAt(qs, q).swapTime)] + TraceFrom(qs, pred, root)
  }

  /** They are those of the climb. */
  lemma {:induction false} TraceIsClimb(adj: seq<seq<nat>>, qs: seq<Qubit>, t0: nat, t1: nat, q: nat)
    requires IsCoupling(adj) && Trees(adj, qs, t0, t1) && q < |adj| && qs[q].taken
    ensures Permutation(Climb(adj, qs, t0, t1, q), TraceFrom(qs, q, Root(qs, t0, t1, q)))
    decreases qs[q].cost
  {
    TreesSized(adj, qs, t0, t1);
    Parent(adj, qs, t0, t1, q);
    ClimbStep(adj, qs, t0, t1, q);
    hide Trees, Climb, IsCoupling;
    var root := Root(qs, t0, t1, q);
    if q != root {
      var p := qs[q].pred;
      var op := SwapOp(q, p, qs[q].swapTime);
      TraceIsClimb(adj, qs, t0, t1, p);
      forall x
        ensures Count(Climb(adj, qs, t0, t1, q), x) == Count(TraceFrom(qs, q, root), x)
      {
        CountAppend(Climb(adj, qs, t0, t1, p), [op], x);
        CountAppend([op], TraceFrom(qs, p, root), x);
        assert Count(Climb(adj, qs, t0, t1, p), x) == Count(TraceFrom(qs, p, root), x);
      }
    }
  }

  /** A taken qubit that is not a root has a parent of smaller cost. */
  lemma TraceStep(adj: seq<seq<nat>>, qs: seq<Qubit>, t0: nat, t1: nat, q: nat)
    requires IsCoupling(adj) && Trees(adj, qs, t0, t1) && q < |adj| && qs[q].taken
    ensures |qs| == |adj|
    ensures q != Root(qs, t0, t1, q) ==>
              var p := qs[q].pred;
              && p < |adj| && qs[p].taken && Root(qs, t0, t1, p) == Root(qs, t0, t1, q) && qs[p].cost < qs[q].cost
              && TraceFrom(qs, q, Root(qs, t0, t1, q)) == [SwapOp(q, p, qs[q].swapTime)] + TraceFrom(qs, p, Root(qs, t0, t1, q))
    ensures q == Root(qs, t0, t1, q) ==> TraceFrom(qs, q, Root(qs, t0, t1, q)) == []
  {
    Parent(adj, qs, t0, t1, q);
  }

  /** The swaps from q down to its root, appended to the list. */
  method TraceTree(device: Device, list: seq<Operation>, q: nat, root: nat, ghost t0: nat, ghost t1: nat) returns (more: seq<Operation>)
    requires device.Valid() && Trees(device.adj, device.qubits, t0, t1) && q < |device.qubits| && device.qubits[q].taken
    requires root == Root(device.qubits, t0, t1, q)
    ensures more == list + TraceFrom(device.qubits, q, root)
  {
    hide Trees, IsCoupling, TraceFrom;
    CouplingOf(device);
    TreesSized(device.adj, device.qubits, t0, t1);
    more := list;
    var trace: nat := q;
    TraceStep(device.adj, device.qubits, t0, t1, trace);
    while trace != root
      invariant trace < |device.qubits| && device.qubits[trace].taken && root == Root(device.qubits, t0, t1, trace)
      invariant more + TraceFrom(device.qubits, trace, root) == list + TraceFrom(device.qubits, q, root)
      decreases device.qubits[trace].cost
    {
      TraceStep(device.adj, device.qubits, t0, t1, trace);
      var pred := device.qubits[trace].pred;
      more := more + [SwapOp(trace, pred, device.qubits[trace].swapTime)];
      trace := pred;
    }
    TraceStep(device.adj, device.qubits, t0, t1, trace);
  }

  lemma GateMovesBack(op: Operation, a: seq<Operation>, b: seq<Operation>, l1: seq<Operation>, l2: seq<Operation>, sorted: seq<Operation>)
    requires Permutation(a, l1) && Permutation(b, l2) && Permutation([op] + l1 + l2, sorted)
    ensures Permutation((a + b) + [op], sorted)
  {
    forall x
      ensures Count((a + b) + [op], x) == Count(sorted, x)
    {
      CountAppend([op] + l1, l2, x);
      CountAppend([op], l1, x);
      CountAppend(a, b, x);
      CountAppend(a + b, [op], x);
      assert Count(a, x) == Count(l1, x) && Count(b, x) == Count(l2, x) && Count([op] + l1 + l2, x) == Count(sorted, x);
    }
  }

  ghost predicate TwoQubits(adj: seq<seq<nat>>, ops: seq<Operation>) {
    forall i :: 0 <= i < |ops| ==> OnDevice(adj, ops[i]) && |ops[i].qubits| == 2
  }

  lemma {:induction false} AppliedAllIsAfter(adj: seq<seq<nat>>, qs: seq<Qubit>, ops: seq<Operation>)
    requires QubitsOk(adj, qs) && TwoQubits(adj, ops)
    ensures QubitsOk(adj, AppliedAll(qs, ops)) && SnapshotOf(AppliedAll(qs, ops)) == AfterAll(SnapshotOf(qs), ops)
    decreases |ops|
  {
    if ops != [] {
      var m := |ops| - 1;
      assert TwoQubits(adj, ops[..m]);
      assert OnDevice(adj, ops[m]) && |ops[m].qubits| == 2;
      hide QubitsOk, SnapshotOf, Applied, OnDevice;
      AppliedAllIsAfter(adj, qs, ops[..m]);
      AppliedIsAfter(adj, AppliedAll(qs, ops[..m]), ops[m]);
    }
  }

  method CarryOut(device: Device, ops: seq<Operation>)
    requires device.Valid() && TwoQubits(device.adj, ops)
    modifies device`qubits
    ensures device.Valid() && device.qubits == AppliedAll(old(device.qubits), ops)
  {
    hide Applied;
    var i := 0;
    assert ops[..0] == [];
    while i < |ops|
      invariant i <= |ops| && device.Valid() && device.qubits == AppliedAll(old(device.qubits), ops[..i])
    {
      assert ops[..i + 1] == ops[..i] + [ops[i]] && ops[..i + 1][..i] == ops[..i];
      device.ApplyGate(ops[i]);
      i := i + 1;
    }
    assert ops[..i] == ops;
  }

  lemma RoutedOnTwo(adj: seq<seq<nat>>, s: State, ops: seq<Operation>, id: nat, g: LogicalGate)
    requires |s.occupied| == |adj| && Routed(adj, s, ops, id, g) && |g.qubits| == 2
    ensures TwoQubits(adj, ops)
  {
    FitsByQubit(adj, s, ops);
    forall i | 0 <= i < |ops|
      ensures OnDevice(adj, ops[i]) && |ops[i].qubits| == 2
    {
      assert Lasts(adj, ops[i]);
    }
  }

  /** What the traceback carries out: the gate and the swaps of both trees, sorted by start time. */
  function Traced(sort: Sorting, id: nat, g: LogicalGate, qs: seq<Qubit>, q0: nat, q1: nat, t0: nat, t1: nat, swapIds: bool): seq<Operation> {
    sort([MeetingGate(id, g, qs, q0, q1, swapIds)] + TraceFrom(qs, q0, t0) + TraceFrom(qs, q1, t1))
  }

  /** It routes the gate, however the sort treats equal times. */
  lemma TracedRoutes(adj: seq<seq<nat>>, sort: Sorting, id: nat, g: LogicalGate, qs: seq<Qubit>, q0: nat, q1: nat, t0: nat, t1: nat, swapIds: bool)
    requires QubitsOk(adj, qs) && Trees(adj, qs, t0, t1) && Meet(adj, qs, q0, q1) && t0 < |qs| && t1 < |qs| && |g.qubits| == 2
    requires g.qubits == if swapIds then [qs[t1].logical, qs[t0].logical] else [qs[t0].logical, qs[t1].logical]
    ensures var ops := Traced(sort, id, g, qs, q0, q1, t0, t1, swapIds);
            && TwoQubits(adj, ops) && QubitsOk(adj, AppliedAll(qs, ops)) && Routed(adj, SnapshotOf(qs), ops, id, g)
            && SnapshotOf(AppliedAll(qs, ops)) == AfterAll(SnapshotOf(qs), ops)
  {
    StateFits(adj, qs);
    hide Trees, Climb, Routed, FitsAll, AfterAll, IsCoupling, Permutation, SortedByStart, EarlySwaps, Operands, TwoQubits, TraceFrom, MeetingGate,
         QubitsOk, StateOk;
    var op, start := MeetingGate(id, g, qs, q0, q1, swapIds), SnapshotOf(qs);
    var list, ops := [op] + TraceFrom(qs, q0, t0) + TraceFrom(qs, q1, t1), Traced(sort, id, g, qs, q0, q1, t0, t1, swapIds);
    Sorted(sort, list);
    TreesSized(adj, qs, t0, t1);
    TraceIsClimb(adj, qs, t0, t1, q0);
    TraceIsClimb(adj, qs, t0, t1, q1);
    var a, b := Climb(adj, qs, t0, t1, q0), Climb(adj, qs, t0, t1, q1);
    GateMovesBack(op, a, b, TraceFrom(qs, q0, t0), TraceFrom(qs, q1, t1), ops);
    ClimbsMeet(adj, qs, t0, t1, q0, q1, start, id, g, swapIds);
    MeetingIsGate(id, g, qs, q0, q1, swapIds);
    SortedRoutes(adj, start, a + b, op, ops, id, g);
    RoutedOnTwo(adj, start, ops, id, g);
    AppliedAllIsAfter(adj, qs, ops);
  }

  lemma MeetingIsGate(id: nat, g: LogicalGate, qs: seq<Qubit>, q0: nat, q1: nat, swapIds: bool)
    ensures var op := MeetingGate(id, g, qs, q0, q1, swapIds); op.gate == Some(id) && op.swap == g.swap
  {
  }

  /** Sorts the swaps of both trees and the gate by start time and carries them out. */
  method Traceback(device: Device, sort: Sorting, id: nat, g: LogicalGate, q0: nat, q1: nat, t0: nat, t1: nat, swapIds: bool)
    returns (ops: seq<Operation>)
    requires device.Valid() && Trees(device.adj, device.qubits, t0, t1) && Meet(device.adj, device.qubits, q0, q1)
    requires t0 < |device.qubits| && t1 < |device.qubits| && |g.qubits| == 2
    requires g.qubits == if swapIds then [device.qubits[t1].logical, device.qubits[t0].logical] else [device.qubits[t0].logical, device.qubits[t1].logical]
    modifies device`qubits
    ensures device.Valid() && Routed(device.adj, old(device.Snapshot()), ops, id, g)
    ensures device.Snapshot() == AfterAll(old(device.Snapshot()), ops)
    ensures ops == Traced(sort, id, g, old(device.qubits), q0, q1, t0, t1, swapIds) && device.qubits == AppliedAll(old(device.qubits), ops)
  {
    hide Trees, Routed, AfterAll, TwoQubits, TraceFrom, QubitsOk;
    TracedRoutes(device.adj, sort, id, g, device.qubits, q0, q1, t0, t1, swapIds);
    var op := MeetingGate(id, g, device.qubits, q0, q1, swapIds);
    var list := TraceTree(device, [op], q0, t0, t0, t1);
    list := TraceTree(device, list, q1, t1, t0, t1);
    ops := sort(list);
    CarryOut(device, ops);
  }

  lemma StateFits(adj: seq<seq<nat>>, qs: seq<Qubit>)
    requires QubitsOk(adj, qs)
    ensures StateOk(SnapshotOf(qs), |adj|) && IsCoupling(adj)
    ensures TreeUntouched(SnapshotOf(qs), qs, false) && TreeUntouched(SnapshotOf(qs), qs, true)
    ensures forall q :: 0 <= q < |qs| ==> q < |SnapshotOf(qs).logical| && SnapshotOf(qs).logical[q] == qs[q].logical
  {
  }

  // ---------------------------------------------------------------- the whole route

  /** Whether the second operand goes first: it is free earlier, or at the same time and smaller. */
  predicate SecondFirst(minTie: bool, qs: seq<Qubit>, p0: nat, p1: nat) {
    || QubitAt(qs, p0).occupied > QubitAt(qs, p1).occupied
    || (QubitAt(qs, p0).occupied == QubitAt(qs, p1).occupied && minTie && QubitAt(qs, p0).logical > QubitAt(qs, p1).logical)
  }

  /** The gate routed with two growing trees. */
  function TreesRoute(adj: seq<seq<nat>>, minTie: bool, sort: Sorting, id: nat, g: LogicalGate, qs: seq<Qubit>, p0: nat, p1: nat): Outcome {
    var swapIds := SecondFirst(minTie, qs, p0, p1);
    var t0, t1 := if swapIds then p1 else p0, if swapIds then p0 else p1;
    var h := SearchAll(adj, qs, t0, t1);
    var ops := Traced(sort, id, g, h.qubits, h.q0, h.q1, t0, t1, swapIds);
    Outcome(ops, ReleasedAll(AppliedAll(h.qubits, ops)))
  }

  /** The function routes every gate on a connected device. */
  lemma TreesRoutes(adj: seq<seq<nat>>, minTie: bool, sort: Sorting, id: nat, g: LogicalGate, qs: seq<Qubit>, p0: nat, p1: nat)
    requires QubitsOk(adj, qs) && AtRest(qs) && Connected(adj) && p0 < |adj| && p1 < |adj| && p0 != p1
    requires g.qubits == [QubitAt(qs, p0).logical, QubitAt(qs, p1).logical]
    ensures var o := TreesRoute(adj, minTie, sort, id, g, qs, p0, p1);
            && QubitsOk(adj, o.qubits) && AtRest(o.qubits) && Routed(adj, SnapshotOf(qs), o.ops, id, g)
            && SnapshotOf(o.qubits) == AfterAll(SnapshotOf(qs), o.ops)
  {
    StateFits(adj, qs);
    QubitsSized(adj, qs);
    hide QubitsOk, AtRest, Connected, IsCoupling, StateOk, SearchAll, Trees, Meet, Routed, AfterAll, AppliedAll, Traced;
    var swapIds := SecondFirst(minTie, qs, p0, p1);
    var t0, t1 := if swapIds then p1 else p0, if swapIds then p0 else p1;
    SearchAllMeets(adj, qs, t0, t1);
    var h := SearchAll(adj, qs, t0, t1);
    SameQubits(adj, qs, h.qubits);
    TracedRoutes(adj, sort, id, g, h.qubits, h.q0, h.q1, t0, t1, swapIds);
    ReleasedKeeps(adj, AppliedAll(h.qubits, Traced(sort, id, g, h.qubits, h.q0, h.q1, t0, t1, swapIds)));
  }

  lemma SameQubits(adj: seq<seq<nat>>, qs: seq<Qubit>, qs': seq<Qubit>)
    requires QubitsOk(adj, qs) && SnapshotOf(qs') == SnapshotOf(qs)
    ensures QubitsOk(adj, qs') && |qs'| == |qs| && forall q :: 0 <= q < |qs| ==> qs'[q].logical == qs[q].logical
  {
    SameSize(qs', qs);
    forall q | 0 <= q < |qs|
      ensures qs'[q].logical == qs[q].logical
    {
      assert SnapshotOf(qs').logical[q] == SnapshotOf(qs).logical[q];
    }
  }

  /** Routes a two-qubit gate with two growing trees; the qubit that is free first has priority. */
  method RouteByTrees(device: Device, minTie: bool, sort: Sorting, id: nat, g: LogicalGate, p0: nat, p1: nat) returns (ops: seq<Operation>)
    requires device.Valid() && device.Rested() && Connected(device.adj) && p0 < |device.adj| && p1 < |device.adj| && p0 != p1
    requires g.qubits == [device.qubits[p0].logical, device.qubits[p1].logical]
    modifies device`qubits
    ensures device.Valid() && device.Rested() && Routed(device.adj, old(device.Snapshot()), ops, id, g)
    ensures device.Snapshot() == AfterAll(old(device.Snapshot()), ops)
    ensures Outcome(ops, device.qubits) == TreesRoute(device.adj, minTie, sort, id, g, old(device.qubits), p0, p1)
  {
    hide Trees, Meet, Routed, AfterAll, Connected, IsCoupling, SearchAll, Traced, AppliedAll, AtRest, QubitsOk;
    QubitsSized(device.adj, device.qubits);
    TreesRoutes(device.adj, minTie, sort, id, g, device.qubits, p0, p1);
    var t0, t1, swapIds := p0, p1, false;
    if device.qubits[p0].occupied > device.qubits[p1].occupied {
      t0, t1, swapIds := p1, p0, true;
    } else if device.qubits[p0].occupied == device.qubits[p1].occupied {
      if minTie && device.qubits[p0].logical > device.qubits[p1].logical {
        t0, t1, swapIds := p1, p0, true;
      }
    }
    ghost var before := device.qubits;
    var q0, q1; ghost var popped;
    q0, q1, popped := Search(device, t0, t1);
    SameQubits(device.adj, before, device.qubits);
    ops := Traceback(device, sort, id, g, q0, q1, t0, t1, swapIds);
    device.ResetAll();
  }
}
