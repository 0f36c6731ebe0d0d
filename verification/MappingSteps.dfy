/** Mapped circuits read as swaps and logical gates, and how such a reading goes on. */
module MappingSteps {
  import opened Collections
  import opened Topologies
  import opened Schedules
  import opened Routing
  import opened CircuitTopologies
  import opened CircuitOrders
  import opened Schedulers

  // ---------------------------------------------------------------- circuits

  datatype Kind = CX | Other(name: nat, arity: nat)

  function Arity(k: Kind): nat {
    match k
    case CX => 2
    case Other(_, arity) => arity
  }

  datatype Gate = Gate(kind: Kind, qubits: seq<nat>)

  /** The gates by id, and their ids in the order in which they are read. */
  datatype Program = Program(gates: seq<Gate>, order: seq<nat>)

  type Reading = p: Program | Enumerates(p.order, |p.gates|) witness Program([], [])

  /** The dependencies of a circuit, without the kinds of its gates. */
  function Shape(p: Reading): (c: Circuit)
    ensures |c.gates| == |p.gates| && c.order == p.order
    ensures forall g :: 0 <= g < |p.gates| ==> c.gates[g] == LogicalGate(false, p.gates[g].qubits)
  {
    Listing(seq(|p.gates|, g requires 0 <= g < |p.gates| => LogicalGate(false, p.gates[g].qubits)), p.order)
  }

  ghost predicate GatesOk(p: Reading, n: nat) {
    forall g :: 0 <= g < |p.gates| ==>
      && |p.gates[g].qubits| == Arity(p.gates[g].kind) >= 1 && (forall i :: 0 <= i < |p.gates[g].qubits| ==> p.gates[g].qubits[i] < n)
      && (|p.gates[g].qubits| == 2 ==> p.gates[g].qubits[0] != p.gates[g].qubits[1])
  }

  // ---------------------------------------------------------------- a reading of the mapped circuit

  /** Three physical gates read as a swap, or one read as a gate of the logical circuit. */
  datatype Step = SwapStep(i: nat, j: nat, k: nat) | GateStep(i: nat, id: nat)

  /** The physical gates of the steps, in order. */
  function PhysicalEvents(p: Reading, steps: seq<Step>): seq<Event> {
    if steps == [] then []
    else PhysicalEvents(p, steps[..|steps| - 1]) +
         match steps[|steps| - 1]
         case SwapStep(i, j, k) => if i < |p.gates| && j < |p.gates| && k < |p.gates| then [PhysicalEvent(p, i)] + [PhysicalEvent(p, j)] + [PhysicalEvent(p, k)] else []
         case GateStep(i, _) => if i < |p.gates| then [PhysicalEvent(p, i)] else []
  }

  function PhysicalEvent(p: Reading, i: nat): Event
    requires i < |p.gates|
  {
    Event(i, p.gates[i].qubits)
  }

  /** The placement after the steps. */
  function PlacedAfter(p: Reading, placement: seq<nat>, steps: seq<Step>): (r: seq<nat>)
    ensures |r| == |placement|
  {
    if steps == [] then placement
    else
      var before := PlacedAfter(p, placement, steps[..|steps| - 1]);
      match steps[|steps| - 1]
      case SwapStep(i, _, _) =>
        if i < |p.gates| && |p.gates[i].qubits| == 2 && p.gates[i].qubits[0] < |before| && p.gates[i].qubits[1] < |before|
        then Exchange(before, p.gates[i].qubits[0], p.gates[i].qubits[1]) else before
      case GateStep(_, _) => before
  }

  /** The logical gates of the steps, each with the logical qubits on which it is carried out. */
  function LogicalEvents(p: Reading, placement: seq<nat>, steps: seq<Step>): seq<Event> {
    if steps == [] then []
    else LogicalEvents(p, placement, steps[..|steps| - 1]) +
         match steps[|steps| - 1]
         case SwapStep(_, _, _) => []
         case GateStep(i, id) => if i < |p.gates| then [Event(id, Held(PlacedAfter(p, placement, steps[..|steps| - 1]), p.gates[i].qubits))] else []
  }

  /** The logical qubits on the given physical ones. */
  function Held(placement: seq<nat>, qubits: seq<nat>): (r: seq<nat>)
    ensures |r| == |qubits|
  {
    seq(|qubits|, i requires 0 <= i < |qubits| => if qubits[i] < |placement| then placement[qubits[i]] else 0)
  }

  /** A swap is three alternating CX gates on a coupled pair; a gate is of the same kind as the logical
      one, on its operands, and on a coupled pair if it has two. */
  ghost predicate StepOk(p: Reading, l: Reading, adj: seq<seq<nat>>, placement: seq<nat>, step: Step) {
    match step
    case SwapStep(i, j, k) =>
      && i < |p.gates| && j < |p.gates| && k < |p.gates| && p.gates[i].kind == p.gates[j].kind == p.gates[k].kind == CX
      && |p.gates[i].qubits| == |p.gates[j].qubits| == |p.gates[k].qubits| == 2
      && p.gates[j].qubits == [p.gates[i].qubits[1], p.gates[i].qubits[0]] && p.gates[k].qubits == p.gates[i].qubits
      && Coupled(adj, p.gates[i].qubits[0], p.gates[i].qubits[1])
    case GateStep(i, id) =>
      && i < |p.gates| && id < |l.gates| && p.gates[i].kind == l.gates[id].kind
      && Held(placement, p.gates[i].qubits) == l.gates[id].qubits && 1 <= |p.gates[i].qubits| <= 2
      && (|p.gates[i].qubits| == 2 ==> Coupled(adj, p.gates[i].qubits[0], p.gates[i].qubits[1]))
  }

  ghost predicate StepsOk(p: Reading, l: Reading, adj: seq<seq<nat>>, placement: seq<nat>, steps: seq<Step>) {
    forall t :: 0 <= t < |steps| ==>
      StepOk(p, l, adj, PlacedAfter(p, placement, steps[..t]), steps[t]) && Distinct(PlacedAfter(p, placement, steps[..t]))
  }

  lemma OneMoreStep(p: Reading, l: Reading, adj: seq<seq<nat>>, placement: seq<nat>, steps: seq<Step>, step: Step)
    requires StepsOk(p, l, adj, placement, steps)
    requires StepOk(p, l, adj, PlacedAfter(p, placement, steps), step) && Distinct(PlacedAfter(p, placement, steps))
    ensures StepsOk(p, l, adj, placement, steps + [step])
  {
    var more := steps + [step];
    forall t | 0 <= t < |more|
      ensures StepOk(p, l, adj, PlacedAfter(p, placement, more[..t]), more[t]) && Distinct(PlacedAfter(p, placement, more[..t]))
    {
      if t < |steps| {
        assert more[..t] == steps[..t];
      } else {
        assert more[..t] == steps;
      }
    }
  }

  // ---------------------------------------------------------------- the next gate of a logical qubit

  /** The first gate on the qubit that has not been read yet. */
  ghost predicate NextOn(c: Circuit, done: set<nat>, q: nat, next: Option<nat>) {
    && (next.None? ==> forall h: nat :: Uses(c, h, q) ==> h in done)
    && (next.Some? ==> Uses(c, next.value, q) && next.value !in done
                       && forall h: nat :: Uses(c, h, q) && Place(c, h) < Place(c, next.value) ==> h in done)
  }

  /** A gate that is next on all its qubits is ready. */
  lemma NextIsReady(c: Circuit, done: set<nat>, g: nat)
    requires g < |c.gates| && c.gates[g].qubits != [] && forall i :: 0 <= i < |c.gates[g].qubits| ==> NextOn(c, done, c.gates[g].qubits[i], Some(g))
    ensures Ready(c, g, done)
  {
    assert NextOn(c, done, c.gates[g].qubits[0], Some(g));
    forall pin: nat | pin < |c.gates[g].qubits| && Pred(c, g, pin).Some?
      ensures Pred(c, g, pin).value in done
    {
      assert NextOn(c, done, c.gates[g].qubits[pin], Some(g));
    }
  }

  lemma NextMoves(c: Circuit, done: set<nat>, g: nat, q: nat, next: Option<nat>)
    requires Closed(c, done) && g < |c.gates| && g !in done && NextOn(c, done, q, next) && (Uses(c, g, q) ==> next == Some(g))
    ensures NextOn(c, done + {g}, q, if Uses(c, g, q) then Next(c, g, q) else next)
  {
    if Uses(c, g, q) {
      var h := Next(c, g, q);
      if h.Some? {
        ClosedIsPrefix(c, done, g, h.value, q);
      }
    }
  }

  // ---------------------------------------------------------------- readings

  ghost predicate Follows(p: Reading, i: nat, j: nat) {
    && i < |p.gates| && j < |p.gates| && p.gates[j].kind == CX && |p.gates[i].qubits| == |p.gates[j].qubits| == 2
    && p.gates[j].qubits == [p.gates[i].qubits[1], p.gates[i].qubits[0]] && Succ(Shape(p), i, 0) == Some(j) && Succ(Shape(p), i, 1) == Some(j)
  }

  /** i, j and k follow each other directly on both their qubits, as CX gates in alternating direction. */
  ghost predicate IsTriple(p: Reading, i: nat, j: nat, k: nat) {
    i < |p.gates| && p.gates[i].kind == CX && Follows(p, i, j) && Follows(p, j, k)
  }

  ghost predicate StartsTriple(p: Reading, i: nat) {
    exists j: nat, k: nat :: IsTriple(p, i, j, k)
  }

  /** The physical gates that the steps have read. */
  function ReadBy(steps: seq<Step>): set<nat> {
    if steps == [] then {}
    else
      var s := steps[|steps| - 1];
      ReadBy(steps[..|steps| - 1]) + if s.SwapStep? then {s.i} + {s.j} + {s.k} else {s.i}
  }

  /** The logical gates that they stand for. */
  function DoneBy(steps: seq<Step>): set<nat> {
    if steps == [] then {}
    else
      var s := steps[|steps| - 1];
      DoneBy(steps[..|steps| - 1]) + if s.GateStep? then {s.id} else {}
  }

  /** The next gate of the list that has not been read. */
  ghost predicate FirstListed(p: Reading, read: set<nat>, i: nat) {
    i < |p.gates| && i !in read && forall h: nat :: h < |p.gates| && Place(Shape(p), h) < Place(Shape(p), i) ==> h in read
  }

  /** A step reads the next gate of the list: with the two that follow it directly as a swap, or as a gate of
      the logical circuit all of whose predecessors are done. */
  ghost predicate StepReads(p: Reading, l: Reading, adj: seq<seq<nat>>, placement: seq<nat>, read: set<nat>, done: set<nat>, step: Step) {
    && FirstListed(p, read, step.i) && StepOk(p, l, adj, placement, step)
    && match step
       case SwapStep(i, j, k) => IsTriple(p, i, j, k)
       case GateStep(i, id) => Ready(Shape(l), id, done)
  }

  /** A CX of the logical circuit is waiting for just these two logical qubits. */
  ghost predicate Waiting(l: Reading, done: set<nat>, a: nat, b: nat) {
    exists id: nat :: Ready(Shape(l), id, done) && WaitsFor(l, id, a, b)
  }

  ghost predicate WaitsFor(l: Reading, id: nat, a: nat, b: nat) {
    id < |l.gates| && l.gates[id].kind == CX && a in l.gates[id].qubits && b in l.gates[id].qubits
  }

  /** The swap is not on a pair whose logical qubits wait for one CX. */
  ghost predicate Unblocked(p: Reading, l: Reading, placement: seq<nat>, done: set<nat>, step: Step) {
    step.SwapStep? && step.i < |p.gates| && |p.gates[step.i].qubits| == 2 ==>
      var held := Held(placement, p.gates[step.i].qubits); !Waiting(l, done, held[0], held[1])
  }

  ghost predicate GoesOn(p: Reading, l: Reading, adj: seq<seq<nat>>, placement: seq<nat>, read: set<nat>, done: set<nat>, step: Step) {
    StepReads(p, l, adj, placement, read, done, step) && Unblocked(p, l, placement, done, step)
  }

  ghost predicate StepReadsAt(p: Reading, l: Reading, adj: seq<seq<nat>>, init: seq<nat>, steps: seq<Step>, t: nat)
    requires t < |steps|
  {
    StepReads(p, l, adj, PlacedAfter(p, init, steps[..t]), ReadBy(steps[..t]), DoneBy(steps[..t]), steps[t])
  }

  ghost predicate UnblockedAt(p: Reading, l: Reading, init: seq<nat>, steps: seq<Step>, t: nat)
    requires t < |steps|
  {
    Unblocked(p, l, PlacedAfter(p, init, steps[..t]), DoneBy(steps[..t]), steps[t])
  }

  /** The steps read the physical circuit from its beginning. */
  ghost predicate Reads(p: Reading, l: Reading, adj: seq<seq<nat>>, init: seq<nat>, steps: seq<Step>) {
    forall t: nat :: t < |steps| ==> StepReadsAt(p, l, adj, init, steps, t)
  }

  /** No swap among them is on a waiting pair. */
  ghost predicate NoneBlocked(p: Reading, l: Reading, init: seq<nat>, steps: seq<Step>) {
    forall t: nat :: t < |steps| ==> UnblockedAt(p, l, init, steps, t)
  }

  /** The whole physical circuit read as swaps and logical gates. */
  ghost predicate IsReading(p: Reading, l: Reading, adj: seq<seq<nat>>, init: seq<nat>, steps: seq<Step>) {
    Reads(p, l, adj, init, steps) && ReadBy(steps) == UpTo(|p.gates|)
  }

  ghost predicate IsOpenReading(p: Reading, l: Reading, adj: seq<seq<nat>>, init: seq<nat>, steps: seq<Step>) {
    IsReading(p, l, adj, init, steps) && NoneBlocked(p, l, init, steps)
  }

  lemma OneMoreRead(p: Reading, l: Reading, adj: seq<seq<nat>>, init: seq<nat>, steps: seq<Step>, step: Step)
    requires Reads(p, l, adj, init, steps) && NoneBlocked(p, l, init, steps)
    requires GoesOn(p, l, adj, PlacedAfter(p, init, steps), ReadBy(steps), DoneBy(steps), step)
    ensures Reads(p, l, adj, init, steps + [step]) && NoneBlocked(p, l, init, steps + [step])
  {
    hide StepReads, Unblocked, PlacedAfter, ReadBy, DoneBy;
    var more := steps + [step];
    forall t: nat | t < |more|
      ensures StepReadsAt(p, l, adj, init, more, t) && UnblockedAt(p, l, init, more, t)
    {
      if t < |steps| {
        assert more[..t] == steps[..t];
        assert StepReadsAt(p, l, adj, init, steps, t) && UnblockedAt(p, l, init, steps, t);
      } else {
        assert more[..t] == steps;
      }
    }
  }

  lemma ReadMore(steps: seq<Step>, step: Step)
    ensures ReadBy(steps + [step]) == ReadBy(steps) + if step.SwapStep? then {step.i} + {step.j} + {step.k} else {step.i}
    ensures DoneBy(steps + [step]) == DoneBy(steps) + if step.GateStep? then {step.id} else {}
  {
    assert (steps + [step])[..|steps|] == steps;
  }

  // ---------------------------------------------------------------- there is only one way to go on

  lemma SameFirst(p: Reading, read: set<nat>, i: nat, j: nat)
    requires FirstListed(p, read, i) && FirstListed(p, read, j)
    ensures i == j
  {
    if Place(Shape(p), i) == Place(Shape(p), j) {
      SamePlace(Shape(p), i, j);
    }
  }

  /** A ready gate is the next one on each of its qubits. */
  lemma ReadyIsNext(c: Circuit, done: set<nat>, g: nat, q: nat, next: Option<nat>)
    requires Closed(c, done) && Ready(c, g, done) && Uses(c, g, q) && NextOn(c, done, q, next)
    ensures next == Some(g)
  {
    ReadyNoMore(c, done, g);
    var h := next.value;
    if Place(c, h) < Place(c, g) {
      var pin :| 0 <= pin < |c.gates[g].qubits| && c.gates[g].qubits[pin] == q;
      var b := Pred(c, g, pin);
      assert b == Previous(c, g, q) && b.Some? && Place(c, b.value) >= Place(c, h);
      if Place(c, b.value) != Place(c, h) {
        ClosedIsPrefix(c, done, h, b.value, q);
      }
    } else if Place(c, h) == Place(c, g) {
      SamePlace(c, h, g);
    }
  }

  lemma ReadyOnQubit(c: Circuit, done: set<nat>, g: nat, h: nat, q: nat)
    requires Closed(c, done) && Ready(c, g, done) && Ready(c, h, done) && Uses(c, g, q) && Uses(c, h, q)
    ensures g == h
  {
    ReadyNoMore(c, done, g);
    ReadyNoMore(c, done, h);
    if Place(c, g) == Place(c, h) {
      SamePlace(c, g, h);
    } else {
      var (a, b) := if Place(c, g) < Place(c, h) then (g, h) else (h, g);
      var pin :| 0 <= pin < |c.gates[b].qubits| && c.gates[b].qubits[pin] == q;
      var f := Pred(c, b, pin);
      assert f == Previous(c, b, q) && f.Some? && Place(c, f.value) >= Place(c, a);
      if Place(c, f.value) != Place(c, a) {
        ClosedIsPrefix(c, done, a, f.value, q);
      }
    }
  }

  /** Two logical qubits wait for one CX exactly when that is the next gate of both. */
  lemma WaitingByNext(l: Reading, n: nat, done: set<nat>, next: seq<Option<nat>>, a: nat, b: nat)
    requires GatesOk(l, n) && Closed(Shape(l), done) && (forall q: nat :: q < |next| ==> NextOn(Shape(l), done, q, next[q]))
    requires a < |next| && b < |next| && a != b
    ensures Waiting(l, done, a, b) <==> next[a] == next[b] && next[a].Some? && next[a].value < |l.gates| && l.gates[next[a].value].kind == CX
  {
    var c := Shape(l);
    assert NextOn(c, done, a, next[a]) && NextOn(c, done, b, next[b]);
    if Waiting(l, done, a, b) {
      var id: nat :| Ready(c, id, done) && WaitsFor(l, id, a, b);
      ReadyIsNext(c, done, id, a, next[a]);
      ReadyIsNext(c, done, id, b, next[b]);
    }
    if next[a] == next[b] && next[a].Some? && next[a].value < |l.gates| && l.gates[next[a].value].kind == CX {
      var id := next[a].value;
      assert Uses(c, id, a) && Uses(c, id, b) && |l.gates[id].qubits| == 2;
      forall i | 0 <= i < |c.gates[id].qubits|
        ensures NextOn(c, done, c.gates[id].qubits[i], Some(id))
      {
        assert c.gates[id].qubits[i] == a || c.gates[id].qubits[i] == b;
      }
      NextIsReady(c, done, id);
      assert WaitsFor(l, id, a, b);
    }
  }

  lemma SameFollower(p: Reading, i: nat, j: nat, k: nat)
    requires Follows(p, i, j) && Follows(p, i, k)
    ensures j == k
  {
  }

  /** A gate step on a CX means that the logical qubits wait for it. */
  lemma GateWaits(p: Reading, l: Reading, adj: seq<seq<nat>>, placement: seq<nat>, read: set<nat>, done: set<nat>, i: nat, id: nat)
    requires StepReads(p, l, adj, placement, read, done, GateStep(i, id)) && p.gates[i].kind == CX && |p.gates[i].qubits| == 2
    ensures var held := Held(placement, p.gates[i].qubits); Waiting(l, done, held[0], held[1])
  {
    var held := Held(placement, p.gates[i].qubits);
    assert held[0] in held && held[1] in held;
    assert WaitsFor(l, id, held[0], held[1]);
  }

  lemma GoesOnOneWay(p: Reading, l: Reading, adj: seq<seq<nat>>, placement: seq<nat>, read: set<nat>, done: set<nat>, a: Step, b: Step)
    requires Closed(Shape(l), done) && GoesOn(p, l, adj, placement, read, done, a) && GoesOn(p, l, adj, placement, read, done, b)
    ensures a == b
  {
    SameFirst(p, read, a.i, b.i);
    if a.SwapStep? && b.SwapStep? {
      SameFollower(p, a.i, a.j, b.j);
      SameFollower(p, a.j, a.k, b.k);
    } else if a.GateStep? && b.GateStep? {
      var q := Held(placement, p.gates[a.i].qubits)[0];
      assert Uses(Shape(l), a.id, q) && Uses(Shape(l), b.id, q);
      ReadyOnQubit(Shape(l), done, a.id, b.id, q);
    } else if a.SwapStep? {
      GateWaits(p, l, adj, placement, read, done, b.i, b.id);
    } else {
      GateWaits(p, l, adj, placement, read, done, a.i, a.id);
    }
  }

  /** Nothing goes on when the gate can be read neither as the start of a swap nor as a gate. */
  lemma NothingGoesOn(p: Reading, l: Reading, adj: seq<seq<nat>>, placement: seq<nat>, read: set<nat>, done: set<nat>, i: nat)
    requires FirstListed(p, read, i)
    requires forall j: nat, k: nat :: !GoesOn(p, l, adj, placement, read, done, SwapStep(i, j, k))
    requires forall id: nat :: !GoesOn(p, l, adj, placement, read, done, GateStep(i, id))
    ensures forall step :: !GoesOn(p, l, adj, placement, read, done, step)
  {
    forall step | GoesOn(p, l, adj, placement, read, done, step)
      ensures false
    {
      SameFirst(p, read, i, step.i);
    }
  }

  /** Where a triple starts that nothing waits for, only the swap can be read. */
  lemma OnlySwap(p: Reading, l: Reading, adj: seq<seq<nat>>, placement: seq<nat>, read: set<nat>, done: set<nat>, i: nat, j: nat, k: nat)
    requires FirstListed(p, read, i) && IsTriple(p, i, j, k) && |p.gates[i].qubits| == 2
    requires var held := Held(placement, p.gates[i].qubits); !Waiting(l, done, held[0], held[1])
    ensures Coupled(adj, p.gates[i].qubits[0], p.gates[i].qubits[1]) ==> GoesOn(p, l, adj, placement, read, done, SwapStep(i, j, k))
    ensures !Coupled(adj, p.gates[i].qubits[0], p.gates[i].qubits[1]) ==> forall step :: !GoesOn(p, l, adj, placement, read, done, step)
  {
    if !Coupled(adj, p.gates[i].qubits[0], p.gates[i].qubits[1]) {
      forall id: nat | GoesOn(p, l, adj, placement, read, done, GateStep(i, id))
        ensures false
      {
        GateWaits(p, l, adj, placement, read, done, i, id);
      }
      NothingGoesOn(p, l, adj, placement, read, done, i);
    }
  }

  /** The gate is next on all operands, of the same kind, on them in order, and on a coupled pair if there are two. */
  ghost predicate Matched(p: Reading, l: Reading, adj: seq<seq<nat>>, placement: seq<nat>, next: seq<Option<nat>>, i: nat, id: nat) {
    && i < |p.gates| && id < |l.gates| && l.gates[id].kind == p.gates[i].kind && 1 <= |p.gates[i].qubits| <= 2
    && Held(placement, p.gates[i].qubits) == l.gates[id].qubits
    && (forall t :: 0 <= t < |l.gates[id].qubits| ==> l.gates[id].qubits[t] < |next| && next[l.gates[id].qubits[t]] == Some(id))
    && (|p.gates[i].qubits| == 2 ==> Coupled(adj, p.gates[i].qubits[0], p.gates[i].qubits[1]))
  }

  lemma MatchedGoesOn(p: Reading, l: Reading, adj: seq<seq<nat>>, placement: seq<nat>, read: set<nat>, done: set<nat>, next: seq<Option<nat>>, i: nat, id: nat)
    requires FirstListed(p, read, i) && (forall q: nat :: q < |next| ==> NextOn(Shape(l), done, q, next[q]))
    requires Matched(p, l, adj, placement, next, i, id)
    ensures GoesOn(p, l, adj, placement, read, done, GateStep(i, id))
  {
    NextIsReady(Shape(l), done, id);
  }

  /** Where no swap can be read and no gate matches, nothing goes on. */
  lemma UnmatchedStops(p: Reading, l: Reading, adj: seq<seq<nat>>, placement: seq<nat>, read: set<nat>, done: set<nat>, next: seq<Option<nat>>, i: nat)
    requires FirstListed(p, read, i) && Closed(Shape(l), done) && (forall q: nat :: q < |next| ==> NextOn(Shape(l), done, q, next[q]))
    requires forall q :: q in Held(placement, p.gates[i].qubits) ==> q < |next|
    requires StartsTriple(p, i) && |p.gates[i].qubits| == 2 ==>
               var held := Held(placement, p.gates[i].qubits); Waiting(l, done, held[0], held[1])
    requires forall id: nat :: !Matched(p, l, adj, placement, next, i, id)
    ensures forall step :: !GoesOn(p, l, adj, placement, read, done, step)
  {
    forall j: nat, k: nat | GoesOn(p, l, adj, placement, read, done, SwapStep(i, j, k))
      ensures false
    {
      assert StartsTriple(p, i);
    }
    forall id: nat | GoesOn(p, l, adj, placement, read, done, GateStep(i, id))
      ensures false
    {
      forall t | 0 <= t < |l.gates[id].qubits|
        ensures l.gates[id].qubits[t] < |next| && next[l.gates[id].qubits[t]] == Some(id)
      {
        var q := l.gates[id].qubits[t];
        assert q in Held(placement, p.gates[i].qubits) && Uses(Shape(l), id, q);
        ReadyIsNext(Shape(l), done, id, q, next[q]);
      }
      assert Matched(p, l, adj, placement, next, i, id);
    }
    NothingGoesOn(p, l, adj, placement, read, done, i);
  }

  lemma ManyQubits(p: Reading, l: Reading, adj: seq<seq<nat>>, placement: seq<nat>, read: set<nat>, done: set<nat>, i: nat)
    requires FirstListed(p, read, i) && |p.gates[i].qubits| > 2
    ensures forall step :: !GoesOn(p, l, adj, placement, read, done, step)
  {
    NothingGoesOn(p, l, adj, placement, read, done, i);
  }

  /** The steps so far are how every open reading begins. */
  ghost predicate BeginsAll(p: Reading, l: Reading, adj: seq<seq<nat>>, init: seq<nat>, steps: seq<Step>) {
    forall full :: IsOpenReading(p, l, adj, init, full) ==> steps <= full
  }

  lemma Incomplete(p: Reading, l: Reading, adj: seq<seq<nat>>, init: seq<nat>, steps: seq<Step>, full: seq<Step>, i: nat)
    requires IsReading(p, l, adj, init, full) && steps <= full && i < |p.gates| && i !in ReadBy(steps)
    ensures |steps| < |full|
  {
    hide Reads, ReadBy;
    assert i in ReadBy(full);
    assert steps != full;
  }

  lemma NextOfFull(p: Reading, l: Reading, adj: seq<seq<nat>>, init: seq<nat>, steps: seq<Step>, full: seq<Step>, i: nat)
    requires IsOpenReading(p, l, adj, init, full) && steps <= full && i < |p.gates| && i !in ReadBy(steps)
    ensures |steps| < |full| && GoesOn(p, l, adj, PlacedAfter(p, init, steps), ReadBy(steps), DoneBy(steps), full[|steps|])
  {
    hide StepReads, Unblocked, PlacedAfter, ReadBy, DoneBy;
    Incomplete(p, l, adj, init, steps, full, i);
    assert full[..|steps|] == steps;
    assert StepReadsAt(p, l, adj, init, full, |steps|) && UnblockedAt(p, l, init, full, |steps|);
  }

  lemma BeginsMore(p: Reading, l: Reading, adj: seq<seq<nat>>, init: seq<nat>, steps: seq<Step>, step: Step)
    requires BeginsAll(p, l, adj, init, steps) && Closed(Shape(l), DoneBy(steps))
    requires GoesOn(p, l, adj, PlacedAfter(p, init, steps), ReadBy(steps), DoneBy(steps), step)
    ensures BeginsAll(p, l, adj, init, steps + [step])
  {
    hide IsOpenReading, PlacedAfter, ReadBy, DoneBy;
    forall full | IsOpenReading(p, l, adj, init, full)
      ensures steps + [step] <= full
    {
      NextOfFull(p, l, adj, init, steps, full, step.i);
      hide GoesOn, Closed;
      GoesOnOneWay(p, l, adj, PlacedAfter(p, init, steps), ReadBy(steps), DoneBy(steps), step, full[|steps|]);
    }
  }

  /** Where no step goes on there is no open reading. */
  lemma NoReading(p: Reading, l: Reading, adj: seq<seq<nat>>, init: seq<nat>, steps: seq<Step>, i: nat)
    requires BeginsAll(p, l, adj, init, steps) && i < |p.gates| && i !in ReadBy(steps)
    requires forall step :: !GoesOn(p, l, adj, PlacedAfter(p, init, steps), ReadBy(steps), DoneBy(steps), step)
    ensures !exists full :: IsOpenReading(p, l, adj, init, full)
  {
    hide IsOpenReading, PlacedAfter, ReadBy, DoneBy, GoesOn;
    forall full | IsOpenReading(p, l, adj, init, full)
      ensures false
    {
      NextOfFull(p, l, adj, init, steps, full, i);
    }
  }

  /** What has been read is the beginning of every open reading. */
  ghost predicate OnTheWay(p: Reading, l: Reading, adj: seq<seq<nat>>, init: seq<nat>, placement: seq<nat>, steps: seq<Step>,
                           read: set<nat>, done: set<nat>) {
    && Reads(p, l, adj, init, steps) && NoneBlocked(p, l, init, steps) && BeginsAll(p, l, adj, init, steps)
    && placement == PlacedAfter(p, init, steps) && read == ReadBy(steps) && done == DoneBy(steps)
  }

  lemma WayStarts(p: Reading, l: Reading, adj: seq<seq<nat>>, init: seq<nat>)
    ensures OnTheWay(p, l, adj, init, init, [], {}, {})
  {
  }

  lemma GateOnTheWay(p: Reading, l: Reading, adj: seq<seq<nat>>, init: seq<nat>, placement: seq<nat>, steps: seq<Step>,
                     read: set<nat>, done: set<nat>, i: nat, id: nat)
    requires OnTheWay(p, l, adj, init, placement, steps, read, done) && Closed(Shape(l), done)
    requires GoesOn(p, l, adj, placement, read, done, GateStep(i, id))
    ensures OnTheWay(p, l, adj, init, placement, steps + [GateStep(i, id)], read + {i}, done + {id})
  {
    hide Reads, NoneBlocked, BeginsAll, GoesOn, Closed;
    OneMoreRead(p, l, adj, init, steps, GateStep(i, id));
    BeginsMore(p, l, adj, init, steps, GateStep(i, id));
    ReadMore(steps, GateStep(i, id));
    assert (steps + [GateStep(i, id)])[..|steps|] == steps;
  }

  lemma SwapOnTheWay(p: Reading, l: Reading, adj: seq<seq<nat>>, init: seq<nat>, placement: seq<nat>, steps: seq<Step>,
                     read: set<nat>, done: set<nat>, i: nat, j: nat, k: nat)
    requires OnTheWay(p, l, adj, init, placement, steps, read, done) && Closed(Shape(l), done)
    requires GoesOn(p, l, adj, placement, read, done, SwapStep(i, j, k)) && i < |p.gates| && |p.gates[i].qubits| == 2
    requires p.gates[i].qubits[0] < |placement| && p.gates[i].qubits[1] < |placement|
    ensures OnTheWay(p, l, adj, init, Exchange(placement, p.gates[i].qubits[0], p.gates[i].qubits[1]), steps + [SwapStep(i, j, k)],
                     read + {i} + {j} + {k}, done)
  {
    hide Reads, NoneBlocked, BeginsAll, GoesOn, Closed;
    OneMoreRead(p, l, adj, init, steps, SwapStep(i, j, k));
    BeginsMore(p, l, adj, init, steps, SwapStep(i, j, k));
    ReadMore(steps, SwapStep(i, j, k));
    assert (steps + [SwapStep(i, j, k)])[..|steps|] == steps;
  }

  lemma WayEnds(p: Reading, l: Reading, adj: seq<seq<nat>>, init: seq<nat>, placement: seq<nat>, steps: seq<Step>, read: set<nat>, done: set<nat>)
    requires OnTheWay(p, l, adj, init, placement, steps, read, done) && read == UpTo(|p.gates|)
    ensures IsOpenReading(p, l, adj, init, steps) && done == DoneBy(steps)
  {
  }

  lemma WayStops(p: Reading, l: Reading, adj: seq<seq<nat>>, init: seq<nat>, placement: seq<nat>, steps: seq<Step>, read: set<nat>, done: set<nat>, i: nat)
    requires OnTheWay(p, l, adj, init, placement, steps, read, done) && i < |p.gates| && i !in read
    requires forall step :: !GoesOn(p, l, adj, placement, read, done, step)
    ensures !exists full :: IsOpenReading(p, l, adj, init, full)
  {
    hide Reads, NoneBlocked, BeginsAll, GoesOn, IsOpenReading;
    NoReading(p, l, adj, init, steps, i);
  }

  // ---------------------------------------------------------------- a mapped circuit that is refused

  function WaitingLogical(): Reading {
    Program([Gate(CX, [1, 0])], [0])
  }

  /** An inserted swap on two qubits, and then the only gate of the circuit on them. */
  function WaitingMapped(): Reading {
    Program([Gate(CX, [0, 1]), Gate(CX, [1, 0]), Gate(CX, [0, 1]), Gate(CX, [0, 1])], [0, 1, 2, 3])
  }

  lemma WaitingPlaces()
    ensures forall h: nat :: h < 4 ==> Place(Shape(WaitingMapped()), h) == h
  {
    var c := Shape(WaitingMapped());
    assert c.order == [0, 1, 2, 3];
    forall h: nat | h < 4
      ensures Place(c, h) == h
    {
      assert c.order[Place(c, h)] == h;
    }
  }

  lemma WaitingLinks()
    ensures var p := WaitingMapped(); IsTriple(p, 0, 1, 2)
  {
    var p := WaitingMapped();
    var c := Shape(p);
    WaitingPlaces();
    hide Place;
    forall g: nat, pin: nat | g < 2 && pin < 2
      ensures Succ(c, g, pin) == Some(g + 1)
    {
      assert c.order[g + 1] == g + 1 && Uses(c, g + 1, c.gates[g].qubits[pin]);
    }
  }

  /** It is a reading of the circuit, but the swap is on a pair that waits, and the checker refuses it. */
  lemma WaitingSwapRefused()
    ensures var (p, l, adj) := (WaitingMapped(), WaitingLogical(), [[1], [0]]);
            && GatesOk(p, 2) && GatesOk(l, 2) && IsReading(p, l, adj, [0, 1], [SwapStep(0, 1, 2), GateStep(3, 0)])
            && !exists full :: IsOpenReading(p, l, adj, [0, 1], full)
  {
    var p, l, adj, init := WaitingMapped(), WaitingLogical(), [[1], [0]], [0, 1];
    WaitingReads();
    NothingDone();
    forall full
      ensures !IsOpenReading(p, l, adj, init, full)
    {
      if IsReading(p, l, adj, init, full) {
        FirstStepWaits(full);
      }
    }
  }

  lemma NothingDone()
    ensures Ready(Shape(WaitingLogical()), 0, {}) && Waiting(WaitingLogical(), {}, 0, 1)
  {
    var c := Shape(WaitingLogical());
    assert Place(c, 0) == 0;
    assert Ready(c, 0, {});
    assert WaitsFor(WaitingLogical(), 0, 0, 1);
  }

  lemma WaitingFirst()
    ensures StepReads(WaitingMapped(), WaitingLogical(), [[1], [0]], [0, 1], {}, {}, SwapStep(0, 1, 2))
  {
    WaitingPlaces();
    WaitingLinks();
    hide Place, Follows, Shape;
  }

  lemma WaitingSecond()
    ensures StepReads(WaitingMapped(), WaitingLogical(), [[1], [0]], [1, 0], {0, 1, 2}, {}, GateStep(3, 0))
  {
    WaitingPlaces();
    NothingDone();
    hide Place, Shape, Ready;
    assert Held([1, 0], [0, 1]) == [1, 0];
  }

  lemma WaitingState()
    ensures var (a, b) := (SwapStep(0, 1, 2), GateStep(3, 0));
            && PlacedAfter(WaitingMapped(), [0, 1], [a]) == [1, 0] && ReadBy([a]) == {0, 1, 2} && DoneBy([a]) == {}
            && ReadBy([a, b]) == {0, 1, 2, 3}
  {
    var a, b := SwapStep(0, 1, 2), GateStep(3, 0);
    assert [a][..0] == [] && [a, b][..1] == [a];
  }

  lemma WaitingReads()
    ensures IsReading(WaitingMapped(), WaitingLogical(), [[1], [0]], [0, 1], [SwapStep(0, 1, 2), GateStep(3, 0)])
  {
    hide StepReads, PlacedAfter, ReadBy, DoneBy, WaitingMapped, WaitingLogical;
    var p, l, adj, init := WaitingMapped(), WaitingLogical(), [[1], [0]], [0, 1];
    var steps := [SwapStep(0, 1, 2), GateStep(3, 0)];
    WaitingFirst();
    WaitingSecond();
    WaitingState();
    Untouched(p, init);
    assert steps[..0] == [] && steps[..1] == [steps[0]];
    assert StepReadsAt(p, l, adj, init, steps, 0);
    assert StepReadsAt(p, l, adj, init, steps, 1);
    FourGates();
  }

  lemma Untouched(p: Reading, init: seq<nat>)
    ensures PlacedAfter(p, init, []) == init && ReadBy([]) == {} && DoneBy([]) == {}
  {
  }

  lemma FourGates()
    ensures |WaitingMapped().gates| == 4 && UpTo(4) == {0, 1, 2, 3}
  {
  }

  /** However the reading starts, its first gate would have to be a swap. */
  lemma FirstStepWaits(full: seq<Step>)
    requires IsReading(WaitingMapped(), WaitingLogical(), [[1], [0]], [0, 1], full)
    ensures full != [] && !UnblockedAt(WaitingMapped(), WaitingLogical(), [0, 1], full, 0)
  {
    var p, l, adj, init := WaitingMapped(), WaitingLogical(), [[1], [0]], [0, 1];
    FourGates();
    Untouched(p, init);
    WaitingPlaces();
    NothingDone();
    assert full != [] && full[..0] == [];
    hide Place, Waiting, Ready, IsTriple, PlacedAfter, ReadBy, DoneBy;
    assert StepReadsAt(p, l, adj, init, full, 0);
    SameFirst(p, {}, 0, full[0].i);
    FirstIsSwap(full[0]);
  }

  lemma FirstIsSwap(step: Step)
    requires StepReads(WaitingMapped(), WaitingLogical(), [[1], [0]], [0, 1], {}, {}, step) && step.i == 0
    ensures step.SwapStep? && Held([0, 1], WaitingMapped().gates[0].qubits) == [0, 1]
  {
    hide Ready, IsTriple, FirstListed;
    assert WaitingMapped().gates[0].qubits == [0, 1] && Held([0, 1], [0, 1]) == [0, 1];
    assert WaitingLogical().gates[0].qubits == [1, 0] && [1, 0][0] == 1 && [0, 1][0] == 0;
  }
}
