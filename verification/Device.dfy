/** The device as the router sees it: physical qubits with times, logical qubits and search marks. */
module Devices {
  import opened Collections
  import opened Topologies
  import opened Schedules

  datatype Qubit = Qubit(logical: nat, occupied: nat, cost: nat, marked: bool, taken: bool, source: bool, pred: nat, swapTime: nat)

  // ---------------------------------------------------------------- the qubits as values

  /** Times and logical qubits, without the marks of the search. */
  function SnapshotOf(qs: seq<Qubit>): (s: State)
    ensures |s.occupied| == |s.logical| == |qs|
  {
    State(seq(|qs|, q requires 0 <= q < |qs| => qs[q].occupied), seq(|qs|, q requires 0 <= q < |qs| => qs[q].logical))
  }

  ghost predicate QubitsOk(adj: seq<seq<nat>>, qs: seq<Qubit>) {
    |qs| == |adj| && IsCoupling(adj) && StateOk(SnapshotOf(qs), |adj|)
  }

  /** The qubit with this number; one that the device does not have is idle. */
  function QubitAt(qs: seq<Qubit>, q: nat): Qubit {
    if q < |qs| then qs[q] else Qubit(0, 0, 0, false, false, false, 0, 0)
  }

  function Changed(qs: seq<Qubit>, q: nat, x: Qubit): (r: seq<Qubit>)
    ensures |r| == |qs|
  {
    if q < |qs| then qs[q := x] else qs
  }

  /** The qubits after a two-qubit operation. */
  function Applied(qs: seq<Qubit>, op: Operation): (r: seq<Qubit>)
    ensures |r| == |qs|
  {
    if |op.qubits| != 2 then qs
    else
      var (a, b) := (op.qubits[0], op.qubits[1]);
      var moved := if op.swap then Changed(qs, a, QubitAt(qs, a).(logical := QubitAt(qs, b).logical)) else qs;
      var held := if op.swap then Changed(moved, b, QubitAt(moved, b).(logical := QubitAt(qs, a).logical)) else qs;
      var one := Changed(held, a, QubitAt(held, a).(occupied := op.end));
      Changed(one, b, QubitAt(one, b).(occupied := op.end))
  }

  function AppliedAll(qs: seq<Qubit>, ops: seq<Operation>): (r: seq<Qubit>)
    ensures |r| == |qs|
  {
    if ops == [] then qs else Applied(AppliedAll(qs, ops[..|ops| - 1]), ops[|ops| - 1])
  }

  function Released(x: Qubit): Qubit {
    x.(marked := false, taken := false, cost := x.occupied)
  }

  /** The qubits after a one-qubit operation on q. */
  function AppliedSingle(qs: seq<Qubit>, q: nat, end: nat): (r: seq<Qubit>)
    ensures |r| == |qs|
  {
    Changed(qs, q, Released(QubitAt(qs, q).(occupied := end)))
  }

  /** The qubits after a search has been forgotten. */
  function ReleasedAll(qs: seq<Qubit>): (r: seq<Qubit>)
    ensures |r| == |qs|
  {
    seq(|qs|, q requires 0 <= q < |qs| => Released(qs[q]))
  }

  /** No search is under way. */
  ghost predicate AtRest(qs: seq<Qubit>) {
    forall q :: 0 <= q < |qs| ==> !qs[q].marked && !qs[q].taken && qs[q].cost == qs[q].occupied
  }

  lemma AppliedIsAfter(adj: seq<seq<nat>>, qs: seq<Qubit>, op: Operation)
    requires QubitsOk(adj, qs) && OnDevice(adj, op) && |op.qubits| == 2
    ensures QubitsOk(adj, Applied(qs, op)) && SnapshotOf(Applied(qs, op)) == After(SnapshotOf(qs), op)
    ensures forall q :: 0 <= q < |qs| ==> SameMarks(Applied(qs, op)[q], qs[q])
  {
    assert SnapshotOf(Applied(qs, op)).occupied == After(SnapshotOf(qs), op).occupied;
    assert SnapshotOf(Applied(qs, op)).logical == After(SnapshotOf(qs), op).logical;
    AfterKeepsState(adj, SnapshotOf(qs), op);
  }

  lemma SingleIsAfter(adj: seq<seq<nat>>, qs: seq<Qubit>, op: Operation)
    requires QubitsOk(adj, qs) && OnDevice(adj, op) && |op.qubits| == 1
    ensures var qs' := AppliedSingle(qs, op.qubits[0], op.end);
            QubitsOk(adj, qs') && SnapshotOf(qs') == After(SnapshotOf(qs), op) && (AtRest(qs) ==> AtRest(qs'))
  {
    var qs' := AppliedSingle(qs, op.qubits[0], op.end);
    assert SnapshotOf(qs').occupied == After(SnapshotOf(qs), op).occupied;
    assert SnapshotOf(qs').logical == After(SnapshotOf(qs), op).logical;
    AfterKeepsState(adj, SnapshotOf(qs), op);
  }

  lemma ReleasedKeeps(adj: seq<seq<nat>>, qs: seq<Qubit>)
    requires QubitsOk(adj, qs)
    ensures QubitsOk(adj, ReleasedAll(qs)) && AtRest(ReleasedAll(qs)) && SnapshotOf(ReleasedAll(qs)) == SnapshotOf(qs)
  {
    assert SnapshotOf(ReleasedAll(qs)).occupied == SnapshotOf(qs).occupied;
    assert SnapshotOf(ReleasedAll(qs)).logical == SnapshotOf(qs).logical;
  }

  // ---------------------------------------------------------------- the device

  class Device {
    const adj: seq<seq<nat>>
    const topology: Topology
    var qubits: seq<Qubit>

    ghost predicate Valid()
      reads this
    {
      topology.adj == adj && QubitsOk(adj, qubits)
    }

    /** Times and logical qubits, without the marks of the search. */
    function Snapshot(): (s: State)
      reads this
      ensures |s.occupied| == |s.logical| == |qubits|
    {
      SnapshotOf(qubits)
    }

    /** A device without calculated paths and with the given placement. */
    constructor (adj: seq<seq<nat>>, placement: seq<nat>)
      requires IsCoupling(adj) && |placement| == |adj| && Distinct(placement) && forall q :: 0 <= q < |adj| ==> placement[q] < |adj|
      ensures Valid() && this.adj == adj && Rested() && fresh(topology)
      ensures Snapshot() == State(seq(|adj|, _ => 0), placement)
    {
      this.adj := adj;
      topology := new Topology(adj);
      qubits := seq(|placement|, q requires 0 <= q < |placement| => Qubit(placement[q], 0, 0, false, false, false, 0, 0));
      new;
      assert Snapshot().logical == placement && Snapshot().occupied == seq(|adj|, _ => 0);
    }

    /** No search is under way. */
    ghost predicate Rested()
      reads this
    {
      AtRest(qubits)
    }

    /** Applies a two-qubit operation: its end occupies the qubits, a swap exchanges what they hold. */
    method ApplyGate(op: Operation)
      requires Valid() && OnDevice(adj, op) && |op.qubits| == 2
      modifies `qubits
      ensures Valid() && Snapshot() == After(old(Snapshot()), op)
      ensures qubits == Applied(old(qubits), op)
      ensures forall q :: 0 <= q < |qubits| ==> SameMarks(qubits[q], old(qubits)[q])
    {
      var (a, b) := (op.qubits[0], op.qubits[1]);
      AppliedIsAfter(adj, qubits, op);
      if op.swap {
        var temp := qubits[a].logical;
        qubits := qubits[a := qubits[a].(logical := qubits[b].logical)];
        qubits := qubits[b := qubits[b].(logical := temp)];
      }
      qubits := qubits[a := qubits[a].(occupied := op.end)];
      qubits := qubits[b := qubits[b].(occupied := op.end)];
    }

    /** One qubit's operation. */
    method ApplySingle(op: Operation)
      requires Valid() && OnDevice(adj, op) && |op.qubits| == 1
      modifies `qubits
      ensures Valid() && Snapshot() == After(old(Snapshot()), op)
      ensures qubits == AppliedSingle(old(qubits), op.qubits[0], op.end) && (old(Rested()) ==> Rested())
    {
      var q := op.qubits[0];
      SingleIsAfter(adj, qubits, op);
      qubits := qubits[q := qubits[q].(occupied := op.end)];
      qubits := qubits[q := qubits[q].(marked := false, taken := false, cost := qubits[q].occupied)];
    }

    /** Seen from pred, on the side of the given source. */
    method MarkQubit(q: nat, source: bool, pred: nat)
      requires Valid() && q < |adj|
      modifies `qubits
      ensures Valid() && qubits == old(qubits)[q := old(qubits)[q].(marked := true, source := source, pred := pred)]
      ensures Snapshot() == old(Snapshot())
    {
      ghost var before := Snapshot();
      qubits := qubits[q := qubits[q].(marked := true, source := source, pred := pred)];
      assert Snapshot().occupied == before.occupied && Snapshot().logical == before.logical;
    }

    method TakeRoute(q: nat, cost: nat, swapTime: nat)
      requires Valid() && q < |adj|
      modifies `qubits
      ensures Valid() && qubits == old(qubits)[q := old(qubits)[q].(cost := cost, swapTime := swapTime, taken := true)]
      ensures Snapshot() == old(Snapshot())
    {
      ghost var before := Snapshot();
      qubits := qubits[q := qubits[q].(cost := cost, swapTime := swapTime, taken := true)];
      assert Snapshot().occupied == before.occupied && Snapshot().logical == before.logical;
    }

    /** Forgets the search. */
    method ResetAll()
      requires Valid()
      modifies `qubits
      ensures Valid() && Rested() && Snapshot() == old(Snapshot()) && qubits == ReleasedAll(old(qubits))
    {
      ReleasedKeeps(adj, qubits);
      var i := 0;
      while i < |qubits|
        invariant i <= |qubits| == |adj|
        invariant forall q :: 0 <= q < |qubits| ==>
                    qubits[q] == if q < i then Released(old(qubits)[q]) else old(qubits)[q]
      {
        qubits := qubits[i := qubits[i].(marked := false, taken := false, cost := qubits[i].occupied)];
        i := i + 1;
      }
      assert qubits == ReleasedAll(old(qubits));
    }

    /** The next qubit on the way from source to target and when it can be swapped with. */
    method GetNextSwapCost(source: nat, target: nat) returns (next: nat, cost: nat)
      requires Valid() && topology.Calculated() && topology.Reaches(target, source) && source != target
      ensures next < |adj| && Coupled(adj, source, next) && next == topology.Toward(source, target)
      ensures cost == Max(qubits[source].occupied, qubits[next].occupied)
    {
      StepToward(topology, source, target);
      next := topology.Toward(source, target);
      cost := Max(qubits[source].occupied, qubits[next].occupied);
    }
  }

  lemma StepToward(t: Topology, source: nat, target: nat)
    requires t.Calculated() && t.Reaches(target, source) && source != target
    ensures var next := t.Toward(source, target); next < |t.adj| && Coupled(t.adj, source, next)
  {
    assert Step(t.adj, t.distance, t.predecessor, |t.adj|, target, source);
  }

  predicate SameMarks(a: Qubit, b: Qubit) {
    a.cost == b.cost && a.marked == b.marked && a.taken == b.taken && a.source == b.source && a.pred == b.pred && a.swapTime == b.swapTime
  }

  // ---------------------------------------------------------------- along a shortest path

  /** The predecessors on the way from i spell out the same path from every qubit on it. */
  lemma {:induction false} PathStep(adj: seq<seq<nat>>, d: Matrix, p: Matrix, i: nat, j: nat, t: nat)
    requires Table(adj, d, p, |adj|) && i < |adj| && j < |adj| && At(d, i, j) < MAX_DIST && t < |Path(adj, d, p, |adj|, i, j)|
    ensures var w := Path(adj, d, p, |adj|, i, j);
            w[t] < |adj| && At(d, i, w[t]) == t && At(d, i, w[t]) < MAX_DIST && (t > 0 ==> At(p, i, w[t]) == w[t - 1])
    decreases At(d, i, j)
  {
    PathIsWalk(adj, d, p, |adj|, i, j);
    var w := Path(adj, d, p, |adj|, i, j);
    assert DistanceOk(adj, d, i, j);
    if i != j {
      var m := At(p, i, j);
      assert Step(adj, d, p, |adj|, i, j);
      PathIsWalk(adj, d, p, |adj|, i, m);
      hide Table, Step;
      if t < |w| - 1 {
        PathStep(adj, d, p, i, m, t);
      }
    }
  }

  /** Seen from the far end: the next qubit towards j. */
  lemma PathStepBack(adj: seq<seq<nat>>, d: Matrix, p: Matrix, i: nat, j: nat, t: nat)
    requires Table(adj, d, p, |adj|) && Mirrored(adj, d, p, |adj|)
    requires i < |adj| && j < |adj| && At(d, i, j) < MAX_DIST && t < |Path(adj, d, p, |adj|, i, j)|
    ensures var w := Path(adj, d, p, |adj|, i, j);
            && w[t] < |adj| && At(d, j, w[t]) == |w| - 1 - t && At(d, j, w[t]) < MAX_DIST
            && (t < |w| - 1 ==> At(p, j, w[t]) == w[t + 1])
  {
    hide Table, Path, Mirrored;
    TableSquare(adj, d, p, |adj|);
    MirroredFor(adj, d, p, |adj|, i, j);
    var w := Path(adj, d, p, |adj|, i, j);
    PathStep(adj, d, p, j, i, |w| - 1 - t);
  }

  /** Qubits of a shortest path are different, and neighbours on it are coupled. */
  lemma PathNeighbours(adj: seq<seq<nat>>, d: Matrix, p: Matrix, i: nat, j: nat, a: nat, b: nat)
    requires Table(adj, d, p, |adj|) && i < |adj| && j < |adj| && At(d, i, j) < MAX_DIST
    requires a < b < |Path(adj, d, p, |adj|, i, j)|
    ensures var w := Path(adj, d, p, |adj|, i, j); w[a] != w[b] && (b == a + 1 ==> Coupled(adj, w[a], w[b]))
  {
    hide Table, Path;
    PathIsWalk(adj, d, p, |adj|, i, j);
    PathStep(adj, d, p, i, j, a);
    PathStep(adj, d, p, i, j, b);
    assert StepOfWalk(adj, Path(adj, d, p, |adj|, i, j), a);
  }

  /** A shortest path has no shortcut: two of its qubits are coupled only if they are neighbours on it. */
  lemma NoShortcut(adj: seq<seq<nat>>, d: Matrix, p: Matrix, i: nat, j: nat, a: nat, b: nat)
    requires Table(adj, d, p, |adj|) && i < |adj| && j < |adj| && At(d, i, j) < MAX_DIST
    requires a < b < |Path(adj, d, p, |adj|, i, j)|
    requires Coupled(adj, Path(adj, d, p, |adj|, i, j)[a], Path(adj, d, p, |adj|, i, j)[b])
    ensures b == a + 1
  {
    hide Table, Path, Coupled;
    PathStep(adj, d, p, i, j, a);
    PathStep(adj, d, p, i, j, b);
    CoupledIsNear(adj, d, p, i, Path(adj, d, p, |adj|, i, j)[a], Path(adj, d, p, |adj|, i, j)[b]);
  }

  lemma CoupledIsNear(adj: seq<seq<nat>>, d: Matrix, p: Matrix, i: nat, u: nat, v: nat)
    requires Table(adj, d, p, |adj|) && i < |adj| && u < |adj| && v < |adj| && Coupled(adj, u, v) && At(d, i, u) < MAX_DIST
    ensures At(d, i, v) <= At(d, i, u) + 1
  {
    assert DistanceOk(adj, d, u, v);
    assert Triangle(d, i, u, v);
  }

  // ---------------------------------------------------------------- two walkers on one path

  /** While the walkers are apart, their next qubits lie between them and are not the other walker. */
  lemma NextOnPath(adj: seq<seq<nat>>, d: Matrix, p: Matrix, s0: nat, s1: nat, a: nat, b: nat)
    requires Table(adj, d, p, |adj|) && Mirrored(adj, d, p, |adj|) && s0 < |adj| && s1 < |adj| && At(d, s0, s1) < MAX_DIST
    requires a < b < |Path(adj, d, p, |adj|, s0, s1)|
    requires !Coupled(adj, Path(adj, d, p, |adj|, s0, s1)[a], Path(adj, d, p, |adj|, s0, s1)[b])
    ensures var w := Path(adj, d, p, |adj|, s0, s1);
            && a + 1 < b && w[a] < |adj| && w[b] < |adj| && w[a] != s1 && w[b] != s0
            && At(d, s1, w[a]) < MAX_DIST && At(d, s0, w[b]) < MAX_DIST
            && At(p, s1, w[a]) == w[a + 1] && At(p, s0, w[b]) == w[b - 1]
            && w[a + 1] != w[b] && w[b - 1] != w[a] && w[a] != w[b] && w[a + 1] != w[a] && w[b - 1] != w[b]
  {
    hide Table, Mirrored, Path, Coupled;
    PathNeighbours(adj, d, p, s0, s1, a, b);
    PathNeighbours(adj, d, p, s0, s1, a, a + 1);
    PathNeighbours(adj, d, p, s0, s1, b - 1, b);
    PathNeighbours(adj, d, p, s0, s1, a + 1, b);
    PathNeighbours(adj, d, p, s0, s1, a, b - 1);
    PathStep(adj, d, p, s0, s1, b);
    PathStepBack(adj, d, p, s0, s1, a);
    PathEnds(adj, d, p, |adj|, s0, s1);
    if a < |Path(adj, d, p, |adj|, s0, s1)| - 1 {
      PathNeighbours(adj, d, p, s0, s1, a, |Path(adj, d, p, |adj|, s0, s1)| - 1);
    }
    if 0 < b {
      PathNeighbours(adj, d, p, s0, s1, 0, b);
    }
  }

  /** The two ways between a and b are the same, reversed, and no walk is shorter. */
  lemma WaysMirror(t: Topology, a: nat, b: nat)
    requires t.Calculated() && t.Reaches(a, b)
    ensures t.Reaches(b, a) && t.Way(b, a) == Reversed(t.Way(a, b))
    ensures forall w :: IsWalk(t.adj, w, a, b) && |w| <= MAX_DIST ==> t.Distance(a, b) <= |w| - 1
  {
    MirroredFor(t.adj, t.distance, t.predecessor, |t.adj|, a, b);
    hide Table, Mirrored, Path;
    forall w | IsWalk(t.adj, w, a, b) && |w| <= MAX_DIST
      ensures t.Distance(a, b) <= |w| - 1
    {
      WalkBound(t.adj, t.distance, t.predecessor, w, a, b);
    }
  }
}
