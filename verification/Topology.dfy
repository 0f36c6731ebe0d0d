/** The couplings of a device and the shortest paths between its qubits. */
module Topologies {
  import opened Collections

  // ---------------------------------------------------------------- couplings and walks

  /** Couplings are mutual and join different qubits. */
  ghost predicate IsCoupling(adj: seq<seq<nat>>) {
    forall a: nat, b: nat {:trigger Coupled(adj, a, b)} :: Coupled(adj, a, b) ==> b < |adj| && b != a && Coupled(adj, b, a)
  }

  predicate Coupled(adj: seq<seq<nat>>, a: nat, b: nat) {
    a < |adj| && b in adj[a]
  }

  lemma CouplingBothWays(adj: seq<seq<nat>>, a: nat, b: nat)
    requires IsCoupling(adj) && Coupled(adj, a, b)
    ensures Coupled(adj, b, a)
  {
  }

  /** A sequence of qubits from a to b, each coupled to the next. */
  ghost predicate IsWalk(adj: seq<seq<nat>>, w: seq<nat>, a: nat, b: nat) {
    && w != [] && w[0] == a && w[|w| - 1] == b
    && (forall i :: 0 <= i < |w| ==> w[i] < |adj|)
    && forall i :: 0 <= i < |w| - 1 ==> StepOfWalk(adj, w, i)
  }

  ghost predicate StepOfWalk(adj: seq<seq<nat>>, w: seq<nat>, i: int)
    requires 0 <= i < |w| - 1
  {
    Coupled(adj, w[i], w[i + 1])
  }

  ghost predicate Connected(adj: seq<seq<nat>>) {
    forall a: nat, b: nat :: a < |adj| && b < |adj| ==> Linked(adj, a, b)
  }

  ghost predicate Linked(adj: seq<seq<nat>>, a: nat, b: nat) {
    exists w :: IsWalk(adj, w, a, b)
  }

  // ---------------------------------------------------------------- matrices

  /** The distance of qubits not known to be connected. */
  const MAX_DIST: nat := 100000

  const NO_QUBIT: nat := 0xFFFF_FFFF_FFFF_FFFF

  type Matrix = seq<seq<nat>>

  ghost predicate Square(m: Matrix, n: nat) {
    |m| == n && forall i :: 0 <= i < n ==> |m[i]| == n
  }

  function At(m: Matrix, i: nat, j: nat): nat
    requires i < |m| && j < |m[i]|
  {
    m[i][j]
  }

  /** The entry, if there is one. */
  function Entry(m: Matrix, i: nat, j: nat): nat {
    if i < |m| && j < |m[i]| then At(m, i, j) else NO_QUBIT
  }

  function Set(m: Matrix, i: nat, j: nat, v: nat): (r: Matrix)
    requires i < |m| && j < |m[i]|
    ensures |r| == |m| && forall a: nat :: a < |m| ==> |r[a]| == |m[a]|
    ensures forall a: nat, b: nat {:trigger At(r, a, b)} :: a < |m| && b < |m[a]| ==>
              At(r, a, b) == if a == i && b == j then v else At(m, a, b)
  {
    var row: seq<nat> := m[i][j := v];
    m[i := row]
  }

  // ---------------------------------------------------------------- what the matrices keep

  /** The table after the vertices below k: the distances are a metric on what those reach, and
      each predecessor is one step closer. */
  ghost predicate Table(adj: seq<seq<nat>>, d: Matrix, p: Matrix, k: nat) {
    var n := |adj|;
    && Square(d, n) && Square(p, n)
    && (forall i: nat, j: nat {:trigger At(d, i, j)} :: i < n && j < n ==> DistanceOk(adj, d, i, j))
    && (forall i: nat, j: nat, m: nat {:trigger At(d, i, m), At(d, m, j)} :: i < n && j < n && m < k && m < n ==> Triangle(d, i, m, j))
    && (forall i: nat, j: nat {:trigger At(p, i, j)} :: i < n && j < n && i != j && At(d, i, j) < MAX_DIST ==> Step(adj, d, p, k, i, j))
  }

  ghost predicate DistanceOk(adj: seq<seq<nat>>, d: Matrix, i: nat, j: nat)
    requires Square(d, |adj|) && i < |adj| && j < |adj|
  {
    && At(d, i, j) <= MAX_DIST && At(d, i, j) == At(d, j, i)
    && (At(d, i, j) == 0 <==> i == j)
    && (Coupled(adj, i, j) ==> At(d, i, j) <= 1)
  }

  ghost predicate Triangle(d: Matrix, i: nat, m: nat, j: nat)
    requires i < |d| && m < |d| && m < |d[i]| && j < |d[i]| && j < |d[m]|
  {
    At(d, i, m) < MAX_DIST && At(d, m, j) < MAX_DIST ==> At(d, i, j) <= At(d, i, m) + At(d, m, j)
  }

  /** The predecessor of j on the way from i. */
  ghost predicate Step(adj: seq<seq<nat>>, d: Matrix, p: Matrix, k: nat, i: nat, j: nat)
    requires Square(d, |adj|) && Square(p, |adj|) && i < |adj| && j < |adj|
  {
    var m := At(p, i, j);
    m < |adj| && Coupled(adj, m, j) && At(d, i, m) + 1 == At(d, i, j) && (m == i || m < k)
  }

  /** The path the predecessors spell out from i to j. */
  ghost function Path(adj: seq<seq<nat>>, d: Matrix, p: Matrix, k: nat, i: nat, j: nat): (w: seq<nat>)
    requires Table(adj, d, p, k) && i < |adj| && j < |adj| && At(d, i, j) < MAX_DIST
    decreases At(d, i, j)
  {
    assert DistanceOk(adj, d, i, j);
    if i == j then [j]
    else
      assert Step(adj, d, p, k, i, j);
      Path(adj, d, p, k, i, At(p, i, j)) + [j]
  }

  /** It is a walk, as long as the distance. */
  lemma {:induction false} PathIsWalk(adj: seq<seq<nat>>, d: Matrix, p: Matrix, k: nat, i: nat, j: nat)
    requires Table(adj, d, p, k) && i < |adj| && j < |adj| && At(d, i, j) < MAX_DIST
    ensures IsWalk(adj, Path(adj, d, p, k, i, j), i, j) && |Path(adj, d, p, k, i, j)| == At(d, i, j) + 1
    decreases At(d, i, j)
  {
    assert DistanceOk(adj, d, i, j);
    if i != j {
      var m := At(p, i, j);
      assert Step(adj, d, p, k, i, j);
      hide Table, Step;
      PathIsWalk(adj, d, p, k, i, m);
      var w := Path(adj, d, p, k, i, m);
      var w' := Path(adj, d, p, k, i, j);
      assert w' == w + [j];
      forall t | 0 <= t < |w'| - 1
        ensures StepOfWalk(adj, w', t)
      {
        if t < |w| - 1 {
          assert StepOfWalk(adj, w, t) && w'[t] == w[t] && w'[t + 1] == w[t + 1];
        }
      }
    }
  }

  // ---------------------------------------------------------------- relaxation

  predicate Shorter(d: Matrix, k: nat, i: nat, j: nat)
    requires i < |d| && k < |d| && j < |d[i]| && k < |d[i]| && j < |d[k]|
  {
    At(d, i, j) > At(d, i, k) + At(d, k, j) && At(d, i, k) != MAX_DIST
  }

  /** The entries once vertex k has been included. */
  ghost predicate Relaxed(d: Matrix, p: Matrix, d': Matrix, p': Matrix, k: nat, n: nat) {
    && Square(d, n) && Square(p, n) && Square(d', n) && Square(p', n) && k < n
    && forall i: nat, j: nat {:trigger At(d', i, j)} {:trigger At(p', i, j)} :: i < n && j < n ==> RelaxedAt(d, p, d', p', k, i, j)
  }

  ghost predicate RelaxedAt(d: Matrix, p: Matrix, d': Matrix, p': Matrix, k: nat, i: nat, j: nat)
    requires Square(d, |d|) && Square(p, |d|) && Square(d', |d|) && Square(p', |d|) && i < |d| && j < |d| && k < |d|
  {
    if Shorter(d, k, i, j) then At(d', i, j) == At(d, i, k) + At(d, k, j) && At(p', i, j) == At(p, k, j)
    else At(d', i, j) == At(d, i, j) && At(p', i, j) == At(p, i, j)
  }

  /** Inclusion of a vertex never makes a known distance longer, and never lengthens the detour. */
  lemma RelaxedBound(adj: seq<seq<nat>>, d: Matrix, p: Matrix, d': Matrix, p': Matrix, k: nat, i: nat, j: nat)
    requires Table(adj, d, p, k) && Relaxed(d, p, d', p', k, |adj|) && i < |adj| && j < |adj|
    ensures At(d', i, j) <= At(d, i, j) && (At(d, i, k) < MAX_DIST ==> At(d', i, j) <= At(d, i, k) + At(d, k, j))
    ensures At(d', i, j) == At(d, i, j) || (At(d', i, j) == At(d, i, k) + At(d, k, j) && At(d, i, k) < MAX_DIST && Shorter(d, k, i, j))
    ensures DistanceOk(adj, d, i, j) && DistanceOk(adj, d, i, k) && DistanceOk(adj, d, k, j)
  {
    assert RelaxedAt(d, p, d', p', k, i, j);
  }

  lemma RelaxedDistanceOk(adj: seq<seq<nat>>, d: Matrix, p: Matrix, d': Matrix, p': Matrix, k: nat, i: nat, j: nat)
    requires Table(adj, d, p, k) && Relaxed(d, p, d', p', k, |adj|) && i < |adj| && j < |adj|
    ensures DistanceOk(adj, d', i, j)
  {
    RelaxedBound(adj, d, p, d', p', k, i, j);
    RelaxedBound(adj, d, p, d', p', k, j, i);
    assert RelaxedAt(d, p, d', p', k, i, j) && RelaxedAt(d, p, d', p', k, j, i);
    hide Table, Relaxed;
  }

  lemma RelaxedTriangle(adj: seq<seq<nat>>, d: Matrix, p: Matrix, d': Matrix, p': Matrix, k: nat, i: nat, m: nat, j: nat)
    requires Table(adj, d, p, k) && Relaxed(d, p, d', p', k, |adj|) && i < |adj| && j < |adj| && m <= k
    ensures Triangle(d', i, m, j)
  {
    RelaxedBound(adj, d, p, d', p', k, i, j);
    RelaxedBound(adj, d, p, d', p', k, i, m);
    RelaxedBound(adj, d, p, d', p', k, m, j);
    if m < k {
      assert Triangle(d, i, m, j) && Triangle(d, k, m, j) && Triangle(d, i, m, k);
    }
    assert DistanceOk(adj, d, k, k) && DistanceOk(adj, d, k, m) && DistanceOk(adj, d, m, k);
    hide Table, Relaxed;
  }

  /** Where the detour over k is no shorter, the predecessor's distance stays too. */
  lemma KeptStep(adj: seq<seq<nat>>, d: Matrix, p: Matrix, d': Matrix, p': Matrix, k: nat, i: nat, j: nat)
    requires Table(adj, d, p, k) && Relaxed(d, p, d', p', k, |adj|) && i < |adj| && j < |adj| && i != j
    requires At(d, i, j) < MAX_DIST && !Shorter(d, k, i, j)
    ensures Step(adj, d, p, k, i, j) && At(p', i, j) == At(p, i, j) && !Shorter(d, k, i, At(p, i, j))
  {
    var m := At(p, i, j);
    assert RelaxedAt(d, p, d', p', k, i, j);
    assert Step(adj, d, p, k, i, j);
    assert DistanceOk(adj, d, m, j) && DistanceOk(adj, d, i, i) && DistanceOk(adj, d, k, j) && DistanceOk(adj, d, k, m);
    if m < k {
      assert Triangle(d, k, m, j);
    }
    hide Table, Relaxed;
  }

  /** Where it is shorter, so is the detour to the new predecessor. */
  lemma DetourStep(adj: seq<seq<nat>>, d: Matrix, p: Matrix, d': Matrix, p': Matrix, k: nat, i: nat, j: nat)
    requires Table(adj, d, p, k) && Relaxed(d, p, d', p', k, |adj|) && i < |adj| && j < |adj| && i != j
    requires Shorter(d, k, i, j)
    ensures k != j && k != i && Step(adj, d, p, k, k, j) && At(p', i, j) == At(p, k, j)
    ensures var m := At(p, k, j); m == k || Shorter(d, k, i, m)
  {
    assert RelaxedAt(d, p, d', p', k, i, j);
    assert DistanceOk(adj, d, k, k) && DistanceOk(adj, d, k, j) && DistanceOk(adj, d, i, k) && DistanceOk(adj, d, i, j);
    var m := At(p, k, j);
    assert Step(adj, d, p, k, k, j);
    assert DistanceOk(adj, d, m, j) && DistanceOk(adj, d, k, m) && DistanceOk(adj, d, i, m);
    if m < k {
      assert Triangle(d, i, m, j);
    }
    hide Table, Relaxed;
  }

  lemma RelaxedStep(adj: seq<seq<nat>>, d: Matrix, p: Matrix, d': Matrix, p': Matrix, k: nat, i: nat, j: nat)
    requires Table(adj, d, p, k) && Relaxed(d, p, d', p', k, |adj|) && i < |adj| && j < |adj| && i != j
    requires At(d', i, j) < MAX_DIST
    ensures Step(adj, d', p', k + 1, i, j)
  {
    assert RelaxedAt(d, p, d', p', k, i, j);
    if Shorter(d, k, i, j) {
      DetourStep(adj, d, p, d', p', k, i, j);
      var m := At(p, k, j);
      assert RelaxedAt(d, p, d', p', k, i, m);
      assert DistanceOk(adj, d, k, k);
    } else {
      KeptStep(adj, d, p, d', p', k, i, j);
      assert RelaxedAt(d, p, d', p', k, i, At(p, i, j));
    }
  }

  lemma RelaxedTable(adj: seq<seq<nat>>, d: Matrix, p: Matrix, d': Matrix, p': Matrix, k: nat)
    requires Table(adj, d, p, k) && Relaxed(d, p, d', p', k, |adj|)
    ensures Table(adj, d', p', k + 1)
  {
    var n := |adj|;
    forall i: nat, j: nat | i < n && j < n
      ensures DistanceOk(adj, d', i, j)
    {
      RelaxedDistanceOk(adj, d, p, d', p', k, i, j);
    }
    forall i: nat, j: nat, m: nat | i < n && j < n && m < k + 1 && m < n
      ensures Triangle(d', i, m, j)
    {
      RelaxedTriangle(adj, d, p, d', p', k, i, m, j);
    }
    forall i: nat, j: nat | i < n && j < n && i != j && At(d', i, j) < MAX_DIST
      ensures Step(adj, d', p', k + 1, i, j)
    {
      RelaxedStep(adj, d, p, d', p', k, i, j);
    }
  }

  // ---------------------------------------------------------------- paths under relaxation

  lemma {:induction false} KeptPath(adj: seq<seq<nat>>, d: Matrix, p: Matrix, d': Matrix, p': Matrix, k: nat, i: nat, j: nat)
    requires Table(adj, d, p, k) && Relaxed(d, p, d', p', k, |adj|) && Table(adj, d', p', k + 1) && i < |adj| && j < |adj|
    requires At(d, i, j) < MAX_DIST && !Shorter(d, k, i, j) && At(d', i, j) < MAX_DIST
    ensures Path(adj, d', p', k + 1, i, j) == Path(adj, d, p, k, i, j)
    decreases At(d, i, j)
  {
    if i != j {
      KeptStep(adj, d, p, d', p', k, i, j);
      var m := At(p, i, j);
      assert RelaxedAt(d, p, d', p', k, i, m);
      KeptPath(adj, d, p, d', p', k, i, m);
    }
  }

  lemma {:induction false} DetourPath(adj: seq<seq<nat>>, d: Matrix, p: Matrix, d': Matrix, p': Matrix, k: nat, i: nat, j: nat)
    requires Table(adj, d, p, k) && Relaxed(d, p, d', p', k, |adj|) && Table(adj, d', p', k + 1) && i < |adj| && j < |adj|
    requires Shorter(d, k, i, j) && At(d', i, j) < MAX_DIST && At(d, i, k) < MAX_DIST && At(d, k, j) < MAX_DIST
    ensures Path(adj, d', p', k + 1, i, j) == Path(adj, d, p, k, i, k) + Path(adj, d, p, k, k, j)[1..]
    decreases At(d, k, j)
  {
    assert DistanceOk(adj, d, i, j);
    DetourStep(adj, d, p, d', p', k, i, j);
    var m := At(p, k, j);
    assert RelaxedAt(d, p, d', p', k, i, j) && RelaxedAt(d, p, d', p', k, i, m);
    var a, b := Path(adj, d, p, k, i, k), Path(adj, d, p, k, k, m);
    assert Path(adj, d, p, k, k, j) == b + [j];
    PathIsWalk(adj, d, p, k, k, m);
    assert (b + [j])[1..] == b[1..] + [j];
    if m == k {
      assert DistanceOk(adj, d, k, k);
      KeptPath(adj, d, p, d', p', k, i, k);
      assert b == [k];
      assert a + (b[1..] + [j]) == a + [j];
    } else {
      DetourPath(adj, d, p, d', p', k, i, m);
      assert a + (b[1..] + [j]) == a + b[1..] + [j];
    }
  }

  /** The way back is the way there, reversed. */
  ghost predicate Mirrored(adj: seq<seq<nat>>, d: Matrix, p: Matrix, k: nat)
    requires Table(adj, d, p, k)
  {
    forall i: nat, j: nat {:trigger At(d, i, j)} :: i < |adj| && j < |adj| && At(d, i, j) < MAX_DIST ==> MirroredAt(adj, d, p, k, i, j)
  }

  ghost predicate MirroredAt(adj: seq<seq<nat>>, d: Matrix, p: Matrix, k: nat, i: nat, j: nat)
    requires Table(adj, d, p, k) && i < |adj| && j < |adj| && At(d, i, j) < MAX_DIST
  {
    assert DistanceOk(adj, d, i, j);
    Path(adj, d, p, k, j, i) == Reversed(Path(adj, d, p, k, i, j))
  }

  lemma TableSquare(adj: seq<seq<nat>>, d: Matrix, p: Matrix, k: nat)
    requires Table(adj, d, p, k)
    ensures Square(d, |adj|) && Square(p, |adj|)
  {
  }

  lemma MirroredFor(adj: seq<seq<nat>>, d: Matrix, p: Matrix, k: nat, i: nat, j: nat)
    requires Table(adj, d, p, k) && Mirrored(adj, d, p, k) && i < |adj| && j < |adj| && At(d, i, j) < MAX_DIST
    ensures At(d, j, i) == At(d, i, j) && Path(adj, d, p, k, j, i) == Reversed(Path(adj, d, p, k, i, j))
  {
    assert DistanceOk(adj, d, i, j);
    assert MirroredAt(adj, d, p, k, i, j);
  }

  /** Detours mirror each other, and so do kept entries. */
  lemma RelaxedBothWays(adj: seq<seq<nat>>, d: Matrix, p: Matrix, d': Matrix, p': Matrix, k: nat, i: nat, j: nat)
    requires Table(adj, d, p, k) && Relaxed(d, p, d', p', k, |adj|) && i < |adj| && j < |adj|
    requires At(d', i, j) < MAX_DIST
    ensures Shorter(d, k, i, j) == Shorter(d, k, j, i) && At(d', j, i) == At(d', i, j)
    ensures if Shorter(d, k, i, j) then At(d, i, k) < MAX_DIST && At(d, k, j) < MAX_DIST && At(d, j, k) < MAX_DIST && At(d, k, i) < MAX_DIST
            else At(d, i, j) < MAX_DIST && At(d, j, i) < MAX_DIST
  {
    assert RelaxedAt(d, p, d', p', k, i, j) && RelaxedAt(d, p, d', p', k, j, i);
    assert DistanceOk(adj, d, i, j) && DistanceOk(adj, d, i, k) && DistanceOk(adj, d, k, j);
    hide Table, Relaxed;
  }

  lemma RelaxedMirrored(adj: seq<seq<nat>>, d: Matrix, p: Matrix, d': Matrix, p': Matrix, k: nat)
    requires Table(adj, d, p, k) && Relaxed(d, p, d', p', k, |adj|) && Table(adj, d', p', k + 1) && Mirrored(adj, d, p, k)
    ensures Mirrored(adj, d', p', k + 1)
  {
    hide Table, Relaxed, Path;
    TableSquare(adj, d, p, k);
    TableSquare(adj, d', p', k + 1);
    assert k < |adj| by { RelaxedPivot(d, p, d', p', k, |adj|); }
    forall i: nat, j: nat | i < |adj| && j < |adj| && At(d', i, j) < MAX_DIST
      ensures MirroredAt(adj, d', p', k + 1, i, j)
    {
      hide Mirrored;
      RelaxedBothWays(adj, d, p, d', p', k, i, j);
      if Shorter(d, k, i, j) {
        DetourMirrored(adj, d, p, d', p', k, i, j);
      } else {
        KeptMirrored(adj, d, p, d', p', k, i, j);
      }
    }
  }

  lemma RelaxedPivot(d: Matrix, p: Matrix, d': Matrix, p': Matrix, k: nat, n: nat)
    requires Relaxed(d, p, d', p', k, n)
    ensures k < n
  {
  }

  lemma KeptMirrored(adj: seq<seq<nat>>, d: Matrix, p: Matrix, d': Matrix, p': Matrix, k: nat, i: nat, j: nat)
    requires Table(adj, d, p, k) && Relaxed(d, p, d', p', k, |adj|) && Table(adj, d', p', k + 1) && Mirrored(adj, d, p, k)
    requires i < |adj| && j < |adj| && At(d', i, j) < MAX_DIST && At(d', j, i) < MAX_DIST && At(d, i, j) < MAX_DIST
    requires At(d, j, i) < MAX_DIST && k < |adj| && !Shorter(d, k, i, j) && !Shorter(d, k, j, i)
    ensures Path(adj, d', p', k + 1, j, i) == Reversed(Path(adj, d', p', k + 1, i, j))
  {
    hide Table, Relaxed, Path, Mirrored, Shorter, Reversed;
    KeptPath(adj, d, p, d', p', k, i, j);
    KeptPath(adj, d, p, d', p', k, j, i);
    MirroredFor(adj, d, p, k, i, j);
  }

  lemma DetourMirrored(adj: seq<seq<nat>>, d: Matrix, p: Matrix, d': Matrix, p': Matrix, k: nat, i: nat, j: nat)
    requires Table(adj, d, p, k) && Relaxed(d, p, d', p', k, |adj|) && Table(adj, d', p', k + 1) && Mirrored(adj, d, p, k)
    requires i < |adj| && j < |adj| && At(d', i, j) < MAX_DIST && At(d', j, i) < MAX_DIST
    requires k < |adj| && Shorter(d, k, i, j) && Shorter(d, k, j, i)
    requires At(d, i, k) < MAX_DIST && At(d, k, j) < MAX_DIST && At(d, j, k) < MAX_DIST && At(d, k, i) < MAX_DIST
    ensures Path(adj, d', p', k + 1, j, i) == Reversed(Path(adj, d', p', k + 1, i, j))
  {
    hide Table, Relaxed, Path, Mirrored, Shorter, Reversed;
    DetourPath(adj, d, p, d', p', k, i, j);
    DetourPath(adj, d, p, d', p', k, j, i);
    MirroredFor(adj, d, p, k, i, k);
    MirroredFor(adj, d, p, k, k, j);
    PathEnds(adj, d, p, k, i, k);
    PathEnds(adj, d, p, k, k, j);
    JoinReversed(Path(adj, d, p, k, i, k), Path(adj, d, p, k, k, j));
  }

  lemma PathEnds(adj: seq<seq<nat>>, d: Matrix, p: Matrix, k: nat, i: nat, j: nat)
    requires Table(adj, d, p, k) && i < |adj| && j < |adj| && At(d, i, j) < MAX_DIST
    ensures var w := Path(adj, d, p, k, i, j); w != [] && w[0] == i && w[|w| - 1] == j
  {
    hide Table, Path;
    PathIsWalk(adj, d, p, k, i, j);
  }

  lemma JoinReversed(a: seq<nat>, b: seq<nat>)
    requires a != [] && b != [] && a[|a| - 1] == b[0]
    ensures Reversed(a + b[1..]) == Reversed(b) + Reversed(a)[1..]
  {
    var l, r := Reversed(a + b[1..]), Reversed(b) + Reversed(a)[1..];
    assert |l| == |r|;
    forall i | 0 <= i < |l|
      ensures l[i] == r[i]
    {
    }
  }

  // ---------------------------------------------------------------- the finished table

  /** No walk is shorter than the distance. */
  lemma {:induction false} WalkBound(adj: seq<seq<nat>>, d: Matrix, p: Matrix, w: seq<nat>, a: nat, b: nat)
    requires Table(adj, d, p, |adj|) && IsWalk(adj, w, a, b) && |w| <= MAX_DIST
    ensures At(d, a, b) <= |w| - 1
    decreases |w|
  {
    assert DistanceOk(adj, d, a, b) && DistanceOk(adj, d, a, a);
    if |w| > 1 {
      var t := |w| - 2;
      var v := w[..|w| - 1];
      ShorterWalk(adj, w, a, b);
      WalkBound(adj, d, p, v, a, w[t]);
      assert StepOfWalk(adj, w, t);
      assert DistanceOk(adj, d, w[t], b);
      assert Triangle(d, a, w[t], b);
    }
  }

  lemma ShorterWalk(adj: seq<seq<nat>>, w: seq<nat>, a: nat, b: nat)
    requires IsWalk(adj, w, a, b) && |w| > 1
    ensures IsWalk(adj, w[..|w| - 1], a, w[|w| - 2])
  {
    var v := w[..|w| - 1];
    forall i | 0 <= i < |v| - 1
      ensures StepOfWalk(adj, v, i)
    {
      assert StepOfWalk(adj, w, i);
    }
  }

  /** Among more than n numbers below n, two are equal. */
  lemma {:induction false} Pigeonhole(w: seq<nat>, n: nat) returns (i: nat, j: nat)
    requires |w| > n && forall t :: 0 <= t < |w| ==> w[t] < n
    ensures i < j < |w| && w[i] == w[j]
    decreases n
  {
    var last := |w| - 1;
    if t :| 0 <= t < last && w[t] == w[last] {
      return t, last;
    }
    var v := seq(last, t requires 0 <= t < last => if w[t] == n - 1 then w[last] else w[t]);
    forall t | 0 <= t < last
      ensures v[t] < n - 1
    {
      assert w[t] != w[last];
    }
    i, j := Pigeonhole(v, n - 1);
    assert w[i] == w[j];
  }

  /** A walk can be cut down to one that visits no qubit twice. */
  lemma {:induction false} ShortWalk(adj: seq<seq<nat>>, w: seq<nat>, a: nat, b: nat) returns (v: seq<nat>)
    requires IsWalk(adj, w, a, b)
    ensures IsWalk(adj, v, a, b) && |v| <= |adj|
    decreases |w|
  {
    hide Coupled;
    if |w| <= |adj| {
      v := w;
    } else {
      var i, j := Pigeonhole(w, |adj|);
      CutLoop(adj, w, a, b, i, j);
      v := ShortWalk(adj, w[..i] + w[j..], a, b);
    }
  }

  lemma CutLoop(adj: seq<seq<nat>>, w: seq<nat>, a: nat, b: nat, i: nat, j: nat)
    requires IsWalk(adj, w, a, b) && i < j < |w| && w[i] == w[j]
    ensures IsWalk(adj, w[..i] + w[j..], a, b)
  {
    hide Coupled;
    var u := w[..i] + w[j..];
    assert u[|u| - 1] == b && u[0] == a;
    forall t | 0 <= t < |u| - 1
      ensures StepOfWalk(adj, u, t)
    {
      var t' := if t < i then t else t - i + j;
      assert StepOfWalk(adj, w, t');
      assert u[t] == w[t'] && u[t + 1] == w[t' + 1];
    }
  }

  /** The distance is finite exactly for qubits that some walk joins. */
  lemma FiniteIsLinked(adj: seq<seq<nat>>, d: Matrix, p: Matrix, a: nat, b: nat)
    requires Table(adj, d, p, |adj|) && |adj| <= MAX_DIST && a < |adj| && b < |adj|
    ensures At(d, a, b) < MAX_DIST <==> Linked(adj, a, b)
  {
    if At(d, a, b) < MAX_DIST {
      PathIsWalk(adj, d, p, |adj|, a, b);
    }
    if Linked(adj, a, b) {
      var w :| IsWalk(adj, w, a, b);
      var v := ShortWalk(adj, w, a, b);
      WalkBound(adj, d, p, v, a, b);
    }
  }

  // ---------------------------------------------------------------- the algorithm

  /** The start: neighbours at distance one, themselves at none, all others out of reach. */
  ghost predicate Direct(adj: seq<seq<nat>>, d: Matrix, p: Matrix) {
    && Square(d, |adj|) && Square(p, |adj|)
    && forall i: nat, j: nat {:trigger At(d, i, j)} {:trigger At(p, i, j)} :: i < |adj| && j < |adj| ==>
         && At(d, i, j) == (if Coupled(adj, i, j) then 1 else if i == j then 0 else MAX_DIST)
         && (Coupled(adj, i, j) ==> At(p, i, j) == i)
  }

  lemma DirectTable(adj: seq<seq<nat>>, d: Matrix, p: Matrix)
    requires IsCoupling(adj) && Direct(adj, d, p)
    ensures Table(adj, d, p, 0) && Mirrored(adj, d, p, 0)
  {
    var n := |adj|;
    forall i: nat, j: nat | i < n && j < n
      ensures DistanceOk(adj, d, i, j)
    {
      assert Coupled(adj, i, j) <==> Coupled(adj, j, i);
      assert At(d, j, i) == At(d, i, j);
    }
    forall i: nat, j: nat | i < n && j < n && i != j && At(d, i, j) < MAX_DIST
      ensures Step(adj, d, p, 0, i, j)
    {
      assert At(d, i, i) == 0 && At(p, i, j) == i;
    }
    assert Table(adj, d, p, 0);
    forall i: nat, j: nat | i < n && j < n && At(d, i, j) < MAX_DIST
      ensures MirroredAt(adj, d, p, 0, i, j)
    {
      DirectPath(adj, d, p, i, j);
      DirectPath(adj, d, p, j, i);
    }
  }

  lemma DirectPath(adj: seq<seq<nat>>, d: Matrix, p: Matrix, i: nat, j: nat)
    requires IsCoupling(adj) && Direct(adj, d, p) && Table(adj, d, p, 0) && i < |adj| && j < |adj| && At(d, i, j) < MAX_DIST
    ensures At(d, j, i) < MAX_DIST && Path(adj, d, p, 0, i, j) == if i == j then [j] else [i, j]
  {
    assert DistanceOk(adj, d, i, j);
    if i != j {
      assert At(p, i, j) == i && At(d, i, i) == 0;
      assert Path(adj, d, p, 0, i, i) == [i];
    }
  }

  predicate Before(a: nat, b: nat, i: nat, j: nat) {
    a < i || (a == i && b < j)
  }

  /** Couplings entered for the pairs before (i, j). */
  ghost predicate WeightsUpTo(adj: seq<seq<nat>>, d: Matrix, p: Matrix, i: nat, j: nat) {
    && Square(d, |adj|) && Square(p, |adj|)
    && forall a: nat, b: nat {:trigger At(d, a, b)} {:trigger At(p, a, b)} :: a < |adj| && b < |adj| ==>
         && At(d, a, b) == (if Before(a, b, i, j) && Coupled(adj, a, b) then 1 else if a == b then 0 else MAX_DIST)
         && (Before(a, b, i, j) && Coupled(adj, a, b) ==> At(p, a, b) == a)
  }

  lemma NoWeights(adj: seq<seq<nat>>, d: Matrix, p: Matrix)
    requires Square(d, |adj|) && Square(p, |adj|)
    requires forall a: nat, b: nat {:trigger At(d, a, b)} :: a < |adj| && b < |adj| ==> At(d, a, b) == if a == b then 0 else MAX_DIST
    ensures WeightsUpTo(adj, d, p, 0, 0)
  {
  }

  lemma WeightsNextRow(adj: seq<seq<nat>>, d: Matrix, p: Matrix, i: nat)
    requires WeightsUpTo(adj, d, p, i, |adj|)
    ensures WeightsUpTo(adj, d, p, i + 1, 0)
  {
    assert forall a: nat, b: nat :: b < |adj| ==> (Before(a, b, i, |adj|) <==> Before(a, b, i + 1, 0));
  }

  lemma OneMoreWeight(adj: seq<seq<nat>>, d: Matrix, p: Matrix, i: nat, j: nat)
    requires WeightsUpTo(adj, d, p, i, j) && i < |adj| && j < |adj|
    ensures Coupled(adj, i, j) ==> WeightsUpTo(adj, Set(d, i, j, 1), Set(p, i, j, i), i, j + 1)
    ensures !Coupled(adj, i, j) ==> WeightsUpTo(adj, d, p, i, j + 1)
  {
    forall a: nat, b: nat
      ensures Before(a, b, i, j + 1) == (Before(a, b, i, j) || (a == i && b == j))
    {
    }
  }

  lemma WeightsAreDirect(adj: seq<seq<nat>>, d: Matrix, p: Matrix)
    requires WeightsUpTo(adj, d, p, |adj|, 0)
    ensures Direct(adj, d, p)
  {
    forall i: nat, j: nat | i < |adj| && j < |adj|
      ensures At(d, i, j) == (if Coupled(adj, i, j) then 1 else if i == j then 0 else MAX_DIST)
      ensures Coupled(adj, i, j) ==> At(p, i, j) == i
    {
      assert Before(i, j, |adj|, 0);
    }
  }

  /** The matrices hold shortest paths, the same in both directions. */
  ghost predicate Paths(adj: seq<seq<nat>>, d: Matrix, p: Matrix) {
    IsCoupling(adj) && Table(adj, d, p, |adj|) && Mirrored(adj, d, p, |adj|)
  }

  ghost predicate Within(adj: seq<seq<nat>>, d: Matrix, p: Matrix, a: nat, b: nat)
    requires Paths(adj, d, p)
  {
    a < |adj| && b < |adj| && At(d, a, b) < MAX_DIST
  }

  /** The shortest path from a to b that the predecessors spell out. */
  ghost function WayOf(adj: seq<seq<nat>>, d: Matrix, p: Matrix, a: nat, b: nat): seq<nat>
    requires Paths(adj, d, p) && Within(adj, d, p, a, b)
  {
    Path(adj, d, p, |adj|, a, b)
  }

  class Topology {
    const adj: seq<seq<nat>>
    var distance: Matrix
    var predecessor: Matrix

    ghost predicate Calculated()
      reads this
    {
      Paths(adj, distance, predecessor)
    }

    /** The number of steps from a to b; MAX_DIST when there is no way. */
    function Distance(a: nat, b: nat): nat
      requires Calculated() && a < |adj| && b < |adj|
      reads this
    {
      At(distance, a, b)
    }

    ghost predicate Reaches(a: nat, b: nat)
      requires Calculated()
      reads this
    {
      Within(adj, distance, predecessor, a, b)
    }

    ghost function Way(a: nat, b: nat): seq<nat>
      requires Calculated() && Reaches(a, b)
      reads this
    {
      WayOf(adj, distance, predecessor, a, b)
    }

    /** The next qubit from source towards target. */
    function Toward(source: nat, target: nat): nat
      requires Calculated() && source < |adj| && target < |adj|
      reads this
    {
      At(predecessor, target, source)
    }

    constructor (adj: seq<seq<nat>>)
      ensures this.adj == adj
    {
      this.adj := adj;
      distance, predecessor := [], [];
    }

    method InitPredecessorAndDistance()
      modifies this
      ensures Direct(adj, distance, predecessor)
    {
      var n := |adj|;
      distance := seq(n, i => seq(n, j => if i == j then 0 else MAX_DIST));
      predecessor := seq(n, i => seq(n, j => NO_QUBIT));
      forall a: nat, b: nat | a < n && b < n
        ensures At(distance, a, b) == if a == b then 0 else MAX_DIST
      {
        assert distance[a] == seq(n, j => if a == j then 0 else MAX_DIST);
      }
      NoWeights(adj, distance, predecessor);
      var i := 0;
      while i < n
        invariant i <= n == |adj| && WeightsUpTo(adj, distance, predecessor, i, 0)
      {
        SetWeights(i);
        i := i + 1;
      }
      WeightsAreDirect(adj, distance, predecessor);
    }

    method SetWeights(i: nat)
      requires i < |adj| && WeightsUpTo(adj, distance, predecessor, i, 0)
      modifies this
      ensures WeightsUpTo(adj, distance, predecessor, i + 1, 0)
    {
      var j := 0;
      while j < |adj|
        invariant j <= |adj| && WeightsUpTo(adj, distance, predecessor, i, j)
      {
        OneMoreWeight(adj, distance, predecessor, i, j);
        if Coupled(adj, i, j) {
          distance := Set(distance, i, j, 1);
          predecessor := Set(predecessor, i, j, i);
        }
        j := j + 1;
      }
      WeightsNextRow(adj, distance, predecessor, i);
    }

    /** All shortest paths, by including one vertex after the other. */
    method FloydWarshall()
      requires IsCoupling(adj)
      modifies this
      ensures Calculated()
    {
      hide Table, Mirrored, Direct, IsCoupling;
      InitPredecessorAndDistance();
      DirectTable(adj, distance, predecessor);
      var k := 0;
      while k < |adj|
        invariant k <= |adj| && Table(adj, distance, predecessor, k) && Mirrored(adj, distance, predecessor, k)
      {
        ghost var d, p := distance, predecessor;
        Include(k);
        RelaxedTable(adj, d, p, distance, predecessor, k);
        RelaxedMirrored(adj, d, p, distance, predecessor, k);
        k := k + 1;
      }
    }

    /** Allows vertex k on the way, entry by entry and in place. */
    method Include(k: nat)
      requires k < |adj| && Table(adj, distance, predecessor, k)
      modifies this
      ensures Relaxed(old(distance), old(predecessor), distance, predecessor, k, |adj|)
    {
      ghost var d, p := distance, predecessor;
      ZeroDiagonal(adj, d, p, k);
      hide Table;
      var i, n := 0, |adj|;
      NothingRelaxed(d, p, k, n);
      while i < n
        invariant i <= n == |adj| && PartlyRelaxed(d, p, distance, predecessor, k, i, 0, n)
      {
        var j := 0;
        while j < n
          invariant j <= n && PartlyRelaxed(d, p, distance, predecessor, k, i, j, n)
        {
          PivotKept(d, p, distance, predecessor, k, i, j, n);
          OneMoreRelaxed(d, p, distance, predecessor, k, i, j, n);
          if Shorter(distance, k, i, j) {
            var dist, pred := At(distance, i, k) + At(distance, k, j), At(predecessor, k, j);
            distance := Set(distance, i, j, dist);
            predecessor := Set(predecessor, i, j, pred);
          }
          j := j + 1;
        }
        RelaxedNextRow(d, p, distance, predecessor, k, i, n);
        i := i + 1;
      }
      AllRelaxed(d, p, distance, predecessor, k, n);
    }
  }

  /** Vertex k is at distance zero from itself, so its own row and column do not change. */
  ghost predicate Pivot(d: Matrix, k: nat, n: nat) {
    Square(d, n) && k < n && At(d, k, k) == 0
  }

  lemma ZeroDiagonal(adj: seq<seq<nat>>, d: Matrix, p: Matrix, k: nat)
    requires Table(adj, d, p, k) && k < |adj|
    ensures Pivot(d, k, |adj|) && Square(p, |adj|)
  {
    assert DistanceOk(adj, d, k, k);
  }

  /** Entries before (i, j) are relaxed, the others untouched. */
  ghost predicate PartlyRelaxed(d: Matrix, p: Matrix, d': Matrix, p': Matrix, k: nat, i: nat, j: nat, n: nat) {
    && Pivot(d, k, n) && Square(p, n) && Square(d', n) && Square(p', n)
    && forall a: nat, b: nat {:trigger At(d', a, b)} {:trigger At(p', a, b)} :: a < n && b < n ==>
         if a < i || (a == i && b < j) then RelaxedAt(d, p, d', p', k, a, b)
         else At(d', a, b) == At(d, a, b) && At(p', a, b) == At(p, a, b)
  }

  lemma PivotKept(d: Matrix, p: Matrix, d': Matrix, p': Matrix, k: nat, i: nat, j: nat, n: nat)
    requires PartlyRelaxed(d, p, d', p', k, i, j, n) && i < n && j < n
    ensures At(d', i, k) == At(d, i, k) && At(d', k, j) == At(d, k, j) && At(p', k, j) == At(p, k, j)
    ensures At(d', i, j) == At(d, i, j) && At(p', i, j) == At(p, i, j)
  {
  }

  lemma NothingRelaxed(d: Matrix, p: Matrix, k: nat, n: nat)
    requires Pivot(d, k, n) && Square(p, n)
    ensures PartlyRelaxed(d, p, d, p, k, 0, 0, n)
  {
  }

  lemma RelaxedNextRow(d: Matrix, p: Matrix, d': Matrix, p': Matrix, k: nat, i: nat, n: nat)
    requires PartlyRelaxed(d, p, d', p', k, i, n, n)
    ensures PartlyRelaxed(d, p, d', p', k, i + 1, 0, n)
  {
    forall a: nat, b: nat | a < n && b < n
      ensures if a < i + 1 then RelaxedAt(d, p, d', p', k, a, b) else At(d', a, b) == At(d, a, b) && At(p', a, b) == At(p, a, b)
    {
      assert At(d', a, b) <= At(d', a, b) && (a < i + 1 <==> a < i || (a == i && b < n));
    }
  }

  lemma AllRelaxed(d: Matrix, p: Matrix, d': Matrix, p': Matrix, k: nat, n: nat)
    requires PartlyRelaxed(d, p, d', p', k, n, 0, n)
    ensures Relaxed(d, p, d', p', k, n)
  {
    forall a: nat, b: nat | a < n && b < n
      ensures RelaxedAt(d, p, d', p', k, a, b)
    {
      assert At(d', a, b) <= At(d', a, b);
    }
  }

  lemma OneMoreRelaxed(d: Matrix, p: Matrix, d': Matrix, p': Matrix, k: nat, i: nat, j: nat, n: nat)
    requires PartlyRelaxed(d, p, d', p', k, i, j, n) && i < n && j < n
    ensures var e := Set(d', i, j, At(d', i, k) + At(d', k, j));
            Shorter(d', k, i, j) ==> PartlyRelaxed(d, p, e, Set(p', i, j, At(p', k, j)), k, i, j + 1, n)
    ensures !Shorter(d', k, i, j) ==> PartlyRelaxed(d, p, d', p', k, i, j + 1, n)
  {
    PivotKept(d, p, d', p', k, i, j, n);
    var better := Shorter(d', k, i, j);
    var e := if better then Set(d', i, j, At(d', i, k) + At(d', k, j)) else d';
    var q := if better then Set(p', i, j, At(p', k, j)) else p';
    forall a: nat, b: nat | a < n && b < n
      ensures if a < i || (a == i && b < j + 1) then RelaxedAt(d, p, e, q, k, a, b)
              else At(e, a, b) == At(d, a, b) && At(q, a, b) == At(p, a, b)
    {
      if a == i && b == j {
        assert RelaxedAt(d, p, e, q, k, a, b);
      } else {
        assert At(e, a, b) == At(d', a, b) && At(q, a, b) == At(p', a, b);
      }
    }
  }
}
