/** The two-source best-first search: two trees grow from the operands until they meet. */
module DuostraSearch {
  import opened Collections
  import opened Topologies
  import opened Schedules
  import opened Devices

  // ---------------------------------------------------------------- the queue

  datatype Node = Node(cost: nat, id: nat, source: bool)

  /** The smaller cost goes first, then the smaller id. */
  predicate GoesFirst(a: Node, b: Node) {
    if a.cost == b.cost then a.id <= b.id else a.cost < b.cost
  }

  /** The position of the first among the first n. */
  function Top(queue: seq<Node>, n: nat): (k: nat)
    requires 1 <= n <= |queue|
    ensures k < n && forall i :: 0 <= i < n ==> GoesFirst(queue[k], queue[i])
  {
    if n == 1 then 0
    else
      var k := Top(queue, n - 1);
      if GoesFirst(queue[k], queue[n - 1]) then k else n - 1
  }

  method PopTop(queue: seq<Node>) returns (top: Node, rest: seq<Node>)
    requires queue != []
    ensures var k := Top(queue, |queue|); top == queue[k] && rest == Without(queue, k)
    ensures forall i :: 0 <= i < |queue| ==> GoesFirst(top, queue[i])
  {
    var best, i := 0, 1;
    while i < |queue|
      invariant 1 <= i <= |queue| && best == Top(queue, i)
    {
      if !GoesFirst(queue[best], queue[i]) {
        best := i;
      }
      i := i + 1;
    }
    return queue[best], Without(queue, best);
  }

  // ---------------------------------------------------------------- the trees

  /** When qubit q can have been swapped with its parent. */
  function SwapStart(qs: seq<Qubit>, q: nat): nat
    requires q < |qs| && qs[q].pred < |qs|
  {
    Max(qs[qs[q].pred].cost, qs[q].occupied)
  }

  /** A root stands for itself; any other marked qubit hangs on a taken neighbour of its tree. */
  ghost predicate TreeAt(adj: seq<seq<nat>>, qs: seq<Qubit>, q: nat)
    requires |qs| == |adj| && q < |adj|
  {
    && (qs[q].taken ==> qs[q].marked)
    && (qs[q].marked ==> qs[q].pred < |adj|)
    && (qs[q].marked && qs[q].pred == q ==> qs[q].taken && qs[q].cost == qs[q].occupied)
    && (qs[q].marked && qs[q].pred != q ==>
          && Coupled(adj, qs[q].pred, q) && qs[qs[q].pred].taken && qs[qs[q].pred].source == qs[q].source
          && (qs[q].taken ==> qs[q].swapTime == SwapStart(qs, q) && qs[q].cost == qs[q].swapTime + SWAP_DELAY))
  }

  ghost predicate Trees(adj: seq<seq<nat>>, qs: seq<Qubit>, t0: nat, t1: nat) {
    && |qs| == |adj| && t0 < |adj| && t1 < |adj| && t0 != t1
    && (forall q: nat :: q < |adj| ==> TreeAt(adj, qs, q))
    && RootAt(qs, t0, false) && RootAt(qs, t1, true)
    && (forall q: nat :: q < |adj| && qs[q].marked && qs[q].pred == q ==> q == t0 || q == t1)
  }

  ghost predicate RootAt(qs: seq<Qubit>, t: nat, source: bool)
    requires t < |qs|
  {
    qs[t].marked && qs[t].taken && qs[t].pred == t && qs[t].source == source
  }

  /** The queue holds each marked qubit that is not taken, once, with the time its swap would end. */
  ghost predicate QueueOk(qs: seq<Qubit>, queue: seq<Node>, least: nat) {
    && (forall i :: 0 <= i < |queue| ==> NodeOk(qs, queue[i], least))
    && (forall i, j :: 0 <= i < j < |queue| ==> queue[i].id != queue[j].id)
    && (forall q: nat :: q < |qs| && qs[q].marked && !qs[q].taken ==> Queued(queue, q))
  }

  ghost predicate NodeOk(qs: seq<Qubit>, x: Node, least: nat) {
    && x.id < |qs| && qs[x.id].marked && !qs[x.id].taken && x.source == qs[x.id].source
    && qs[x.id].pred < |qs| && x.cost == SwapStart(qs, x.id) + SWAP_DELAY && x.cost >= least
  }

  ghost predicate Queued(queue: seq<Node>, q: nat) {
    exists i :: 0 <= i < |queue| && queue[i].id == q
  }

  /** All neighbours of u are marked, and the taken ones belong to its own tree. */
  ghost predicate Touched(adj: seq<seq<nat>>, qs: seq<Qubit>, u: nat)
    requires |qs| == |adj|
  {
    forall v: nat :: v < |adj| && Coupled(adj, u, v) ==> qs[v].marked && (qs[v].taken ==> qs[v].source == qs[u].source)
  }

  ghost predicate AllTouched(adj: seq<seq<nat>>, qs: seq<Qubit>)
    requires |qs| == |adj|
  {
    forall u: nat :: u < |adj| && qs[u].taken ==> Touched(adj, qs, u)
  }

  /** Only qubits that were not marked may have been marked, and none of them is taken. */
  ghost predicate MoreMarks(qs: seq<Qubit>, qs': seq<Qubit>) {
    && |qs| == |qs'|
    && forall q :: 0 <= q < |qs| ==>
         && qs'[q].logical == qs[q].logical && qs'[q].occupied == qs[q].occupied && qs'[q].cost == qs[q].cost
         && qs'[q].taken == qs[q].taken && (qs[q].marked ==> qs'[q] == qs[q])
  }

  lemma MoreMarksTouched(adj: seq<seq<nat>>, qs: seq<Qubit>, qs': seq<Qubit>, u: nat)
    requires |qs| == |adj| && MoreMarks(qs, qs') && u < |adj| && qs[u].marked && Touched(adj, qs, u)
    ensures Touched(adj, qs', u)
  {
    forall v: nat | v < |adj| && Coupled(adj, u, v)
      ensures qs'[v].marked && (qs'[v].taken ==> qs'[v].source == qs'[u].source)
    {
      assert qs[v].marked;
    }
  }

  // ---------------------------------------------------------------- the queue cannot run dry

  /** If everything marked is taken and touched, a walk from a taken qubit stays within its tree. */
  lemma {:induction false} WalkStaysInTree(adj: seq<seq<nat>>, qs: seq<Qubit>, w: seq<nat>, a: nat, b: nat)
    requires |qs| == |adj| && AllTouched(adj, qs) && IsWalk(adj, w, a, b) && qs[a].taken
    requires forall q: nat :: q < |adj| && qs[q].marked ==> qs[q].taken
    ensures qs[b].taken && qs[b].source == qs[a].source
    decreases |w|
  {
    if |w| > 1 {
      var m := |w| - 2;
      ShorterWalk(adj, w, a, b);
      WalkStaysInTree(adj, qs, w[..|w| - 1], a, w[m]);
      assert StepOfWalk(adj, w, m);
      assert Touched(adj, qs, w[m]);
    }
  }

  /** On a connected device something is queued as long as the trees have not met. */
  lemma QueueNotEmpty(adj: seq<seq<nat>>, qs: seq<Qubit>, queue: seq<Node>, least: nat, t0: nat, t1: nat)
    requires Connected(adj) && Trees(adj, qs, t0, t1) && QueueOk(qs, queue, least) && AllTouched(adj, qs)
    ensures queue != []
  {
    if queue == [] {
      forall q: nat | q < |adj| && qs[q].marked
        ensures qs[q].taken
      {
      }
      assert Linked(adj, t0, t1);
      var w :| IsWalk(adj, w, t0, t1);
      WalkStaysInTree(adj, qs, w, t0, t1);
      assert false;
    }
  }

  // ---------------------------------------------------------------- touching the neighbours

  /** Marks v as seen from u. */
  function Mark(qs: seq<Qubit>, u: nat, v: nat, source: bool): (r: seq<Qubit>)
    ensures |r| == |qs|
  {
    Changed(qs, v, QubitAt(qs, v).(marked := true, source := source, pred := u))
  }

  datatype Touch = Touch(met: bool, other: nat, queue: seq<Node>, qubits: seq<Qubit>)

  /** Marks and queues the unseen neighbours of u from the k-th on, until one turns out to be of the other tree. */
  function TouchFrom(adj: seq<seq<nat>>, qs: seq<Qubit>, queue: seq<Node>, u: nat, source: bool, k: nat): Touch
    decreases if u < |adj| && k <= |adj[u]| then |adj[u]| - k else 0
  {
    if u >= |adj| || k >= |adj[u]| then Touch(false, 0, queue, qs)
    else
      var v := adj[u][k];
      if QubitAt(qs, v).marked then
        if QubitAt(qs, v).taken && QubitAt(qs, v).source != source then Touch(true, v, queue, qs)
        else TouchFrom(adj, qs, queue, u, source, k + 1)
      else
        var cost := Max(QubitAt(qs, u).cost, QubitAt(qs, v).occupied) + SWAP_DELAY;
        TouchFrom(adj, Mark(qs, u, v, source), queue + [Node(cost, v, source)], u, source, k + 1)
  }

  lemma MarkKeeps(adj: seq<seq<nat>>, qs: seq<Qubit>, queue: seq<Node>, least: nat, t0: nat, t1: nat, u: nat, v: nat)
    requires IsCoupling(adj) && Trees(adj, qs, t0, t1) && QueueOk(qs, queue, least) && u < |adj| && Coupled(adj, u, v)
    requires qs[u].taken && least <= qs[u].cost + SWAP_DELAY && v < |adj| && !qs[v].marked
    ensures var qs' := Mark(qs, u, v, qs[u].source);
            var x := Node(Max(qs[u].cost, qs[v].occupied) + SWAP_DELAY, v, qs[u].source);
            && Trees(adj, qs', t0, t1) && QueueOk(qs', queue + [x], least) && MoreMarks(qs, qs')
  {
    var qs' := Mark(qs, u, v, qs[u].source);
    var x := Node(Max(qs[u].cost, qs[v].occupied) + SWAP_DELAY, v, qs[u].source);
    assert TreeAt(adj, qs, v) && u != v;
    MarkKeepsTrees(adj, qs, t0, t1, u, v);
    hide Trees, TreeAt, Queued, IsCoupling;
    MarkKeepsNodes(qs, queue, least, u, v);
    forall q: nat | q < |qs| && qs'[q].marked && !qs'[q].taken
      ensures Queued(queue + [x], q)
    {
      QueuedMore(queue, x, q);
    }
  }

  lemma MarkKeepsNodes(qs: seq<Qubit>, queue: seq<Node>, least: nat, u: nat, v: nat)
    requires QueueOk(qs, queue, least) && u < |qs| && v < |qs| && u != v && !qs[v].marked && !qs[v].taken && qs[u].taken
    requires least <= qs[u].cost + SWAP_DELAY
    ensures var x := Node(Max(qs[u].cost, qs[v].occupied) + SWAP_DELAY, v, qs[u].source);
            && (forall i :: 0 <= i < |queue + [x]| ==> NodeOk(Mark(qs, u, v, qs[u].source), (queue + [x])[i], least))
            && (forall i, j :: 0 <= i < j < |queue + [x]| ==> (queue + [x])[i].id != (queue + [x])[j].id)
  {
    var x := Node(Max(qs[u].cost, qs[v].occupied) + SWAP_DELAY, v, qs[u].source);
    forall i | 0 <= i < |queue|
      ensures NodeOk(Mark(qs, u, v, qs[u].source), queue[i], least) && queue[i].id != v
    {
      assert NodeOk(qs, queue[i], least);
    }
  }

  lemma QueuedMore(queue: seq<Node>, x: Node, q: nat)
    ensures Queued(queue, q) || q == x.id ==> Queued(queue + [x], q)
  {
    if q == x.id {
      assert (queue + [x])[|queue|].id == q;
    } else if Queued(queue, q) {
      var i :| 0 <= i < |queue| && queue[i].id == q;
      assert (queue + [x])[i].id == q;
    }
  }

  lemma MarkKeepsTrees(adj: seq<seq<nat>>, qs: seq<Qubit>, t0: nat, t1: nat, u: nat, v: nat)
    requires IsCoupling(adj) && Trees(adj, qs, t0, t1) && u < |adj| && Coupled(adj, u, v) && qs[u].taken && v < |adj| && !qs[v].marked
    ensures Trees(adj, Mark(qs, u, v, qs[u].source), t0, t1)
  {
    var qs' := Mark(qs, u, v, qs[u].source);
    assert TreeAt(adj, qs, v) && TreeAt(adj, qs, u);
    forall q: nat | q < |adj|
      ensures TreeAt(adj, qs', q)
    {
      assert TreeAt(adj, qs, q);
      if q != v && qs[q].marked && qs[q].pred == v {
        assert false;
      }
    }
  }

  ghost predicate SeenFrom(adj: seq<seq<nat>>, qs: seq<Qubit>, u: nat, v: nat) {
    u < |qs| && v < |qs| && qs[v].marked && (qs[v].taken ==> qs[v].source == qs[u].source)
  }

  /** Touching keeps the trees and the queue; either all neighbours of u have been seen or it has met the other tree. */
  lemma {:induction false} TouchKeeps(adj: seq<seq<nat>>, qs: seq<Qubit>, queue: seq<Node>, least: nat, t0: nat, t1: nat, u: nat, source: bool, k: nat)
    requires IsCoupling(adj) && Trees(adj, qs, t0, t1) && QueueOk(qs, queue, least) && u < |adj| && k <= |adj[u]|
    requires |qs| == |adj| && qs[u].taken && qs[u].source == source && least <= qs[u].cost + SWAP_DELAY
    requires forall j :: 0 <= j < k ==> SeenFrom(adj, qs, u, adj[u][j])
    ensures var r := TouchFrom(adj, qs, queue, u, source, k);
            && Trees(adj, r.qubits, t0, t1) && QueueOk(r.qubits, r.queue, least) && MoreMarks(qs, r.qubits)
            && if r.met then TouchMeets(adj, r.qubits, u, r.other) else Touched(adj, r.qubits, u)
    decreases |adj[u]| - k
  {
    hide Trees, QueueOk, MoreMarks, SeenFrom, Mark, IsCoupling;
    MoreMarksSelf(qs);
    if k == |adj[u]| {
      AllSeen(adj, qs, u);
    } else {
      var v := adj[u][k];
      TakenIsMarked(adj, qs, t0, t1, u);
      NeighbourInRange(adj, u, k);
      if qs[v].marked {
        if !(qs[v].taken && qs[v].source != source) {
          assert SeenFrom(adj, qs, u, v) by { SeenNow(adj, qs, u, v); }
          TouchKeeps(adj, qs, queue, least, t0, t1, u, source, k + 1);
        }
      } else {
        UnmarkedIsNotTaken(adj, qs, t0, t1, v);
        MarkKeeps(adj, qs, queue, least, t0, t1, u, v);
        var qs' := Mark(qs, u, v, source);
        MarkedNow(adj, qs, u, v, source);
        SeenStays(adj, qs, qs', u, k);
        TouchKeeps(adj, qs', queue + [Node(Max(qs[u].cost, qs[v].occupied) + SWAP_DELAY, v, source)], least, t0, t1, u, source, k + 1);
        MoreMarksThrough(qs, qs', TouchFrom(adj, qs, queue, u, source, k).qubits);
      }
    }
  }

  /** The neighbour is taken in the other tree. */
  ghost predicate TouchMeets(adj: seq<seq<nat>>, qs: seq<Qubit>, u: nat, other: nat) {
    u < |qs| && other < |qs| && Coupled(adj, u, other) && qs[other].taken && qs[other].source != qs[u].source
  }

  lemma NeighbourInRange(adj: seq<seq<nat>>, u: nat, k: nat)
    requires IsCoupling(adj) && u < |adj| && k < |adj[u]|
    ensures adj[u][k] < |adj| && adj[u][k] != u && Coupled(adj, u, adj[u][k])
  {
    assert Coupled(adj, u, adj[u][k]);
  }

  lemma SeenNow(adj: seq<seq<nat>>, qs: seq<Qubit>, u: nat, v: nat)
    requires u < |qs| && v < |qs| && qs[v].marked && (qs[v].taken ==> qs[v].source == qs[u].source)
    ensures SeenFrom(adj, qs, u, v)
  {
  }

  lemma MarkedNow(adj: seq<seq<nat>>, qs: seq<Qubit>, u: nat, v: nat, source: bool)
    requires u < |qs| && v < |qs| && u != v && !qs[v].taken
    ensures Mark(qs, u, v, source)[u] == qs[u] && SeenFrom(adj, Mark(qs, u, v, source), u, v)
  {
  }

  lemma AllSeen(adj: seq<seq<nat>>, qs: seq<Qubit>, u: nat)
    requires |qs| == |adj| && u < |adj| && forall j :: 0 <= j < |adj[u]| ==> SeenFrom(adj, qs, u, adj[u][j])
    ensures Touched(adj, qs, u)
  {
    forall v: nat | v < |adj| && Coupled(adj, u, v)
      ensures qs[v].marked && (qs[v].taken ==> qs[v].source == qs[u].source)
    {
      var j :| 0 <= j < |adj[u]| && adj[u][j] == v;
      assert SeenFrom(adj, qs, u, adj[u][j]);
    }
  }

  lemma MarksKeepState(qs: seq<Qubit>, qs': seq<Qubit>)
    requires MoreMarks(qs, qs')
    ensures SnapshotOf(qs') == SnapshotOf(qs)
  {
    assert SnapshotOf(qs').occupied == SnapshotOf(qs).occupied && SnapshotOf(qs').logical == SnapshotOf(qs).logical;
  }

  /** Marks and queues the unseen neighbours of u, until one of them turns out to be of the other tree. */
  method TouchAdjacency(device: Device, queue: seq<Node>, u: nat, source: bool, ghost least: nat, ghost t0: nat, ghost t1: nat)
    returns (met: bool, other: nat, more: seq<Node>)
    requires device.Valid() && Trees(device.adj, device.qubits, t0, t1) && QueueOk(device.qubits, queue, least)
    requires u < |device.adj| && device.qubits[u].taken && device.qubits[u].source == source && least <= device.qubits[u].cost + SWAP_DELAY
    modifies device`qubits
    ensures device.Valid() && device.Snapshot() == old(device.Snapshot())
    ensures Trees(device.adj, device.qubits, t0, t1) && QueueOk(device.qubits, more, least)
    ensures MoreMarks(old(device.qubits), device.qubits)
    ensures if met then TouchMeets(device.adj, device.qubits, u, other) else Touched(device.adj, device.qubits, u)
    ensures Touch(met, other, more, device.qubits) == TouchFrom(device.adj, old(device.qubits), queue, u, source, 0)
  {
    hide Trees, QueueOk, MoreMarks, TouchMeets, Touched;
    TouchKeeps(device.adj, device.qubits, queue, least, t0, t1, u, source, 0);
    more := queue;
    var k := 0;
    while k < |device.adj[u]|
      invariant k <= |device.adj[u]| && device.Valid() && device.Snapshot() == old(device.Snapshot())
      invariant TouchFrom(device.adj, device.qubits, more, u, source, k) == TouchFrom(device.adj, old(device.qubits), queue, u, source, 0)
    {
      var v := device.adj[u][k];
      assert Coupled(device.adj, u, v);
      if device.qubits[v].marked {
        if device.qubits[v].taken && device.qubits[v].source != source {
          return true, v, more;
        }
      } else {
        var cost := Max(device.qubits[u].cost, device.qubits[v].occupied) + SWAP_DELAY;
        device.MarkQubit(v, source, u);
        more := more + [Node(cost, v, source)];
      }
      k := k + 1;
    }
    return false, 0, more;
  }

  lemma SeenStays(adj: seq<seq<nat>>, qs: seq<Qubit>, qs': seq<Qubit>, u: nat, k: nat)
    requires u < |adj| && k <= |adj[u]| && u < |qs| && qs[u].marked && MoreMarks(qs, qs')
    requires forall j :: 0 <= j < k ==> SeenFrom(adj, qs, u, adj[u][j])
    ensures forall j :: 0 <= j < k ==> SeenFrom(adj, qs', u, adj[u][j])
  {
    forall j | 0 <= j < k
      ensures SeenFrom(adj, qs', u, adj[u][j])
    {
      assert SeenFrom(adj, qs, u, adj[u][j]);
    }
  }

  lemma MoreMarksSelf(qs: seq<Qubit>)
    ensures MoreMarks(qs, qs)
  {
  }

  lemma MoreMarksThrough(a: seq<Qubit>, b: seq<Qubit>, c: seq<Qubit>)
    requires MoreMarks(a, b) && MoreMarks(b, c)
    ensures MoreMarks(a, c)
  {
  }

  lemma TakenIsMarked(adj: seq<seq<nat>>, qs: seq<Qubit>, t0: nat, t1: nat, u: nat)
    requires Trees(adj, qs, t0, t1) && u < |adj| && qs[u].taken
    ensures qs[u].marked
  {
    assert TreeAt(adj, qs, u);
  }

  lemma UnmarkedIsNotTaken(adj: seq<seq<nat>>, qs: seq<Qubit>, t0: nat, t1: nat, v: nat)
    requires Trees(adj, qs, t0, t1) && v < |adj| && !qs[v].marked
    ensures !qs[v].taken
  {
    assert TreeAt(adj, qs, v);
  }

  // ---------------------------------------------------------------- taking the best qubit

  lemma TakeKeepsTrees(adj: seq<seq<nat>>, qs: seq<Qubit>, t0: nat, t1: nat, x: Node)
    requires Trees(adj, qs, t0, t1) && x.id < |qs| && qs[x.id].marked && !qs[x.id].taken && qs[x.id].pred < |qs|
    requires x.cost == SwapStart(qs, x.id) + SWAP_DELAY
    ensures Trees(adj, Taken(qs, x), t0, t1)
  {
    assert TreeAt(adj, qs, x.id);
    forall q: nat | q < |adj|
      ensures TreeAt(adj, Taken(qs, x), q)
    {
      assert TreeAt(adj, qs, q);
      assert q != x.id && qs[q].marked ==> qs[q].pred != x.id;
    }
  }

  /** What the top of the queue says about its qubit. */
  lemma TopFacts(qs: seq<Qubit>, queue: seq<Node>, least: nat, k: nat)
    requires QueueOk(qs, queue, least) && k < |queue|
    ensures var x := queue[k];
            && x.id < |qs| && x.cost >= SWAP_DELAY && x.cost >= least && qs[x.id].marked && !qs[x.id].taken && x.source == qs[x.id].source
            && qs[x.id].pred < |qs| && x.cost == SwapStart(qs, x.id) + SWAP_DELAY
  {
    assert NodeOk(qs, queue[k], least);
  }

  function Taken(qs: seq<Qubit>, x: Node): (r: seq<Qubit>)
    ensures |r| == |qs|
  {
    Changed(qs, x.id, QubitAt(qs, x.id).(cost := x.cost, swapTime := if x.cost >= SWAP_DELAY then x.cost - SWAP_DELAY else 0, taken := true))
  }

  function Without(queue: seq<Node>, k: nat): (r: seq<Node>)
    requires k < |queue|
    ensures |r| == |queue| - 1 && forall i :: 0 <= i < |r| ==> r[i] == queue[if i < k then i else i + 1]
  {
    queue[..k] + queue[k + 1..]
  }

  lemma OtherNodeKept(adj: seq<seq<nat>>, qs: seq<Qubit>, t0: nat, t1: nat, x: Node, y: Node, least: nat)
    requires Trees(adj, qs, t0, t1) && NodeOk(qs, x, least) && NodeOk(qs, y, least) && x.id != y.id && GoesFirst(x, y)
    ensures x.cost >= SWAP_DELAY && NodeOk(Taken(qs, x), y, x.cost)
  {
    assert TreeAt(adj, qs, y.id);
    hide Trees;
    assert qs[y.id].pred != x.id;
  }

  lemma TakeKeepsQueue(adj: seq<seq<nat>>, qs: seq<Qubit>, queue: seq<Node>, least: nat, t0: nat, t1: nat, k: nat)
    requires Trees(adj, qs, t0, t1) && QueueOk(qs, queue, least) && k < |queue| && forall i :: 0 <= i < |queue| ==> GoesFirst(queue[k], queue[i])
    requires queue[k].id < |qs| && queue[k].cost >= SWAP_DELAY
    ensures QueueOk(Taken(qs, queue[k]), Without(queue, k), queue[k].cost)
  {
    hide Trees, NodeOk, Queued, GoesFirst;
    var x, rest := queue[k], Without(queue, k);
    forall i | 0 <= i < |rest|
      ensures NodeOk(Taken(qs, x), rest[i], x.cost)
    {
      OtherNodeKept(adj, qs, t0, t1, x, rest[i], least);
    }
    forall q: nat | q < |qs| && Taken(qs, x)[q].marked && !Taken(qs, x)[q].taken
      ensures Queued(rest, q)
    {
      QueuedStill(queue, k, q);
    }
  }

  lemma QueuedStill(queue: seq<Node>, k: nat, q: nat)
    requires k < |queue| && Queued(queue, q) && queue[k].id != q
    ensures Queued(Without(queue, k), q)
  {
    var i :| 0 <= i < |queue| && queue[i].id == q;
    assert Without(queue, k)[if i < k then i else i - 1].id == q;
  }

  /** The qubits not taken yet. */
  function Untaken(qs: seq<Qubit>): nat {
    if qs == [] then 0 else (if qs[0].taken then 0 else 1) + Untaken(qs[1..])
  }

  lemma {:induction false} TakingOne(qs: seq<Qubit>, qs': seq<Qubit>, x: nat)
    requires |qs| == |qs'| && x < |qs| && !qs[x].taken && qs'[x].taken
    requires forall q :: 0 <= q < |qs| && q != x ==> qs'[q].taken == qs[q].taken
    ensures Untaken(qs') == Untaken(qs) - 1
    decreases x
  {
    if x > 0 {
      TakingOne(qs[1..], qs'[1..], x - 1);
    } else {
      SameUntaken(qs[1..], qs'[1..]);
    }
  }

  lemma {:induction false} SameUntaken(qs: seq<Qubit>, qs': seq<Qubit>)
    requires |qs| == |qs'| && forall q :: 0 <= q < |qs| ==> qs'[q].taken == qs[q].taken
    ensures Untaken(qs') == Untaken(qs)
  {
    if qs != [] {
      SameUntaken(qs[1..], qs'[1..]);
    }
  }

  // ---------------------------------------------------------------- the search

  /** Two neighbours, one taken in each tree. */
  ghost predicate Meet(adj: seq<seq<nat>>, qs: seq<Qubit>, q0: nat, q1: nat) {
    && q0 < |qs| && q1 < |qs| && Coupled(adj, q0, q1) && qs[q0].taken && qs[q1].taken && !qs[q0].source && qs[q1].source
  }

  ghost predicate Popped(qs: seq<Qubit>, popped: seq<Node>, least: nat) {
    && (forall i :: 0 <= i < |popped| ==> popped[i].id < |qs| && qs[popped[i].id].taken && popped[i].cost <= least)
    && (forall i, j :: 0 <= i < j < |popped| ==> popped[i].cost <= popped[j].cost && popped[i].id != popped[j].id)
  }

  lemma PoppedMore(qs: seq<Qubit>, qs': seq<Qubit>, popped: seq<Node>, least: nat, x: Node)
    requires Popped(qs, popped, least) && x.id < |qs| && !qs[x.id].taken && least <= x.cost && |qs'| == |qs|
    requires qs'[x.id].taken && forall q :: 0 <= q < |qs| && qs[q].taken ==> qs'[q].taken
    ensures Popped(qs', popped + [x], x.cost)
  {
  }

  lemma PoppedKept(qs: seq<Qubit>, qs': seq<Qubit>, popped: seq<Node>, least: nat)
    requires Popped(qs, popped, least) && MoreMarks(qs, qs')
    ensures Popped(qs', popped, least)
  {
  }

  /** Touching u keeps what other taken qubits have seen. */
  lemma TouchedMore(adj: seq<seq<nat>>, qs: seq<Qubit>, taken: seq<Qubit>, qs': seq<Qubit>, t0: nat, t1: nat, x: nat)
    requires IsCoupling(adj) && |qs| == |taken| == |adj| && AllTouched(adj, qs) && x < |adj| && Trees(adj, taken, t0, t1)
    requires taken[x].taken && taken[x].marked && taken[x].source == qs[x].source && qs[x].marked
    requires forall q :: 0 <= q < |qs| && q != x ==> taken[q] == qs[q]
    requires MoreMarks(taken, qs') && Touched(adj, qs', x)
    ensures AllTouched(adj, qs')
  {
    forall u: nat | u < |adj| && qs'[u].taken
      ensures Touched(adj, qs', u)
    {
      if u != x {
        assert qs[u].taken && Touched(adj, qs, u);
        forall v: nat | v < |adj| && Coupled(adj, u, v)
          ensures qs'[v].marked && (qs'[v].taken ==> qs'[v].source == qs'[u].source)
        {
          TakenIsMarked(adj, taken, t0, t1, u);
          if v == x {
            assert Coupled(adj, x, u);
          }
        }
      }
    }
  }

  // ---------------------------------------------------------------- the search as a function

  /** A search: whether and where the trees have met, the queue and the qubits. */
  datatype Hunt = Hunt(met: bool, q0: nat, q1: nat, queue: seq<Node>, qubits: seq<Qubit>)

  /** Takes the qubit that comes first in the queue and touches its neighbours. */
  function AdvanceOne(adj: seq<seq<nat>>, h: Hunt): Hunt {
    if h.queue == [] then h
    else
      var k := Top(h.queue, |h.queue|);
      var next := h.queue[k];
      var t := TouchFrom(adj, Taken(h.qubits, next), Without(h.queue, k), next.id, next.source, 0);
      if !t.met then Hunt(false, h.q0, h.q1, t.queue, t.qubits)
      else if next.source then Hunt(true, t.other, next.id, t.queue, t.qubits)
      else Hunt(true, next.id, t.other, t.queue, t.qubits)
  }

  function SearchOn(adj: seq<seq<nat>>, h: Hunt, steps: nat): Hunt
    decreases steps
  {
    if h.met || steps == 0 then h else SearchOn(adj, AdvanceOne(adj, h), steps - 1)
  }

  /** The root of a tree. */
  function Rooted(qs: seq<Qubit>, t: nat, source: bool): (r: seq<Qubit>)
    ensures |r| == |qs|
  {
    Changed(qs, t, QubitAt(qs, t).(marked := true, source := source, pred := t, swapTime := 0, taken := true))
  }

  function Planted(qs: seq<Qubit>, t0: nat, t1: nat): (r: seq<Qubit>)
    ensures |r| == |qs|
  {
    Rooted(Rooted(qs, t0, false), t1, true)
  }

  /** Both roots planted and touched. */
  function SearchStart(adj: seq<seq<nat>>, qs: seq<Qubit>, t0: nat, t1: nat): Hunt {
    var a := TouchFrom(adj, Planted(qs, t0, t1), [], t0, false, 0);
    var b := TouchFrom(adj, a.qubits, a.queue, t1, true, 0);
    Hunt(a.met, t0, t1, b.queue, b.qubits)
  }

  function SearchAll(adj: seq<seq<nat>>, qs: seq<Qubit>, t0: nat, t1: nat): Hunt {
    SearchOn(adj, SearchStart(adj, qs, t0, t1), |qs|)
  }

  /** What every step of a search keeps. */
  ghost predicate HuntOk(adj: seq<seq<nat>>, t0: nat, t1: nat, h: Hunt, popped: seq<Node>, least: nat) {
    && Trees(adj, h.qubits, t0, t1) && |h.qubits| == |adj| && QueueOk(h.qubits, h.queue, least) && Popped(h.qubits, popped, least)
    && if h.met then Meet(adj, h.qubits, h.q0, h.q1) else AllTouched(adj, h.qubits)
  }

  lemma RootedKeepsState(qs: seq<Qubit>, t0: nat, t1: nat)
    ensures SnapshotOf(Planted(qs, t0, t1)) == SnapshotOf(qs)
  {
    assert SnapshotOf(Planted(qs, t0, t1)).occupied == SnapshotOf(qs).occupied;
    assert SnapshotOf(Planted(qs, t0, t1)).logical == SnapshotOf(qs).logical;
  }

  lemma PlantedIsOk(adj: seq<seq<nat>>, qs: seq<Qubit>, t0: nat, t1: nat)
    requires |qs| == |adj| && AtRest(qs) && t0 < |adj| && t1 < |adj| && t0 != t1
    ensures var qs' := Planted(qs, t0, t1);
            && Trees(adj, qs', t0, t1) && QueueOk(qs', [], 0)
            && forall q :: 0 <= q < |adj| ==> (qs'[q].taken <==> q == t0 || q == t1)
  {
    var qs' := Planted(qs, t0, t1);
    forall q: nat | q < |adj|
      ensures TreeAt(adj, qs', q)
    {
      assert !qs[q].marked;
    }
  }

  lemma StartIsOk(adj: seq<seq<nat>>, qs: seq<Qubit>, t0: nat, t1: nat)
    requires IsCoupling(adj) && |qs| == |adj| && AtRest(qs) && t0 < |adj| && t1 < |adj| && t0 != t1
    ensures HuntOk(adj, t0, t1, SearchStart(adj, qs, t0, t1), [], 0)
    ensures SnapshotOf(SearchStart(adj, qs, t0, t1).qubits) == SnapshotOf(qs)
  {
    hide Trees, QueueOk, Popped, IsCoupling, AllTouched, Touched, MoreMarks, Planted, TouchFrom, AtRest;
    var planted := Planted(qs, t0, t1);
    PlantedIsOk(adj, qs, t0, t1);
    RootedKeepsState(qs, t0, t1);
    RootFacts(adj, planted, t0, t1);
    TouchKeeps(adj, planted, [], 0, t0, t1, t0, false, 0);
    var a := TouchFrom(adj, planted, [], t0, false, 0);
    RootFacts(adj, a.qubits, t0, t1);
    MarksKeepState(planted, a.qubits);
    MarksSized(planted, a.qubits);
    TouchKeeps(adj, a.qubits, a.queue, 0, t0, t1, t1, true, 0);
    var b := TouchFrom(adj, a.qubits, a.queue, t1, true, 0);
    RootFacts(adj, b.qubits, t0, t1);
    MarksKeepState(a.qubits, b.qubits);
    MarksSized(a.qubits, b.qubits);
    RootsTouched(adj, planted, a.qubits, b.qubits, t0, t1, a.met, a.other, b.met, b.other);
    NothingPopped(b.qubits);
  }

  lemma MarksSized(qs: seq<Qubit>, qs': seq<Qubit>)
    requires MoreMarks(qs, qs')
    ensures |qs'| == |qs|
  {
  }

  lemma TakenKeepsState(qs: seq<Qubit>, x: Node)
    ensures SnapshotOf(Taken(qs, x)) == SnapshotOf(qs)
  {
    assert SnapshotOf(Taken(qs, x)).occupied == SnapshotOf(qs).occupied;
    assert SnapshotOf(Taken(qs, x)).logical == SnapshotOf(qs).logical;
  }

  lemma TakenFacts(qs: seq<Qubit>, x: Node)
    requires x.id < |qs|
    ensures Taken(qs, x)[x.id].taken && Taken(qs, x)[x.id].source == qs[x.id].source && Taken(qs, x)[x.id].marked == qs[x.id].marked
    ensures Taken(qs, x)[x.id].cost == x.cost
    ensures forall q :: 0 <= q < |qs| && q != x.id ==> Taken(qs, x)[q] == qs[q]
  {
  }

  lemma MarksKeepUntaken(qs: seq<Qubit>, qs': seq<Qubit>)
    requires MoreMarks(qs, qs')
    ensures Untaken(qs') == Untaken(qs)
  {
    SameUntaken(qs, qs');
  }

  /** One step: something is queued, it costs no less than what was popped before, and one qubit more is taken. */
  lemma AdvanceKeeps(adj: seq<seq<nat>>, t0: nat, t1: nat, h: Hunt, popped: seq<Node>, least: nat)
    requires IsCoupling(adj) && Connected(adj) && HuntOk(adj, t0, t1, h, popped, least) && !h.met
    ensures h.queue != []
    ensures var next := h.queue[Top(h.queue, |h.queue|)];
            && next.id < |h.qubits| && next.cost >= SWAP_DELAY && h.qubits[next.id].marked && next.source == h.qubits[next.id].source
            && Trees(adj, Taken(h.qubits, next), t0, t1)
            && QueueOk(Taken(h.qubits, next), Without(h.queue, Top(h.queue, |h.queue|)), next.cost)
            && HuntOk(adj, t0, t1, AdvanceOne(adj, h), popped + [next], next.cost)
    ensures Untaken(AdvanceOne(adj, h).qubits) < Untaken(h.qubits)
    ensures SnapshotOf(AdvanceOne(adj, h).qubits) == SnapshotOf(h.qubits)
  {
    hide Trees, QueueOk, Popped, IsCoupling, AllTouched, Touched, SwapStart, Connected, GoesFirst, MoreMarks, Taken, TouchFrom, Coupled;
    var before := h.qubits;
    QueueNotEmpty(adj, before, h.queue, least, t0, t1);
    var k := Top(h.queue, |h.queue|);
    var next, rest := h.queue[k], Without(h.queue, k);
    TopFacts(before, h.queue, least, k);
    TakeKeepsQueue(adj, before, h.queue, least, t0, t1, k);
    TakeKeepsTrees(adj, before, t0, t1, next);
    var taken := Taken(before, next);
    TakenFacts(before, next);
    TakenKeepsState(before, next);
    TakingOne(before, taken, next.id);
    PoppedMore(before, taken, popped, least, next);
    TouchKeeps(adj, taken, rest, next.cost, t0, t1, next.id, next.source, 0);
    var t := TouchFrom(adj, taken, rest, next.id, next.source, 0);
    MarksSized(taken, t.qubits);
    MarksKeepState(taken, t.qubits);
    MarksKeepUntaken(taken, t.qubits);
    PoppedKept(taken, t.qubits, popped + [next], next.cost);
    if t.met {
      MarkedStays(taken, t.qubits, next.id);
      CouplingBothWays(adj, next.id, t.other);
    } else {
      TouchedMore(adj, before, taken, t.qubits, t0, t1, next.id);
    }
  }

  lemma MarkedStays(qs: seq<Qubit>, qs': seq<Qubit>, u: nat)
    requires MoreMarks(qs, qs') && u < |qs| && qs[u].marked
    ensures qs'[u] == qs[u]
  {
  }

  /** With a step for each untaken qubit the trees meet. */
  lemma {:induction false} SearchOnMeets(adj: seq<seq<nat>>, t0: nat, t1: nat, h: Hunt, popped: seq<Node>, least: nat, steps: nat)
    returns (popped': seq<Node>, least': nat)
    requires IsCoupling(adj) && Connected(adj) && HuntOk(adj, t0, t1, h, popped, least) && Untaken(h.qubits) <= steps
    ensures HuntOk(adj, t0, t1, SearchOn(adj, h, steps), popped', least') && SearchOn(adj, h, steps).met
    ensures SnapshotOf(SearchOn(adj, h, steps).qubits) == SnapshotOf(h.qubits)
    decreases steps
  {
    hide IsCoupling, Connected, HuntOk, AdvanceOne, Taken;
    popped', least' := popped, least;
    if !h.met {
      AdvanceKeeps(adj, t0, t1, h, popped, least);
      var next := h.queue[Top(h.queue, |h.queue|)];
      popped', least' := SearchOnMeets(adj, t0, t1, AdvanceOne(adj, h), popped + [next], next.cost, steps - 1);
    }
  }

  lemma {:induction false} UntakenBound(qs: seq<Qubit>)
    ensures Untaken(qs) <= |qs|
  {
    if qs != [] {
      UntakenBound(qs[1..]);
    }
  }

  /** On a connected device the search always ends with the trees of any two qubits meeting. */
  lemma SearchAllMeets(adj: seq<seq<nat>>, qs: seq<Qubit>, t0: nat, t1: nat)
    requires IsCoupling(adj) && Connected(adj) && |qs| == |adj| && AtRest(qs) && t0 < |adj| && t1 < |adj| && t0 != t1
    ensures var h := SearchAll(adj, qs, t0, t1);
            && Trees(adj, h.qubits, t0, t1) && Meet(adj, h.qubits, h.q0, h.q1) && SnapshotOf(h.qubits) == SnapshotOf(qs)
  {
    hide IsCoupling, Connected, AtRest, SearchStart, SearchOn, Trees, QueueOk, Popped, AllTouched, Meet;
    StartIsOk(adj, qs, t0, t1);
    var start := SearchStart(adj, qs, t0, t1);
    SameSize(start.qubits, qs);
    UntakenBound(start.qubits);
    var popped, least := SearchOnMeets(adj, t0, t1, start, [], 0, |qs|);
  }

  lemma SameSize(qs: seq<Qubit>, qs': seq<Qubit>)
    requires SnapshotOf(qs) == SnapshotOf(qs')
    ensures |qs| == |qs'|
  {
    assert |SnapshotOf(qs).occupied| == |qs| && |SnapshotOf(qs').occupied| == |qs'|;
  }

  // ---------------------------------------------------------------- the search on the device

  /** Plants the two roots. */
  method Plant(device: Device, t0: nat, t1: nat)
    requires device.Valid() && t0 < |device.adj| && t1 < |device.adj| && t0 != t1
    modifies device`qubits
    ensures device.Valid() && device.Snapshot() == old(device.Snapshot()) && device.qubits == Planted(old(device.qubits), t0, t1)
  {
    device.MarkQubit(t0, false, t0);
    device.TakeRoute(t0, device.qubits[t0].cost, 0);
    device.MarkQubit(t1, true, t1);
    device.TakeRoute(t1, device.qubits[t1].cost, 0);
  }

  /** Plants both roots and touches their neighbours. */
  method StartSearch(device: Device, t0: nat, t1: nat) returns (met: bool, queue: seq<Node>)
    requires device.Valid() && device.Rested() && t0 < |device.adj| && t1 < |device.adj| && t0 != t1
    modifies device`qubits
    ensures device.Valid() && device.Snapshot() == old(device.Snapshot())
    ensures Hunt(met, t0, t1, queue, device.qubits) == SearchStart(device.adj, old(device.qubits), t0, t1)
  {
    hide Trees, QueueOk, TouchFrom, Planted, MoreMarks, TouchMeets, Touched, AtRest;
    PlantedIsOk(device.adj, device.qubits, t0, t1);
    Plant(device, t0, t1);
    RootFacts(device.adj, device.qubits, t0, t1);
    var other, met1, other1;
    met, other, queue := TouchAdjacency(device, [], t0, false, 0, t0, t1);
    RootFacts(device.adj, device.qubits, t0, t1);
    met1, other1, queue := TouchAdjacency(device, queue, t1, true, 0, t0, t1);
  }

  /** Grows the trees from both roots until they meet. Costs come off the queue in order, and no qubit twice. */
  method Search(device: Device, t0: nat, t1: nat) returns (q0: nat, q1: nat, ghost popped: seq<Node>)
    requires device.Valid() && device.Rested() && Connected(device.adj) && t0 < |device.adj| && t1 < |device.adj| && t0 != t1
    modifies device`qubits
    ensures device.Valid() && device.Snapshot() == old(device.Snapshot())
    ensures Trees(device.adj, device.qubits, t0, t1) && Meet(device.adj, device.qubits, q0, q1)
    ensures exists least :: Popped(device.qubits, popped, least)
    ensures var h := SearchAll(device.adj, old(device.qubits), t0, t1); h.q0 == q0 && h.q1 == q1 && h.qubits == device.qubits
  {
    hide Trees, QueueOk, Popped, IsCoupling, AllTouched, Touched, SearchStart, AdvanceOne, Connected, Meet, AtRest;
    ghost var steps, start, least := |device.qubits|, SearchStart(device.adj, device.qubits, t0, t1), 0;
    CouplingOf(device);
    StartIsOk(device.adj, device.qubits, t0, t1);
    UntakenBound(start.qubits);
    SameSize(start.qubits, device.qubits);
    popped := [];
    q0, q1 := t0, t1;
    var met, queue := StartSearch(device, t0, t1);
    while !met
      invariant device.Valid() && device.Snapshot() == old(device.Snapshot()) && Untaken(device.qubits) <= steps
      invariant HuntOk(device.adj, t0, t1, Hunt(met, q0, q1, queue, device.qubits), popped, least)
      invariant SearchOn(device.adj, Hunt(met, q0, q1, queue, device.qubits), steps) == SearchOn(device.adj, start, |old(device.qubits)|)
      decreases steps
    {
      ghost var h := Hunt(met, q0, q1, queue, device.qubits);
      AdvanceKeeps(device.adj, t0, t1, h, popped, least);
      met, q0, q1, queue := Advance(device, t0, t1, q0, q1, queue, popped, least);
      popped, least, steps := popped + [h.queue[Top(h.queue, |h.queue|)]], h.queue[Top(h.queue, |h.queue|)].cost, steps - 1;
    }
  }

  /** Takes the qubit that comes first in the queue and touches its neighbours. */
  method Advance(device: Device, t0: nat, t1: nat, q0: nat, q1: nat, queue: seq<Node>, ghost popped: seq<Node>, ghost least: nat)
    returns (met: bool, r0: nat, r1: nat, more: seq<Node>)
    requires device.Valid() && Connected(device.adj)
    requires HuntOk(device.adj, t0, t1, Hunt(false, q0, q1, queue, device.qubits), popped, least)
    modifies device`qubits
    ensures device.Valid() && device.Snapshot() == old(device.Snapshot())
    ensures Hunt(met, r0, r1, more, device.qubits) == AdvanceOne(device.adj, Hunt(false, q0, q1, queue, old(device.qubits)))
  {
    hide HuntOk, Trees, QueueOk, IsCoupling, Touched, Connected, GoesFirst, MoreMarks, TouchMeets, TouchFrom;
    CouplingOf(device);
    AdvanceKeeps(device.adj, t0, t1, Hunt(false, q0, q1, queue, device.qubits), popped, least);
    var next, rest := PopTop(queue);
    device.TakeRoute(next.id, next.cost, next.cost - SWAP_DELAY);
    r0, r1 := q0, q1;
    var other;
    met, other, more := TouchAdjacency(device, rest, next.id, next.source, next.cost, t0, t1);
    if met {
      if next.source {
        r0, r1 := other, next.id;
      } else {
        r0, r1 := next.id, other;
      }
    }
  }

  lemma CouplingOf(device: Device)
    requires device.Valid()
    ensures IsCoupling(device.adj)
  {
  }

  lemma NothingPopped(qs: seq<Qubit>)
    ensures Popped(qs, [], 0)
  {
  }

  lemma RootFacts(adj: seq<seq<nat>>, qs: seq<Qubit>, t0: nat, t1: nat)
    requires Trees(adj, qs, t0, t1)
    ensures qs[t0].taken && qs[t1].taken && !qs[t0].source && qs[t1].source && qs[t0].marked && qs[t1].marked
  {
  }

  lemma NotCoupled(adj: seq<seq<nat>>, qs: seq<Qubit>, u: nat, v: nat)
    requires |qs| == |adj| && u < |adj| && v < |adj| && Touched(adj, qs, u) && qs[v].taken && qs[u].source != qs[v].source
    ensures !Coupled(adj, u, v)
  {
  }

  /** After the roots: either they are neighbours and the first touch says so, or both have been touched. */
  lemma RootsTouched(adj: seq<seq<nat>>, planted: seq<Qubit>, once: seq<Qubit>, qs: seq<Qubit>, t0: nat, t1: nat, met: bool, other: nat,
                     met1: bool, other1: nat)
    requires IsCoupling(adj) && |planted| == |adj| && MoreMarks(planted, once) && MoreMarks(once, qs)
    requires Trees(adj, planted, t0, t1) && Trees(adj, once, t0, t1) && Trees(adj, qs, t0, t1)
    requires forall q :: 0 <= q < |adj| ==> (planted[q].taken <==> q == t0 || q == t1)
    requires met ==> other < |adj| && Coupled(adj, t0, other) && once[other].taken && once[other].source != once[t0].source
    requires !met ==> Touched(adj, once, t0)
    requires met1 ==> other1 < |adj| && Coupled(adj, t1, other1) && qs[other1].taken && qs[other1].source != qs[t1].source
    requires !met1 ==> Touched(adj, qs, t1)
    ensures if met then Meet(adj, qs, t0, t1) else AllTouched(adj, qs)
  {
    assert met1 ==> other1 == t0;
    assert met1 ==> Coupled(adj, t0, t1);
    if !met {
      NotCoupled(adj, once, t0, t1);
      MoreMarksTouched(adj, once, qs, t0);
    }
  }
}
