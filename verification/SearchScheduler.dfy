/** The scheduler that looks ahead: a tree of copies of the router and of the topology, of which one
    child after another becomes the root and is followed by the real ones. */
module SearchSchedulers {
  import opened Collections
  import opened Topologies
  import opened Schedules
  import opened Devices
  import opened Routing
  import opened CircuitTopologies
  import opened CircuitOrders
  import opened Routers
  import opened Replicas
  import opened Schedulers

  datatype Conf = Conf(neverCache: bool, executeSingle: bool, candidates: nat)

  /** What does not change during a search. */
  datatype Setting = Setting(conf: Conf, job: Job)

  // ---------------------------------------------------------------- nodes

  /** The gates that lead to a node from its parent, and what the copies are and cost after them. */
  datatype Node = Node(ids: seq<nat>, children: seq<Node>, maxCost: nat, replica: Replica)

  /** The first available gate, from the k-th on, that needs no routing. */
  function FirstExecutable(e: Setting, r: Replica, k: nat): (g: Option<nat>)
    ensures g.Some? ==> g.value in r.progress.available
    decreases |r.progress.available| - k
  {
    if k >= |r.progress.available| then None
    else if AtHand(e.job, r, r.progress.available[k]) then Some(r.progress.available[k])
    else FirstExecutable(e, r, k + 1)
  }

  /** The next gate there is no choice about: one that needs no routing, or the only one available. */
  function NextOf(e: Setting, r: Replica): (g: Option<nat>)
    ensures g.Some? ==> g.value in r.progress.available
  {
    var g := FirstExecutable(e, r, 0);
    if g.Some? then g else if |r.progress.available| == 1 then Some(r.progress.available[0]) else None
  }

  /** The node after one more gate. */
  function Extended(e: Setting, node: Node, g: nat): Node {
    Node(node.ids + [g], [], Max(node.maxCost, LatestEnd(OpsOf(e.job, node.replica, g))), StepOne(e.job, node.replica, g))
  }

  function Onward(e: Setting, node: Node, steps: nat): Node
    decreases steps
  {
    var g := NextOf(e, node.replica);
    if steps == 0 || g.None? then node else Onward(e, Extended(e, node, g.value), steps - 1)
  }

  /** The node that these gates lead to, and then those there is no choice about. */
  function NodeFrom(e: Setting, ids: seq<nat>, parent: Replica, cost: nat): Node {
    var node := Node(ids, [], CostAll(e.job, parent, ids, cost), StepAll(e.job, parent, ids));
    if ids == [] || !e.conf.executeSingle then node else Onward(e, node, |e.job.circuit.gates|)
  }

  /** The copies and the cost of the node are what its gates lead to, each available in its turn. */
  ghost predicate LedTo(e: Setting, parent: Replica, cost: nat, node: Node) {
    && InTurn(e.job, parent, node.ids) && node.replica == StepAll(e.job, parent, node.ids) && node.maxCost == CostAll(e.job, parent, node.ids, cost)
    && node.children == []
  }

  lemma ExtendedLedTo(e: Setting, parent: Replica, cost: nat, node: Node, g: nat)
    requires LedTo(e, parent, cost, node) && g in node.replica.progress.available
    ensures LedTo(e, parent, cost, Extended(e, node, g)) && node.ids <= Extended(e, node, g).ids
  {
    hide StepOne, OpsOf, StepAll, CostAll;
    InTurnMore(e.job, parent, node.ids, g);
  }

  lemma {:induction false} OnwardLedTo(e: Setting, parent: Replica, cost: nat, node: Node, steps: nat)
    requires LedTo(e, parent, cost, node)
    ensures LedTo(e, parent, cost, Onward(e, node, steps)) && node.ids <= Onward(e, node, steps).ids
    decreases steps
  {
    hide LedTo, Extended, NextOf;
    var g := NextOf(e, node.replica);
    if steps > 0 && g.Some? {
      ExtendedLedTo(e, parent, cost, node, g.value);
      OnwardLedTo(e, parent, cost, Extended(e, node, g.value), steps - 1);
    }
  }

  lemma NodeFromLedTo(e: Setting, ids: seq<nat>, parent: Replica, cost: nat)
    requires InTurn(e.job, parent, ids)
    ensures LedTo(e, parent, cost, NodeFrom(e, ids, parent, cost)) && ids <= NodeFrom(e, ids, parent, cost).ids
  {
    hide InTurn, StepAll, CostAll, Onward;
    OnwardLedTo(e, parent, cost, Node(ids, [], CostAll(e.job, parent, ids, cost), StepAll(e.job, parent, ids)), |e.job.circuit.gates|);
  }

  method ImmediateNext(e: Setting, r: Replica) returns (g: Option<nat>)
    ensures g == NextOf(e, r)
  {
    hide AtHand;
    var available := r.progress.available;
    var i := 0;
    while i < |available|
      invariant i <= |available| && FirstExecutable(e, r, i) == FirstExecutable(e, r, 0)
    {
      if AtHand(e.job, r, available[i]) {
        return Some(available[i]);
      }
      i := i + 1;
    }
    if |available| == 1 {
      return Some(available[0]);
    }
    return None;
  }

  method RouteOnCopy(e: Setting, r: Replica, g: nat, cost: nat) returns (r': Replica, cost': nat)
    ensures r' == StepOne(e.job, r, g) && cost' == Max(cost, LatestEnd(OpsOf(e.job, r, g)))
  {
    hide RouteOf, Update;
    var a := RouteOf(e.job.policy, r.router, g, GateOf(e.job.circuit, g));
    var latest, i := 0, 0;
    while i < |a.ops|
      invariant i <= |a.ops| && latest == LatestEnd(a.ops[..i])
    {
      assert a.ops[..i + 1][..i] == a.ops[..i];
      if a.ops[i].end > latest {
        latest := a.ops[i].end;
      }
      i := i + 1;
    }
    assert a.ops[..i] == a.ops;
    r', cost' := Replica(a.router, if g < |e.job.circuit.gates| then Update(e.job.circuit, r.progress, g) else r.progress), Max(cost, latest);
  }

  /** Makes a node: routes its gates on the copies, and then those there is no choice about. */
  method MakeNode(e: Setting, ids: seq<nat>, parent: Replica, cost: nat, ghost past: seq<nat>, ghost n: nat) returns (node: Node)
    requires CircuitOk(e.job.circuit, n) && Ordered(e.job.circuit, parent.progress, past) && InTurn(e.job, parent, ids)
    ensures node == NodeFrom(e, ids, parent, cost)
  {
    hide Ordered, CircuitOk, StepOne, OpsOf, LatestEnd, NextOf, Extended;
    var r, k, maxCost := parent, 0, cost;
    while k < |ids|
      invariant k <= |ids| && r == StepAll(e.job, parent, ids[..k]) && maxCost == CostAll(e.job, parent, ids[..k], cost)
    {
      TurnOf(e.job, parent, ids, k);
      InTurnMore(e.job, parent, ids[..k], ids[k]);
      assert ids[..k + 1] == ids[..k] + [ids[k]];
      r, maxCost := RouteOnCopy(e, r, ids[k], maxCost);
      k := k + 1;
    }
    assert ids[..k] == ids;
    node := Node(ids, [], maxCost, r);
    if ids != [] && e.conf.executeSingle {
      node := RouteInternal(e, node, parent, cost, past, n);
    }
  }

  /** Routes the gates there is no choice about. */
  method RouteInternal(e: Setting, start: Node, ghost parent: Replica, ghost cost: nat, ghost past: seq<nat>, ghost n: nat) returns (node: Node)
    requires CircuitOk(e.job.circuit, n) && Ordered(e.job.circuit, parent.progress, past) && LedTo(e, parent, cost, start)
    ensures node == Onward(e, start, |e.job.circuit.gates|)
  {
    hide Ordered, CircuitOk, StepOne, OpsOf, LatestEnd, NextOf, LedTo;
    ghost var steps := |e.job.circuit.gates|;
    node := start;
    AsManyLeft(e, parent, cost, node, past, n);
    var g := ImmediateNext(e, node.replica);
    while g.Some?
      invariant g == NextOf(e, node.replica) && LedTo(e, parent, cost, node)
      invariant |past + node.ids| <= |e.job.circuit.gates| <= |past + node.ids| + steps
      invariant Onward(e, node, steps) == Onward(e, start, |e.job.circuit.gates|)
      decreases |e.job.circuit.gates| - |past + node.ids|
    {
      SomeLeft(e, parent, cost, node, past, n, g.value);
      ExtendedLedTo(e, parent, cost, node, g.value);
      var r, maxCost := RouteOnCopy(e, node.replica, g.value, node.maxCost);
      node, steps := Node(node.ids + [g.value], [], maxCost, r), steps - 1;
      AsManyLeft(e, parent, cost, node, past, n);
      g := ImmediateNext(e, node.replica);
    }
  }

  lemma AsManyLeft(e: Setting, parent: Replica, cost: nat, node: Node, past: seq<nat>, n: nat)
    requires CircuitOk(e.job.circuit, n) && Ordered(e.job.circuit, parent.progress, past) && LedTo(e, parent, cost, node)
    ensures |past + node.ids| <= |e.job.circuit.gates|
  {
    hide Ordered, CircuitOk;
    OrderedAlong(e.job, parent, past, node.ids, n);
    SomethingAvailable(e.job.circuit, node.replica.progress, past + node.ids);
  }

  lemma SomeLeft(e: Setting, parent: Replica, cost: nat, node: Node, past: seq<nat>, n: nat, g: nat)
    requires CircuitOk(e.job.circuit, n) && Ordered(e.job.circuit, parent.progress, past) && LedTo(e, parent, cost, node)
    requires g in node.replica.progress.available
    ensures |past + node.ids| < |e.job.circuit.gates|
  {
    hide Ordered, CircuitOk;
    OrderedAlong(e.job, parent, past, node.ids, n);
    SomethingAvailable(e.job.circuit, node.replica.progress, past + node.ids);
  }

  // ---------------------------------------------------------------- rounds

  lemma {:induction false} FirstExecutableIs(e: Setting, r: Replica, k: nat)
    requires forall i :: 0 <= i < k && i < |r.progress.available| ==> !AtHand(e.job, r, r.progress.available[i])
    ensures var g := FirstExecutable(e, r, k); if g.Some? then FirstAtHand(e.job, r, g.value) else NoneAtHand(e.job, r)
    decreases |r.progress.available| - k
  {
    hide AtHand;
    if k < |r.progress.available| {
      if AtHand(e.job, r, r.progress.available[k]) {
        assert FirstAtHandAt(e.job, r, r.progress.available[k], k);
      } else {
        FirstExecutableIs(e, r, k + 1);
      }
    }
  }

  /** There is at most one such gate. */
  lemma NoChoiceOne(j: Job, r: Replica, g: nat, h: nat)
    requires NoChoice(j, r, g) && NoChoice(j, r, h)
    ensures g == h
  {
    hide AtHand;
    if FirstAtHand(j, r, g) && FirstAtHand(j, r, h) {
      var a :| 0 <= a < |r.progress.available| && FirstAtHandAt(j, r, g, a);
      var b :| 0 <= b < |r.progress.available| && FirstAtHandAt(j, r, h, b);
      assert a == b;
    }
  }

  lemma NextOfIs(e: Setting, r: Replica)
    ensures var g := NextOf(e, r); if g.Some? then NoChoice(e.job, r, g.value) else forall h: nat :: !NoChoice(e.job, r, h)
  {
    hide AtHand;
    FirstExecutableIs(e, r, 0);
  }

  /** One gate by choice, and then, if so configured, the gates there is no choice about as long as there are any. */
  ghost predicate IsRound(e: Setting, r: Replica, ids: seq<nat>) {
    && ids != [] && ids[0] in r.progress.available
    && if !e.conf.executeSingle then |ids| == 1
       else Unforced(e, StepAll(e.job, r, ids)) && forall k :: 1 <= k < |ids| ==> Forced(e, r, ids, k)
  }

  ghost predicate Forced(e: Setting, r: Replica, ids: seq<nat>, k: nat)
    requires k < |ids|
  {
    NoChoice(e.job, StepAll(e.job, r, ids[..k]), ids[k])
  }

  ghost predicate Unforced(e: Setting, r: Replica) {
    forall h: nat :: !NoChoice(e.job, r, h)
  }

  lemma {:induction false} ForcedMore(e: Setting, r: Replica, ids: seq<nat>, g: nat)
    requires (forall k :: 1 <= k < |ids| ==> Forced(e, r, ids, k)) && NoChoice(e.job, StepAll(e.job, r, ids), g)
    ensures forall k :: 1 <= k < |ids + [g]| ==> Forced(e, r, ids + [g], k)
  {
    hide StepAll, NoChoice;
    forall k | 1 <= k < |ids + [g]|
      ensures Forced(e, r, ids + [g], k)
    {
      assert (ids + [g])[..k] == ids[..k];
      assert k == |ids| ==> ids[..k] == ids;
      assert k < |ids| ==> Forced(e, r, ids, k);
    }
  }

  lemma {:induction false} OnwardForced(e: Setting, parent: Replica, cost: nat, node: Node, past: seq<nat>, n: nat, steps: nat)
    requires CircuitOk(e.job.circuit, n) && Ordered(e.job.circuit, parent.progress, past) && LedTo(e, parent, cost, node)
    requires |e.job.circuit.gates| <= |past + node.ids| + steps && forall k :: 1 <= k < |node.ids| ==> Forced(e, parent, node.ids, k)
    ensures var last := Onward(e, node, steps);
            Unforced(e, last.replica) && forall k :: 1 <= k < |last.ids| ==> Forced(e, parent, last.ids, k)
    decreases steps
  {
    hide CircuitOk, Ordered, NextOf, NoChoice, Forced, LedTo;
    NextOfIs(e, node.replica);
    var g := NextOf(e, node.replica);
    if g.Some? {
      SomeLeft(e, parent, cost, node, past, n, g.value);
      ExtendedLedTo(e, parent, cost, node, g.value);
      ForcedMore(e, parent, node.ids, g.value) by { LedToReplica(e, parent, cost, node); }
      OnwardForced(e, parent, cost, Extended(e, node, g.value), past, n, steps - 1);
    }
  }

  lemma LedToReplica(e: Setting, parent: Replica, cost: nat, node: Node)
    requires LedTo(e, parent, cost, node)
    ensures node.replica == StepAll(e.job, parent, node.ids)
  {
  }

  /** The gates of a node are a round. */
  lemma NodeFromIsRound(e: Setting, r: Replica, cost: nat, g: nat, past: seq<nat>, n: nat)
    requires CircuitOk(e.job.circuit, n) && Ordered(e.job.circuit, r.progress, past) && g in r.progress.available
    ensures var ids := NodeFrom(e, [g], r, cost).ids; IsRound(e, r, ids) && ids[0] == g
  {
    hide CircuitOk, Ordered, Forced, Unforced, StepAll, CostAll, Onward, LedTo;
    OneInTurn(e, r, g);
    NodeFromLedTo(e, [g], r, cost);
    LedToReplica(e, r, cost, NodeFrom(e, [g], r, cost));
    if e.conf.executeSingle {
      var start := Node([g], [], CostAll(e.job, r, [g], cost), StepAll(e.job, r, [g]));
      StartLedTo(e, r, cost, g);
      OnwardForced(e, r, cost, start, past, n, |e.job.circuit.gates|);
    }
  }

  lemma StartLedTo(e: Setting, r: Replica, cost: nat, g: nat)
    requires InTurn(e.job, r, [g])
    ensures LedTo(e, r, cost, Node([g], [], CostAll(e.job, r, [g], cost), StepAll(e.job, r, [g])))
  {
  }

  lemma {:induction false} SameRound(e: Setting, r: Replica, a: seq<nat>, b: seq<nat>, k: nat)
    requires IsRound(e, r, a) && IsRound(e, r, b) && a[0] == b[0] && 1 <= k <= |a| && k <= |b|
    ensures a[..k] == b[..k]
    decreases k
  {
    hide NoChoice, StepAll, Unforced;
    if k > 1 {
      SameRound(e, r, a, b, k - 1);
      assert Forced(e, r, a, k - 1) && Forced(e, r, b, k - 1);
      NoChoiceOne(e.job, StepAll(e.job, r, a[..k - 1]), a[k - 1], b[k - 1]);
    }
  }

  lemma ForcedAt(e: Setting, r: Replica, ids: seq<nat>, k: nat)
    requires IsRound(e, r, ids) && 1 <= k < |ids|
    ensures NoChoice(e.job, StepAll(e.job, r, ids[..k]), ids[k])
  {
    hide NoChoice, StepAll;
    assert Forced(e, r, ids, k);
  }

  lemma NoLonger(e: Setting, r: Replica, a: seq<nat>, b: seq<nat>)
    requires IsRound(e, r, a) && IsRound(e, r, b) && a[0] == b[0] && |a| <= |b|
    ensures |a| == |b|
  {
    hide NoChoice, StepAll;
    SameRound(e, r, a, b, |a|);
    assert a[..|a|] == a;
    if |a| < |b| {
      ForcedAt(e, r, b, |a|);
    }
  }

  /** The gate chosen decides the round. */
  lemma RoundDecided(e: Setting, r: Replica, a: seq<nat>, b: seq<nat>)
    requires IsRound(e, r, a) && IsRound(e, r, b) && a[0] == b[0]
    ensures a == b
  {
    hide IsRound;
    if |a| <= |b| {
      NoLonger(e, r, a, b);
    } else {
      NoLonger(e, r, b, a);
    }
    RoundFull(e, r, a, b);
  }

  lemma RoundFull(e: Setting, r: Replica, a: seq<nat>, b: seq<nat>)
    requires IsRound(e, r, a) && IsRound(e, r, b) && a[0] == b[0] && |a| == |b|
    ensures a == b
  {
    hide NoChoice, StepAll, Unforced;
    SameRound(e, r, a, b, |a|);
    assert a[..|a|] == a && b[..|a|] == b;
  }

  lemma OneInTurn(e: Setting, r: Replica, g: nat)
    requires g in r.progress.available
    ensures InTurn(e.job, r, [g])
  {
    assert [g][..0] == [];
  }

  // ---------------------------------------------------------------- the tree

  function Bare(node: Node): Node {
    node.(children := [])
  }

  function BareAll(nodes: seq<Node>): (r: seq<Node>)
    ensures |r| == |nodes| && forall i :: 0 <= i < |nodes| ==> r[i] == Bare(nodes[i])
  {
    seq(|nodes|, i requires 0 <= i < |nodes| => Bare(nodes[i]))
  }

  /** The nodes that the available gates lead to. */
  function Fan(e: Setting, r: Replica, cost: nat): (nodes: seq<Node>)
    ensures |nodes| == |r.progress.available|
    ensures forall i :: 0 <= i < |nodes| ==> nodes[i] == NodeFrom(e, [r.progress.available[i]], r, cost)
  {
    seq(|r.progress.available|, i requires 0 <= i < |r.progress.available| => NodeFrom(e, [r.progress.available[i]], r, cost))
  }

  /** A node is a leaf, or has a child for each listed gate. */
  ghost predicate TreeOk(e: Setting, node: Node)
    decreases node
  {
    node.children == [] ||
    (&& multiset(BareAll(node.children)) == multiset(Fan(e, node.replica, node.maxCost))
     && forall child :: child in node.children ==> TreeOk(e, child))
  }

  ghost predicate ChildrenOk(e: Setting, r: Replica, cost: nat, children: seq<Node>) {
    && multiset(BareAll(children)) == multiset(Fan(e, r, cost))
    && forall i :: 0 <= i < |children| ==> TreeOk(e, children[i])
  }

  lemma OwnChildren(e: Setting, node: Node)
    requires TreeOk(e, node)
    ensures node.children != [] ==> ChildrenOk(e, node.replica, node.maxCost, node.children)
  {
    hide Fan, BareAll;
    forall i | 0 <= i < |node.children|
      ensures node.children != [] ==> TreeOk(e, node.children[i])
    {
      assert node.children[i] in node.children;
    }
  }

  /** The node with these children, which may have been grown further. */
  lemma WithChildren(e: Setting, node: Node, children: seq<Node>)
    requires ChildrenOk(e, node.replica, node.maxCost, children)
    ensures TreeOk(e, node.(children := children))
  {
    hide Fan, BareAll;
    forall child | child in children
      ensures TreeOk(e, child)
    {
      var i :| 0 <= i < |children| && children[i] == child;
    }
  }

  lemma Forgotten(e: Setting, node: Node)
    ensures TreeOk(e, node.(children := []))
  {
  }

  /** A child in place of one that differs in what has grown below. */
  lemma ReplaceChild(e: Setting, r: Replica, cost: nat, children: seq<Node>, k: nat, child: Node)
    requires ChildrenOk(e, r, cost, children) && k < |children| && Bare(child) == Bare(children[k]) && TreeOk(e, child)
    ensures ChildrenOk(e, r, cost, children[k := child]) && BareAll(children[k := child]) == BareAll(children)
  {
    hide TreeOk, Fan, Bare;
    assert BareAll(children[k := child]) == BareAll(children);
  }

  lemma ExchangeChildren(e: Setting, r: Replica, cost: nat, children: seq<Node>, i: nat, k: nat)
    requires ChildrenOk(e, r, cost, children) && i < |children| && k < |children|
    ensures ChildrenOk(e, r, cost, children[i := children[k]][k := children[i]])
  {
    hide TreeOk, Fan, Bare;
    var a, b := children[i := children[k]][k := children[i]], BareAll(children);
    assert BareAll(a) == b[i := b[k]][k := b[i]];
  }

  lemma ChildrenSized(e: Setting, r: Replica, cost: nat, children: seq<Node>)
    requires ChildrenOk(e, r, cost, children)
    ensures |children| == |r.progress.available|
  {
    hide Fan, BareAll, TreeOk;
    assert |multiset(BareAll(children))| == |children| && |multiset(Fan(e, r, cost))| == |r.progress.available|;
  }

  /** Some available gate leads to the node. */
  ghost predicate InFan(e: Setting, r: Replica, cost: nat, node: Node) {
    exists g :: g in r.progress.available && node == NodeFrom(e, [g], r, cost)
  }

  lemma AmongFan(e: Setting, r: Replica, cost: nat, nodes: seq<Node>, rest: seq<Node>, k: nat)
    requires multiset(nodes + rest) == multiset(Fan(e, r, cost)) && k < |nodes|
    ensures InFan(e, r, cost, nodes[k])
  {
    hide NodeFrom;
    var all, fan := nodes + rest, Fan(e, r, cost);
    assert all[k] in multiset(all);
    assert nodes[k] in multiset(fan);
    var i :| 0 <= i < |fan| && fan[i] == nodes[k];
    assert r.progress.available[i] in r.progress.available;
  }

  lemma FanHas(e: Setting, r: Replica, cost: nat, nodes: seq<Node>, g: nat) returns (k: nat)
    requires multiset(nodes) == multiset(Fan(e, r, cost)) && g in r.progress.available
    ensures k < |nodes| && nodes[k] == NodeFrom(e, [g], r, cost)
  {
    hide NodeFrom;
    var i :| 0 <= i < |r.progress.available| && r.progress.available[i] == g;
    var fan := Fan(e, r, cost);
    assert fan[i] in multiset(fan);
    assert fan[i] in multiset(nodes);
    k :| 0 <= k < |nodes| && nodes[k] == fan[i];
  }

  /** What a child is to its parent. */
  lemma ChildFacts(e: Setting, r: Replica, cost: nat, child: Node)
    requires InFan(e, r, cost, child)
    ensures InTurn(e.job, r, child.ids) && child.ids != [] && child.replica == StepAll(e.job, r, child.ids) && child.children == []
    ensures child.maxCost == CostAll(e.job, r, child.ids, cost) && r.progress.available != []
  {
    hide StepAll, CostAll, NodeFrom, InTurn;
    var g :| g in r.progress.available && child == NodeFrom(e, [g], r, cost);
    OneInTurn(e, r, g);
    NodeFromLedTo(e, [g], r, cost);
  }

  lemma OrderedChild(e: Setting, node: Node, children: seq<Node>, k: nat, past: seq<nat>, n: nat)
    requires CircuitOk(e.job.circuit, n) && ChildrenOk(e, node.replica, node.maxCost, children) && k < |children|
    requires Ordered(e.job.circuit, node.replica.progress, past)
    ensures Ordered(e.job.circuit, children[k].replica.progress, past + children[k].ids)
  {
    hide Ordered, CircuitOk, InFan, Fan, TreeOk, StepAll, CostAll;
    var bare := BareAll(children);
    assert bare + [] == bare;
    AmongFan(e, node.replica, node.maxCost, bare, [], k);
    ChildFacts(e, node.replica, node.maxCost, bare[k]);
    OrderedAlong(e.job, node.replica, past, children[k].ids, n);
  }

  /** The children of a leaf: one for every available gate. */
  method Grow(e: Setting, node: Node, ghost past: seq<nat>, ghost n: nat) returns (children: seq<Node>)
    requires CircuitOk(e.job.circuit, n) && Ordered(e.job.circuit, node.replica.progress, past)
    ensures ChildrenOk(e, node.replica, node.maxCost, children)
  {
    hide Ordered, CircuitOk, NodeFrom;
    var available := node.replica.progress.available;
    children := [];
    var i := 0;
    while i < |available|
      invariant i == |children| <= |available|
      invariant forall j :: 0 <= j < i ==> children[j] == NodeFrom(e, [available[j]], node.replica, node.maxCost)
    {
      assert available[i] in available;
      OneInTurn(e, node.replica, available[i]);
      var child := MakeNode(e, [available[i]], node.replica, node.maxCost, past, n);
      children := children + [child];
      i := i + 1;
    }
    Grown(e, node, children);
  }

  lemma Grown(e: Setting, node: Node, children: seq<Node>)
    requires |children| == |node.replica.progress.available|
    requires forall i :: 0 <= i < |children| ==> children[i] == NodeFrom(e, [node.replica.progress.available[i]], node.replica, node.maxCost)
    ensures ChildrenOk(e, node.replica, node.maxCost, children)
  {
    hide NodeFrom, StepAll, CostAll, InTurn;
    var available := node.replica.progress.available;
    forall i | 0 <= i < |children|
      ensures children[i].children == []
    {
      assert available[i] in available;
      OneInTurn(e, node.replica, available[i]);
      NodeFromLedTo(e, [available[i]], node.replica, node.maxCost);
    }
    assert BareAll(children) == Fan(e, node.replica, node.maxCost);
  }

  /** Puts the children of smallest cost in front. */
  method CheapestFirst(e: Setting, node: Node, children: seq<Node>, k: nat) returns (r: seq<Node>)
    requires k <= |children| && ChildrenOk(e, node.replica, node.maxCost, children)
    ensures |r| == |children| && ChildrenOk(e, node.replica, node.maxCost, r) && Cheaper(r, k)
  {
    hide Cheaper, ChildrenOk;
    r := children;
    NothingCheaper(r);
    var i := 0;
    while i < k
      invariant i <= k <= |r| == |children| && ChildrenOk(e, node.replica, node.maxCost, r) && Cheaper(r, i)
    {
      var least := Cheapest(r, i);
      ExchangeCheapest(r, i, least);
      ExchangeChildren(e, node.replica, node.maxCost, r, i, least);
      r := r[i := r[least]][least := r[i]];
      i := i + 1;
    }
  }

  /** None of the first k costs more than one of the others. */
  ghost predicate Cheaper(r: seq<Node>, k: nat) {
    forall i, j :: 0 <= i < k <= j < |r| ==> r[i].maxCost <= r[j].maxCost
  }

  lemma NothingCheaper(r: seq<Node>)
    ensures Cheaper(r, 0) && Cheaper(r, |r|)
  {
  }

  method Cheapest(r: seq<Node>, i: nat) returns (least: nat)
    requires i < |r|
    ensures i <= least < |r| && forall b :: i <= b < |r| ==> r[least].maxCost <= r[b].maxCost
  {
    var j := i + 1;
    least := i;
    while j < |r|
      invariant i < j <= |r| && i <= least < |r| && forall b :: i <= b < j ==> r[least].maxCost <= r[b].maxCost
    {
      if r[j].maxCost < r[least].maxCost {
        least := j;
      }
      j := j + 1;
    }
  }

  lemma ExchangeCheapest(r: seq<Node>, i: nat, least: nat)
    requires i <= least < |r| && Cheaper(r, i) && forall b :: i <= b < |r| ==> r[least].maxCost <= r[b].maxCost
    ensures Cheaper(r[i := r[least]][least := r[i]], i + 1)
  {
  }

  // ---------------------------------------------------------------- ways to go on

  /** The cost is that of a way to go on for so many choices, or until no gate is left. */
  ghost predicate Leads(e: Setting, r: Replica, cost: nat, depth: nat, final: nat)
    decreases depth, 0
  {
    if depth == 0 || r.progress.available == [] then final == cost
    else exists g :: g in r.progress.available && LeadsBy(e, r, cost, depth, final, g)
  }

  /** The next choice is g. */
  ghost predicate LeadsBy(e: Setting, r: Replica, cost: nat, depth: nat, final: nat, g: nat)
    requires depth > 0
    decreases depth - 1, 1
  {
    var child := NodeFrom(e, [g], r, cost);
    Leads(e, child.replica, child.maxCost, depth - 1, final)
  }

  /** No way to go on costs less. */
  ghost predicate Lowest(e: Setting, r: Replica, cost: nat, depth: nat, best: nat) {
    forall final: nat :: Leads(e, r, cost, depth, final) ==> best <= final
  }

  /** Whatever is chosen for this depth, the candidates are all the children. */
  ghost predicate Wide(e: Setting, r: Replica, cost: nat, depth: nat)
    decreases depth, 0
  {
    depth <= 1 ||
    (|r.progress.available| <= e.conf.candidates && forall g :: g in r.progress.available ==> WideBy(e, r, cost, depth, g))
  }

  ghost predicate WideBy(e: Setting, r: Replica, cost: nat, depth: nat, g: nat)
    requires depth > 0
    decreases depth - 1, 1
  {
    var child := NodeFrom(e, [g], r, cost);
    Wide(e, child.replica, child.maxCost, depth - 1)
  }

  /** As many rounds, or fewer if no gate is left. */
  ghost predicate WayOn(e: Setting, r: Replica, depth: nat, rounds: seq<seq<nat>>)
    decreases depth
  {
    if depth == 0 || r.progress.available == [] then rounds == []
    else rounds != [] && IsRound(e, r, rounds[0]) && WayOn(e, StepAll(e.job, r, rounds[0]), depth - 1, rounds[1..])
  }

  function Flat(rounds: seq<seq<nat>>): seq<nat> {
    if rounds == [] then [] else rounds[0] + Flat(rounds[1..])
  }

  /** A way to go on is a run of rounds, with the cost of its operations, each gate available in its turn. */
  lemma {:induction false} LeadsIsRun(e: Setting, r: Replica, cost: nat, depth: nat, final: nat, past: seq<nat>, n: nat) returns (rounds: seq<seq<nat>>)
    requires Leads(e, r, cost, depth, final) && CircuitOk(e.job.circuit, n) && Ordered(e.job.circuit, r.progress, past)
    ensures WayOn(e, r, depth, rounds) && InTurn(e.job, r, Flat(rounds)) && final == CostAll(e.job, r, Flat(rounds), cost)
    decreases depth
  {
    hide NodeFrom, StepAll, CostAll, InTurn, IsRound, CircuitOk, Ordered;
    NothingInTurn(e, r, cost);
    rounds := [];
    if depth > 0 && r.progress.available != [] {
      var g :| g in r.progress.available && LeadsBy(e, r, cost, depth, final, g);
      var child := NodeFrom(e, [g], r, cost);
      assert InFan(e, r, cost, child);
      ChildFacts(e, r, cost, child);
      NodeFromIsRound(e, r, cost, g, past, n);
      OrderedAlong(e.job, r, past, child.ids, n);
      var more := LeadsIsRun(e, child.replica, child.maxCost, depth - 1, final, past + child.ids, n);
      TurnsAppend(e.job, r, child.ids, Flat(more), cost);
      rounds := [child.ids] + more;
      assert rounds[1..] == more;
    }
  }

  /** Every run of rounds is a way to go on. */
  lemma {:induction false} RunLeads(e: Setting, r: Replica, cost: nat, depth: nat, rounds: seq<seq<nat>>, past: seq<nat>, n: nat)
    requires WayOn(e, r, depth, rounds) && CircuitOk(e.job.circuit, n) && Ordered(e.job.circuit, r.progress, past)
    ensures InTurn(e.job, r, Flat(rounds)) && Leads(e, r, cost, depth, CostAll(e.job, r, Flat(rounds), cost))
    decreases depth
  {
    hide NodeFrom, StepAll, CostAll, InTurn, CircuitOk, Ordered, Forced, Unforced;
    NothingInTurn(e, r, cost);
    if depth > 0 && r.progress.available != [] {
      var g := rounds[0][0];
      var child := NodeFrom(e, [g], r, cost);
      assert InFan(e, r, cost, child);
      ChildFacts(e, r, cost, child);
      NodeFromIsRound(e, r, cost, g, past, n);
      RoundDecided(e, r, child.ids, rounds[0]);
      OrderedAlong(e.job, r, past, child.ids, n);
      RunLeads(e, child.replica, child.maxCost, depth - 1, rounds[1..], past + child.ids, n);
      TurnsAppend(e.job, r, child.ids, Flat(rounds[1..]), cost);
      assert LeadsBy(e, r, cost, depth, CostAll(e.job, r, Flat(rounds), cost), g);
    }
  }

  lemma NothingInTurn(e: Setting, r: Replica, cost: nat)
    ensures InTurn(e.job, r, []) && StepAll(e.job, r, []) == r && CostAll(e.job, r, [], cost) == cost
  {
  }

  lemma LeadsUnfold(e: Setting, r: Replica, cost: nat, depth: nat, final: nat, g: nat)
    requires depth > 0 && g in r.progress.available && LeadsBy(e, r, cost, depth, final, g)
    ensures Leads(e, r, cost, depth, final)
  {
    hide NodeFrom, LeadsBy;
  }

  // ---------------------------------------------------------------- what a search with candidates finds

  /** The children looked at, and the others: above the last choice no more than the candidates, none of which
      costs more than one of the others. */
  ghost predicate Considered(e: Setting, r: Replica, cost: nat, depth: nat, nodes: seq<Node>, rest: seq<Node>) {
    && multiset(nodes + rest) == multiset(Fan(e, r, cost))
    && |nodes| == (if depth > 1 && e.conf.candidates < |r.progress.available| then e.conf.candidates else |r.progress.available|)
    && forall i, j :: 0 <= i < |nodes| && 0 <= j < |rest| ==> nodes[i].maxCost <= rest[j].maxCost
  }

  /** The cost that a search of this depth may find: the least over the children it looks at. */
  ghost predicate Finds(e: Setting, r: Replica, cost: nat, depth: nat, final: nat)
    decreases depth, 0
  {
    if depth == 0 || r.progress.available == [] then final == cost
    else exists nodes: seq<Node>, rest: seq<Node>, costs: seq<nat> ::
           Considered(e, r, cost, depth, nodes, rest) && FindsEach(e, depth - 1, nodes, costs) && LeastOf(costs, final)
  }

  ghost predicate FindsEach(e: Setting, depth: nat, nodes: seq<Node>, costs: seq<nat>)
    decreases depth, 1
  {
    |costs| == |nodes| && forall i :: 0 <= i < |nodes| ==> Finds(e, nodes[i].replica, nodes[i].maxCost, depth, costs[i])
  }

  ghost predicate LeastOf(costs: seq<nat>, best: nat) {
    best in costs && forall i :: 0 <= i < |costs| ==> best <= costs[i]
  }

  lemma LeavesFound(e: Setting, nodes: seq<Node>, costs: seq<nat>)
    requires |costs| == |nodes| && forall i :: 0 <= i < |nodes| ==> costs[i] == nodes[i].maxCost
    ensures FindsEach(e, 0, nodes, costs)
  {
  }

  lemma FindsUnfold(e: Setting, r: Replica, cost: nat, depth: nat, final: nat, nodes: seq<Node>, rest: seq<Node>, costs: seq<nat>)
    requires Considered(e, r, cost, depth + 1, nodes, rest) && FindsEach(e, depth, nodes, costs) && LeastOf(costs, final)
    ensures Finds(e, r, cost, depth + 1, final)
  {
    hide Considered, FindsEach, LeastOf;
    NotEmptyFan(e, r, cost, depth, final, nodes, rest, costs);
  }

  lemma NotEmptyFan(e: Setting, r: Replica, cost: nat, depth: nat, final: nat, nodes: seq<Node>, rest: seq<Node>, costs: seq<nat>)
    requires Considered(e, r, cost, depth + 1, nodes, rest) && FindsEach(e, depth, nodes, costs) && LeastOf(costs, final)
    ensures r.progress.available != []
  {
  }

  /** Whatever is found is the cost of a way to go on. */
  lemma {:induction false} FindsLeads(e: Setting, r: Replica, cost: nat, depth: nat, final: nat)
    requires Finds(e, r, cost, depth, final)
    ensures Leads(e, r, cost, depth, final)
    decreases depth
  {
    hide Considered, NodeFrom, LeadsBy;
    if depth > 0 && r.progress.available != [] {
      var nodes: seq<Node>, rest: seq<Node>, costs: seq<nat> :|
        Considered(e, r, cost, depth, nodes, rest) && FindsEach(e, depth - 1, nodes, costs) && LeastOf(costs, final);
      var k :| 0 <= k < |costs| && costs[k] == final;
      FindsLeads(e, nodes[k].replica, nodes[k].maxCost, depth - 1, final);
      ConsideredFan(e, r, cost, depth, nodes, rest);
      ConsideredLeads(e, r, cost, depth, final, nodes, rest, k);
    }
  }

  lemma ConsideredFan(e: Setting, r: Replica, cost: nat, depth: nat, nodes: seq<Node>, rest: seq<Node>)
    requires Considered(e, r, cost, depth, nodes, rest)
    ensures multiset(nodes + rest) == multiset(Fan(e, r, cost))
  {
    hide Fan;
  }

  lemma ConsideredLeads(e: Setting, r: Replica, cost: nat, depth: nat, final: nat, nodes: seq<Node>, rest: seq<Node>, k: nat)
    requires depth > 0 && multiset(nodes + rest) == multiset(Fan(e, r, cost)) && k < |nodes|
    requires Leads(e, nodes[k].replica, nodes[k].maxCost, depth - 1, final)
    ensures Leads(e, r, cost, depth, final)
  {
    hide Fan, NodeFrom, Leads;
    AmongFan(e, r, cost, nodes, rest, k);
    var g :| g in r.progress.available && nodes[k] == NodeFrom(e, [g], r, cost);
    assert LeadsBy(e, r, cost, depth, final, g);
    LeadsUnfold(e, r, cost, depth, final, g);
  }

  /** Where the candidates leave no child out, the least cost of all ways to go on is found. */
  lemma {:induction false} FindsLowest(e: Setting, r: Replica, cost: nat, depth: nat, best: nat)
    requires Finds(e, r, cost, depth, best) && Wide(e, r, cost, depth)
    ensures Lowest(e, r, cost, depth, best)
    decreases depth
  {
    hide Considered, NodeFrom, LeadsBy, WideBy;
    if depth > 0 && r.progress.available != [] {
      var nodes: seq<Node>, rest: seq<Node>, costs: seq<nat> :|
        Considered(e, r, cost, depth, nodes, rest) && FindsEach(e, depth - 1, nodes, costs) && LeastOf(costs, best);
      AllConsidered(e, r, cost, depth, nodes, rest);
      WideUnfold(e, r, cost, depth);
      LowestOfFan(e, r, cost, depth, nodes, costs, best);
    }
  }

  lemma AllConsidered(e: Setting, r: Replica, cost: nat, depth: nat, nodes: seq<Node>, rest: seq<Node>)
    requires Considered(e, r, cost, depth, nodes, rest) && (depth > 1 ==> |r.progress.available| <= e.conf.candidates)
    ensures rest == [] && multiset(nodes) == multiset(Fan(e, r, cost))
  {
    hide Fan;
    assert |multiset(nodes + rest)| == |nodes| + |rest| && |multiset(Fan(e, r, cost))| == |r.progress.available|;
    assert nodes + [] == nodes;
  }

  lemma {:induction false} LowestOfFan(e: Setting, r: Replica, cost: nat, depth: nat, nodes: seq<Node>, costs: seq<nat>, best: nat)
    requires depth > 0 && multiset(nodes) == multiset(Fan(e, r, cost)) && FindsEach(e, depth - 1, nodes, costs) && LeastOf(costs, best)
    requires r.progress.available != [] && forall g :: g in r.progress.available ==> WideBy(e, r, cost, depth, g)
    ensures Lowest(e, r, cost, depth, best)
    decreases depth, 1
  {
    hide NodeFrom, Wide, Finds, Fan, Lowest;
    forall final: nat | Leads(e, r, cost, depth, final)
      ensures best <= final
    {
      var g :| g in r.progress.available && LeadsBy(e, r, cost, depth, final, g);
      var k := FanHas(e, r, cost, nodes, g);
      assert WideBy(e, r, cost, depth, g);
      FindsLowest(e, nodes[k].replica, nodes[k].maxCost, depth - 1, costs[k]);
      LowestMeans(e, nodes[k].replica, nodes[k].maxCost, depth - 1, costs[k], final);
    }
    AllAtLeast(e, r, cost, depth, best);
  }

  lemma LowestMeans(e: Setting, r: Replica, cost: nat, depth: nat, best: nat, final: nat)
    requires Lowest(e, r, cost, depth, best) && Leads(e, r, cost, depth, final)
    ensures best <= final
  {
  }

  lemma AllAtLeast(e: Setting, r: Replica, cost: nat, depth: nat, best: nat)
    requires forall final: nat :: Leads(e, r, cost, depth, final) ==> best <= final
    ensures Lowest(e, r, cost, depth, best)
  {
  }

  lemma WideUnfold(e: Setting, r: Replica, cost: nat, depth: nat)
    requires Wide(e, r, cost, depth) && depth > 0
    ensures depth > 1 ==> |r.progress.available| <= e.conf.candidates
    ensures forall g :: g in r.progress.available ==> WideBy(e, r, cost, depth, g)
  {
    hide NodeFrom;
  }

  // ---------------------------------------------------------------- looking ahead

  /** The cheapest way to route one more gate. */
  method BestNextCost(e: Setting, node: Node, ghost past: seq<nat>, ghost n: nat) returns (best: nat)
    requires CircuitOk(e.job.circuit, n) && Ordered(e.job.circuit, node.replica.progress, past) && node.replica.progress.available != []
    ensures Finds(e, node.replica, node.maxCost, 1, best)
  {
    hide *;
    var children := Grow(e, node, past, n);
    ChildrenSized(e, node.replica, node.maxCost, children);
    var i, least := 1, 0;
    while i < |children|
      invariant 1 <= i <= |children| && least < i && forall j :: 0 <= j < i ==> children[least].maxCost <= children[j].maxCost
    {
      if children[i].maxCost < children[least].maxCost {
        least := i;
      }
      i := i + 1;
    }
    best := children[least].maxCost;
    NextFound(e, node, children, least);
  }

  lemma NextFound(e: Setting, node: Node, children: seq<Node>, least: nat)
    requires ChildrenOk(e, node.replica, node.maxCost, children) && least < |children|
    requires forall j :: 0 <= j < |children| ==> children[least].maxCost <= children[j].maxCost
    ensures Finds(e, node.replica, node.maxCost, 1, children[least].maxCost)
  {
    hide ChildrenOk, Finds, FindsEach;
    var costs := seq(|children|, j requires 0 <= j < |children| => children[j].maxCost);
    assert costs[least] == children[least].maxCost;
    LeavesFound(e, children, costs);
    ChildrenSized(e, node.replica, node.maxCost, children);
    NothingCheaper(children);
    assert children[..|children|] == children;
    FoundByChildren(e, node, children, |children|, 0, costs, children[least].maxCost);
  }

  /** What the first children cost, which are those to be looked at, adds up to for the node. */
  lemma FoundByChildren(e: Setting, node: Node, children: seq<Node>, considered: nat, depth: nat, costs: seq<nat>, best: nat)
    requires ChildrenOk(e, node.replica, node.maxCost, children) && considered <= |children| && Cheaper(children, considered)
    requires considered == if depth > 0 && e.conf.candidates < |node.replica.progress.available| then e.conf.candidates else |node.replica.progress.available|
    requires FindsEach(e, depth, children[..considered], costs) && LeastOf(costs, best)
    ensures Finds(e, node.replica, node.maxCost, depth + 1, best)
  {
    hide ChildrenOk, Cheaper, Considered, LeastOf, Finds, FindsEach;
    var bare := BareAll(children);
    FirstConsidered(e, node.replica, node.maxCost, children, considered, depth);
    BareFound(e, depth, children[..considered], costs);
    assert BareAll(children[..considered]) == bare[..considered];
    FindsUnfold(e, node.replica, node.maxCost, depth, best, bare[..considered], bare[considered..], costs);
  }

  lemma FirstConsidered(e: Setting, r: Replica, cost: nat, children: seq<Node>, k: nat, depth: nat)
    requires ChildrenOk(e, r, cost, children) && k <= |children| && Cheaper(children, k)
    requires k == if depth > 0 && e.conf.candidates < |r.progress.available| then e.conf.candidates else |r.progress.available|
    ensures Considered(e, r, cost, depth + 1, BareAll(children)[..k], BareAll(children)[k..])
  {
    hide Fan, TreeOk;
    var bare := BareAll(children);
    assert bare[..k] + bare[k..] == bare;
  }

  lemma BareFound(e: Setting, depth: nat, nodes: seq<Node>, costs: seq<nat>)
    requires FindsEach(e, depth, nodes, costs)
    ensures FindsEach(e, depth, BareAll(nodes), costs)
  {
    hide Finds;
  }

  /** The cost of the best continuation found with the given depth. The tree may grow below the node, or
      be forgotten there; the node itself stays what it is. */
  method BestCost(e: Setting, node: Node, depth: nat, ghost past: seq<nat>, ghost n: nat) returns (best: nat, node': Node)
    requires CircuitOk(e.job.circuit, n) && Ordered(e.job.circuit, node.replica.progress, past) && TreeOk(e, node)
    requires depth >= 1 && e.conf.candidates >= 1
    ensures TreeOk(e, node') && Bare(node') == Bare(node) && Finds(e, node.replica, node.maxCost, depth, best)
    decreases depth, 0
  {
    hide Ordered, CircuitOk, TreeOk, Finds, FindsEach, ChildrenOk, Cheaper;
    node' := node;
    OwnChildren(e, node);
    var children := node.children;
    if children == [] {
      if node.replica.progress.available == [] {
        NoGateLeft(e, node, depth);
        return node.maxCost, node';
      }
      if depth > 1 {
        children := Grow(e, node, past, n);
      }
    } else {
      ChildrenSized(e, node.replica, node.maxCost, children);
    }
    if depth == 1 {
      best := BestNextCost(e, node, past, n);
      return best, node';
    }
    ChildrenSized(e, node.replica, node.maxCost, children);
    NothingCheaper(children);
    if e.conf.candidates < |children| {
      children := CheapestFirst(e, node, children, e.conf.candidates);
    }
    var considered := if e.conf.candidates < |children| then e.conf.candidates else |children|;
    best, children := BestOf(e, node, children, considered, depth - 1, past, n);
    if e.conf.neverCache {
      Forgotten(e, node);
      children := [];
    } else {
      WithChildren(e, node, children);
    }
    node' := node.(children := children);
  }

  lemma NoGateLeft(e: Setting, node: Node, depth: nat)
    requires node.replica.progress.available == []
    ensures Finds(e, node.replica, node.maxCost, depth, node.maxCost)
  {
  }

  /** The least cost among the first children. */
  method BestOf(e: Setting, node: Node, children: seq<Node>, considered: nat, depth: nat, ghost past: seq<nat>, ghost n: nat)
    returns (best: nat, children': seq<Node>)
    requires CircuitOk(e.job.circuit, n) && Ordered(e.job.circuit, node.replica.progress, past) && ChildrenOk(e, node.replica, node.maxCost, children)
    requires depth >= 1 && e.conf.candidates >= 1 && 1 <= considered <= |children| == |node.replica.progress.available| && Cheaper(children, considered)
    requires considered == if e.conf.candidates < |children| then e.conf.candidates else |children|
    ensures ChildrenOk(e, node.replica, node.maxCost, children') && |children'| == |children|
    ensures Finds(e, node.replica, node.maxCost, depth + 1, best)
    decreases depth, 2
  {
    hide Ordered, CircuitOk, Finds, ChildrenOk, Bare, Cheaper;
    children' := children;
    ghost var costs: seq<nat> := [];
    best := 0;
    var i := 0;
    while i < considered
      invariant i == |costs| <= considered <= |children'| == |children| && ChildrenOk(e, node.replica, node.maxCost, children')
      invariant BareAll(children') == BareAll(children) && FindsEach(e, depth, children'[..i], costs)
      invariant i > 0 ==> LeastOf(costs, best)
    {
      var cost, child := ChildCost(e, node, children', i, depth, past, n);
      OneMoreFound(e, depth, children', i, child, costs, cost, best);
      children', costs := children'[i := child], costs + [cost];
      if i == 0 || cost < best {
        best := cost;
      }
      i := i + 1;
    }
    SameCheaper(children, children', considered);
    FoundByChildren(e, node, children', considered, depth, costs, best);
  }

  lemma OneMoreFound(e: Setting, depth: nat, children: seq<Node>, i: nat, child: Node, costs: seq<nat>, cost: nat, best: nat)
    requires i == |costs| < |children| && FindsEach(e, depth, children[..i], costs) && Finds(e, child.replica, child.maxCost, depth, cost)
    requires i > 0 ==> LeastOf(costs, best)
    ensures FindsEach(e, depth, children[i := child][..i + 1], costs + [cost])
    ensures LeastOf(costs + [cost], if i == 0 || cost < best then cost else best)
  {
    hide Finds;
    assert children[i := child][..i + 1] == children[..i] + [child];
    assert (costs + [cost])[i] == cost;
    if i > 0 && best <= cost {
      var k :| 0 <= k < |costs| && costs[k] == best;
      assert (costs + [cost])[k] == best;
    }
  }

  lemma SameCheaper(a: seq<Node>, b: seq<Node>, k: nat)
    requires Cheaper(a, k) && BareAll(a) == BareAll(b)
    ensures Cheaper(b, k)
  {
    assert |a| == |b|;
    forall i | 0 <= i < |a|
      ensures a[i].maxCost == b[i].maxCost
    {
      assert BareAll(a)[i].maxCost == BareAll(b)[i].maxCost;
    }
  }

  /** The cost of the k-th child, which may grow. */
  method ChildCost(e: Setting, node: Node, children: seq<Node>, k: nat, depth: nat, ghost past: seq<nat>, ghost n: nat)
    returns (cost: nat, child: Node)
    requires CircuitOk(e.job.circuit, n) && Ordered(e.job.circuit, node.replica.progress, past) && ChildrenOk(e, node.replica, node.maxCost, children)
    requires k < |children| && depth >= 1 && e.conf.candidates >= 1
    ensures ChildrenOk(e, node.replica, node.maxCost, children[k := child]) && BareAll(children[k := child]) == BareAll(children)
    ensures Finds(e, child.replica, child.maxCost, depth, cost)
    decreases depth, 1
  {
    hide Ordered, CircuitOk, Finds, ChildrenOk, TreeOk;
    OrderedChild(e, node, children, k, past, n);
    assert TreeOk(e, children[k]) by { ChildTree(e, node.replica, node.maxCost, children, k); }
    cost, child := BestCost(e, children[k], depth, past + children[k].ids, n);
    SameFound(e, children[k], child, depth, cost);
    ReplaceChild(e, node.replica, node.maxCost, children, k, child);
  }

  lemma ChildTree(e: Setting, r: Replica, cost: nat, children: seq<Node>, k: nat)
    requires ChildrenOk(e, r, cost, children) && k < |children|
    ensures TreeOk(e, children[k])
  {
  }

  lemma SameFound(e: Setting, a: Node, b: Node, depth: nat, cost: nat)
    requires Bare(a) == Bare(b) && Finds(e, a.replica, a.maxCost, depth, cost)
    ensures Finds(e, b.replica, b.maxCost, depth, cost)
  {
    hide Finds;
    assert a.replica == Bare(a).replica == b.replica && a.maxCost == Bare(a).maxCost == b.maxCost;
  }

  /** The node is one of all children, and what is found for it is the least of what is found for each of them. */
  ghost predicate BestAmong(e: Setting, r: Replica, cost: nat, depth: nat, child: Node, best: nat) {
    exists nodes: seq<Node>, costs: seq<nat> ::
      && multiset(nodes) == multiset(Fan(e, r, cost)) && FindsEach(e, depth, nodes, costs) && LeastOf(costs, best)
      && exists k :: 0 <= k < |nodes| && nodes[k] == child && costs[k] == best
  }

  /** A child of least cost becomes the next node. */
  method BestChild(e: Setting, node: Node, depth: nat, ghost past: seq<nat>, ghost n: nat) returns (child: Node, ghost best: nat)
    requires CircuitOk(e.job.circuit, n) && Ordered(e.job.circuit, node.replica.progress, past) && TreeOk(e, node)
    requires node.replica.progress.available != [] && depth >= 1 && e.conf.candidates >= 1
    ensures TreeOk(e, child) && BestAmong(e, node.replica, node.maxCost, depth, Bare(child), best)
  {
    hide Ordered, CircuitOk, Finds, ChildrenOk, TreeOk, Bare;
    OwnChildren(e, node);
    var children := node.children;
    if children == [] {
      children := Grow(e, node, past, n);
    }
    ChildrenSized(e, node.replica, node.maxCost, children);
    var chosen, i := 0, 0;
    var least: Option<nat> := None;
    ghost var costs: seq<nat> := [];
    while i < |children|
      invariant i == |costs| <= |children| == |node.replica.progress.available| && chosen < |children| && ChildrenOk(e, node.replica, node.maxCost, children)
      invariant FindsEach(e, depth, children[..i], costs)
      invariant if i == 0 then least.None? else chosen < i && least == Some(costs[chosen]) && LeastOf(costs, costs[chosen])
    {
      var cost, next := ChildCost(e, node, children, i, depth, past, n);
      OneMoreFound(e, depth, children, i, next, costs, cost, if i > 0 then costs[chosen] else 0);
      children, costs := children[i := next], costs + [cost];
      if least.None? || cost < least.value {
        chosen, least := i, Some(cost);
      }
      i := i + 1;
    }
    assert children[..i] == children;
    child, best := children[chosen], costs[chosen];
    ChildTree(e, node.replica, node.maxCost, children, chosen);
    ChosenIsBest(e, node, children, depth, costs, chosen);
  }

  lemma ChosenIsBest(e: Setting, node: Node, children: seq<Node>, depth: nat, costs: seq<nat>, chosen: nat)
    requires ChildrenOk(e, node.replica, node.maxCost, children) && FindsEach(e, depth, children, costs)
    requires chosen < |children| && |costs| == |children| && LeastOf(costs, costs[chosen])
    ensures BestAmong(e, node.replica, node.maxCost, depth, Bare(children[chosen]), costs[chosen])
  {
    hide Finds, Fan, LeastOf, FindsEach, TreeOk;
    BareFound(e, depth, children, costs);
    assert BareAll(children)[chosen] == Bare(children[chosen]);
  }

  // ---------------------------------------------------------------- the run

  /** The round leads to a best child; no way to go on costs less than the best found for it, unless the candidates leave
      a child out. */
  ghost predicate BestRound(e: Setting, r: Replica, cost: nat, depth: nat, ids: seq<nat>) {
    IsRound(e, r, ids) && exists child, best: nat :: BestRoundBy(e, r, cost, depth, ids, child, best)
  }

  ghost predicate BestRoundBy(e: Setting, r: Replica, cost: nat, depth: nat, ids: seq<nat>, child: Node, best: nat) {
    && child.ids == ids && BestAmong(e, r, cost, depth, child, best)
    && Leads(e, StepAll(e.job, r, ids), CostAll(e.job, r, ids, cost), depth, best)
    && ((forall g :: g in r.progress.available ==> WideBy(e, r, cost, depth + 1, g)) ==> Lowest(e, r, cost, depth + 1, best))
  }

  lemma BestIsRound(e: Setting, r: Replica, cost: nat, depth: nat, child: Node, best: nat, past: seq<nat>, n: nat)
    requires BestAmong(e, r, cost, depth, child, best) && CircuitOk(e.job.circuit, n) && Ordered(e.job.circuit, r.progress, past)
    ensures BestRound(e, r, cost, depth, child.ids) && InTurn(e.job, r, child.ids) && child.ids != []
    ensures child.replica == StepAll(e.job, r, child.ids) && child.maxCost == CostAll(e.job, r, child.ids, cost)
  {
    hide Finds, Fan, NodeFrom, Leads, WideBy, Lowest, CircuitOk, Ordered, StepAll, CostAll, InTurn, IsRound;
    var nodes: seq<Node>, costs: seq<nat> :|
      && multiset(nodes) == multiset(Fan(e, r, cost)) && FindsEach(e, depth, nodes, costs) && LeastOf(costs, best)
      && exists k :: 0 <= k < |nodes| && nodes[k] == child && costs[k] == best;
    var k :| 0 <= k < |nodes| && nodes[k] == child && costs[k] == best;
    assert nodes + [] == nodes;
    AmongFan(e, r, cost, nodes, [], k);
    ChildFacts(e, r, cost, child);
    var g :| g in r.progress.available && child == NodeFrom(e, [g], r, cost);
    NodeFromIsRound(e, r, cost, g, past, n);
    FindsLeads(e, child.replica, child.maxCost, depth, best);
    if forall g :: g in r.progress.available ==> WideBy(e, r, cost, depth + 1, g) {
      LowestOfFan(e, r, cost, depth + 1, nodes, costs, best);
    }
    assert BestRoundBy(e, r, cost, depth, child.ids, child, best);
  }

  /** Each round is a best one from where those before it have led. */
  ghost predicate BestRounds(e: Setting, first: Replica, depth: nat, rounds: seq<seq<nat>>) {
    forall k :: 0 <= k < |rounds| ==> BestRoundAt(e, first, depth, rounds, k)
  }

  ghost predicate BestRoundAt(e: Setting, first: Replica, depth: nat, rounds: seq<seq<nat>>, k: nat)
    requires k < |rounds|
  {
    var past := Flat(rounds[..k]);
    BestRound(e, StepAll(e.job, first, past), CostAll(e.job, first, past, 0), depth, rounds[k])
  }

  lemma BestRoundsMore(e: Setting, first: Replica, depth: nat, rounds: seq<seq<nat>>, ids: seq<nat>)
    requires BestRounds(e, first, depth, rounds)
    requires var past := Flat(rounds); BestRound(e, StepAll(e.job, first, past), CostAll(e.job, first, past, 0), depth, ids)
    ensures BestRounds(e, first, depth, rounds + [ids]) && Flat(rounds + [ids]) == Flat(rounds) + ids
  {
    hide StepAll, CostAll, BestRound;
    FlatMore(rounds, ids);
    forall k | 0 <= k < |rounds + [ids]|
      ensures BestRoundAt(e, first, depth, rounds + [ids], k)
    {
      assert (rounds + [ids])[..k] == rounds[..k];
      assert k == |rounds| ==> rounds[..k] == rounds;
      assert k < |rounds| ==> BestRoundAt(e, first, depth, rounds, k);
    }
  }

  lemma {:induction false} FlatMore(rounds: seq<seq<nat>>, ids: seq<nat>)
    ensures Flat(rounds + [ids]) == Flat(rounds) + ids
  {
    if rounds == [] {
      assert [ids][1..] == [] && [] + [ids] == [ids];
    } else {
      assert (rounds + [ids])[1..] == rounds[1..] + [ids];
      FlatMore(rounds[1..], ids);
      assert rounds[0] + (Flat(rounds[1..]) + ids) == rounds[0] + Flat(rounds[1..]) + ids;
    }
  }

  /** With a look-ahead of one nothing is cached. */
  function Effective(conf: Conf, lookahead: nat): Conf {
    conf.(neverCache := conf.neverCache || lookahead == 1)
  }

  class SearchScheduler {
    const base: Scheduler
    const conf: Conf
    const lookahead: nat

    constructor (base: Scheduler, conf: Conf, lookahead: nat)
      ensures this.base == base && this.lookahead == lookahead && this.conf == Effective(conf, lookahead)
    {
      this.base, this.lookahead := base, lookahead;
      this.conf := if !conf.neverCache && lookahead == 1 then conf.(neverCache := true) else conf;
    }

    function TheSetting(router: Router): Setting
      reads router.device.topology
    {
      Setting(conf, base.TheJob(router))
    }

    /** Until no gate is left, the best child becomes the root and the real router follows its gates: the
        root's copies are then again what the real ones are, and its cost is that of the run. */
    method AssignGates(router: Router, ghost first: Replica) returns (ghost rounds: seq<seq<nat>>)
      requires base.Running(router, first) && base.InTurn() && base.ids == [] && lookahead >= 1 && conf.candidates >= 1
      modifies base, base.topology, router, router.device`qubits
      ensures base.Running(router, first) && base.InTurn() && |base.ids| == |base.topology.circuit.gates|
      ensures Flat(rounds) == base.ids && BestRounds(TheSetting(router), first, lookahead, rounds)
    {
      hide Carried, Ordered, CircuitOk, TreeOk, BestAmong, BestRound, StepAll, OpsAll, CostAll, RouterOk, Flat, BestRounds, InTurn;
      var e := TheSetting(router);
      ghost var n := |router.device.adj|;
      NothingInTurn(e, first, 0);
      NoRounds(e, first, lookahead);
      var root := MakeNode(e, [], base.Now(router), 0, base.ids, n);
      rounds := [];
      RootIsReal(e, root, base.Now(router));
      SomethingAvailable(base.topology.circuit, base.topology.State(), base.ids);
      while root.replica.progress.available != []
        invariant base.Running(router, first) && base.InTurn() && e == TheSetting(router) && n == |router.device.adj|
        invariant root.replica == base.Now(router) && TreeOk(e, root) && |base.ids| <= |base.topology.circuit.gates|
        invariant InTurn(e.job, first, base.ids) && root.maxCost == CostAll(e.job, first, base.ids, 0)
        invariant Flat(rounds) == base.ids && BestRounds(e, first, lookahead, rounds)
        invariant base.topology.available == [] <==> |base.ids| == |base.topology.circuit.gates|
        decreases |base.topology.circuit.gates| - |base.ids|
      {
        var child; ghost var best;
        child, best := BestChild(e, root, lookahead, base.ids, n);
        BestIsRound(e, root.replica, root.maxCost, lookahead, Bare(child), best, base.ids, n);
        BestRoundsMore(e, first, lookahead, rounds, child.ids);
        TurnsAppend(e.job, first, base.ids, child.ids, 0);
        rounds := rounds + [child.ids];
        root := child;
        FollowRoot(router, root.ids, e, first);
        SomethingAvailable(base.topology.circuit, base.topology.State(), base.ids);
      }
    }

    /** Routes the gates of the new root. */
    method FollowRoot(router: Router, more: seq<nat>, ghost e: Setting, ghost first: Replica)
      requires base.Running(router, first) && base.InTurn() && e == TheSetting(router) && InTurn(e.job, base.Now(router), more)
      modifies base, base.topology, router, router.device`qubits
      ensures base.Running(router, first) && base.InTurn() && e == TheSetting(router) && base.ids == old(base.ids) + more
    {
      hide Carried, Ordered, CircuitOk, RouterOk, StepAll, OpsAll, InTurn;
      var i := 0;
      assert more[..0] == [];
      while i < |more|
        invariant i <= |more| && base.Running(router, first) && base.InTurn() && e == TheSetting(router)
        invariant base.ids == old(base.ids) + more[..i]
      {
        TurnOf(e.job, old(base.Now(router)), more, i);
        StepOn(e.job, first, old(base.ids), more[..i]);
        assert more[..i + 1] == more[..i] + [more[i]];
        base.RouteAvailable(router, more[i], first);
        i := i + 1;
      }
      assert more[..i] == more;
    }
  }

  lemma NoRounds(e: Setting, first: Replica, depth: nat)
    ensures Flat([]) == [] && BestRounds(e, first, depth, [])
  {
  }

  lemma RootIsReal(e: Setting, root: Node, now: Replica)
    requires root == NodeFrom(e, [], now, 0)
    ensures root.replica == now && root.maxCost == 0 && TreeOk(e, root)
  {
  }
}
