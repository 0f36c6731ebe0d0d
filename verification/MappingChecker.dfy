/** The checker that reads a mapped circuit back, and what its verdict is worth. */
module MappingCheckers {
  import opened Collections
  import opened Topologies
  import opened Schedules
  import opened Routing
  import opened CircuitTopologies
  import opened CircuitOrders
  import opened Schedulers
  import opened MappingSteps

  // ---------------------------------------------------------------- both sides of the reading

  /** The physical gates read so far, each qubit's in order. */
  ghost predicate ReadPhysical(p: Reading, steps: seq<Step>, read: set<nat>) {
    Closed(Shape(p), read) && InOrder(Shape(p), PhysicalEvents(p, steps), read)
  }

  /** The logical gates they stand for, each qubit's in order and closed under dependencies. */
  ghost predicate ReadLogical(p: Reading, l: Reading, placement: seq<nat>, steps: seq<Step>, done: set<nat>) {
    Closed(Shape(l), done) && InOrder(Shape(l), LogicalEvents(p, placement, steps), done)
  }

  lemma StepsSplit(steps: seq<Step>, step: Step)
    ensures (steps + [step])[..|steps + [step]| - 1] == steps
  {
  }

  lemma ReadOneGate(p: Reading, l: Reading, placement: seq<nat>, steps: seq<Step>, read: set<nat>, done: set<nat>, i: nat, id: nat)
    requires ReadPhysical(p, steps, read) && ReadLogical(p, l, placement, steps, done)
    requires Ready(Shape(p), i, read) && Ready(Shape(l), id, done)
    requires Held(PlacedAfter(p, placement, steps), p.gates[i].qubits) == l.gates[id].qubits
    ensures var more := steps + [GateStep(i, id)];
            ReadPhysical(p, more, read + {i}) && ReadLogical(p, l, placement, more, done + {id}) &&
            PlacedAfter(p, placement, more) == PlacedAfter(p, placement, steps)
  {
    StepsSplit(steps, GateStep(i, id));
    InOrderMore(Shape(p), PhysicalEvents(p, steps), read, i);
    InOrderMore(Shape(l), LogicalEvents(p, placement, steps), done, id);
    ClosedMore(Shape(p), read, i);
    ClosedMore(Shape(l), done, id);
    hide InOrder, Closed, Ready, Shape;
  }

  lemma ReadOneSwap(p: Reading, l: Reading, placement: seq<nat>, steps: seq<Step>, read: set<nat>, done: set<nat>, i: nat, j: nat, k: nat)
    requires ReadPhysical(p, steps, read) && ReadLogical(p, l, placement, steps, done)
    requires Ready(Shape(p), i, read) && Ready(Shape(p), j, read + {i}) && Ready(Shape(p), k, read + {i} + {j})
    ensures var more := steps + [SwapStep(i, j, k)];
            ReadPhysical(p, more, read + {i} + {j} + {k}) && ReadLogical(p, l, placement, more, done)
  {
    var es := PhysicalEvents(p, steps);
    StepsSplit(steps, SwapStep(i, j, k));
    InOrderMore(Shape(p), es, read, i);
    ClosedMore(Shape(p), read, i);
    InOrderMore(Shape(p), es + [PhysicalEvent(p, i)], read + {i}, j);
    ClosedMore(Shape(p), read + {i}, j);
    InOrderMore(Shape(p), es + [PhysicalEvent(p, i)] + [PhysicalEvent(p, j)], read + {i} + {j}, k);
    ClosedMore(Shape(p), read + {i} + {j}, k);
    hide InOrder, Closed, Ready, Shape, PhysicalEvent;
    var (a, b, c) := (PhysicalEvent(p, i), PhysicalEvent(p, j), PhysicalEvent(p, k));
    assert es + ([a] + [b] + [c]) == es + [a] + [b] + [c];
    assert LogicalEvents(p, placement, steps) + [] == LogicalEvents(p, placement, steps);
  }

  /** A gate that follows i directly on all its qubits is ready once i is read. */
  lemma FollowerIsReady(c: Circuit, read: set<nat>, i: nat, j: nat)
    requires Closed(c, read) && i < |c.gates| && j < |c.gates| && i !in read && c.gates[j].qubits != []
    requires forall t :: 0 <= t < |c.gates[j].qubits| ==> Uses(c, i, c.gates[j].qubits[t]) && Next(c, i, c.gates[j].qubits[t]) == Some(j)
    ensures Ready(c, j, read + {i})
  {
    assert Uses(c, i, c.gates[j].qubits[0]) && Next(c, i, c.gates[j].qubits[0]) == Some(j);
    ClosedIsPrefix(c, read, i, j, c.gates[j].qubits[0]);
    forall pin: nat | pin < |c.gates[j].qubits| && Pred(c, j, pin).Some?
      ensures Pred(c, j, pin).value in read + {i}
    {
      PreviousNext(c, i, j, c.gates[j].qubits[pin]);
    }
  }

  /** The next gate of the list is ready once all earlier ones are read. */
  lemma ListOrderIsReady(c: Circuit, read: set<nat>, i: nat)
    requires i < |c.gates| && i !in read && forall h: nat :: h < |c.gates| && Place(c, h) < Place(c, i) ==> h in read
    ensures Ready(c, i, read)
  {
  }

  // ---------------------------------------------------------------- the checker

  /** Everything read so far is accounted for. */
  ghost predicate Accounted(p: Reading, l: Reading, adj: seq<seq<nat>>, init: seq<nat>, placement: seq<nat>, next: seq<Option<nat>>,
                            steps: seq<Step>, read: set<nat>, done: set<nat>) {
    && GatesOk(p, |adj|) && GatesOk(l, |adj|) && PlacementOk(placement, |adj|) && (forall q :: 0 <= q < |adj| ==> placement[q] < |adj|)
    && placement == PlacedAfter(p, init, steps) && StepsOk(p, l, adj, init, steps)
    && ReadPhysical(p, steps, read) && ReadLogical(p, l, init, steps, done)
    && |next| == |adj| && forall q: nat :: q < |next| ==> NextOn(Shape(l), done, q, next[q])
  }

  lemma GateReadKeeps(p: Reading, l: Reading, adj: seq<seq<nat>>, init: seq<nat>, placement: seq<nat>, next: seq<Option<nat>>,
                      steps: seq<Step>, read: set<nat>, done: set<nat>, i: nat, id: nat, next': seq<Option<nat>>)
    requires Accounted(p, l, adj, init, placement, next, steps, read, done) && Ready(Shape(p), i, read)
    requires id < |l.gates| && StepOk(p, l, adj, placement, GateStep(i, id)) && |next'| == |next|
    requires forall t :: 0 <= t < |l.gates[id].qubits| ==> l.gates[id].qubits[t] < |next| && next[l.gates[id].qubits[t]] == Some(id)
    requires forall q: nat :: q < |next| ==> next'[q] == if q in l.gates[id].qubits then Next(Shape(l), id, q) else next[q]
    ensures Accounted(p, l, adj, init, placement, next', steps + [GateStep(i, id)], read + {i}, done + {id})
  {
    hide ReadPhysical, ReadLogical, StepsOk, PlacementOk, PlacedAfter, GatesOk;
    NextGateReady(l, done, next, id, |adj|);
    LogicalClosed(p, l, init, steps, done);
    ReadOneGate(p, l, init, steps, read, done, i, id);
    PlacementInjective(placement, |adj|);
    OneMoreStep(p, l, adj, init, steps, GateStep(i, id));
    forall q: nat | q < |next'|
      ensures NextOn(Shape(l), done + {id}, q, next'[q])
    {
      assert NextOn(Shape(l), done, q, next[q]);
      hide NextOn, Ready;
      ReadyNoMore(Shape(l), done, id);
      NextMoves(Shape(l), done, id, q, next[q]);
    }
  }

  lemma PlacementInjective(placement: seq<nat>, n: nat)
    requires PlacementOk(placement, n)
    ensures Distinct(placement)
  {
  }

  lemma LogicalClosed(p: Reading, l: Reading, init: seq<nat>, steps: seq<Step>, done: set<nat>)
    requires ReadLogical(p, l, init, steps, done)
    ensures Closed(Shape(l), done)
  {
  }

  lemma NextGateReady(l: Reading, done: set<nat>, next: seq<Option<nat>>, id: nat, n: nat)
    requires GatesOk(l, n) && id < |l.gates| && forall q: nat :: q < |next| ==> NextOn(Shape(l), done, q, next[q])
    requires forall t :: 0 <= t < |l.gates[id].qubits| ==> l.gates[id].qubits[t] < |next| && next[l.gates[id].qubits[t]] == Some(id)
    ensures Ready(Shape(l), id, done)
  {
    NextIsReady(Shape(l), done, id);
  }

  class MappingChecker {
    const physical: Reading
    const logical: Reading
    const adj: seq<seq<nat>>
    var placement: seq<nat>
    var next: seq<Option<nat>>
    ghost const init: seq<nat>
    ghost var steps: seq<Step>
    ghost var read: set<nat>
    ghost var done: set<nat>

    ghost predicate Valid()
      reads this
    {
      && Accounted(physical, logical, adj, init, placement, next, steps, read, done)
      && OnTheWay(physical, logical, adj, init, placement, steps, read, done)
    }

    /** No step goes on from here. */
    ghost predicate Stuck()
      reads this
    {
      forall step :: !GoesOn(physical, logical, adj, placement, read, done, step)
    }

    constructor (physical: Reading, logical: Reading, adj: seq<seq<nat>>, init: seq<nat>)
      requires GatesOk(physical, |adj|) && GatesOk(logical, |adj|) && PlacementOk(init, |adj|)
      requires forall q :: 0 <= q < |adj| ==> init[q] < |adj|
      ensures Valid() && read == {} && steps == [] && done == {}
      ensures this.physical == physical && this.logical == logical && this.adj == adj && this.init == init
    {
      this.physical, this.logical, this.adj, this.init := physical, logical, adj, init;
      placement := init;
      next := seq(|adj|, q requires 0 <= q < |adj| => FirstFrom(Shape(logical), 0, q));
      steps, read, done := [], {}, {};
      new;
      StartAccounted(physical, logical, adj, init, next);
      WayStarts(physical, logical, adj, init);
    }

    /** The physical gate that follows on a pin. */
    method GetNext(i: nat, pin: nat) returns (j: Option<nat>)
      requires i < |physical.gates| && pin < |physical.gates[i].qubits|
      ensures j == Succ(Shape(physical), i, pin)
    {
      j := Succ(Shape(physical), i, pin);
    }

    /** The CX gate in the other direction that follows directly on both pins, if there is one. */
    method FollowingCX(i: nat) returns (found: bool, j: nat)
      requires GatesOk(physical, |adj|) && i < |physical.gates| && |physical.gates[i].qubits| == 2
      ensures if found then Follows(physical, i, j) else forall k: nat :: !Follows(physical, i, k)
    {
      j := 0;
      var j0 := GetNext(i, 0);
      var j1 := GetNext(i, 1);
      if j0 != j1 || j0.None? || physical.gates[j0.value].kind != CX {
        return false, j;
      }
      j := j0.value;
      found := physical.gates[i].qubits[0] == physical.gates[j].qubits[1] && physical.gates[i].qubits[1] == physical.gates[j].qubits[0];
    }

    /** Whether a CX gate starts three alternating ones that no logical CX is waiting for. */
    method IsSwap(i: nat) returns (swap: bool, j: nat, k: nat)
      requires Valid() && i < |physical.gates| && |physical.gates[i].qubits| == 2
      ensures swap ==> IsTriple(physical, i, j, k)
      ensures var held := Held(placement, physical.gates[i].qubits);
              swap <==> StartsTriple(physical, i) && !Waiting(logical, done, held[0], held[1])
    {
      hide Accounted, OnTheWay, Shape, Waiting, Closed, NextOn, Distinct, GatesOk, Follows;
      SizesOf(physical, logical, adj, init, placement, next, steps, read, done);
      NextFacts(physical, logical, adj, init, placement, next, steps, read, done);
      QubitsInRange(physical, |adj|, i);
      j, k := 0, 0;
      if physical.gates[i].kind != CX {
        return false, j, k;
      }
      swap, j := FollowingCX(i);
      if !swap {
        return false, j, k;
      }
      FollowerFacts(physical, i, j);
      swap, k := FollowingCX(j);
      if !swap {
        NotTriple(physical, i, j);
        return false, j, k;
      }
      assert IsTriple(physical, i, j, k);
      var (a, b) := (placement[physical.gates[j].qubits[1]], placement[physical.gates[j].qubits[0]]);
      DifferentHeld(placement, |adj|, physical.gates[i].qubits[0], physical.gates[i].qubits[1]);
      WaitingByNext(logical, |adj|, done, next, a, b);
      NextExists(physical, logical, adj, init, placement, next, steps, read, done, b);
      var ctrl, targ := next[b], next[a];
      swap := ctrl != targ || ctrl.None? || logical.gates[ctrl.value].kind != CX;
    }

    /** Reads three gates as a swap. */
    method ExecuteSwap(i: nat, j: nat, k: nat) returns (ok: bool)
      requires Valid() && FirstListed(physical, read, i) && IsTriple(physical, i, j, k) && |physical.gates[i].qubits| == 2
      requires var held := Held(placement, physical.gates[i].qubits); !Waiting(logical, done, held[0], held[1])
      modifies this
      ensures Valid() && if ok then read == old(read) + {i} + {j} + {k} else Stuck() && read == old(read)
    {
      hide Accounted, OnTheWay, Ready, IsTriple, Waiting, FirstListed, Shape, GoesOn;
      TripleFacts(physical, i, j, k);
      SizesOf(physical, logical, adj, init, placement, next, steps, read, done);
      FirstIsReady(physical, logical, adj, init, placement, next, steps, read, done, i);
      OnlySwap(physical, logical, adj, placement, read, done, i, j, k);
      var (a, b) := (physical.gates[i].qubits[0], physical.gates[i].qubits[1]);
      if !Coupled(adj, a, b) {
        return false;
      }
      SwapReadKeeps(physical, logical, adj, init, placement, next, steps, read, done, i, j, k);
      LogicalPart(physical, logical, adj, init, placement, next, steps, read, done);
      SwapOnTheWay(physical, logical, adj, init, placement, steps, read, done, i, j, k);
      placement := Exchange(placement, a, b);
      steps := steps + [SwapStep(i, j, k)];
      read := read + {i} + {j} + {k};
      return true;
    }

    /** Records a gate that matches. */
    method TakeGate(i: nat, id: nat)
      requires Valid() && FirstListed(physical, read, i) && Matched(physical, logical, adj, placement, next, i, id)
      modifies this
      ensures Valid() && read == old(read) + {i}
    {
      hide Accounted, OnTheWay, Ready, Shape, GatesOk, FirstListed, GoesOn, NextOn, Closed, Next;
      SizesOf(physical, logical, adj, init, placement, next, steps, read, done);
      FirstIsReady(physical, logical, adj, init, placement, next, steps, read, done, i);
      LogicalPart(physical, logical, adj, init, placement, next, steps, read, done);
      MatchedGoesOn(physical, logical, adj, placement, read, done, next, i, id);
      MatchedIsStep(physical, logical, adj, placement, next, i, id);
      var qubits := logical.gates[id].qubits;
      GateFacts(logical, |adj|, id);
      var next' := next[qubits[0] := Next(Shape(logical), id, qubits[0])];
      if |qubits| == 2 {
        next' := next'[qubits[1] := Next(Shape(logical), id, qubits[1])];
      }
      GateReadKeeps(physical, logical, adj, init, placement, next, steps, read, done, i, id, next');
      GateOnTheWay(physical, logical, adj, init, placement, steps, read, done, i, id);
      next := next';
      steps := steps + [GateStep(i, id)];
      read, done := read + {i}, done + {id};
    }

    method ExecuteSingle(i: nat) returns (ok: bool)
      requires Valid() && FirstListed(physical, read, i) && |physical.gates[i].qubits| == 1
      modifies this
      ensures Valid() && if ok then read == old(read) + {i} else Stuck() && read == old(read)
    {
      hide Accounted, OnTheWay, Ready, Shape, GatesOk, FirstListed, GoesOn;
      SizesOf(physical, logical, adj, init, placement, next, steps, read, done);
      ListedInRange(physical, read, i);
      QubitsInRange(physical, |adj|, i);
      var q := placement[physical.gates[i].qubits[0]];
      NextExists(physical, logical, adj, init, placement, next, steps, read, done, q);
      if next[q].None? {
        NoneMatches(physical, logical, adj, placement, next, i);
        Unmatched(i);
        return false;
      }
      var id := next[q].value;
      if logical.gates[id].kind != physical.gates[i].kind || logical.gates[id].qubits[0] != q {
        NoneMatches(physical, logical, adj, placement, next, i);
        Unmatched(i);
        return false;
      }
      SameArity(physical, logical, |adj|, i, id);
      assert Held(placement, physical.gates[i].qubits) == logical.gates[id].qubits;
      TakeGate(i, id);
      return true;
    }

    method ExecuteDouble(i: nat) returns (ok: bool)
      requires Valid() && FirstListed(physical, read, i) && |physical.gates[i].qubits| == 2
      requires var held := Held(placement, physical.gates[i].qubits); StartsTriple(physical, i) ==> Waiting(logical, done, held[0], held[1])
      modifies this
      ensures Valid() && if ok then read == old(read) + {i} else Stuck() && read == old(read)
    {
      hide Accounted, OnTheWay, Ready, Shape, GatesOk, FirstListed, GoesOn, Waiting, StartsTriple;
      SizesOf(physical, logical, adj, init, placement, next, steps, read, done);
      ListedInRange(physical, read, i);
      QubitsInRange(physical, |adj|, i);
      var ctrl, targ := placement[physical.gates[i].qubits[0]], placement[physical.gates[i].qubits[1]];
      NextExists(physical, logical, adj, init, placement, next, steps, read, done, targ);
      if next[ctrl] != next[targ] || next[targ].None? {
        Unmatched(i);
        return false;
      }
      var id := next[targ].value;
      if logical.gates[id].kind != physical.gates[i].kind {
        Unmatched(i);
        return false;
      }
      SameArity(physical, logical, |adj|, i, id);
      if logical.gates[id].qubits[0] != ctrl || logical.gates[id].qubits[1] != targ || !Coupled(adj, physical.gates[i].qubits[0], physical.gates[i].qubits[1]) {
        Unmatched(i);
        return false;
      }
      assert Held(placement, physical.gates[i].qubits) == logical.gates[id].qubits;
      TakeGate(i, id);
      return true;
    }

    lemma Unmatched(i: nat)
      requires Valid() && FirstListed(physical, read, i) && |physical.gates[i].qubits| >= 1
      requires StartsTriple(physical, i) && |physical.gates[i].qubits| == 2 ==>
                 var held := Held(placement, physical.gates[i].qubits); Waiting(logical, done, held[0], held[1])
      requires forall id: nat :: !Matched(physical, logical, adj, placement, next, i, id)
      ensures Stuck()
    {
      hide Accounted, OnTheWay, Ready, Shape, GoesOn, Waiting, StartsTriple, Matched;
      SizesOf(physical, logical, adj, init, placement, next, steps, read, done);
      LogicalPart(physical, logical, adj, init, placement, next, steps, read, done);
      HeldInRange(physical, placement, |adj|, i);
      UnmatchedStops(physical, logical, adj, placement, read, done, next, i);
    }

    /** Reads the next gate of the list, with the two after it if it starts a swap. */
    method ReadGate(i: nat) returns (ok: bool, more: set<nat>)
      requires Valid() && FirstListed(physical, read, i)
      modifies this
      ensures Valid() && if ok then read == old(read) + {i} + more && (forall h :: h in more ==> h < |physical.gates|) else Stuck() && read == old(read)
    {
      hide Accounted, OnTheWay, Ready, IsTriple, StartsTriple, Waiting, FirstListed, GoesOn;
      ListedInRange(physical, read, i);
      more := {};
      if |physical.gates[i].qubits| == 2 {
        var swap, j, k := IsSwap(i);
        if swap {
          TripleFacts(physical, i, j, k);
          ok := ExecuteSwap(i, j, k);
          more := {j} + {k};
        } else {
          ok := ExecuteDouble(i);
        }
      } else if |physical.gates[i].qubits| > 1 {
        ManyQubits(physical, logical, adj, placement, read, done, i);
        return false, more;
      } else {
        PhysicalArity(physical, logical, adj, init, placement, next, steps, read, done, i);
        ok := ExecuteSingle(i);
      }
    }

    /** The verdict is yes exactly when the physical circuit can be read, from its beginning to its end, as swaps on
        coupled pairs and gates of the logical circuit on their own operands, each when all its predecessors are
        done, with no swap on a pair whose two logical qubits wait for one CX. */
    method Check() returns (ok: bool)
      requires Valid() && read == {} && steps == [] && done == {}
      modifies this
      ensures Valid() && (ok ==> read == UpTo(|physical.gates|))
      ensures ok <==> exists full :: IsOpenReading(physical, logical, adj, init, full)
    {
      hide Accounted, OnTheWay, Ready, Stuck, FirstListed, IsOpenReading;
      var swaps: set<nat>, k := {}, 0;
      while k < |physical.order|
        invariant k <= |physical.order| && Valid() && (forall h: nat :: h in read <==> h in physical.order[..k] || h in swaps)
        invariant forall h :: h in swaps ==> h < |physical.gates|
      {
        var i := physical.order[k];
        assert physical.order[..k + 1] == physical.order[..k] + [i];
        if i !in swaps {
          NotYetRead(physical.order, k);
          InListOrder(physical, read, k);
          var more;
          ok, more := ReadGate(i);
          if !ok {
            StopHere(i);
            return false;
          }
          swaps := swaps + {i} + more;
        }
        k := k + 1;
      }
      assert physical.order[..k] == physical.order;
      assert read == UpTo(|physical.gates|);
      WayEnds(physical, logical, adj, init, placement, steps, read, done);
      return true;
    }

    lemma StopHere(i: nat)
      requires Valid() && Stuck() && FirstListed(physical, read, i)
      ensures !exists full :: IsOpenReading(physical, logical, adj, init, full)
    {
      hide Accounted, OnTheWay, GoesOn, IsOpenReading;
      WayStops(physical, logical, adj, init, placement, steps, read, done, i);
    }
  }

  lemma NotYetRead(order: seq<nat>, k: nat)
    requires Distinct(order) && k < |order|
    ensures order[k] !in order[..k] && forall j :: 0 <= j < k ==> order[j] in order[..k]
  {
    assert forall j :: 0 <= j < k ==> order[..k][j] == order[j];
  }

  lemma TripleFacts(p: Reading, i: nat, j: nat, k: nat)
    requires IsTriple(p, i, j, k)
    ensures i < |p.gates| && j < |p.gates| && k < |p.gates| && |p.gates[i].qubits| == 2
  {
  }

  /** The sizes and ranges that the state keeps. */
  lemma SizesOf(p: Reading, l: Reading, adj: seq<seq<nat>>, init: seq<nat>, placement: seq<nat>, next: seq<Option<nat>>,
                steps: seq<Step>, read: set<nat>, done: set<nat>)
    requires Accounted(p, l, adj, init, placement, next, steps, read, done)
    ensures GatesOk(p, |adj|) && GatesOk(l, |adj|) && |placement| == |next| == |adj|
    ensures forall q :: 0 <= q < |adj| ==> placement[q] < |adj|
  {
  }

  lemma NextExists(p: Reading, l: Reading, adj: seq<seq<nat>>, init: seq<nat>, placement: seq<nat>, next: seq<Option<nat>>,
                   steps: seq<Step>, read: set<nat>, done: set<nat>, q: nat)
    requires Accounted(p, l, adj, init, placement, next, steps, read, done) && q < |next|
    ensures next[q].Some? ==> next[q].value < |l.gates| && q in l.gates[next[q].value].qubits
  {
    assert NextOn(Shape(l), done, q, next[q]);
  }

  /** Gates of one kind have as many qubits as the kind says. */
  lemma SameArity(p: Reading, l: Reading, n: nat, i: nat, id: nat)
    requires GatesOk(p, n) && GatesOk(l, n) && i < |p.gates| && id < |l.gates| && p.gates[i].kind == l.gates[id].kind
    ensures |p.gates[i].qubits| == |l.gates[id].qubits| >= 1 && (|l.gates[id].qubits| == 2 ==> l.gates[id].qubits[0] != l.gates[id].qubits[1])
  {
  }

  lemma QubitsInRange(p: Reading, n: nat, i: nat)
    requires GatesOk(p, n) && i < |p.gates|
    ensures forall t :: 0 <= t < |p.gates[i].qubits| ==> p.gates[i].qubits[t] < n
    ensures |p.gates[i].qubits| == 2 ==> p.gates[i].qubits[0] != p.gates[i].qubits[1]
  {
  }

  lemma PhysicalArity(p: Reading, l: Reading, adj: seq<seq<nat>>, init: seq<nat>, placement: seq<nat>, next: seq<Option<nat>>,
                      steps: seq<Step>, read: set<nat>, done: set<nat>, i: nat)
    requires Accounted(p, l, adj, init, placement, next, steps, read, done) && i < |p.gates|
    ensures |p.gates[i].qubits| >= 1
  {
  }

  lemma InListOrder(p: Reading, read: set<nat>, k: nat)
    requires k < |p.order| && p.order[k] !in read && forall j :: 0 <= j < k ==> p.order[j] in read
    ensures FirstListed(p, read, p.order[k])
  {
    PlaceOf(Shape(p), k);
  }

  lemma ListedInRange(p: Reading, read: set<nat>, i: nat)
    requires FirstListed(p, read, i)
    ensures i < |p.gates| && i !in read
  {
  }

  /** The next gate of the list is ready. */
  lemma FirstIsReady(p: Reading, l: Reading, adj: seq<seq<nat>>, init: seq<nat>, placement: seq<nat>, next: seq<Option<nat>>,
                     steps: seq<Step>, read: set<nat>, done: set<nat>, i: nat)
    requires Accounted(p, l, adj, init, placement, next, steps, read, done) && FirstListed(p, read, i)
    ensures Ready(Shape(p), i, read)
  {
    ListOrderIsReady(Shape(p), read, i);
  }

  lemma NextFacts(p: Reading, l: Reading, adj: seq<seq<nat>>, init: seq<nat>, placement: seq<nat>, next: seq<Option<nat>>,
                  steps: seq<Step>, read: set<nat>, done: set<nat>)
    requires Accounted(p, l, adj, init, placement, next, steps, read, done)
    ensures GatesOk(l, |adj|) && Closed(Shape(l), done) && Distinct(placement) && forall q: nat :: q < |next| ==> NextOn(Shape(l), done, q, next[q])
  {
  }

  lemma LogicalPart(p: Reading, l: Reading, adj: seq<seq<nat>>, init: seq<nat>, placement: seq<nat>, next: seq<Option<nat>>,
                    steps: seq<Step>, read: set<nat>, done: set<nat>)
    requires Accounted(p, l, adj, init, placement, next, steps, read, done)
    ensures Closed(Shape(l), done) && forall q: nat :: q < |next| ==> NextOn(Shape(l), done, q, next[q])
  {
  }

  lemma FollowerFacts(p: Reading, i: nat, j: nat)
    requires Follows(p, i, j)
    ensures i < |p.gates| && j < |p.gates| && |p.gates[i].qubits| == |p.gates[j].qubits| == 2
    ensures p.gates[j].qubits == [p.gates[i].qubits[1], p.gates[i].qubits[0]]
  {
  }

  lemma NotTriple(p: Reading, i: nat, j: nat)
    requires Follows(p, i, j) && forall k: nat :: !Follows(p, j, k)
    ensures !StartsTriple(p, i)
  {
    forall j': nat, k: nat | IsTriple(p, i, j', k)
      ensures false
    {
      SameFollower(p, i, j, j');
    }
  }

  lemma DifferentHeld(placement: seq<nat>, n: nat, a: nat, b: nat)
    requires Distinct(placement) && |placement| == n && a < n && b < n && a != b
    ensures placement[a] != placement[b]
  {
  }

  lemma HeldInRange(p: Reading, placement: seq<nat>, n: nat, i: nat)
    requires GatesOk(p, n) && |placement| == n && i < |p.gates| && forall q :: 0 <= q < n ==> placement[q] < n
    ensures forall q :: q in Held(placement, p.gates[i].qubits) ==> q < n
  {
    QubitsInRange(p, n, i);
  }

  lemma MatchedIsStep(p: Reading, l: Reading, adj: seq<seq<nat>>, placement: seq<nat>, next: seq<Option<nat>>, i: nat, id: nat)
    requires Matched(p, l, adj, placement, next, i, id)
    ensures StepOk(p, l, adj, placement, GateStep(i, id))
  {
  }

  lemma NoneMatches(p: Reading, l: Reading, adj: seq<seq<nat>>, placement: seq<nat>, next: seq<Option<nat>>, i: nat)
    requires i < |p.gates| && |p.gates[i].qubits| == 1 && p.gates[i].qubits[0] < |placement| && placement[p.gates[i].qubits[0]] < |next|
    requires var q := placement[p.gates[i].qubits[0]];
             || next[q].None? || next[q].value >= |l.gates| || l.gates[next[q].value].kind != p.gates[i].kind
             || l.gates[next[q].value].qubits == [] || l.gates[next[q].value].qubits[0] != q
    ensures forall id: nat :: !Matched(p, l, adj, placement, next, i, id)
  {
    assert Held(placement, p.gates[i].qubits)[0] == placement[p.gates[i].qubits[0]];
    forall id: nat
      ensures !Matched(p, l, adj, placement, next, i, id)
    {
      if id < |l.gates| && |l.gates[id].qubits| == 1 {
        var q := l.gates[id].qubits[0];
      }
    }
  }

  lemma GateFacts(l: Reading, n: nat, id: nat)
    requires GatesOk(l, n) && id < |l.gates|
    ensures |l.gates[id].qubits| >= 1 && forall t :: 0 <= t < |l.gates[id].qubits| ==> l.gates[id].qubits[t] < n
    ensures |l.gates[id].qubits| == 2 ==> l.gates[id].qubits[0] != l.gates[id].qubits[1]
  {
  }

  lemma StartAccounted(p: Reading, l: Reading, adj: seq<seq<nat>>, init: seq<nat>, next: seq<Option<nat>>)
    requires GatesOk(p, |adj|) && GatesOk(l, |adj|) && PlacementOk(init, |adj|) && forall q :: 0 <= q < |adj| ==> init[q] < |adj|
    requires |next| == |adj| && forall q: nat :: q < |next| ==> next[q] == FirstFrom(Shape(l), 0, q)
    ensures Accounted(p, l, adj, init, init, next, [], {}, {})
  {
    forall q: nat
      ensures CircuitOn(Shape(p), q, {}, |p.order|) == [] && CircuitOn(Shape(l), q, {}, |l.order|) == []
    {
      NoneOnQubit(Shape(p), q, |p.order|);
      NoneOnQubit(Shape(l), q, |l.order|);
    }
    forall q: nat | q < |next|
      ensures NextOn(Shape(l), {}, q, next[q])
    {
    }
  }

  lemma TripleReady(p: Reading, read: set<nat>, i: nat, j: nat, k: nat)
    requires Closed(Shape(p), read) && Ready(Shape(p), i, read) && IsTriple(p, i, j, k)
    ensures Ready(Shape(p), j, read + {i}) && Ready(Shape(p), k, read + {i} + {j})
  {
    var c := Shape(p);
    FollowsOnBoth(c, i, j);
    FollowsOnBoth(c, j, k);
    FollowerIsReady(c, read, i, j);
    ClosedMore(c, read, i);
    ReadyNoMore(c, read + {i}, j);
    FollowerIsReady(c, read + {i}, j, k);
  }

  lemma FollowsOnBoth(c: Circuit, i: nat, j: nat)
    requires i < |c.gates| && j < |c.gates| && |c.gates[i].qubits| == |c.gates[j].qubits| == 2 && Succ(c, i, 0) == Some(j) && Succ(c, i, 1) == Some(j)
    requires c.gates[j].qubits == [c.gates[i].qubits[1], c.gates[i].qubits[0]]
    ensures forall t :: 0 <= t < |c.gates[j].qubits| ==> Uses(c, i, c.gates[j].qubits[t]) && Next(c, i, c.gates[j].qubits[t]) == Some(j)
  {
    forall t | 0 <= t < 2
      ensures Uses(c, i, c.gates[j].qubits[t]) && Next(c, i, c.gates[j].qubits[t]) == Some(j)
    {
      assert c.gates[j].qubits[t] == c.gates[i].qubits[0] || c.gates[j].qubits[t] == c.gates[i].qubits[1];
      assert c.gates[i].qubits[0] in c.gates[i].qubits && c.gates[i].qubits[1] in c.gates[i].qubits;
    }
  }

  lemma SwapReadKeeps(p: Reading, l: Reading, adj: seq<seq<nat>>, init: seq<nat>, placement: seq<nat>, next: seq<Option<nat>>,
                      steps: seq<Step>, read: set<nat>, done: set<nat>, i: nat, j: nat, k: nat)
    requires Accounted(p, l, adj, init, placement, next, steps, read, done) && Ready(Shape(p), i, read) && IsTriple(p, i, j, k)
    requires i < |p.gates| && |p.gates[i].qubits| == 2 && Coupled(adj, p.gates[i].qubits[0], p.gates[i].qubits[1])
    requires p.gates[i].qubits[0] < |placement| && p.gates[i].qubits[1] < |placement|
    ensures Accounted(p, l, adj, init, Exchange(placement, p.gates[i].qubits[0], p.gates[i].qubits[1]), next,
                      steps + [SwapStep(i, j, k)], read + {i} + {j} + {k}, done)
  {
    hide ReadLogical, StepsOk, GatesOk, Ready, InOrder, NextOn, Exchange, Closed;
    var step := SwapStep(i, j, k);
    StepsSplit(steps, step);
    TripleReady(p, read, i, j, k);
    ReadOneSwap(p, l, init, steps, read, done, i, j, k);
    PlacementInjective(placement, |adj|);
    TripleIsStep(p, l, adj, placement, i, j, k);
    OneMoreStep(p, l, adj, init, steps, step);
    ExchangeOk(placement, p.gates[i].qubits[0], p.gates[i].qubits[1], |adj|);
  }

  lemma TripleIsStep(p: Reading, l: Reading, adj: seq<seq<nat>>, placement: seq<nat>, i: nat, j: nat, k: nat)
    requires IsTriple(p, i, j, k) && i < |p.gates| && |p.gates[i].qubits| == 2 && Coupled(adj, p.gates[i].qubits[0], p.gates[i].qubits[1])
    ensures StepOk(p, l, adj, placement, SwapStep(i, j, k))
  {
  }

  lemma ExchangeOk(placement: seq<nat>, a: nat, b: nat, n: nat)
    requires PlacementOk(placement, n) && a < n && b < n && forall q :: 0 <= q < n ==> placement[q] < n
    ensures PlacementOk(Exchange(placement, a, b), n) && forall q :: 0 <= q < n ==> Exchange(placement, a, b)[q] < n
  {
    var r := Exchange(placement, a, b);
    forall p, q | 0 <= p < q < |r|
      ensures r[p] != r[q]
    {
      assert r[p] == placement[if p == a then b else if p == b then a else p];
      assert r[q] == placement[if q == a then b else if q == b then a else q];
    }
  }

  function Toward(p: Reading, reverse: bool): Reading {
    if reverse then Backwards(p) else p
  }

  /** A mapped circuit passes exactly when it can be read, from either end, as swaps and gates of the logical circuit
      with no swap on a waiting pair. One that passes: read as steps, from either end, it consists of swaps and logical gates as a
      mapping may, it contains all its gates in the order of each physical qubit, and the logical gates it stands
      for are closed under dependencies and in the order of each logical qubit. Reading backwards, the placement
      is the one at the end, and all orders are reversed. */
  method CheckMapping(physical: Reading, logical: Reading, adj: seq<seq<nat>>, init: seq<nat>, reverse: bool)
    returns (ok: bool, ghost steps: seq<Step>, ghost done: set<nat>)
    requires GatesOk(physical, |adj|) && GatesOk(logical, |adj|) && PlacementOk(init, |adj|)
    requires forall q :: 0 <= q < |adj| ==> init[q] < |adj|
    ensures ok <==> exists full :: IsOpenReading(Toward(physical, reverse), Toward(logical, reverse), adj, init, full)
    ensures ok ==> IsOpenReading(Toward(physical, reverse), Toward(logical, reverse), adj, init, steps) && done == DoneBy(steps)
    ensures ok ==> StepsOk(physical, logical, adj, init, steps) && Distinct(PlacedAfter(physical, init, steps))
    ensures ok ==> forall q: nat :: EventsOn(PhysicalEvents(physical, steps), q) ==
                                    InDirection(GatesOn(Shape(physical), q, |physical.order|), reverse)
    ensures ok ==> var l := if reverse then Backwards(logical) else logical;
                   Closed(Shape(l), done) && InOrder(Shape(l), LogicalEvents(physical, init, steps), done)
  {
    hide GatesOk, StepsOk, Closed, Accounted, EventsOn, GatesOn, UpTo, Distinct, InOrder, LogicalEvents, PhysicalEvents, PlacedAfter, Shape,
         IsOpenReading, OnTheWay, DoneBy;
    var p, l := physical, logical;
    if reverse {
      p, l := Backwards(physical), Backwards(logical);
      BackwardsOk(physical, |adj|);
      BackwardsOk(logical, |adj|);
    }
    var checker := new MappingChecker(p, l, adj, init);
    assert p == Toward(physical, reverse) && l == Toward(logical, reverse);
    ok := checker.Check();
    steps, done := checker.steps, checker.done;
    if ok {
      WayEnds(p, l, adj, init, checker.placement, steps, checker.read, done);
      AccountedFacts(p, l, adj, init, checker.placement, checker.next, steps, checker.read, done);
      if reverse {
        BackwardsSteps(physical, logical, adj, init, steps);
        forall q: nat
          ensures GatesOn(Shape(p), q, |p.order|) == Reversed(GatesOn(Shape(physical), q, |physical.order|))
        {
          GatesBackwards(Shape(physical), Shape(p), q);
        }
      }
    }
  }

  lemma AccountedFacts(p: Reading, l: Reading, adj: seq<seq<nat>>, init: seq<nat>, placement: seq<nat>, next: seq<Option<nat>>,
                       steps: seq<Step>, read: set<nat>, done: set<nat>)
    requires Accounted(p, l, adj, init, placement, next, steps, read, done) && read == UpTo(|p.gates|)
    ensures StepsOk(p, l, adj, init, steps) && Distinct(PlacedAfter(p, init, steps))
    ensures forall q: nat :: EventsOn(PhysicalEvents(p, steps), q) == GatesOn(Shape(p), q, |p.order|)
    ensures Closed(Shape(l), done) && InOrder(Shape(l), LogicalEvents(p, init, steps), done)
  {
    hide EventsOn, GatesOn, UpTo, CircuitOn, StepsOk, Closed;
    forall q: nat
      ensures EventsOn(PhysicalEvents(p, steps), q) == GatesOn(Shape(p), q, |p.order|)
    {
      AllGatesOn(Shape(p), q, |p.order|);
    }
  }

  // ---------------------------------------------------------------- reading backwards

  function Backwards(p: Reading): Reading {
    ReversedEnumerates(p.order, |p.gates|);
    Program(p.gates, Reversed(p.order))
  }

  lemma ReversedEnumerates(order: seq<nat>, n: nat)
    requires Enumerates(order, n)
    ensures Enumerates(Reversed(order), n)
  {
    var r := Reversed(order);
    forall k: nat | k < n
      ensures k in r
    {
      assert k in order;
      var i :| 0 <= i < |order| && order[i] == k;
      assert r[|order| - 1 - i] == k;
    }
  }

  function InDirection(es: seq<Event>, reverse: bool): seq<Event> {
    if reverse then Reversed(es) else es
  }

  ghost predicate Opposed(c: Circuit, b: Circuit) {
    b.gates == c.gates && b.order == Reversed(c.order)
  }

  lemma PlaceBackwards(c: Circuit, b: Circuit, g: nat)
    requires Opposed(c, b) && g < |c.gates|
    ensures Place(b, g) == |c.order| - 1 - Place(c, g)
  {
    assert b.order[|c.order| - 1 - Place(c, g)] == g;
  }

  lemma {:induction false} NextBackwards(c: Circuit, b: Circuit, g: nat, q: nat)
    requires Opposed(c, b) && Uses(c, g, q)
    ensures Next(b, g, q) == Previous(c, g, q)
  {
    hide Place, LastBelow, FirstFrom, Opposed;
    UsesBackwards(c, b);
    PlaceBackwards(c, b, g);
    var s, p := Next(b, g, q), Previous(c, g, q);
    if s.Some? {
      PlaceBackwards(c, b, s.value);
    }
    if p.Some? {
      PlaceBackwards(c, b, p.value);
    }
    if s.Some? && p.Some? && Place(c, s.value) == Place(c, p.value) {
      SamePlace(c, s.value, p.value);
    }
  }

  lemma UsesBackwards(c: Circuit, b: Circuit)
    requires Opposed(c, b)
    ensures |b.gates| == |c.gates| && |b.order| == |c.order| && forall h: nat, q: nat :: Uses(b, h, q) <==> Uses(c, h, q)
  {
  }

  /** Reading backwards, the next gate on a pin is the one before it. */
  lemma {:induction false} LinksBackwards(c: Circuit, b: Circuit, g: nat, pin: nat)
    requires Opposed(c, b) && g < |c.gates| && pin < |c.gates[g].qubits|
    ensures Succ(b, g, pin) == Pred(c, g, pin) && Pred(b, g, pin) == Succ(c, g, pin)
  {
    assert Reversed(Reversed(c.order)) == c.order;
    hide Next, Previous;
    NextBackwards(c, b, g, c.gates[g].qubits[pin]);
    NextBackwards(b, c, g, c.gates[g].qubits[pin]);
  }

  lemma {:induction false} GatesBackwardsUpTo(c: Circuit, b: Circuit, l: nat, k: nat)
    requires Opposed(c, b) && k <= |c.order|
    ensures GatesOn(c, l, |c.order|) == GatesOn(c, l, |c.order| - k) + Reversed(GatesOn(b, l, k))
  {
    if k > 0 {
      GatesBackwardsUpTo(c, b, l, k - 1);
      var g := c.order[|c.order| - k];
      assert b.order[k - 1] == g;
      var mid := if Uses(c, g, l) then [EventOfGate(c, g)] else [];
      assert Reversed(GatesOn(b, l, k - 1) + mid) == mid + Reversed(GatesOn(b, l, k - 1));
      assert GatesOn(c, l, |c.order| - k) + mid + Reversed(GatesOn(b, l, k - 1))
             == GatesOn(c, l, |c.order| - k) + (mid + Reversed(GatesOn(b, l, k - 1)));
    }
  }

  lemma GatesBackwards(c: Circuit, b: Circuit, l: nat)
    requires Opposed(c, b)
    ensures GatesOn(b, l, |b.order|) == Reversed(GatesOn(c, l, |c.order|))
  {
    GatesBackwardsUpTo(c, b, l, |c.order|);
    var x := GatesOn(b, l, |b.order|);
    assert GatesOn(c, l, 0) + Reversed(x) == Reversed(x);
    assert Reversed(Reversed(x)) == x;
  }

  lemma BackwardsOk(p: Reading, n: nat)
    requires GatesOk(p, n)
    ensures GatesOk(Backwards(p), n) && Opposed(Shape(p), Shape(Backwards(p)))
  {
    assert Shape(p).gates == Shape(Backwards(p)).gates;
  }

  /** Steps do not depend on the order in which the gates are listed. */
  lemma {:induction false} PlacedBackwards(p: Reading, placement: seq<nat>, steps: seq<Step>)
    ensures PlacedAfter(Backwards(p), placement, steps) == PlacedAfter(p, placement, steps)
    ensures LogicalEvents(Backwards(p), placement, steps) == LogicalEvents(p, placement, steps)
    ensures PhysicalEvents(Backwards(p), steps) == PhysicalEvents(p, steps)
    decreases |steps|
  {
    if steps != [] {
      PlacedBackwards(p, placement, steps[..|steps| - 1]);
    }
  }

  lemma BackwardsSteps(p: Reading, l: Reading, adj: seq<seq<nat>>, placement: seq<nat>, steps: seq<Step>)
    requires StepsOk(Backwards(p), Backwards(l), adj, placement, steps)
    ensures StepsOk(p, l, adj, placement, steps)
    ensures PlacedAfter(Backwards(p), placement, steps) == PlacedAfter(p, placement, steps)
    ensures LogicalEvents(Backwards(p), placement, steps) == LogicalEvents(p, placement, steps)
    ensures PhysicalEvents(Backwards(p), steps) == PhysicalEvents(p, steps)
  {
    hide PlacedAfter, LogicalEvents, PhysicalEvents;
    PlacedBackwards(p, placement, steps);
    forall t | 0 <= t < |steps|
      ensures PlacedAfter(Backwards(p), placement, steps[..t]) == PlacedAfter(p, placement, steps[..t])
    {
      PlacedBackwards(p, placement, steps[..t]);
    }
  }
}
