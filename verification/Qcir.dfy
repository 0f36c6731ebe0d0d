/** The circuit: gates by id, their links per qubit, and the cached topological order. */
module Qcirs {
  import opened Collections
  import opened GateGraphs

  /** A table has no entry for ids that have not been given out. */
  ghost predicate Fresh<T>(table: map<nat, T>, nextId: nat) {
    forall g :: g in table ==> g < nextId
  }

  class QCir<Op> {
    var gates: map<nat, Gate<Op>>
    var preds: Table
    var succs: Table
    var first: seq<Option<nat>>
    var last: seq<Option<nat>>
    var nextId: nat
    var gateList: seq<nat>
    var dirty: bool
    ghost var order: seq<nat>

    function Links(): Graph<Op>
      reads this
    {
      Graph(gates, preds, succs, first, last)
    }

    /** For the gates in order, every qubit has one chain, linked both ways from its first to its last gate.
        The cached list is topological unless it is dirty. */
    ghost predicate Valid()
      reads this
    {
      && Chained(Links(), order) && Fresh(gates, nextId) && Fresh(preds, nextId) && Fresh(succs, nextId)
      && (!dirty ==> Topological(Links(), gateList))
    }

    constructor (n: nat)
      ensures Valid() && gates == map[] && order == [] && first == seq(n, _ => None) && nextId == 0
    {
      gates, preds, succs := map[], map[], map[];
      first, last := seq(n, _ => None), seq(n, _ => None);
      nextId, gateList, dirty := 0, [], true;
      order := [];
    }

    method SetSuccessor(g: nat, pin: nat, v: Option<nat>)
      requires g in gates && pin < |gates[g].qubits| ==> g in succs && |succs[g]| == |gates[g].qubits|
      modifies `succs
      ensures succs == if g in gates && pin < |gates[g].qubits| then old(succs)[g := old(succs)[g][pin := v]] else old(succs)
    {
      if g !in gates || pin >= |gates[g].qubits| {
        return;
      }
      succs := succs[g := succs[g][pin := v]];
    }

    method SetPredecessor(g: nat, pin: nat, v: Option<nat>)
      requires g in gates && pin < |gates[g].qubits| ==> g in preds && |preds[g]| == |gates[g].qubits|
      modifies `preds
      ensures preds == if g in gates && pin < |gates[g].qubits| then old(preds)[g := old(preds)[g][pin := v]] else old(preds)
    {
      if g !in gates || pin >= |gates[g].qubits| {
        return;
      }
      preds := preds[g := preds[g][pin := v]];
    }

    /** Links two gates that are both on the qubit. */
    method Connect(g1: nat, g2: nat, q: nat)
      requires Shaped(Links()) && Uses(Links(), g1, q) && Uses(Links(), g2, q)
      modifies `preds, `succs
      ensures Links() == SetPred(SetSucc(old(Links()), g1, q, Some(g2)), g2, q, Some(g1))
    {
      var pin1, pin2 := IndexOf(gates[g1].qubits, q), IndexOf(gates[g2].qubits, q);
      assert RowsOk(Links(), g1) && RowsOk(Links(), g2);
      SetSuccessor(g1, pin1, Some(g2));
      SetPredecessor(g2, pin2, Some(g1));
    }

    /** A new gate at the end of its qubits. */
    method Append(op: Op, bits: seq<nat>) returns (id: nat)
      requires Valid() && GateOk(Gate(op, bits), |first|)
      modifies this
      ensures Valid() && id == old(nextId) && nextId == id + 1 && order == old(order) + [id]
      ensures gates == old(gates)[id := Gate(op, bits)] && |first| == |old(first)| && gateList == old(gateList)
    {
      hide Growing, Chained, Shaped, GateOk, Fresh, Topological;
      ghost var before := Links();
      id := NewGate(op, bits, false);
      LinkAtEnd(id);
      AppendedListed(before, order, id, Gate(op, bits));
      GrowingEnd(Links(), order, id, false);
      order := order + [id];
    }

    method LinkAtEnd(id: nat)
      requires id in gates && Growing(Links(), order, id, 0, false) && Fresh(preds, nextId) && Fresh(succs, nextId)
      modifies `preds, `succs, `first, `last
      ensures Growing(Links(), order, id, |gates[id].qubits|, false)
      ensures |first| == |old(first)| && Fresh(preds, nextId) && Fresh(succs, nextId)
    {
      hide Growing, Shaped, LinkOn, AppendOn, PrependOn;
      var bits, i := gates[id].qubits, 0;
      while i < |bits|
        invariant i <= |bits| && Growing(Links(), order, id, i, false)
        invariant |first| == |old(first)| && preds.Keys == old(preds).Keys && succs.Keys == old(succs).Keys
      {
        GrowingStep(Links(), order, id, i, false);
        GrowingIsShaped(Links(), order, id, i, false);
        LinkIsOn(Links(), id, bits[i], false);
        AppendOne(id, bits[i]);
        i := i + 1;
      }
    }

    /** Enters the gate with no links yet. */
    method NewGate(op: Op, bits: seq<nat>, ghost front: bool) returns (id: nat)
      requires Valid() && GateOk(Gate(op, bits), |first|)
      modifies `gates, `preds, `succs, `nextId, `dirty
      ensures id == old(nextId) && nextId == id + 1 && dirty && id !in old(gates)
      ensures gates == old(gates)[id := Gate(op, bits)] && Fresh(gates, nextId) && Fresh(preds, nextId) && Fresh(succs, nextId)
      ensures |first| == |old(first)| && Growing(Links(), order, id, 0, front)
    {
      hide Growing, Chained;
      id := nextId;
      InOrderInGates(Links(), order, id);
      GrowingStart(Links(), order, id, Gate(op, bits), front);
      gates := gates[id := Gate(op, bits)];
      preds := preds[id := seq(|bits|, _ => None)];
      succs := succs[id := seq(|bits|, _ => None)];
      nextId, dirty := nextId + 1, true;
    }

    method AppendOne(id: nat, q: nat)
      requires Shaped(Links()) && Uses(Links(), id, q) && q < |first| && (last[q].Some? ==> Uses(Links(), last[q].value, q))
      modifies `preds, `succs, `first, `last
      ensures Links() == AppendOn(old(Links()), id, q)
      ensures preds.Keys == old(preds).Keys && succs.Keys == old(succs).Keys
    {
      assert RowsOk(Links(), id) && (last[q].Some? ==> RowsOk(Links(), last[q].value));
      if last[q].Some? {
        Connect(last[q].value, id, q);
      } else {
        first := first[q := Some(id)];
      }
      last := last[q := Some(id)];
    }

    /** A new gate at the beginning of its qubits. */
    method Prepend(op: Op, bits: seq<nat>) returns (id: nat)
      requires Valid() && GateOk(Gate(op, bits), |first|)
      modifies this
      ensures Valid() && id == old(nextId) && nextId == id + 1 && order == [id] + old(order)
      ensures gates == old(gates)[id := Gate(op, bits)] && |first| == |old(first)| && gateList == old(gateList)
    {
      hide Growing, Chained, Shaped, GateOk, Fresh, Topological;
      ghost var before := Links();
      id := NewGate(op, bits, true);
      LinkAtFront(id);
      AppendedListed(before, order, id, Gate(op, bits));
      GrowingEnd(Links(), order, id, true);
      order := [id] + order;
    }

    method LinkAtFront(id: nat)
      requires id in gates && Growing(Links(), order, id, 0, true) && Fresh(preds, nextId) && Fresh(succs, nextId)
      modifies `preds, `succs, `first, `last
      ensures Growing(Links(), order, id, |gates[id].qubits|, true)
      ensures |first| == |old(first)| && Fresh(preds, nextId) && Fresh(succs, nextId)
    {
      hide Growing, Shaped, LinkOn, AppendOn, PrependOn;
      var bits, i := gates[id].qubits, 0;
      while i < |bits|
        invariant i <= |bits| && Growing(Links(), order, id, i, true)
        invariant |first| == |old(first)| && preds.Keys == old(preds).Keys && succs.Keys == old(succs).Keys
      {
        GrowingStep(Links(), order, id, i, true);
        GrowingIsShaped(Links(), order, id, i, true);
        LinkIsOn(Links(), id, bits[i], true);
        PrependOne(id, bits[i]);
        i := i + 1;
      }
    }

    method PrependOne(id: nat, q: nat)
      requires Shaped(Links()) && Uses(Links(), id, q) && q < |first| && (first[q].Some? ==> Uses(Links(), first[q].value, q))
      modifies `preds, `succs, `first, `last
      ensures Links() == PrependOn(old(Links()), id, q)
      ensures preds.Keys == old(preds).Keys && succs.Keys == old(succs).Keys
    {
      assert RowsOk(Links(), id) && (first[q].Some? ==> RowsOk(Links(), first[q].value));
      if first[q].Some? {
        Connect(id, first[q].value, q);
      } else {
        last := last[q := Some(id)];
      }
      first := first[q := Some(id)];
    }

    /** Takes a gate out: its neighbours on each qubit become neighbours. */
    method RemoveGate(id: nat) returns (found: bool)
      requires Valid()
      modifies this
      ensures Valid() && (found <==> id in old(gates))
      ensures found ==> gates == old(gates) - {id} && order == Erased(old(order), id) && |first| == |old(first)|
      ensures !found ==> Links() == old(Links()) && order == old(order)
      ensures nextId == old(nextId) && gateList == old(gateList)
    {
      if id !in gates {
        return false;
      }
      hide Shrinking, Chained, Shaped, Fresh;
      StartShrinking(Links(), order, id);
      Unlink(id);
      ShrinkingEnd(Links(), order, id);
      FewerFresh(gates, id, nextId);
      gates := gates - {id};
      order, dirty := Erased(order, id), true;
      return true;
    }

    method Unlink(id: nat)
      requires id in gates && Shrinking(Links(), order, id, 0) && Fresh(preds, nextId) && Fresh(succs, nextId)
      modifies `preds, `succs, `first, `last
      ensures Shrinking(Links(), order, id, |gates[id].qubits|)
      ensures |first| == |old(first)| && Fresh(preds, nextId) && Fresh(succs, nextId)
    {
      hide Shrinking, RemoveOn, Shaped;
      var qubits, pin := gates[id].qubits, 0;
      while pin < |qubits|
        invariant pin <= |qubits| && Shrinking(Links(), order, id, pin)
        invariant |first| == |old(first)| && preds.Keys == old(preds).Keys && succs.Keys == old(succs).Keys
      {
        ShrinkingStep(Links(), order, id, pin);
        ShrinkingIsShaped(Links(), order, id, pin);
        RemoveOne(id, pin);
        pin := pin + 1;
      }
    }

    method RemoveOne(id: nat, pin: nat)
      requires Shaped(Links()) && id in gates && pin < |gates[id].qubits| && gates[id].qubits[pin] < |first|
      requires var q := gates[id].qubits[pin];
               && (Pred(Links(), id, q).Some? ==> Uses(Links(), Pred(Links(), id, q).value, q))
               && (Succ(Links(), id, q).Some? ==> Uses(Links(), Succ(Links(), id, q).value, q))
      modifies `preds, `succs, `first, `last
      ensures Links() == RemoveOn(old(Links()), id, gates[id].qubits[pin])
      ensures |first| == |old(first)| && preds.Keys == old(preds).Keys && succs.Keys == old(succs).Keys
    {
      var q := gates[id].qubits[pin];
      assert RowsOk(Links(), id);
      PinOfAt(gates[id].qubits, pin);
      var p, s := preds[id][pin], succs[id][pin];
      assert p.Some? ==> RowsOk(Links(), p.value);
      assert s.Some? ==> RowsOk(Links(), s.value);
      if p.Some? {
        SetSuccessor(p.value, IndexOf(gates[p.value].qubits, q), s);
      } else {
        first := first[q := s];
      }
      if s.Some? {
        SetPredecessor(s.value, IndexOf(gates[s.value].qubits, q), p);
      } else {
        last := last[q := p];
      }
    }

    // ---------------------------------------------------------------- the order of the gates

    method PushSuccessors(g: nat, visited: set<nat>) returns (pushes: seq<Frame>)
      requires g in succs
      ensures pushes == Pushes(succs[g], visited)
    {
      pushes := [];
      var pin := 0;
      while pin < |succs[g]|
        invariant pin <= |succs[g]| && pushes == Pushes(succs[g][..pin], visited)
      {
        assert succs[g][..pin + 1][..pin] == succs[g][..pin];
        var s := succs[g][pin];
        if s.Some? && s.value !in visited {
          pushes := pushes + [Frame(false, s.value)];
        }
        pin := pin + 1;
      }
      assert succs[g][..pin] == succs[g];
    }

    method PushRoots() returns (stack: seq<Frame>)
      requires Chained(Links(), order)
      ensures StackInv(Links(), order, stack, {}, [])
    {
      stack := [];
      var q := 0;
      while q < |first|
        invariant q <= |first| && Roots(Links(), order, stack, q)
      {
        RootInOrder(Links(), order, q);
        if first[q].Some? {
          MoreRoots(Links(), order, stack, q);
          stack := stack + [Frame(false, first[q].value)];
        }
        q := q + 1;
      }
      AllRoots(Links(), order, stack);
    }

    /** Every gate once, after those it follows. */
    method Dfs() returns (list: seq<nat>)
      requires Chained(Links(), order)
      ensures Topological(Links(), list)
    {
      hide Chained, StackInv, Forward, Edge, Topological, Pushes;
      GraphIsForward(Links(), order);
      var stack := PushRoots();
      var visited: set<nat>, listed: seq<nat> := {}, [];
      while stack != []
        invariant StackInv(Links(), order, stack, visited, listed)
        decreases |gates.Keys - visited|, |stack|
      {
        var top, rest := stack[|stack| - 1], stack[..|stack| - 1];
        assert stack == rest + [top];
        TopInGates(Links(), order, stack, visited, listed);
        if top.finished {
          ListFinished(Links(), order, rest, top.gate, visited, listed);
          stack, listed := rest, listed + [top.gate];
        } else if top.gate in visited {
          SkipVisited(Links(), order, rest, top.gate, visited, listed);
          stack := rest;
        } else {
          var pushes := PushSuccessors(top.gate, visited + {top.gate});
          PushesFollow(Links(), top.gate, visited);
          VisitNew(Links(), order, rest, top.gate, visited, listed, pushes);
          FewerLeft(gates.Keys, visited, top.gate);
          visited := visited + {top.gate};
          stack := rest + [Frame(true, top.gate)] + pushes;
        }
      }
      ListedIsTopological(Links(), order, visited, listed);
      list := Reversed(listed);
    }

    method UpdateTopologicalOrder()
      requires Valid()
      modifies `gateList, `dirty
      ensures Valid() && !dirty && (!old(dirty) ==> gateList == old(gateList))
    {
      if !dirty {
        return;
      }
      gateList := Dfs();
      dirty := false;
    }

    /** The gates in an order that respects the links: on every qubit it is the chain. */
    method GetGates() returns (list: seq<nat>)
      requires Valid()
      modifies `gateList, `dirty
      ensures Valid() && list == gateList && Topological(Links(), list)
      ensures forall q: nat :: q < |first| ==> On(gates, list, q) == On(gates, order, q)
    {
      UpdateTopologicalOrder();
      list := gateList;
      hide Chained, Topological, On;
      forall q: nat | q < |first|
        ensures On(gates, list, q) == On(gates, order, q)
      {
        ListKeepsChains(Links(), order, list, q);
      }
    }

    /** The time of each gate is the length of the longest path that ends with it. */
    method CalculateGateTimes() returns (times: map<nat, nat>)
      requires Valid()
      modifies `gateList, `dirty
      ensures Valid() && times.Keys == gates.Keys && forall g :: g in gates ==> Timed(Links(), times, g)
    {
      hide TimesUpTo, Topological, Chained, Timed, LatestOf, Fresh, On;
      var list := GetGates();
      times := map[];
      NoTimes(Links(), list);
      var i := 0;
      while i < |list|
        modifies {}
        invariant i <= |list| && TimesUpTo(Links(), list, times, i)
      {
        ListedGate(Links(), order, list, i);
        var latest := Latest(times, list[i]);
        OneMoreTime(Links(), order, list, times, i, 1 + latest);
        times := times[list[i] := 1 + latest];
        i := i + 1;
      }
      AllTimes(Links(), list, times);
    }

    method Latest(times: map<nat, nat>, g: nat) returns (latest: nat)
      requires g in preds
      ensures latest == LatestOf(times, preds[g])
    {
      latest := 0;
      var pin := 0;
      while pin < |preds[g]|
        invariant pin <= |preds[g]| && latest == LatestOf(times, preds[g][..pin])
      {
        assert preds[g][..pin + 1][..pin] == preds[g][..pin];
        latest := Max(latest, TimeOf(times, preds[g][pin]));
        pin := pin + 1;
      }
      assert preds[g][..pin] == preds[g];
    }

    /** The depth is the length of the longest path. */
    method CalculateDepth() returns (depth: nat)
      requires Valid()
      modifies `gateList, `dirty
      ensures Valid() && forall path :: IsPath(Links(), path) ==> |path| <= depth
      ensures depth > 0 ==> exists path :: IsPath(Links(), path) && |path| == depth
    {
      hide Chained, Timed, IsPath, Topological;
      depth := 0;
      if |first| == 0 || |gates| == 0 {
        NoPath(Links(), order);
        return;
      }
      var times := CalculateGateTimes();
      var left, latest: Option<nat> := gates.Keys, None;
      while left != {}
        modifies {}
        invariant left <= gates.Keys && forall g :: g in gates.Keys - left ==> times[g] <= depth
        invariant depth > 0 ==> latest.Some? && latest.value in gates && times[latest.value] == depth
        decreases |left|
      {
        var g :| g in left;
        if times[g] > depth {
          depth, latest := times[g], Some(g);
        }
        left := left - {g};
      }
      PathsBounded(Links(), order, times, depth);
      if depth > 0 {
        InOrderInGates(Links(), order, latest.value);
        var path := LongestPath(Links(), order, times, latest.value);
      }
    }

    // ---------------------------------------------------------------- whole circuits

    method AddQubits(num: nat)
      requires Valid()
      modifies `first, `last
      ensures Valid() && first == old(first) + seq(num, _ => None) && last == old(last) + seq(num, _ => None)
    {
      hide Chained, Topological;
      MoreQubits(Links(), order, num);
      MoreQubitsList(Links(), gateList, num);
      first, last := first + seq(num, _ => None), last + seq(num, _ => None);
    }

    /** Appends the gates of another circuit, or of this one, in the order of its list. */
    method Compose(other: QCir<Op>) returns (ghost ids: seq<nat>)
      requires Valid() && other.Valid()
      modifies this, other`gateList, other`dirty
      ensures Valid() && (other != this ==> other.Valid() && other.Links() == old(other.Links()) && other.order == old(other.order))
      ensures order == old(order) + ids && Topological(old(other.Links()), other.gateList) && |ids| == |other.gateList|
      ensures forall g :: g in old(gates) ==> g in gates && gates[g] == old(gates)[g]
      ensures forall k :: 0 <= k < |ids| ==> ids[k] in gates && gates[ids[k]] == old(other.gates)[other.gateList[k]]
      ensures |first| == Max(old(|first|), old(|other.first|)) && nextId == old(nextId) + |ids| && gates.Keys == old(gates).Keys + Members(ids)
      ensures forall q: nat :: On(gates, order, q) == old(On(gates, order, q)) + On(gates, ids, q)
      ensures forall q: nat :: AreCopies(old(other.gates), old(On(other.gates, other.order, q)), gates, On(gates, ids, q))
    {
      hide Chained, Topological, Fresh, GateOk;
      ghost var from := other.Links();
      var list := other.GetGates();
      ListIsAll(from, list);
      OtherQubits(from, other.order);
      var copies := seq(|list|, k requires 0 <= k < |list| && list[k] in other.gates reads other => other.gates[list[k]]);
      if |first| < |other.first| {
        AddQubits(|other.first| - |first|);
      }
      CopiesOk(copies, |from.first|, |first|);
      ids := AppendAll(copies);
      forall q: nat
        ensures On(gates, order, q) == old(On(gates, order, q)) + On(gates, ids, q)
        ensures AreCopies(old(other.gates), old(On(other.gates, other.order, q)), gates, On(gates, ids, q))
      {
        OnAppend(gates, old(order), ids, q);
        OrderInGates(old(Links()), old(order));
        OnSame(gates, old(gates), old(order), q);
        CopiedChain(from.gates, list, gates, ids, q);
        SameChain(from, old(other.order), list, q);
      }
    }

    method AppendAll(copies: seq<Gate<Op>>) returns (ghost ids: seq<nat>)
      requires Valid() && forall k :: 0 <= k < |copies| ==> GateOk(copies[k], |first|)
      modifies this
      ensures Valid() && order == old(order) + ids && |ids| == |copies| && gateList == old(gateList)
      ensures forall g :: g in old(gates) ==> g in gates && gates[g] == old(gates)[g]
      ensures forall k :: 0 <= k < |ids| ==> ids[k] in gates && gates[ids[k]] == copies[k]
      ensures |first| == |old(first)| && nextId == old(nextId) + |ids| && gates.Keys == old(gates).Keys + Members(ids)
    {
      hide Chained, Topological, Fresh, GateOk;
      ids := [];
      var i := 0;
      while i < |copies|
        invariant i == |ids| <= |copies| && Valid() && order == old(order) + ids && gateList == old(gateList)
        invariant |first| == |old(first)| && nextId == old(nextId) + |ids| && gates.Keys == old(gates).Keys + Members(ids)
        invariant forall g :: g in old(gates) ==> g in gates && gates[g] == old(gates)[g]
        invariant forall k :: 0 <= k < i ==> ids[k] in gates && gates[ids[k]] == copies[k]
      {
        IdIsNew(gates, nextId);
        var id := Append(copies[i].op, copies[i].qubits);
        ids := ids + [id];
        i := i + 1;
      }
    }

    /** Every gate is replaced by its adjoint and every chain turned around. */
    method AdjointInPlace(adjoint: Op -> Op)
      requires Valid()
      modifies this
      ensures Valid() && Links() == Adjoined(old(Links()), adjoint) && order == Reversed(old(order))
      ensures nextId == old(nextId) && gateList == old(gateList)
    {
      ghost var G := Links();
      SwapTables(adjoint);
      SwapEnds();
      hide Chained, Adjoined;
      AdjoinedChained(G, order, adjoint);
      order, dirty := Reversed(order), true;
    }

    method SwapTables(adjoint: Op -> Op)
      requires Shaped(Links()) && Fresh(gates, nextId) && Fresh(preds, nextId) && Fresh(succs, nextId)
      modifies `gates, `preds, `succs
      ensures Links() == PartAdjoined(old(Links()), adjoint, old(gates).Keys)
      ensures Fresh(gates, nextId) && Fresh(preds, nextId) && Fresh(succs, nextId)
    {
      ghost var G := Links();
      hide Shaped, Fresh, PartAdjoined;
      NothingAdjoined(G, adjoint);
      var left := gates.Keys;
      while left != {}
        invariant left <= G.gates.Keys && Links() == PartAdjoined(G, adjoint, G.gates.Keys - left)
        decreases |left|
      {
        var g :| g in left;
        OneAdjoined(G, adjoint, G.gates.Keys - left, g);
        gates := gates[g := Gate(adjoint(gates[g].op), gates[g].qubits)];
        var oldSuccs, oldPreds := succs[g], preds[g];
        succs := succs[g := oldPreds];
        preds := preds[g := oldSuccs];
        assert G.gates.Keys - (left - {g}) == (G.gates.Keys - left) + {g};
        left := left - {g};
      }
      assert G.gates.Keys - left == G.gates.Keys;
      AdjoinedFresh(G, adjoint, nextId);
      assert Links() == PartAdjoined(G, adjoint, G.gates.Keys);
    }

    method SwapEnds()
      requires |first| == |last|
      modifies `first, `last
      ensures first == old(last) && last == old(first)
    {
      var q := 0;
      while q < |first|
        invariant q <= |first| == |last| == |old(first)| == |old(last)|
        invariant forall r :: 0 <= r < q ==> first[r] == old(last)[r] && last[r] == old(first)[r]
        invariant forall r :: q <= r < |first| ==> first[r] == old(first)[r] && last[r] == old(last)[r]
      {
        var f, l := first[q], last[q];
        first := first[q := l];
        last := last[q := f];
        q := q + 1;
      }
    }

    /** Forgets the qubits and the list, but not the gates: what is left is a circuit only if there were none. */
    method Reset()
      modifies this
      ensures gates == old(gates) && preds == old(preds) && succs == old(succs) && first == [] && last == []
      ensures nextId == 0 && gateList == [] && dirty
      ensures (exists list :: Chained(Links(), list)) <==> old(gates) == map[]
    {
      first, last := [], [];
      gateList, nextId, dirty := [], 0, true;
      ResetKeepsGates(Links());
    }
  }

  /** Gates of one circuit, and in the same places gates of another that are the same. */
  ghost predicate AreCopies<Op>(from: map<nat, Gate<Op>>, a: seq<nat>, to: map<nat, Gate<Op>>, b: seq<nat>) {
    |a| == |b| && forall k :: 0 <= k < |a| ==> a[k] in from && b[k] in to && to[b[k]] == from[a[k]]
  }

  lemma {:induction false} CopiedChain<Op>(from: map<nat, Gate<Op>>, list: seq<nat>, to: map<nat, Gate<Op>>, ids: seq<nat>, q: nat)
    requires AreCopies(from, list, to, ids)
    ensures AreCopies(from, On(from, list, q), to, On(to, ids, q))
    decreases |list|
  {
    if list != [] {
      var m := |list| - 1;
      CopiedChain(from, list[..m], to, ids[..m], q);
    }
  }

  lemma OrderInGates<Op>(G: Graph<Op>, order: seq<nat>)
    requires Chained(G, order)
    ensures forall g :: g in order ==> g in G.gates
  {
  }

  lemma SameChain<Op>(G: Graph<Op>, order: seq<nat>, list: seq<nat>, q: nat)
    requires Chained(G, order) && Topological(G, list)
    ensures On(G.gates, list, q) == On(G.gates, order, q)
  {
    if q < |G.first| {
      ListKeepsChains(G, order, list, q);
    } else {
      NothingBeyondQubits(G, order, q);
      NothingOnQubit(G.gates, list, q);
      NothingOnQubit(G.gates, order, q);
    }
  }

  lemma NothingBeyondQubits<Op>(G: Graph<Op>, order: seq<nat>, q: nat)
    requires Chained(G, order) && q >= |G.first|
    ensures forall g :: g in G.gates ==> q !in G.gates[g].qubits
  {
    forall g | g in G.gates
      ensures q !in G.gates[g].qubits
    {
      assert RowsOk(G, g);
    }
  }

  lemma {:induction false} NothingOnQubit<Op>(gates: map<nat, Gate<Op>>, list: seq<nat>, q: nat)
    requires forall g :: g in gates ==> q !in gates[g].qubits
    ensures On(gates, list, q) == []
    decreases |list|
  {
    if list != [] {
      NothingOnQubit(gates, list[..|list| - 1], q);
    }
  }

  /** The roots pushed for the first qubits. */
  ghost predicate Roots<Op>(G: Graph<Op>, order: seq<nat>, stack: seq<Frame>, k: nat) {
    && (forall i :: 0 <= i < |stack| ==> !stack[i].finished && stack[i].gate in order)
    && forall q: nat :: q < k && q < |G.first| && G.first[q].Some? ==> Waiting(stack, 0, G.first[q].value)
  }

  lemma RootInOrder<Op>(G: Graph<Op>, order: seq<nat>, q: nat)
    requires Chained(G, order) && q < |G.first|
    ensures G.first[q].Some? ==> G.first[q].value in order
  {
    var c := On(G.gates, order, q);
    if c != [] {
      OnIn(G.gates, order, q, c[0]);
    }
  }

  lemma MoreRoots<Op>(G: Graph<Op>, order: seq<nat>, stack: seq<Frame>, k: nat)
    requires Roots(G, order, stack, k) && k < |G.first| && G.first[k].Some? && G.first[k].value in order
    ensures Roots(G, order, stack + [Frame(false, G.first[k].value)], k + 1)
  {
    var more := stack + [Frame(false, G.first[k].value)];
    forall q: nat | q < k + 1 && q < |G.first| && G.first[q].Some?
      ensures Waiting(more, 0, G.first[q].value)
    {
      if q < k {
        var j :| 0 <= j < |stack| && stack[j].gate == G.first[q].value;
        assert more[j].gate == G.first[q].value;
      } else {
        assert more[|stack|].gate == G.first[q].value;
      }
    }
  }

  lemma AllRoots<Op>(G: Graph<Op>, order: seq<nat>, stack: seq<Frame>)
    requires Roots(G, order, stack, |G.first|)
    ensures StackInv(G, order, stack, {}, [])
  {
    hide Edge, Waiting;
  }

  lemma GraphIsForward<Op>(G: Graph<Op>, order: seq<nat>)
    requires Chained(G, order)
    ensures Forward(G, order)
  {
    hide Chained, Edge;
    forall g: nat, h: nat | Edge(G, g, h)
      ensures g in order && h in order && IndexOf(order, g) < IndexOf(order, h)
    {
      EdgesLeadForward(G, order, g, h);
    }
  }

  lemma TopInGates<Op>(G: Graph<Op>, order: seq<nat>, stack: seq<Frame>, visited: set<nat>, listed: seq<nat>)
    requires Chained(G, order) && StackInv(G, order, stack, visited, listed) && stack != []
    ensures stack[|stack| - 1].gate in G.gates && stack[|stack| - 1].gate in G.succs
    ensures forall h :: h in order ==> h in G.gates
  {
    assert stack[|stack| - 1].gate in order;
    assert RowsOk(G, stack[|stack| - 1].gate);
  }

  lemma PushesFollow<Op>(G: Graph<Op>, g: nat, visited: set<nat>)
    requires g in G.gates && g in G.succs
    ensures PushesOf(G, g, visited, Pushes(G.succs[g], visited + {g}))
  {
    var pushes := Pushes(G.succs[g], visited + {g});
    PushesMembers(G.succs[g], visited + {g});
    forall j | 0 <= j < |pushes|
      ensures !pushes[j].finished && Edge(G, g, pushes[j].gate)
    {
      assert pushes[j] == Frame(false, pushes[j].gate) && pushes[j] in pushes;
    }
  }

  lemma FewerLeft(all: set<nat>, visited: set<nat>, g: nat)
    requires g in all && g !in visited
    ensures |all - (visited + {g})| < |all - visited|
  {
    assert all - visited == (all - (visited + {g})) + {g};
  }

  lemma ListedIsTopological<Op>(G: Graph<Op>, order: seq<nat>, visited: set<nat>, listed: seq<nat>)
    requires Chained(G, order) && StackInv(G, order, [], visited, listed)
    ensures Topological(G, Reversed(listed))
  {
    hide Chained, Edge;
    var list := Reversed(listed);
    forall g | g in G.gates
      ensures g in list
    {
      InOrderInGates(G, order, g);
      AllListed(G, order, visited, listed, g);
      var i :| 0 <= i < |listed| && listed[i] == g;
      assert list[|listed| - 1 - i] == g;
    }
    forall i, j | 0 <= i < |list| && 0 <= j < |list| && Edge(G, list[i], list[j])
      ensures i < j
    {
      var k: nat := |listed| - 1 - i;
      assert Edge(G, listed[k], list[j]);
      var l :| 0 <= l < k && listed[..k][l] == list[j];
      assert listed[l] == listed[|listed| - 1 - j];
    }
  }

  // ---------------------------------------------------------------- times

  lemma ListIsAll<Op>(G: Graph<Op>, list: seq<nat>)
    requires Topological(G, list)
    ensures forall g :: g in G.gates <==> g in list
  {
  }

  lemma ListedGate<Op>(G: Graph<Op>, order: seq<nat>, list: seq<nat>, i: nat)
    requires Chained(G, order) && Topological(G, list) && i < |list|
    ensures list[i] in G.gates && list[i] in G.preds
  {
    assert list[i] in list;
    assert RowsOk(G, list[i]);
  }

  lemma {:induction false} LatestSame(times: map<nat, nat>, times': map<nat, nat>, preds: seq<Option<nat>>)
    requires forall p :: p in preds ==> TimeOf(times, p) == TimeOf(times', p)
    ensures LatestOf(times, preds) == LatestOf(times', preds)
    decreases |preds|
  {
    if preds != [] {
      assert preds == preds[..|preds| - 1] + [preds[|preds| - 1]];
      LatestSame(times, times', preds[..|preds| - 1]);
    }
  }

  lemma PredListedEarlier<Op>(G: Graph<Op>, list: seq<nat>, i: nat, k: nat, g: nat)
    requires Topological(G, list) && k <= i < |list| && Edge(G, g, list[k])
    ensures g != list[i]
  {
  }

  /** The first gates of the list have their times, and no others. */
  ghost predicate TimesUpTo<Op>(G: Graph<Op>, list: seq<nat>, times: map<nat, nat>, i: nat) {
    && i <= |list| && (forall g :: g in times ==> g in list[..i]) && (forall g :: g in list[..i] ==> g in times)
    && forall k :: 0 <= k < i ==> Timed(G, times, list[k])
  }

  lemma NoTimes<Op>(G: Graph<Op>, list: seq<nat>)
    ensures TimesUpTo(G, list, map[], 0)
  {
  }

  lemma AllTimes<Op>(G: Graph<Op>, list: seq<nat>, times: map<nat, nat>)
    requires Topological(G, list) && TimesUpTo(G, list, times, |list|)
    ensures times.Keys == G.gates.Keys && forall g :: g in G.gates ==> Timed(G, times, g)
  {
    hide Timed, Edge;
    assert list[..|list|] == list;
  }

  /** A gate's time does not change the times of the gates listed before. */
  lemma OneMoreTime<Op>(G: Graph<Op>, order: seq<nat>, list: seq<nat>, times: map<nat, nat>, i: nat, t: nat)
    requires Chained(G, order) && Topological(G, list) && i < |list| && list[i] in G.preds && t == 1 + LatestOf(times, G.preds[list[i]])
    requires TimesUpTo(G, list, times, i)
    ensures TimesUpTo(G, list, times[list[i] := t], i + 1)
  {
    hide Chained, LatestOf, Edge;
    assert list[..i + 1] == list[..i] + [list[i]];
    forall k | 0 <= k < i + 1
      ensures Timed(G, times[list[i] := t], list[k])
    {
      StillTimed(G, order, list, times, i, k, t);
    }
  }

  lemma StillTimed<Op>(G: Graph<Op>, order: seq<nat>, list: seq<nat>, times: map<nat, nat>, i: nat, k: nat, t: nat)
    requires Chained(G, order) && Topological(G, list) && k <= i < |list|
    requires list[i] in G.preds && t == 1 + LatestOf(times, G.preds[list[i]]) && (k < i ==> Timed(G, times, list[k]))
    ensures Timed(G, times[list[i] := t], list[k])
  {
    hide Chained, LatestOf, Edge;
    ListedGate(G, order, list, k);
    forall p | p in G.preds[list[k]]
      ensures TimeOf(times, p) == TimeOf(times[list[i] := t], p)
    {
      if p.Some? {
        EdgeBack(G, order, p.value, list[k]);
        PredListedEarlier(G, list, i, k, p.value);
      }
    }
    LatestSame(times, times[list[i] := t], G.preds[list[k]]);
    assert k < i ==> list[k] != list[i];
  }

  lemma GatesNeedQubits<Op>(G: Graph<Op>)
    requires Shaped(G)
    ensures forall g :: g in G.gates ==> |G.first| > 0
  {
    forall g | g in G.gates
      ensures |G.first| > 0
    {
      assert RowsOk(G, g) && G.gates[g].qubits[0] < |G.first|;
    }
  }

  lemma NoPath<Op>(G: Graph<Op>, order: seq<nat>)
    requires Chained(G, order) && (|G.first| == 0 || |G.gates| == 0)
    ensures forall path :: !IsPath(G, path)
  {
    if |G.gates| == 0 {
      assert G.gates == map[];
    }
    GatesNeedQubits(G);
    forall path
      ensures !IsPath(G, path)
    {
      assert path != [] ==> path[0] !in G.gates;
    }
  }

  lemma PathsBounded<Op>(G: Graph<Op>, order: seq<nat>, times: map<nat, nat>, depth: nat)
    requires Chained(G, order) && (forall g :: g in G.gates ==> Timed(G, times, g)) && forall g :: g in G.gates && g in times ==> times[g] <= depth
    ensures forall path :: IsPath(G, path) ==> |path| <= depth
  {
    hide Chained, Timed;
    forall path | IsPath(G, path)
      ensures |path| <= depth
    {
      PathBound(G, order, times, path);
    }
  }

  // ---------------------------------------------------------------- whole circuits

  lemma CopiesOk<Op>(copies: seq<Gate<Op>>, n: nat, m: nat)
    requires n <= m && forall k :: 0 <= k < |copies| ==> GateOk(copies[k], n)
    ensures forall k :: 0 <= k < |copies| ==> GateOk(copies[k], m)
  {
  }

  lemma IdIsNew<T>(table: map<nat, T>, nextId: nat)
    requires Fresh(table, nextId)
    ensures nextId !in table
  {
  }

  lemma OtherQubits<Op>(G: Graph<Op>, order: seq<nat>)
    requires Chained(G, order)
    ensures forall g :: g in G.gates ==> GateOk(G.gates[g], |G.first|)
  {
    forall g | g in G.gates
      ensures GateOk(G.gates[g], |G.first|)
    {
      assert RowsOk(G, g);
    }
  }

  function Widened<Op>(G: Graph<Op>, num: nat): Graph<Op> {
    G.(first := G.first + seq(num, _ => None), last := G.last + seq(num, _ => None))
  }

  lemma {:induction false} MoreQubits<Op>(G: Graph<Op>, order: seq<nat>, num: nat)
    requires Chained(G, order)
    ensures Chained(Widened(G, num), order)
  {
    var G' := Widened(G, num);
    forall h | h in G'.gates
      ensures RowsOk(G', h)
    {
      assert RowsOk(G, h);
    }
    forall q: nat | q < |G'.first|
      ensures ChainOk(G', q, On(G.gates, order, q))
    {
      var c := On(G.gates, order, q);
      if q < |G.first| {
        hide On;
        forall i: nat | i < |c|
          ensures LinksOk(G', q, c, i)
        {
          assert LinksOk(G, q, c, i);
        }
      } else {
        NothingBeyond(G, order, q);
      }
    }
  }

  lemma NothingBeyond<Op>(G: Graph<Op>, order: seq<nat>, q: nat)
    requires Chained(G, order) && q >= |G.first|
    ensures On(G.gates, order, q) == []
  {
    var c := On(G.gates, order, q);
    SomeMember(c);
    forall g: nat
      ensures g !in c
    {
      OnIn(G.gates, order, q, g);
      if g in G.gates {
        assert RowsOk(G, g);
      }
    }
  }

  lemma MoreQubitsList<Op>(G: Graph<Op>, list: seq<nat>, num: nat)
    ensures Topological(G, list) ==> Topological(Widened(G, num), list)
  {
    assert forall g: nat, h: nat :: Edge(Widened(G, num), g, h) <==> Edge(G, g, h);
  }

  // ---------------------------------------------------------------- adjoints

  function AdjoinedTable<Op>(G: Graph<Op>, keep: Table, other: Table, done: set<nat>): Table {
    map g | g in keep :: if g in done && g in other then other[g] else keep[g]
  }

  /** The gates done have become their adjoints, with successors and predecessors exchanged. */
  function PartAdjoined<Op>(G: Graph<Op>, adjoint: Op -> Op, done: set<nat>): Graph<Op> {
    G.(gates := map g | g in G.gates :: if g in done then Gate(adjoint(G.gates[g].op), G.gates[g].qubits) else G.gates[g],
       preds := AdjoinedTable(G, G.preds, G.succs, done), succs := AdjoinedTable(G, G.succs, G.preds, done))
  }

  function Adjoined<Op>(G: Graph<Op>, adjoint: Op -> Op): Graph<Op> {
    PartAdjoined(G, adjoint, G.gates.Keys).(first := G.last, last := G.first)
  }

  lemma NothingAdjoined<Op>(G: Graph<Op>, adjoint: Op -> Op)
    ensures PartAdjoined(G, adjoint, G.gates.Keys - G.gates.Keys) == G
  {
    var P := PartAdjoined(G, adjoint, {});
    assert P.gates == G.gates && P.preds == G.preds && P.succs == G.succs;
    assert G.gates.Keys - G.gates.Keys == {};
  }

  lemma OneAdjoined<Op>(G: Graph<Op>, adjoint: Op -> Op, done: set<nat>, g: nat)
    requires Shaped(G) && g in G.gates && g !in done
    ensures var P := PartAdjoined(G, adjoint, done);
            && g in P.gates && g in P.preds && g in P.succs
            && PartAdjoined(G, adjoint, done + {g}) ==
               P.(gates := P.gates[g := Gate(adjoint(P.gates[g].op), P.gates[g].qubits)],
                  preds := P.preds[g := P.succs[g]], succs := P.succs[g := P.preds[g]])
  {
    assert RowsOk(G, g);
    var P, P' := PartAdjoined(G, adjoint, done), PartAdjoined(G, adjoint, done + {g});
    assert P'.gates == P.gates[g := Gate(adjoint(P.gates[g].op), P.gates[g].qubits)];
    assert P'.preds == P.preds[g := P.succs[g]] && P'.succs == P.succs[g := P.preds[g]];
  }

  lemma AdjoinedFresh<Op>(G: Graph<Op>, adjoint: Op -> Op, nextId: nat)
    requires Fresh(G.gates, nextId) && Fresh(G.preds, nextId) && Fresh(G.succs, nextId)
    ensures var P := PartAdjoined(G, adjoint, G.gates.Keys); Fresh(P.gates, nextId) && Fresh(P.preds, nextId) && Fresh(P.succs, nextId)
  {
  }

  lemma AdjoinedShaped<Op>(G: Graph<Op>, adjoint: Op -> Op)
    requires Shaped(G)
    ensures Shaped(Adjoined(G, adjoint))
    ensures forall g: nat, q: nat :: Uses(G, g, q) ==> AdjoinedLinks(G, adjoint, g, q)
  {
    forall g | g in Adjoined(G, adjoint).gates
      ensures RowsOk(Adjoined(G, adjoint), g)
    {
      assert RowsOk(G, g);
    }
    forall g: nat, q: nat | Uses(G, g, q)
      ensures AdjoinedLinks(G, adjoint, g, q)
    {
      assert RowsOk(G, g);
    }
  }

  ghost predicate AdjoinedLinks<Op>(G: Graph<Op>, adjoint: Op -> Op, g: nat, q: nat)
    requires Shaped(G) && Shaped(Adjoined(G, adjoint)) && Uses(G, g, q)
  {
    var A := Adjoined(G, adjoint);
    Uses(A, g, q) && Pred(A, g, q) == Succ(G, g, q) && Succ(A, g, q) == Pred(G, g, q)
  }

  lemma {:induction false} OnReversed<Op>(gates: map<nat, Gate<Op>>, list: seq<nat>, q: nat)
    ensures On(gates, Reversed(list), q) == Reversed(On(gates, list, q))
    decreases |list|
  {
    if list != [] {
      var m := |list| - 1;
      var before, on := On(gates, list[..m], q), On(gates, [list[m]], q);
      OnReversed(gates, list[..m], q);
      assert Reversed(list) == [list[m]] + Reversed(list[..m]);
      OnAppend(gates, [list[m]], Reversed(list[..m]), q);
      OnOne(gates, list[m], q);
      assert On(gates, list, q) == before + on;
      hide On;
      assert Reversed(before + on) == on + Reversed(before);
    }
  }

  /** The adjoint's chains are the circuit's, turned around. */
  lemma {:induction false} AdjoinedChained<Op>(G: Graph<Op>, order: seq<nat>, adjoint: Op -> Op)
    requires Chained(G, order)
    ensures Chained(Adjoined(G, adjoint), Reversed(order))
  {
    hide Pred, Succ;
    AdjoinedShaped(G, adjoint);
    var A := Adjoined(G, adjoint);
    ReversedListed(G.gates, order);
    forall q: nat | q < |A.first|
      ensures ChainOk(A, q, On(A.gates, Reversed(order), q))
    {
      OnSame(G.gates, A.gates, Reversed(order), q);
      OnReversed(G.gates, order, q);
      AdjoinedChain(G, adjoint, q, On(G.gates, order, q));
    }
  }

  lemma ReversedListed<Op>(gates: map<nat, Gate<Op>>, order: seq<nat>)
    requires Listed(gates, order)
    ensures Listed(gates, Reversed(order))
  {
    forall g | g in gates
      ensures g in Reversed(order)
    {
      var i :| 0 <= i < |order| && order[i] == g;
      assert Reversed(order)[|order| - 1 - i] == g;
    }
  }

  lemma {:induction false} AdjoinedChain<Op>(G: Graph<Op>, adjoint: Op -> Op, q: nat, c: seq<nat>)
    requires Shaped(G) && Shaped(Adjoined(G, adjoint)) && q < |G.first| && q < |G.last| && ChainOk(G, q, c)
    requires forall g: nat, r: nat :: Uses(G, g, r) ==> AdjoinedLinks(G, adjoint, g, r)
    ensures ChainOk(Adjoined(G, adjoint), q, Reversed(c))
  {
    hide Pred, Succ, Shaped;
    var r := Reversed(c);
    forall i: nat | i < |r|
      ensures LinksOk(Adjoined(G, adjoint), q, r, i)
    {
      var k: nat := |c| - 1 - i;
      assert LinksOk(G, q, c, k);
      assert AdjoinedLinks(G, adjoint, c[k], q);
    }
  }

  /** The adjoint of the adjoint is the circuit, links and all. */
  lemma AdjoinedTwice<Op>(G: Graph<Op>, adjoint: Op -> Op)
    requires Shaped(G) && forall g :: g in G.gates ==> adjoint(adjoint(G.gates[g].op)) == G.gates[g].op
    ensures Adjoined(Adjoined(G, adjoint), adjoint) == G
  {
    var A := Adjoined(G, adjoint);
    var B := Adjoined(A, adjoint);
    assert forall g :: g in G.gates ==> RowsOk(G, g);
    assert A.gates.Keys == G.gates.Keys;
    TableTwice(G, A, G.preds, G.succs, G.gates.Keys);
    TableTwice(G, A, G.succs, G.preds, G.gates.Keys);
    hide AdjoinedTable;
    assert B.gates == G.gates;
  }

  lemma TableTwice<Op>(G: Graph<Op>, A: Graph<Op>, keep: Table, other: Table, done: set<nat>)
    requires forall g :: g in done ==> g in keep && g in other
    ensures AdjoinedTable(A, AdjoinedTable(G, keep, other, done), AdjoinedTable(G, other, keep, done), done) == keep
  {
  }

  /** After a reset no order fits the gates that are left, unless there are none. */
  lemma ResetKeepsGates<Op>(G: Graph<Op>)
    requires G.first == [] && G.last == []
    ensures (exists order :: Chained(G, order)) <==> G.gates == map[]
  {
    if G.gates == map[] {
      assert Chained(G, []);
    } else {
      var g :| g in G.gates;
      var qubits := G.gates[g].qubits;
      assert qubits == [] || qubits[0] >= 0;
      assert !GateOk(G.gates[g], 0);
    }
  }

  lemma AppendedListed<Op>(G: Graph<Op>, order: seq<nat>, id: nat, gate: Gate<Op>)
    requires Chained(G, order) && id !in G.gates
    ensures Listed(G.gates[id := gate] - {id}, order)
  {
  }

  lemma GrowingIsShaped<Op>(G: Graph<Op>, order: seq<nat>, id: nat, i: nat, front: bool)
    requires Growing(G, order, id, i, front)
    ensures Shaped(G)
  {
  }

  lemma LinkIsOn<Op>(G: Graph<Op>, id: nat, q: nat, front: bool)
    requires Shaped(G) && Uses(G, id, q) && q < |G.first|
    requires if front then (G.first[q].Some? ==> Uses(G, G.first[q].value, q)) else (G.last[q].Some? ==> Uses(G, G.last[q].value, q))
    ensures |G.first| == |G.last|
    ensures front ==> LinkOn(G, id, q, front) == PrependOn(G, id, q)
    ensures !front ==> LinkOn(G, id, q, front) == AppendOn(G, id, q)
    ensures |LinkOn(G, id, q, front).first| == |G.first|
  {
  }

  lemma ShrinkingIsShaped<Op>(G: Graph<Op>, order: seq<nat>, id: nat, i: nat)
    requires Shrinking(G, order, id, i)
    ensures Shaped(G)
  {
  }

  lemma FewerFresh<T>(table: map<nat, T>, id: nat, nextId: nat)
    requires Fresh(table, nextId)
    ensures Fresh(table - {id}, nextId)
  {
  }

  lemma StartShrinking<Op>(G: Graph<Op>, order: seq<nat>, id: nat)
    requires Chained(G, order) && id in G.gates
    ensures Shrinking(G, order, id, 0)
  {
  }
}
