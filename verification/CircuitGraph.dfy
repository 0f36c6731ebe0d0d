/** The gate graph as the dependency graph that the mapper reads. */
module CircuitGraphs {
  import opened Collections
  import GG = GateGraphs
  import Qcirs
  import opened Routing
  import CT = CircuitTopologies
  import CO = CircuitOrders

  /** The graph has the gates of the circuit, with the ids 0, 1, ... */
  ghost predicate Represents<Op>(G: GG.Graph<Op>, order: seq<nat>, c: CT.Circuit) {
    && GG.Chained(G, order) && c.order == order && (forall g: nat :: g in G.gates <==> g < |c.gates|)
    && forall g: nat :: g < |c.gates| ==> c.gates[g].qubits == G.gates[g].qubits
  }

  /** Where a gate of a qubit's chain is in circuit order. */
  lemma {:induction false} ChainPlaces<Op>(G: GG.Graph<Op>, order: seq<nat>, c: CT.Circuit, q: nat, i: nat, j: nat)
    requires Represents(G, order, c) && i < j < |GG.On(G.gates, order, q)|
    ensures var chain := GG.On(G.gates, order, q);
            chain[i] < |c.gates| && chain[j] < |c.gates| && CT.Place(c, chain[i]) < CT.Place(c, chain[j])
  {
    var chain := GG.On(G.gates, order, q);
    var a, b := GG.OnOrder(G.gates, order, q, i, j);
    assert order[a] in G.gates && order[b] in G.gates;
  }

  lemma {:induction false} ChainIndex<Op>(G: GG.Graph<Op>, order: seq<nat>, c: CT.Circuit, q: nat, h: nat) returns (i: nat)
    requires Represents(G, order, c) && CT.Uses(c, h, q)
    ensures i < |GG.On(G.gates, order, q)| && GG.On(G.gates, order, q)[i] == h
  {
    assert h in G.gates && h in order;
    GG.OnIn(G.gates, order, q, h);
    i :| 0 <= i < |GG.On(G.gates, order, q)| && GG.On(G.gates, order, q)[i] == h;
  }

  lemma ChainUses<Op>(G: GG.Graph<Op>, order: seq<nat>, c: CT.Circuit, q: nat, i: nat)
    requires Represents(G, order, c) && i < |GG.On(G.gates, order, q)|
    ensures CT.Uses(c, GG.On(G.gates, order, q)[i], q)
  {
    GG.OnIn(G.gates, order, q, GG.On(G.gates, order, q)[i]);
  }

  /** Neighbours in a chain are neighbours on that qubit. */
  lemma {:induction false} ChainNeighbours<Op>(G: GG.Graph<Op>, order: seq<nat>, c: CT.Circuit, q: nat, k: nat)
    requires Represents(G, order, c) && k < |GG.On(G.gates, order, q)|
    ensures var chain := GG.On(G.gates, order, q);
            && chain[k] < |c.gates|
            && CT.Previous(c, chain[k], q) == GG.At(chain, k - 1) && CT.Next(c, chain[k], q) == GG.At(chain, k + 1)
  {
    hide Represents, CT.Place, CT.LastBelow, CT.FirstFrom, GG.On;
    var chain := GG.On(G.gates, order, q);
    ChainUses(G, order, c, q, k);
    var p, s := CT.Previous(c, chain[k], q), CT.Next(c, chain[k], q);
    if p.Some? {
      var i := ChainIndex(G, order, c, q, p.value);
      ChainBefore(G, order, c, q, i, k);
      if i < k - 1 {
        ChainUses(G, order, c, q, k - 1);
        ChainPlaces(G, order, c, q, i, k - 1);
        ChainPlaces(G, order, c, q, k - 1, k);
      }
    } else if k > 0 {
      ChainUses(G, order, c, q, k - 1);
      ChainPlaces(G, order, c, q, k - 1, k);
    }
    if s.Some? {
      var i := ChainIndex(G, order, c, q, s.value);
      ChainBefore(G, order, c, q, k, i);
      if i > k + 1 {
        ChainUses(G, order, c, q, k + 1);
        ChainPlaces(G, order, c, q, k, k + 1);
        ChainPlaces(G, order, c, q, k + 1, i);
      }
    } else if k + 1 < |chain| {
      ChainUses(G, order, c, q, k + 1);
      ChainPlaces(G, order, c, q, k, k + 1);
    }
  }

  lemma ChainBefore<Op>(G: GG.Graph<Op>, order: seq<nat>, c: CT.Circuit, q: nat, i: nat, k: nat)
    requires Represents(G, order, c) && i < |GG.On(G.gates, order, q)| && k < |GG.On(G.gates, order, q)|
    requires GG.On(G.gates, order, q)[i] < |c.gates| && GG.On(G.gates, order, q)[k] < |c.gates|
    requires CT.Place(c, GG.On(G.gates, order, q)[i]) < CT.Place(c, GG.On(G.gates, order, q)[k])
    ensures i < k
  {
    hide Represents, GG.On;
    if k < i {
      ChainPlaces(G, order, c, q, k, i);
    }
  }

  /** The links of the graph are the predecessors and successors by which the mapper schedules. */
  lemma {:induction false} LinksAreNeighbours<Op>(G: GG.Graph<Op>, order: seq<nat>, c: CT.Circuit, g: nat, pin: nat)
    requires Represents(G, order, c) && g < |c.gates| && pin < |c.gates[g].qubits|
    ensures g in G.preds && pin < |G.preds[g]| && G.preds[g][pin] == CT.Pred(c, g, pin)
    ensures g in G.succs && pin < |G.succs[g]| && G.succs[g][pin] == CT.Succ(c, g, pin)
  {
    hide CT.Place, GG.On;
    var q := c.gates[g].qubits[pin];
    assert GG.RowsOk(G, g);
    GG.PinOfAt(G.gates[g].qubits, pin);
    var k := ChainIndex(G, order, c, q, g);
    ChainNeighbours(G, order, c, q, k);
    assert GG.ChainOk(G, q, GG.On(G.gates, order, q));
    assert GG.LinksOk(G, q, GG.On(G.gates, order, q), k);
  }

  /** A gate is appended and another one put in front of it: its larger id comes first, and routing by id
      takes the two gates in the wrong order. */
  method AppendThenPrepend() returns (qcir: Qcirs.QCir<bool>)
    ensures fresh(qcir) && qcir.Valid() && Represents(qcir.Links(), qcir.order, CO.PrependedGate())
    ensures !CO.Respects(CO.PrependedGate(), Iota(2)) && CO.Respects(CO.PrependedGate(), qcir.order)
  {
    hide CO.Respects, GG.Chained, GG.Topological, Represents;
    OneQubit(false);
    qcir := new Qcirs.QCir(1);
    var g0 := qcir.Append(false, [0]);
    var g1 := qcir.Prepend(false, [0]);
    CO.PrependedGateIsLate();
    assert qcir.order == [1] + ([] + [0]) == [1, 0];
    TwoGates(qcir.Links());
  }

  lemma OneQubit(op: bool)
    ensures GG.GateOk(GG.Gate(op, [0]), 1)
  {
  }

  lemma TwoGates(G: GG.Graph<bool>)
    requires GG.Chained(G, [1, 0]) && G.gates == map[][0 := GG.Gate(false, [0])][1 := GG.Gate(false, [0])]
    ensures Represents(G, [1, 0], CO.PrependedGate())
  {
    hide GG.Chained;
  }
}
