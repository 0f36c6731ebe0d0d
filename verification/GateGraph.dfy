/** The gate graph of a circuit: for every qubit a doubly linked chain of gates. */
module GateGraphs {
  import opened Collections

  datatype Gate<Op> = Gate(op: Op, qubits: seq<nat>)

  type Table = map<nat, seq<Option<nat>>>

  datatype Graph<Op> = Graph(gates: map<nat, Gate<Op>>, preds: Table, succs: Table,
                             first: seq<Option<nat>>, last: seq<Option<nat>>)

  lemma PinOfAt(qubits: seq<nat>, pin: nat)
    requires Distinct(qubits) && pin < |qubits|
    ensures IndexOf(qubits, qubits[pin]) == pin
  {
  }

  ghost predicate GateOk<Op>(g: Gate<Op>, n: nat) {
    g.qubits != [] && Distinct(g.qubits) && Below(g.qubits, n)
  }

  ghost predicate RowsOk<Op>(G: Graph<Op>, g: nat)
    requires g in G.gates
  {
    && GateOk(G.gates[g], |G.first|)
    && g in G.preds && |G.preds[g]| == |G.gates[g].qubits|
    && g in G.succs && |G.succs[g]| == |G.gates[g].qubits|
  }

  ghost predicate Shaped<Op>(G: Graph<Op>) {
    |G.first| == |G.last| && forall g :: g in G.gates ==> RowsOk(G, g)
  }

  predicate Uses<Op>(G: Graph<Op>, g: nat, q: nat) {
    g in G.gates && q in G.gates[g].qubits
  }

  function Pred<Op>(G: Graph<Op>, g: nat, q: nat): Option<nat>
    requires Shaped(G) && Uses(G, g, q)
  {
    assert RowsOk(G, g);
    G.preds[g][IndexOf(G.gates[g].qubits, q)]
  }

  function Succ<Op>(G: Graph<Op>, g: nat, q: nat): Option<nat>
    requires Shaped(G) && Uses(G, g, q)
  {
    assert RowsOk(G, g);
    G.succs[g][IndexOf(G.gates[g].qubits, q)]
  }

  function At(c: seq<nat>, i: int): Option<nat> {
    if 0 <= i < |c| then Some(c[i]) else None
  }

  ghost predicate LinksOk<Op>(G: Graph<Op>, q: nat, c: seq<nat>, i: nat)
    requires Shaped(G) && i < |c|
  {
    Uses(G, c[i], q) && Pred(G, c[i], q) == At(c, i - 1) && Succ(G, c[i], q) == At(c, i + 1)
  }

  /** From first to last gate, c is linked both ways. */
  ghost predicate ChainOk<Op>(G: Graph<Op>, q: nat, c: seq<nat>)
    requires Shaped(G) && q < |G.first|
  {
    && Distinct(c) && G.first[q] == At(c, 0) && G.last[q] == At(c, |c| - 1)
    && forall i: nat :: i < |c| ==> LinksOk(G, q, c, i)
  }

  /** The gates of a list on one qubit. */
  function On<Op>(gates: map<nat, Gate<Op>>, list: seq<nat>, q: nat): seq<nat> {
    if list == [] then []
    else
      var g := list[|list| - 1];
      On(gates, list[..|list| - 1], q) + if g in gates && q in gates[g].qubits then [g] else []
  }

  ghost predicate Listed<Op>(gates: map<nat, Gate<Op>>, list: seq<nat>) {
    Distinct(list) && (forall g :: g in gates ==> g in list) && forall g :: g in list ==> g in gates
  }

  /** The links are those of the circuit that lists its gates in this order. */
  ghost predicate Chained<Op>(G: Graph<Op>, order: seq<nat>) {
    Shaped(G) && Listed(G.gates, order) && forall q: nat :: q < |G.first| ==> ChainOk(G, q, On(G.gates, order, q))
  }

  // ---------------------------------------------------------------- chains of lists

  lemma {:induction false} OnAppend<Op>(gates: map<nat, Gate<Op>>, a: seq<nat>, b: seq<nat>, q: nat)
    ensures On(gates, a + b, q) == On(gates, a, q) + On(gates, b, q)
    decreases |b|
  {
    if b == [] {
      assert a + b == a;
    } else {
      var m := |b| - 1;
      assert (a + b)[..|a + b| - 1] == a + b[..m];
      OnAppend(gates, a, b[..m], q);
    }
  }

  lemma {:induction false} OnOne<Op>(gates: map<nat, Gate<Op>>, g: nat, q: nat)
    ensures On(gates, [g], q) == if g in gates && q in gates[g].qubits then [g] else []
  {
    assert [g][..0] == [];
  }

  lemma {:induction false} OnSame<Op>(gates: map<nat, Gate<Op>>, gates': map<nat, Gate<Op>>, list: seq<nat>, q: nat)
    requires forall g :: g in list ==> (g in gates <==> g in gates') && (g in gates ==> gates[g].qubits == gates'[g].qubits)
    ensures On(gates, list, q) == On(gates', list, q)
    decreases |list|
  {
    if list != [] {
      OnSame(gates, gates', list[..|list| - 1], q);
    }
  }

  lemma {:induction false} OnIn<Op>(gates: map<nat, Gate<Op>>, list: seq<nat>, q: nat, g: nat)
    ensures g in On(gates, list, q) <==> g in list && g in gates && q in gates[g].qubits
    decreases |list|
  {
    if list != [] {
      OnIn(gates, list[..|list| - 1], q, g);
      assert list == list[..|list| - 1] + [list[|list| - 1]];
    }
  }

  /** The gates on one qubit keep the order of the list. */
  lemma {:induction false} OnOrder<Op>(gates: map<nat, Gate<Op>>, list: seq<nat>, q: nat, i: nat, j: nat) returns (a: nat, b: nat)
    requires i < j < |On(gates, list, q)|
    ensures a < b < |list| && list[a] == On(gates, list, q)[i] && list[b] == On(gates, list, q)[j]
    decreases |list|
  {
    var m := |list| - 1;
    var fewer := On(gates, list[..m], q);
    if j < |fewer| {
      a, b := OnOrder(gates, list[..m], q, i, j);
    } else {
      OnIn(gates, list[..m], q, fewer[i]);
      a :| 0 <= a < m && list[..m][a] == fewer[i];
      b := m;
    }
  }

  function Erased(s: seq<nat>, x: nat): (r: seq<nat>)
    ensures |r| <= |s|
  {
    if s == [] then []
    else Erased(s[..|s| - 1], x) + if s[|s| - 1] == x then [] else [s[|s| - 1]]
  }

  lemma {:induction false} ErasedAbsent(s: seq<nat>, x: nat)
    requires forall i :: 0 <= i < |s| ==> s[i] != x
    ensures Erased(s, x) == s
    decreases |s|
  {
    if s != [] {
      ErasedAbsent(s[..|s| - 1], x);
    }
  }

  lemma {:induction false} ErasedAt(s: seq<nat>, i: nat)
    requires Distinct(s) && i < |s|
    ensures Erased(s, s[i]) == s[..i] + s[i + 1..]
    decreases |s|
  {
    var m := |s| - 1;
    var t := s[..m];
    if i == m {
      ErasedAbsent(t, s[i]);
    } else {
      ErasedAt(t, i);
      assert t[..i] == s[..i] && s[i + 1..] == t[i + 1..] + [s[m]];
    }
  }

  lemma {:induction false} OnErased<Op>(gates: map<nat, Gate<Op>>, list: seq<nat>, x: nat, q: nat)
    ensures On(gates, Erased(list, x), q) == Erased(On(gates, list, q), x)
    decreases |list|
  {
    if list != [] {
      var m := |list| - 1;
      var before, kept := On(gates, list[..m], q), if list[m] == x then [] else [list[m]];
      OnErased(gates, list[..m], x, q);
      OnAppend(gates, Erased(list[..m], x), kept, q);
      OnOne(gates, list[m], q);
      if list[m] in gates && q in gates[list[m]].qubits {
        assert (before + [list[m]])[..|before|] == before;
      } else {
        assert before + [] == before;
        assert On(gates, kept, q) == [];
        assert Erased(before, x) + [] == Erased(before, x);
      }
    }
  }

  lemma {:induction false} ErasedListed<Op>(gates: map<nat, Gate<Op>>, order: seq<nat>, x: nat)
    requires Listed(gates, order) && x in gates
    ensures Listed(gates - {x}, Erased(order, x))
  {
    hide Erased;
    var i :| 0 <= i < |order| && order[i] == x;
    ErasedAt(order, i);
    var s := order[..i] + order[i + 1..];
    forall g | g in gates - {x}
      ensures g in s
    {
      var k :| 0 <= k < |order| && order[k] == g;
      assert s[if k < i then k else k - 1] == g;
    }
    ErasedDistinct(order, i);
  }

  lemma {:induction false} ErasedDistinct(s: seq<nat>, i: nat)
    requires Distinct(s) && i < |s|
    ensures Distinct(s[..i] + s[i + 1..]) && forall g :: g in s[..i] + s[i + 1..] ==> g in s && g != s[i]
  {
    var r := s[..i] + s[i + 1..];
    assert forall k :: 0 <= k < |r| ==> r[k] == s[if k < i then k else k + 1];
  }

  // ---------------------------------------------------------------- links of one qubit

  function SetPred<Op>(G: Graph<Op>, g: nat, q: nat, v: Option<nat>): (G': Graph<Op>)
    requires Shaped(G) && Uses(G, g, q)
    ensures Shaped(G') && G'.gates == G.gates && G'.first == G.first && G'.last == G.last
  {
    assert RowsOk(G, g);
    assert forall h :: h in G.gates ==> RowsOk(G, h);
    G.(preds := G.preds[g := G.preds[g][IndexOf(G.gates[g].qubits, q) := v]])
  }

  function SetSucc<Op>(G: Graph<Op>, g: nat, q: nat, v: Option<nat>): (G': Graph<Op>)
    requires Shaped(G) && Uses(G, g, q)
    ensures Shaped(G') && G'.gates == G.gates && G'.first == G.first && G'.last == G.last
  {
    assert RowsOk(G, g);
    assert forall h :: h in G.gates ==> RowsOk(G, h);
    G.(succs := G.succs[g := G.succs[g][IndexOf(G.gates[g].qubits, q) := v]])
  }

  /** Only the links of qubit q differ. */
  ghost predicate OnlyOn<Op>(G: Graph<Op>, G': Graph<Op>, q: nat) {
    && Shaped(G) && Shaped(G') && G'.gates == G.gates && |G'.first| == |G.first|
    && (forall r: nat :: r < |G.first| && r != q ==> G'.first[r] == G.first[r] && G'.last[r] == G.last[r])
    && forall g: nat, r: nat :: Uses(G, g, r) && r != q ==> SameLinks(G, G', g, r)
  }

  ghost predicate SameLinks<Op>(G: Graph<Op>, G': Graph<Op>, g: nat, r: nat)
    requires Shaped(G) && Shaped(G') && G'.gates == G.gates && Uses(G, g, r)
  {
    Pred(G', g, r) == Pred(G, g, r) && Succ(G', g, r) == Succ(G, g, r)
  }

  lemma PinsDiffer(qubits: seq<nat>, q: nat, r: nat)
    requires q in qubits && r in qubits && q != r
    ensures IndexOf(qubits, q) != IndexOf(qubits, r)
  {
  }

  lemma {:induction false} SetPredLinks<Op>(G: Graph<Op>, g: nat, q: nat, v: Option<nat>)
    requires Shaped(G) && Uses(G, g, q)
    ensures OnlyOn(G, SetPred(G, g, q, v), q) && Pred(SetPred(G, g, q, v), g, q) == v
    ensures forall h: nat :: Uses(G, h, q) ==> Succ(SetPred(G, g, q, v), h, q) == Succ(G, h, q)
    ensures forall h: nat :: Uses(G, h, q) && h != g ==> Pred(SetPred(G, g, q, v), h, q) == Pred(G, h, q)
  {
    hide IndexOf;
    var G' := SetPred(G, g, q, v);
    assert RowsOk(G, g);
    forall h: nat, r: nat | Uses(G, h, r) && r != q
      ensures SameLinks(G, G', h, r)
    {
      assert RowsOk(G, h);
      if h == g {
        PinsDiffer(G.gates[g].qubits, q, r);
      }
    }
  }

  lemma {:induction false} SetSuccLinks<Op>(G: Graph<Op>, g: nat, q: nat, v: Option<nat>)
    requires Shaped(G) && Uses(G, g, q)
    ensures OnlyOn(G, SetSucc(G, g, q, v), q) && Succ(SetSucc(G, g, q, v), g, q) == v
    ensures forall h: nat :: Uses(G, h, q) ==> Pred(SetSucc(G, g, q, v), h, q) == Pred(G, h, q)
    ensures forall h: nat :: Uses(G, h, q) && h != g ==> Succ(SetSucc(G, g, q, v), h, q) == Succ(G, h, q)
  {
    hide IndexOf;
    var G' := SetSucc(G, g, q, v);
    assert RowsOk(G, g);
    forall h: nat, r: nat | Uses(G, h, r) && r != q
      ensures SameLinks(G, G', h, r)
    {
      assert RowsOk(G, h);
      if h == g {
        PinsDiffer(G.gates[g].qubits, q, r);
      }
    }
  }

  /** The graph read backwards. */
  function Mirror<Op>(G: Graph<Op>): Graph<Op> {
    G.(preds := G.succs, succs := G.preds, first := G.last, last := G.first)
  }

  lemma {:induction false} MirrorShaped<Op>(G: Graph<Op>)
    requires Shaped(G)
    ensures Shaped(Mirror(G)) && Mirror(Mirror(G)) == G
    ensures forall g: nat, q: nat :: Uses(G, g, q) ==> MirroredLinks(G, g, q)
  {
    forall g | g in Mirror(G).gates
      ensures RowsOk(Mirror(G), g)
    {
      assert RowsOk(G, g);
    }
  }

  ghost predicate MirroredLinks<Op>(G: Graph<Op>, g: nat, q: nat)
    requires Shaped(G) && Shaped(Mirror(G)) && Uses(G, g, q)
  {
    Pred(Mirror(G), g, q) == Succ(G, g, q) && Succ(Mirror(G), g, q) == Pred(G, g, q)
  }

  lemma {:induction false} MirrorChain<Op>(G: Graph<Op>, q: nat, c: seq<nat>)
    requires Shaped(G) && Shaped(Mirror(G)) && q < |G.first| && ChainOk(G, q, c)
    ensures ChainOk(Mirror(G), q, Reversed(c))
  {
    hide Pred, Succ, Shaped;
    var r := Reversed(c);
    MirrorShaped(G) by {
      assert Shaped(G);
    }
    forall i: nat | i < |r|
      ensures LinksOk(Mirror(G), q, r, i)
    {
      var k: nat := |c| - 1 - i;
      assert LinksOk(G, q, c, k);
      assert MirroredLinks(G, c[k], q);
    }
  }

  lemma OnlyOnThrough<Op>(G: Graph<Op>, G1: Graph<Op>, G2: Graph<Op>, q: nat)
    requires OnlyOn(G, G1, q) && OnlyOn(G1, G2, q)
    ensures OnlyOn(G, G2, q)
  {
    forall g: nat, r: nat | Uses(G, g, r) && r != q
      ensures SameLinks(G, G2, g, r)
    {
      assert SameLinks(G, G1, g, r) && SameLinks(G1, G2, g, r);
    }
  }

  lemma OnlyEnds<Op>(G: Graph<Op>, first: Option<nat>, last: Option<nat>, q: nat)
    requires Shaped(G) && q < |G.first|
    ensures var G' := G.(first := G.first[q := first], last := G.last[q := last]);
            OnlyOn(G, G', q) && forall g: nat :: Uses(G, g, q) ==> SameLinks(G, G', g, q)
  {
    var G' := G.(first := G.first[q := first], last := G.last[q := last]);
    forall h | h in G'.gates
      ensures RowsOk(G', h)
    {
      assert RowsOk(G, h);
    }
  }

  /** The chains of the other qubits stay. */
  lemma OtherChain<Op>(G: Graph<Op>, G': Graph<Op>, q: nat, r: nat, c: seq<nat>)
    requires OnlyOn(G, G', q) && r != q && r < |G.first| && ChainOk(G, r, c)
    ensures ChainOk(G', r, c)
  {
    hide Pred, Succ;
    forall i: nat | i < |c|
      ensures LinksOk(G', r, c, i)
    {
      assert LinksOk(G, r, c, i);
      assert SameLinks(G, G', c[i], r);
    }
  }

  // ---------------------------------------------------------------- one gate more or less on a qubit

  /** Gate id goes behind the last gate on qubit q. */
  function AppendOn<Op>(G: Graph<Op>, id: nat, q: nat): Graph<Op>
    requires Shaped(G) && Uses(G, id, q) && q < |G.first| && (G.last[q].Some? ==> Uses(G, G.last[q].value, q))
  {
    var l := G.last[q];
    var G1 := if l.Some? then SetPred(SetSucc(G, l.value, q, Some(id)), id, q, l) else G.(first := G.first[q := Some(id)]);
    G1.(last := G1.last[q := Some(id)])
  }

  lemma {:induction false} AppendOnChain<Op>(G: Graph<Op>, id: nat, q: nat, c: seq<nat>)
    requires Shaped(G) && Uses(G, id, q) && q < |G.first| && ChainOk(G, q, c) && id !in c
    requires Pred(G, id, q).None? && Succ(G, id, q).None?
    ensures G.last[q].Some? ==> Uses(G, G.last[q].value, q)
    ensures OnlyOn(G, AppendOn(G, id, q), q) && ChainOk(AppendOn(G, id, q), q, c + [id])
  {
    var l := G.last[q];
    hide Pred, Succ, Shaped, SetPred, SetSucc;
    if c == [] {
      OnlyEnds(G, Some(id), Some(id), q);
      var G' := AppendOn(G, id, q);
      assert G' == G.(first := G.first[q := Some(id)], last := G.last[q := Some(id)]);
      assert SameLinks(G, G', id, q);
      assert LinksOk(G', q, [id], 0);
      assert c + [id] == [id];
    } else {
      var m: nat := |c| - 1;
      assert LinksOk(G, q, c, m) && l == Some(c[m]);
      SetSuccLinks(G, c[m], q, Some(id));
      var G1 := SetSucc(G, c[m], q, Some(id));
      SetPredLinks(G1, id, q, l);
      var G2 := SetPred(G1, id, q, l);
      OnlyEnds(G2, G2.first[q], Some(id), q);
      var G' := AppendOn(G, id, q);
      assert G2.first[q := G2.first[q]] == G2.first;
      OnlyOnThrough(G, G1, G2, q);
      OnlyOnThrough(G, G2, G', q);
      forall i: nat | i < |c + [id]|
        ensures LinksOk(G', q, c + [id], i)
      {
        assert i < |c| ==> LinksOk(G, q, c, i) && c[i] != id;
        assert i < m ==> c[i] != c[m];
        assert SameLinks(G2, G', (c + [id])[i], q);
      }
    }
  }

  function PrependOn<Op>(G: Graph<Op>, id: nat, q: nat): Graph<Op>
    requires Shaped(G) && Uses(G, id, q) && q < |G.first| && (G.first[q].Some? ==> Uses(G, G.first[q].value, q))
  {
    var f := G.first[q];
    var G1 := if f.Some? then SetPred(SetSucc(G, id, q, f), f.value, q, Some(id)) else G.(last := G.last[q := Some(id)]);
    G1.(first := G1.first[q := Some(id)])
  }

  /** Prepending is appending to the graph read backwards. */
  lemma {:induction false} PrependIsMirrored<Op>(G: Graph<Op>, id: nat, q: nat)
    requires Shaped(G) && Shaped(Mirror(G)) && Uses(G, id, q) && q < |G.first| && (G.first[q].Some? ==> Uses(G, G.first[q].value, q))
    requires G.first[q] != Some(id)
    ensures PrependOn(G, id, q) == Mirror(AppendOn(Mirror(G), id, q))
  {
    assert RowsOk(G, id);
    assert G.first[q].Some? ==> RowsOk(G, G.first[q].value);
  }

  lemma {:induction false} MirrorOnlyOn<Op>(G: Graph<Op>, G': Graph<Op>, q: nat)
    requires OnlyOn(G, G', q)
    ensures OnlyOn(Mirror(G), Mirror(G'), q)
  {
    hide Pred, Succ, Shaped;
    MirrorShaped(G);
    MirrorShaped(G');
    forall g: nat, r: nat | Uses(Mirror(G), g, r) && r != q
      ensures SameLinks(Mirror(G), Mirror(G'), g, r)
    {
      assert Uses(G, g, r) && SameLinks(G, G', g, r) && MirroredLinks(G, g, r) && MirroredLinks(G', g, r);
    }
  }

  lemma {:induction false} PrependOnChain<Op>(G: Graph<Op>, id: nat, q: nat, c: seq<nat>)
    requires Shaped(G) && Uses(G, id, q) && q < |G.first| && ChainOk(G, q, c) && id !in c
    requires Pred(G, id, q).None? && Succ(G, id, q).None?
    ensures G.first[q].Some? ==> Uses(G, G.first[q].value, q)
    ensures OnlyOn(G, PrependOn(G, id, q), q) && ChainOk(PrependOn(G, id, q), q, [id] + c)
  {
    hide Pred, Succ, Shaped, SetPred, SetSucc, AppendOn, PrependOn;
    MirrorShaped(G);
    MirrorChain(G, q, c);
    assert MirroredLinks(G, id, q);
    assert c != [] ==> LinksOk(G, q, c, 0);
    AppendOnChain(Mirror(G), id, q, Reversed(c));
    PrependIsMirrored(G, id, q);
    var B := AppendOn(Mirror(G), id, q);
    MirrorOnlyOn(Mirror(G), B, q);
    MirrorChain(B, q, Reversed(c) + [id]);
    assert Reversed(Reversed(c) + [id]) == [id] + c;
  }

  /** The neighbours of gate id on qubit q become neighbours of each other. */
  function RemoveOn<Op>(G: Graph<Op>, id: nat, q: nat): Graph<Op>
    requires Shaped(G) && Uses(G, id, q) && q < |G.first|
    requires (Pred(G, id, q).Some? ==> Uses(G, Pred(G, id, q).value, q)) && (Succ(G, id, q).Some? ==> Uses(G, Succ(G, id, q).value, q))
  {
    var p, s := Pred(G, id, q), Succ(G, id, q);
    var G1 := if p.Some? then SetSucc(G, p.value, q, s) else G.(first := G.first[q := s]);
    assert Shaped(G1) by {
      assert forall h :: h in G.gates ==> RowsOk(G, h);
    }
    if s.Some? then SetPred(G1, s.value, q, p) else G1.(last := G1.last[q := p])
  }

  lemma {:induction false} RemoveOnChain<Op>(G: Graph<Op>, q: nat, c: seq<nat>, k: nat)
    requires Shaped(G) && q < |G.first| && ChainOk(G, q, c) && k < |c|
    ensures Uses(G, c[k], q)
    ensures (Pred(G, c[k], q).Some? ==> Uses(G, Pred(G, c[k], q).value, q)) && (Succ(G, c[k], q).Some? ==> Uses(G, Succ(G, c[k], q).value, q))
    ensures OnlyOn(G, RemoveOn(G, c[k], q), q) && ChainOk(RemoveOn(G, c[k], q), q, Erased(c, c[k]))
  {
    assert LinksOk(G, q, c, k) && (k > 0 ==> LinksOk(G, q, c, k - 1)) && (k + 1 < |c| ==> LinksOk(G, q, c, k + 1));
    ErasedAt(c, k);
    var p, s := Pred(G, c[k], q), Succ(G, c[k], q);
    var G1 := if p.Some? then SetSucc(G, p.value, q, s) else G.(first := G.first[q := s]);
    assert G.first[q := G.first[q]] == G.first && G.last[q := G.last[q]] == G.last;
    hide Pred, Succ, SetPred, SetSucc, Erased;
    if p.Some? {
      SetSuccLinks(G, p.value, q, s);
    } else {
      OnlyEnds(G, s, G.last[q], q);
    }
    var G2 := RemoveOn(G, c[k], q);
    if s.Some? {
      SetPredLinks(G1, s.value, q, p);
    } else {
      assert G1.first[q := G1.first[q]] == G1.first;
      OnlyEnds(G1, G1.first[q], p, q);
    }
    OnlyOnThrough(G, G1, G2, q);
    JoinedChain(G, G1, G2, q, c, k);
  }

  /** A chain without its k-th gate, when the links of the neighbours have been joined. */
  lemma {:induction false} JoinedChain<Op>(G: Graph<Op>, G1: Graph<Op>, G2: Graph<Op>, q: nat, c: seq<nat>, k: nat)
    requires OnlyOn(G, G1, q) && OnlyOn(G1, G2, q) && q < |G.first| && ChainOk(G, q, c) && k < |c|
    requires if k > 0 then SetSuccOnly(G, G1, c[k - 1], q, At(c, k + 1)) else EndsOnly(G, G1, q, At(c, 1), G.last[q])
    requires if k + 1 < |c| then SetPredOnly(G1, G2, c[k + 1], q, At(c, k - 1)) else EndsOnly(G1, G2, q, G1.first[q], At(c, k - 1))
    ensures ChainOk(G2, q, c[..k] + c[k + 1..])
  {
    hide Pred, Succ, Shaped;
    var r := c[..k] + c[k + 1..];
    forall i: nat | i < |r|
      ensures LinksOk(G2, q, r, i)
    {
      var j: nat := if i < k then i else i + 1;
      assert r[i] == c[j] && LinksOk(G, q, c, j);
      assert k > 0 ==> LinksOk(G, q, c, k - 1) && (j != k - 1 ==> c[j] != c[k - 1]);
      assert k + 1 < |c| ==> LinksOk(G, q, c, k + 1) && (j != k + 1 ==> c[j] != c[k + 1]);
      assert k == 0 ==> SameLinks(G, G1, c[j], q);
      assert k + 1 == |c| ==> SameLinks(G1, G2, c[j], q);
    }
  }

  ghost predicate SetSuccOnly<Op>(G: Graph<Op>, G': Graph<Op>, g: nat, q: nat, v: Option<nat>)
    requires Shaped(G) && Shaped(G') && G'.gates == G.gates
  {
    && Uses(G, g, q) && Succ(G', g, q) == v && G'.first == G.first && G'.last == G.last
    && (forall h: nat :: Uses(G, h, q) ==> Pred(G', h, q) == Pred(G, h, q))
    && forall h: nat :: Uses(G, h, q) && h != g ==> Succ(G', h, q) == Succ(G, h, q)
  }

  ghost predicate SetPredOnly<Op>(G: Graph<Op>, G': Graph<Op>, g: nat, q: nat, v: Option<nat>)
    requires Shaped(G) && Shaped(G') && G'.gates == G.gates
  {
    && Uses(G, g, q) && Pred(G', g, q) == v && G'.first == G.first && G'.last == G.last
    && (forall h: nat :: Uses(G, h, q) ==> Succ(G', h, q) == Succ(G, h, q))
    && forall h: nat :: Uses(G, h, q) && h != g ==> Pred(G', h, q) == Pred(G, h, q)
  }

  ghost predicate EndsOnly<Op>(G: Graph<Op>, G': Graph<Op>, q: nat, first: Option<nat>, last: Option<nat>)
    requires Shaped(G) && Shaped(G') && G'.gates == G.gates && q < |G.first|
  {
    && |G'.first| == |G.first| && G'.first[q] == first && G'.last[q] == last
    && forall h: nat :: Uses(G, h, q) ==> SameLinks(G, G', h, q)
  }

  // ---------------------------------------------------------------- a gate on several qubits

  /** While gate id is linked, qubit by qubit: on its first qubits it is at the end, on the others nowhere. */
  ghost predicate Growing<Op>(G: Graph<Op>, order: seq<nat>, id: nat, i: nat, front: bool) {
    && Shaped(G) && id in G.gates && i <= |G.gates[id].qubits| && id !in order
    && (forall q: nat :: q < |G.first| ==> ChainOk(G, q, Grown(On(G.gates, order, q), id, q in G.gates[id].qubits[..i], front)))
    && forall j: nat :: i <= j < |G.gates[id].qubits| ==> Unlinked(G, id, G.gates[id].qubits[j])
  }

  function Grown(c: seq<nat>, id: nat, grow: bool, front: bool): seq<nat> {
    if !grow then c else if front then [id] + c else c + [id]
  }

  ghost predicate Unlinked<Op>(G: Graph<Op>, id: nat, q: nat)
    requires Shaped(G)
  {
    Uses(G, id, q) && Pred(G, id, q).None? && Succ(G, id, q).None?
  }

  function LinkOn<Op>(G: Graph<Op>, id: nat, q: nat, front: bool): Graph<Op>
    requires Shaped(G) && Uses(G, id, q) && q < |G.first|
    requires if front then (G.first[q].Some? ==> Uses(G, G.first[q].value, q)) else (G.last[q].Some? ==> Uses(G, G.last[q].value, q))
  {
    if front then PrependOn(G, id, q) else AppendOn(G, id, q)
  }

  lemma {:induction false} GrowingStep<Op>(G: Graph<Op>, order: seq<nat>, id: nat, i: nat, front: bool)
    requires Growing(G, order, id, i, front) && i < |G.gates[id].qubits|
    ensures var q := G.gates[id].qubits[i];
            && Uses(G, id, q) && q < |G.first|
            && (if front then (G.first[q].Some? ==> Uses(G, G.first[q].value, q)) else (G.last[q].Some? ==> Uses(G, G.last[q].value, q)))
            && Growing(LinkOn(G, id, q, front), order, id, i + 1, front)
  {
    hide Pred, Succ, AppendOn, PrependOn;
    var qubits, q := G.gates[id].qubits, G.gates[id].qubits[i];
    assert RowsOk(G, id);
    assert Unlinked(G, id, q);
    var c := On(G.gates, order, q);
    assert q !in qubits[..i];
    OnIn(G.gates, order, q, id);
    if front {
      PrependOnChain(G, id, q, c);
    } else {
      AppendOnChain(G, id, q, c);
    }
    var G' := LinkOn(G, id, q, front);
    assert qubits[..i + 1] == qubits[..i] + [q];
    hide Shaped, On, LinkOn;
    forall r: nat | r < |G'.first|
      ensures ChainOk(G', r, Grown(On(G'.gates, order, r), id, r in qubits[..i + 1], front))
    {
      if r != q {
        OtherChain(G, G', q, r, Grown(On(G.gates, order, r), id, r in qubits[..i], front));
      }
    }
    forall j: nat | i + 1 <= j < |qubits|
      ensures Unlinked(G', id, qubits[j])
    {
      assert Unlinked(G, id, qubits[j]) && qubits[j] != q;
      assert SameLinks(G, G', id, qubits[j]);
    }
  }

  lemma {:induction false} GrowingStart<Op>(G: Graph<Op>, order: seq<nat>, id: nat, gate: Gate<Op>, front: bool)
    requires Chained(G, order) && id !in G.gates && GateOk(gate, |G.first|)
    ensures var rows := seq(|gate.qubits|, _ => None);
            Growing(G.(gates := G.gates[id := gate], preds := G.preds[id := rows], succs := G.succs[id := rows]), order, id, 0, front)
  {
    var rows: seq<Option<nat>> := seq(|gate.qubits|, _ => None);
    var G' := G.(gates := G.gates[id := gate], preds := G.preds[id := rows], succs := G.succs[id := rows]);
    forall h | h in G'.gates
      ensures RowsOk(G', h)
    {
      assert h != id ==> RowsOk(G, h);
    }
    forall q: nat | q < |G'.first|
      ensures ChainOk(G', q, On(G'.gates, order, q))
    {
      var c := On(G.gates, order, q);
      OnSame(G.gates, G'.gates, order, q);
      hide On;
      forall i: nat | i < |c|
        ensures LinksOk(G', q, c, i)
      {
        assert LinksOk(G, q, c, i);
      }
    }
  }

  lemma {:induction false} GrowingEnd<Op>(G: Graph<Op>, order: seq<nat>, id: nat, front: bool)
    requires id in G.gates && Growing(G, order, id, |G.gates[id].qubits|, front) && Listed(G.gates - {id}, order)
    ensures Chained(G, if front then [id] + order else order + [id])
  {
    hide ChainOk, Shaped;
    var order' := if front then [id] + order else order + [id];
    var qubits := G.gates[id].qubits;
    assert qubits[..|qubits|] == qubits;
    forall q: nat | q < |G.first|
      ensures On(G.gates, order', q) == Grown(On(G.gates, order, q), id, q in qubits, front)
    {
      OnOne(G.gates, id, q);
      if front {
        OnAppend(G.gates, [id], order, q);
      } else {
        OnAppend(G.gates, order, [id], q);
      }
    }
    GrownListed(G.gates, order, id, front);
  }

  lemma {:induction false} GrownListed<Op>(gates: map<nat, Gate<Op>>, order: seq<nat>, id: nat, front: bool)
    requires Listed(gates - {id}, order) && id in gates && id !in order
    ensures Listed(gates, if front then [id] + order else order + [id])
  {
  }

  /** While gate id is unlinked, qubit by qubit: its first qubits no longer have it. */
  ghost predicate Shrinking<Op>(G: Graph<Op>, order: seq<nat>, id: nat, i: nat) {
    && Shaped(G) && id in G.gates && i <= |G.gates[id].qubits| && Listed(G.gates, order)
    && forall q: nat :: q < |G.first| ==> ChainOk(G, q, Shrunk(On(G.gates, order, q), id, q in G.gates[id].qubits[..i]))
  }

  function Shrunk(c: seq<nat>, id: nat, shrink: bool): seq<nat> {
    if shrink then Erased(c, id) else c
  }

  lemma {:induction false} ShrinkingStep<Op>(G: Graph<Op>, order: seq<nat>, id: nat, i: nat)
    requires Shrinking(G, order, id, i) && i < |G.gates[id].qubits|
    ensures var q := G.gates[id].qubits[i];
            && Uses(G, id, q) && q < |G.first|
            && (Pred(G, id, q).Some? ==> Uses(G, Pred(G, id, q).value, q)) && (Succ(G, id, q).Some? ==> Uses(G, Succ(G, id, q).value, q))
            && Shrinking(RemoveOn(G, id, q), order, id, i + 1)
  {
    hide Pred, Succ, RemoveOn;
    var qubits, q := G.gates[id].qubits, G.gates[id].qubits[i];
    assert RowsOk(G, id);
    var c := On(G.gates, order, q);
    assert q !in qubits[..i];
    OnIn(G.gates, order, q, id);
    var k: nat :| k < |c| && c[k] == id;
    RemoveOnChain(G, q, c, k);
    var G' := RemoveOn(G, id, q);
    assert qubits[..i + 1] == qubits[..i] + [q];
    hide Shaped, On;
    forall r: nat | r < |G'.first|
      ensures ChainOk(G', r, Shrunk(On(G'.gates, order, r), id, r in qubits[..i + 1]))
    {
      if r != q {
        OtherChain(G, G', q, r, Shrunk(On(G.gates, order, r), id, r in qubits[..i]));
      }
    }
  }

  lemma {:induction false} ShrinkingEnd<Op>(G: Graph<Op>, order: seq<nat>, id: nat)
    requires id in G.gates && Shrinking(G, order, id, |G.gates[id].qubits|)
    ensures Chained(G.(gates := G.gates - {id}), Erased(order, id))
  {
    hide ChainOk, On, Shrunk, Listed, Erased;
    var qubits, G' := G.gates[id].qubits, G.(gates := G.gates - {id});
    assert qubits[..|qubits|] == qubits;
    ErasedListed(G.gates, order, id);
    ForgottenShaped(G, id);
    forall q: nat | q < |G'.first|
      ensures ChainOk(G', q, On(G'.gates, Erased(order, id), q))
    {
      ShrunkChain(G.gates, order, id, q);
      ForgottenChain(G, id, q, Shrunk(On(G.gates, order, q), id, q in qubits));
    }
  }

  lemma ForgottenShaped<Op>(G: Graph<Op>, id: nat)
    requires Shaped(G)
    ensures Shaped(G.(gates := G.gates - {id}))
  {
    forall h | h in G.gates - {id}
      ensures RowsOk(G.(gates := G.gates - {id}), h)
    {
      assert RowsOk(G, h);
    }
  }

  lemma {:induction false} ForgottenChain<Op>(G: Graph<Op>, id: nat, q: nat, c: seq<nat>)
    requires Shaped(G) && Shaped(G.(gates := G.gates - {id})) && q < |G.first| && ChainOk(G, q, c) && id !in c
    ensures ChainOk(G.(gates := G.gates - {id}), q, c)
  {
    hide Shaped;
    var G' := G.(gates := G.gates - {id});
    forall i: nat | i < |c|
      ensures LinksOk(G', q, c, i)
    {
      assert LinksOk(G, q, c, i) && c[i] in c;
    }
  }

  lemma {:induction false} ShrunkChain<Op>(gates: map<nat, Gate<Op>>, order: seq<nat>, id: nat, q: nat)
    requires Listed(gates, order) && id in gates
    ensures var c := On(gates, order, q);
            && On(gates - {id}, Erased(order, id), q) == Shrunk(c, id, q in gates[id].qubits)
            && id !in Shrunk(c, id, q in gates[id].qubits)
  {
    hide On, Erased;
    var c := On(gates, order, q);
    ErasedListed(gates, order, id);
    OnSame(gates, gates - {id}, Erased(order, id), q);
    OnErased(gates, order, id, q);
    OnIn(gates, order, q, id);
    OnIn(gates, Erased(order, id), q, id);
    if q !in gates[id].qubits {
      assert forall i :: 0 <= i < |c| ==> c[i] in c;
      ErasedAbsent(c, id);
    }
  }

  // ---------------------------------------------------------------- the graph as a whole

  /** Gate h follows gate g directly on some qubit. */
  ghost predicate Edge<Op>(G: Graph<Op>, g: nat, h: nat) {
    g in G.gates && g in G.succs && Some(h) in G.succs[g]
  }

  /** All gates, each once and after those it follows. */
  ghost predicate Topological<Op>(G: Graph<Op>, list: seq<nat>) {
    Listed(G.gates, list) && forall i, j :: 0 <= i < |list| && 0 <= j < |list| && Edge(G, list[i], list[j]) ==> i < j
  }

  /** An edge is a pair of neighbours on some qubit. */
  lemma {:induction false} EdgeOnQubit<Op>(G: Graph<Op>, order: seq<nat>, g: nat, h: nat) returns (q: nat, k: nat)
    requires Chained(G, order) && Edge(G, g, h)
    ensures q < |G.first| && k + 1 < |On(G.gates, order, q)| && On(G.gates, order, q)[k] == g && On(G.gates, order, q)[k + 1] == h
    ensures Uses(G, g, q) && Uses(G, h, q)
  {
    assert RowsOk(G, g);
    var pin :| 0 <= pin < |G.succs[g]| && G.succs[g][pin] == Some(h);
    q := G.gates[g].qubits[pin];
    PinOfAt(G.gates[g].qubits, pin);
    OnIn(G.gates, order, q, g);
    var c := On(G.gates, order, q);
    k :| 0 <= k < |c| && c[k] == g;
    assert LinksOk(G, q, c, k);
    assert k + 1 < |c| ==> LinksOk(G, q, c, k + 1);
  }

  /** Every edge leads forwards in the order of the circuit: the graph has no cycle. */
  lemma {:induction false} EdgesLeadForward<Op>(G: Graph<Op>, order: seq<nat>, g: nat, h: nat)
    requires Chained(G, order) && Edge(G, g, h)
    ensures g in order && h in order && IndexOf(order, g) < IndexOf(order, h)
  {
    var q, k := EdgeOnQubit(G, order, g, h);
    var a, b := OnOrder(G.gates, order, q, k, k + 1);
    assert a == IndexOf(order, g) && b == IndexOf(order, h);
  }

  /** On each qubit a topological list has the gates in the order of the chain. */
  lemma {:induction false} AlongChain<Op>(G: Graph<Op>, order: seq<nat>, list: seq<nat>, q: nat, i: nat, j: nat)
    requires Chained(G, order) && Topological(G, list) && q < |G.first| && i < j < |On(G.gates, order, q)|
    ensures On(G.gates, order, q)[i] in list && On(G.gates, order, q)[j] in list
    ensures IndexOf(list, On(G.gates, order, q)[i]) < IndexOf(list, On(G.gates, order, q)[j])
    decreases j
  {
    hide On;
    var c := On(G.gates, order, q);
    var g, h := c[j - 1], c[j];
    assert LinksOk(G, q, c, j - 1) && LinksOk(G, q, c, j);
    assert RowsOk(G, g);
    assert Succ(G, g, q) == Some(h);
    assert Edge(G, g, h);
    assert IndexOf(list, g) < IndexOf(list, h);
    if i < j - 1 {
      AlongChain(G, order, list, q, i, j - 1);
    }
  }

  /** Any topological list is the same circuit: on every qubit it has the gates of the chain, in order. */
  lemma {:induction false} ListKeepsChains<Op>(G: Graph<Op>, order: seq<nat>, list: seq<nat>, q: nat)
    requires Chained(G, order) && Topological(G, list) && q < |G.first|
    ensures On(G.gates, list, q) == On(G.gates, order, q)
  {
    hide Chained, SortedIn;
    var a, b := On(G.gates, list, q), On(G.gates, order, q);
    ListAlongItself(G.gates, list, q);
    ChainAlongList(G, order, list, q);
    forall g: nat
      ensures g in a <==> g in b
    {
      OnIn(G.gates, list, q, g);
      OnIn(G.gates, order, q, g);
      BothListAll(G, order, list, g);
    }
    SameSorted(a, b, list);
  }

  lemma BothListAll<Op>(G: Graph<Op>, order: seq<nat>, list: seq<nat>, g: nat)
    requires Chained(G, order) && Topological(G, list)
    ensures g in G.gates ==> g in order && g in list
  {
  }

  lemma {:induction false} ListAlongItself<Op>(gates: map<nat, Gate<Op>>, list: seq<nat>, q: nat)
    requires Distinct(list)
    ensures SortedIn(On(gates, list, q), list)
  {
    var a := On(gates, list, q);
    forall i | 0 <= i < |a|
      ensures a[i] in list
    {
      OnIn(gates, list, q, a[i]);
    }
    forall i, j | 0 <= i < j < |a|
      ensures IndexOf(list, a[i]) < IndexOf(list, a[j])
    {
      var x, y := OnOrder(gates, list, q, i, j);
      assert x == IndexOf(list, a[i]) && y == IndexOf(list, a[j]);
    }
  }

  lemma {:induction false} ChainAlongList<Op>(G: Graph<Op>, order: seq<nat>, list: seq<nat>, q: nat)
    requires Chained(G, order) && Topological(G, list) && q < |G.first|
    ensures SortedIn(On(G.gates, order, q), list)
  {
    var b := On(G.gates, order, q);
    forall i | 0 <= i < |b|
      ensures b[i] in list
    {
      OnIn(G.gates, order, q, b[i]);
    }
    forall i, j | 0 <= i < j < |b|
      ensures IndexOf(list, b[i]) < IndexOf(list, b[j])
    {
      AlongChain(G, order, list, q, i, j);
    }
  }

  ghost predicate SortedIn(a: seq<nat>, list: seq<nat>) {
    (forall i :: 0 <= i < |a| ==> a[i] in list) && forall i, j :: 0 <= i < j < |a| ==> IndexOf(list, a[i]) < IndexOf(list, a[j])
  }

  ghost predicate SameMembers(a: seq<nat>, b: seq<nat>) {
    forall g: nat :: g in a <==> g in b
  }

  lemma {:induction false} LastAgrees(a: seq<nat>, b: seq<nat>, list: seq<nat>)
    requires SameMembers(a, b) && SortedIn(a, list) && SortedIn(b, list) && a != []
    ensures b != [] && a[|a| - 1] == b[|b| - 1]
  {
    assert a[0] in b;
    var (m, k) := (|a| - 1, |b| - 1);
    assert a[m] in b && b[k] in a;
    var i :| 0 <= i < |b| && b[i] == a[m];
    var j :| 0 <= j < |a| && a[j] == b[k];
    assert IndexOf(list, a[m]) <= IndexOf(list, b[k]) <= IndexOf(list, a[m]);
  }

  lemma {:induction false} AllButLast(a: seq<nat>, list: seq<nat>)
    requires SortedIn(a, list) && a != []
    ensures SortedIn(a[..|a| - 1], list)
    ensures forall g: nat :: g in a[..|a| - 1] <==> g in a && g != a[|a| - 1]
  {
    var m := |a| - 1;
    assert a == a[..m] + [a[m]];
  }

  /** Lists of the same elements in the same order are equal. */
  lemma {:induction false} SameSorted(a: seq<nat>, b: seq<nat>, list: seq<nat>)
    requires SameMembers(a, b) && SortedIn(a, list) && SortedIn(b, list)
    ensures a == b
    decreases |a|
  {
    hide SortedIn;
    SomeMember(b);
    if a != [] {
      LastAgrees(a, b, list);
      AllButLast(a, list);
      AllButLast(b, list);
      var x, y := a[..|a| - 1], b[..|b| - 1];
      forall g: nat
        ensures g in x <==> g in y
      {
        assert g in a <==> g in b;
      }
      SameSorted(x, y, list);
      assert a == a[..|a| - 1] + [a[|a| - 1]] && b == b[..|b| - 1] + [b[|b| - 1]];
    }
  }

  // ---------------------------------------------------------------- depth-first listing

  datatype Frame = Frame(finished: bool, gate: nat)

  /** Some frame from i on is for gate h. */
  ghost predicate Waiting(stack: seq<Frame>, i: int, h: nat) {
    exists j :: 0 <= i <= j < |stack| && stack[j].gate == h
  }

  /** Gates listed come after all gates that follow them. */
  ghost predicate Postorder<Op>(G: Graph<Op>, listed: seq<nat>) {
    && Distinct(listed) && (forall g :: g in listed ==> g in G.gates)
    && forall k: nat, h: nat :: k < |listed| && Edge(G, listed[k], h) ==> h in listed[..k]
  }

  ghost predicate Forward<Op>(G: Graph<Op>, order: seq<nat>) {
    forall g: nat, h: nat :: Edge(G, g, h) ==> g in order && h in order && IndexOf(order, g) < IndexOf(order, h)
  }

  ghost predicate FramesIn(order: seq<nat>, stack: seq<Frame>) {
    forall i :: 0 <= i < |stack| ==> stack[i].gate in order
  }

  /** Visited gates are listed or have their second frame on the stack. */
  ghost predicate VisitedOk(order: seq<nat>, stack: seq<Frame>, visited: set<nat>, listed: seq<nat>) {
    && (forall g :: g in listed ==> g in visited)
    && (forall g :: g in visited ==> g in order && (g in listed || Frame(true, g) in stack))
    && (forall i :: 0 <= i < |stack| && stack[i].finished ==> stack[i].gate in visited && stack[i].gate !in listed)
  }

  /** Above a second frame there are only gates that come later in the circuit. */
  ghost predicate Rising(order: seq<nat>, stack: seq<Frame>)
    requires FramesIn(order, stack)
  {
    forall i, j :: 0 <= i < j < |stack| && stack[i].finished ==> IndexOf(order, stack[i].gate) < IndexOf(order, stack[j].gate)
  }

  /** What follows a gate with a second frame is listed or above it. */
  ghost predicate Covered<Op>(G: Graph<Op>, stack: seq<Frame>, listed: seq<nat>) {
    forall i: nat, h: nat :: i < |stack| && stack[i].finished && Edge(G, stack[i].gate, h) ==> h in listed || Waiting(stack, i + 1, h)
  }

  ghost predicate RootsIn<Op>(G: Graph<Op>, stack: seq<Frame>, listed: seq<nat>) {
    forall q: nat :: q < |G.first| && G.first[q].Some? ==> G.first[q].value in listed || Waiting(stack, 0, G.first[q].value)
  }

  ghost predicate StackInv<Op>(G: Graph<Op>, order: seq<nat>, stack: seq<Frame>, visited: set<nat>, listed: seq<nat>) {
    && Postorder(G, listed) && FramesIn(order, stack) && VisitedOk(order, stack, visited, listed) && Rising(order, stack)
    && Covered(G, stack, listed) && RootsIn(G, stack, listed)
  }

  /** The frames pushed for the successors that have not been visited. */
  function Pushes(succs: seq<Option<nat>>, visited: set<nat>): seq<Frame> {
    if succs == [] then []
    else
      var s := succs[|succs| - 1];
      Pushes(succs[..|succs| - 1], visited) + if s.Some? && s.value !in visited then [Frame(false, s.value)] else []
  }

  lemma {:induction false} PushesMembers(succs: seq<Option<nat>>, visited: set<nat>)
    ensures forall h: nat :: Frame(false, h) in Pushes(succs, visited) <==> Some(h) in succs && h !in visited
    ensures forall i :: 0 <= i < |Pushes(succs, visited)| ==> !Pushes(succs, visited)[i].finished
    decreases |succs|
  {
    if succs != [] {
      PushesMembers(succs[..|succs| - 1], visited);
      assert succs == succs[..|succs| - 1] + [succs[|succs| - 1]];
    }
  }

  lemma WaitingBelow(s: seq<Frame>, top: Frame, i: int, h: nat)
    requires Waiting(s + [top], i, h) && h != top.gate
    ensures Waiting(s, i, h)
  {
    var j :| 0 <= i <= j < |s + [top]| && (s + [top])[j].gate == h;
    assert s[j].gate == h;
  }

  /** The second frame of a gate is popped: the gate is listed. */
  lemma {:induction false} ListFinished<Op>(G: Graph<Op>, order: seq<nat>, s: seq<Frame>, g: nat, visited: set<nat>, listed: seq<nat>)
    requires StackInv(G, order, s + [Frame(true, g)], visited, listed) && forall h :: h in order ==> h in G.gates
    ensures StackInv(G, order, s, visited, listed + [g])
  {
    hide Edge, IndexOf, Waiting;
    var stack := s + [Frame(true, g)];
    assert stack[|s|] == Frame(true, g);
    assert forall i :: 0 <= i < |s| ==> stack[i] == s[i];
    ListedMore(G, s, g, listed);
    forall i: nat, h: nat | i < |s| && s[i].finished && Edge(G, s[i].gate, h)
      ensures h in listed + [g] || Waiting(s, i + 1, h)
    {
      assert stack[i].finished;
      if h !in listed && h != g {
        WaitingBelow(s, Frame(true, g), i + 1, h);
      }
    }
    forall q: nat | q < |G.first| && G.first[q].Some?
      ensures G.first[q].value in listed + [g] || Waiting(s, 0, G.first[q].value)
    {
      if G.first[q].value !in listed && G.first[q].value != g {
        WaitingBelow(s, Frame(true, g), 0, G.first[q].value);
      }
    }
    forall i | 0 <= i < |s| && s[i].finished
      ensures s[i].gate !in listed + [g]
    {
      assert stack[i].finished && IndexOf(order, stack[i].gate) < IndexOf(order, stack[|s|].gate);
    }
    forall h | h in visited
      ensures h in listed + [g] || Frame(true, h) in s
    {
      assert h !in listed ==> Frame(true, h) in stack;
    }
  }

  lemma {:induction false} ListedMore<Op>(G: Graph<Op>, s: seq<Frame>, g: nat, listed: seq<nat>)
    requires Postorder(G, listed) && Covered(G, s + [Frame(true, g)], listed) && g in G.gates && g !in listed
    ensures Postorder(G, listed + [g])
  {
    hide Edge;
    var stack, more := s + [Frame(true, g)], listed + [g];
    assert stack[|s|] == Frame(true, g);
    forall k: nat, h: nat | k < |more| && Edge(G, more[k], h)
      ensures h in more[..k]
    {
      if k < |listed| {
        assert more[..k] == listed[..k] && Edge(G, listed[k], h);
      } else {
        assert more[..k] == listed && !Waiting(stack, |s| + 1, h);
        assert stack[|s|].finished && Edge(G, stack[|s|].gate, h);
      }
    }
  }

  /** A gate that is not later than the one on top does not have its second frame below it. */
  lemma {:induction false} NotBelow(order: seq<nat>, s: seq<Frame>, top: Frame, h: nat)
    requires FramesIn(order, s + [top]) && Rising(order, s + [top]) && top.gate in order && h in order
    requires IndexOf(order, top.gate) <= IndexOf(order, h)
    ensures Frame(true, h) !in s
  {
    hide IndexOf;
    var stack := s + [top];
    assert stack[|s|] == top;
    forall k | 0 <= k < |s|
      ensures s[k] != Frame(true, h)
    {
      assert stack[k].finished ==> IndexOf(order, stack[k].gate) < IndexOf(order, stack[|s|].gate);
    }
  }

  /** A visited gate is popped: it is listed already. */
  lemma {:induction false} SkipVisited<Op>(G: Graph<Op>, order: seq<nat>, s: seq<Frame>, g: nat, visited: set<nat>, listed: seq<nat>)
    requires StackInv(G, order, s + [Frame(false, g)], visited, listed) && g in visited
    ensures StackInv(G, order, s, visited, listed)
  {
    hide Edge, IndexOf, Postorder;
    var stack := s + [Frame(false, g)];
    assert forall i :: 0 <= i < |s| ==> stack[i] == s[i];
    assert stack[|s|].gate in order;
    NotBelow(order, s, Frame(false, g), g);
    assert g in listed;
    forall h | h in visited
      ensures h in listed || Frame(true, h) in s
    {
      assert h !in listed ==> Frame(true, h) in stack;
    }
    forall i: nat, h: nat | i < |s| && s[i].finished && Edge(G, s[i].gate, h)
      ensures h in listed || Waiting(s, i + 1, h)
    {
      assert stack[i].finished;
      if h !in listed {
        WaitingBelow(s, Frame(false, g), i + 1, h);
      }
    }
    forall q: nat | q < |G.first| && G.first[q].Some?
      ensures G.first[q].value in listed || Waiting(s, 0, G.first[q].value)
    {
      if G.first[q].value !in listed {
        WaitingBelow(s, Frame(false, g), 0, G.first[q].value);
      }
    }
  }

  /** A new gate is visited: its second frame takes the place of its first, and what follows it goes on top. */
  function Visited(s: seq<Frame>, g: nat, pushes: seq<Frame>): seq<Frame> {
    s + [Frame(true, g)] + pushes
  }

  ghost predicate PushesOf<Op>(G: Graph<Op>, g: nat, visited: set<nat>, pushes: seq<Frame>) {
    && (forall j :: 0 <= j < |pushes| ==> !pushes[j].finished && Edge(G, g, pushes[j].gate))
    && forall h: nat :: Edge(G, g, h) && h !in visited + {g} ==> Frame(false, h) in pushes
  }

  lemma {:induction false} StillWaiting(s: seq<Frame>, g: nat, pushes: seq<Frame>, i: int, h: nat)
    requires Waiting(s + [Frame(false, g)], i, h)
    ensures Waiting(Visited(s, g, pushes), i, h)
  {
    var j :| 0 <= i <= j < |s + [Frame(false, g)]| && (s + [Frame(false, g)])[j].gate == h;
    assert Visited(s, g, pushes)[j].gate == h;
  }

  lemma {:induction false} RisingVisit<Op>(G: Graph<Op>, order: seq<nat>, s: seq<Frame>, g: nat, visited: set<nat>, pushes: seq<Frame>)
    requires FramesIn(order, s + [Frame(false, g)]) && Rising(order, s + [Frame(false, g)]) && Forward(G, order)
    requires PushesOf(G, g, visited, pushes)
    ensures FramesIn(order, Visited(s, g, pushes)) && Rising(order, Visited(s, g, pushes))
  {
    hide Edge, IndexOf;
    var stack, stack' := s + [Frame(false, g)], Visited(s, g, pushes);
    assert stack[|s|].gate == g;
    assert forall i :: 0 <= i < |s| ==> stack'[i] == s[i] == stack[i];
    assert stack'[|s|] == Frame(true, g);
    forall j | |s| < j < |stack'|
      ensures stack'[j] == pushes[j - |s| - 1] && !stack'[j].finished && stack'[j].gate in order
      ensures IndexOf(order, g) < IndexOf(order, stack'[j].gate)
    {
      assert Edge(G, g, pushes[j - |s| - 1].gate);
    }
    forall i, j | 0 <= i < j < |stack'| && stack'[i].finished
      ensures IndexOf(order, stack'[i].gate) < IndexOf(order, stack'[j].gate)
    {
      assert i < |s| ==> IndexOf(order, stack[i].gate) < IndexOf(order, stack[|s|].gate);
      assert j < |s| ==> IndexOf(order, stack[i].gate) < IndexOf(order, stack[j].gate);
    }
  }

  lemma {:induction false} VisitNew<Op>(G: Graph<Op>, order: seq<nat>, s: seq<Frame>, g: nat, visited: set<nat>, listed: seq<nat>,
                                        pushes: seq<Frame>)
    requires StackInv(G, order, s + [Frame(false, g)], visited, listed) && Forward(G, order) && g !in visited
    requires PushesOf(G, g, visited, pushes)
    ensures StackInv(G, order, Visited(s, g, pushes), visited + {g}, listed)
  {
    hide Edge, IndexOf, Postorder, Waiting, Rising, Visited, FramesIn;
    RisingVisit(G, order, s, g, visited, pushes);
    VisitedVisit(G, order, s, g, visited, listed, pushes);
    CoveredVisit(G, order, s, g, visited, listed, pushes);
    forall q: nat | q < |G.first| && G.first[q].Some?
      ensures G.first[q].value in listed || Waiting(Visited(s, g, pushes), 0, G.first[q].value)
    {
      if G.first[q].value !in listed {
        StillWaiting(s, g, pushes, 0, G.first[q].value);
      }
    }
  }

  lemma {:induction false} PushedUnfinished<Op>(G: Graph<Op>, s: seq<Frame>, g: nat, visited: set<nat>, pushes: seq<Frame>)
    requires PushesOf(G, g, visited, pushes)
    ensures forall i :: |s| < i < |Visited(s, g, pushes)| ==> !Visited(s, g, pushes)[i].finished
  {
    hide Edge;
    forall i | |s| < i < |Visited(s, g, pushes)|
      ensures !Visited(s, g, pushes)[i].finished
    {
      assert Visited(s, g, pushes)[i] == pushes[i - |s| - 1];
    }
  }

  lemma {:induction false} VisitedVisit<Op>(G: Graph<Op>, order: seq<nat>, s: seq<Frame>, g: nat, visited: set<nat>, listed: seq<nat>,
                                            pushes: seq<Frame>)
    requires VisitedOk(order, s + [Frame(false, g)], visited, listed) && g !in visited && FramesIn(order, s + [Frame(false, g)])
    requires PushesOf(G, g, visited, pushes)
    ensures VisitedOk(order, Visited(s, g, pushes), visited + {g}, listed)
  {
    hide Edge;
    var stack, stack' := s + [Frame(false, g)], Visited(s, g, pushes);
    assert stack[|s|].gate == g && stack'[|s|] == Frame(true, g);
    assert forall i :: 0 <= i < |s| ==> stack'[i] == stack[i];
    PushedUnfinished(G, s, g, visited, pushes);
    forall h | h in visited + {g}
      ensures h in order && (h in listed || Frame(true, h) in stack')
    {
      if h != g && h !in listed {
        var k :| 0 <= k < |stack| && stack[k] == Frame(true, h);
        assert stack'[k] == Frame(true, h);
      }
    }
    forall i | 0 <= i < |stack'| && stack'[i].finished
      ensures stack'[i].gate in visited + {g} && stack'[i].gate !in listed
    {
    }
  }

  lemma {:induction false} CoveredVisit<Op>(G: Graph<Op>, order: seq<nat>, s: seq<Frame>, g: nat, visited: set<nat>, listed: seq<nat>,
                                            pushes: seq<Frame>)
    requires StackInv(G, order, s + [Frame(false, g)], visited, listed) && Forward(G, order) && g !in visited
    requires PushesOf(G, g, visited, pushes)
    ensures Covered(G, Visited(s, g, pushes), listed)
  {
    hide Edge, IndexOf, Postorder, RootsIn;
    var stack, stack' := s + [Frame(false, g)], Visited(s, g, pushes);
    assert stack[|s|].gate == g && stack'[|s|] == Frame(true, g);
    assert forall i :: 0 <= i < |s| ==> stack'[i] == stack[i];
    PushedUnfinished(G, s, g, visited, pushes);
    forall i: nat, h: nat | i < |stack'| && stack'[i].finished && Edge(G, stack'[i].gate, h)
      ensures h in listed || Waiting(stack', i + 1, h)
    {
      if i < |s| {
        assert stack[i].finished;
        if h !in listed {
          StillWaiting(s, g, pushes, i + 1, h);
        }
      } else {
        NotBelow(order, s, Frame(false, g), h);
        if h in visited + {g} {
          assert h in listed || Frame(true, h) in stack;
        } else {
          var j :| 0 <= j < |pushes| && pushes[j] == Frame(false, h);
          assert stack'[|s| + 1 + j].gate == h;
        }
      }
    }
  }

  /** With an empty stack every gate is listed. */
  lemma {:induction false} AllListed<Op>(G: Graph<Op>, order: seq<nat>, visited: set<nat>, listed: seq<nat>, g: nat)
    requires Chained(G, order) && StackInv(G, order, [], visited, listed) && g in G.gates && g in order
    ensures g in listed
    decreases IndexOf(order, g)
  {
    assert RowsOk(G, g);
    var q := G.gates[g].qubits[0];
    var c := On(G.gates, order, q);
    OnIn(G.gates, order, q, g);
    var k: nat :| k < |c| && c[k] == g;
    if k == 0 {
      assert G.first[q] == Some(g);
      assert !Waiting([], 0, g);
    } else {
      assert LinksOk(G, q, c, k - 1) && LinksOk(G, q, c, k);
      assert RowsOk(G, c[k - 1]);
      assert Edge(G, c[k - 1], g);
      EdgesLeadForward(G, order, c[k - 1], g);
      AllListed(G, order, visited, listed, c[k - 1]);
      var i: nat :| i < |listed| && listed[i] == c[k - 1];
      assert g in listed[..i];
    }
  }

  // ---------------------------------------------------------------- gate times

  function TimeOf(times: map<nat, nat>, p: Option<nat>): nat {
    if p.Some? && p.value in times then times[p.value] else 0
  }

  /** The latest time of the predecessors on the first pins. */
  function LatestOf(times: map<nat, nat>, preds: seq<Option<nat>>): nat {
    if preds == [] then 0 else Max(LatestOf(times, preds[..|preds| - 1]), TimeOf(times, preds[|preds| - 1]))
  }

  lemma {:induction false} LatestIsMax(times: map<nat, nat>, preds: seq<Option<nat>>)
    ensures forall p :: p in preds ==> TimeOf(times, p) <= LatestOf(times, preds)
    ensures LatestOf(times, preds) > 0 ==> exists p: nat :: Some(p) in preds && p in times && times[p] == LatestOf(times, preds)
    decreases |preds|
  {
    if preds != [] {
      var last := preds[|preds| - 1];
      LatestIsMax(times, preds[..|preds| - 1]);
      assert preds == preds[..|preds| - 1] + [last];
      if LatestOf(times, preds) == TimeOf(times, last) > 0 {
        assert Some(last.value) in preds;
      }
    }
  }

  /** The time of a gate is one more than the latest of its predecessors. */
  ghost predicate Timed<Op>(G: Graph<Op>, times: map<nat, nat>, g: nat) {
    g in times && g in G.preds && times[g] == 1 + LatestOf(times, G.preds[g])
  }

  /** Gates that follow each other directly. */
  ghost predicate IsPath<Op>(G: Graph<Op>, path: seq<nat>) {
    path != [] && (forall i :: 0 <= i < |path| ==> path[i] in G.gates) && forall i :: 0 <= i < |path| - 1 ==> EdgeAt(G, path, i)
  }

  ghost predicate EdgeAt<Op>(G: Graph<Op>, path: seq<nat>, i: int)
    requires 0 <= i < |path| - 1
  {
    Edge(G, path[i], path[i + 1])
  }

  lemma {:induction false} EdgeBack<Op>(G: Graph<Op>, order: seq<nat>, g: nat, h: nat)
    requires Chained(G, order) && h in G.gates
    ensures h in G.preds && (Edge(G, g, h) <==> Some(g) in G.preds[h])
  {
    assert RowsOk(G, h);
    if Edge(G, g, h) {
      var q, k := EdgeOnQubit(G, order, g, h);
      var c := On(G.gates, order, q);
      assert LinksOk(G, q, c, k + 1);
    }
    if Some(g) in G.preds[h] {
      var pin :| 0 <= pin < |G.preds[h]| && G.preds[h][pin] == Some(g);
      var q := G.gates[h].qubits[pin];
      PinOfAt(G.gates[h].qubits, pin);
      OnIn(G.gates, order, q, h);
      var c := On(G.gates, order, q);
      var k: nat :| k < |c| && c[k] == h;
      assert LinksOk(G, q, c, k) && LinksOk(G, q, c, k - 1);
      assert RowsOk(G, g);
    }
  }

  /** No path that ends with a gate is longer than the gate's time. */
  lemma {:induction false} PathBound<Op>(G: Graph<Op>, order: seq<nat>, times: map<nat, nat>, path: seq<nat>)
    requires Chained(G, order) && (forall g :: g in G.gates ==> Timed(G, times, g)) && IsPath(G, path)
    ensures var g := path[|path| - 1]; g in times && |path| <= times[g]
    decreases |path|
  {
    hide Chained, Edge, LatestOf;
    var m := |path| - 1;
    var g := path[m];
    assert Timed(G, times, g);
    if m > 0 {
      assert EdgeAt(G, path, m - 1);
      var before := path[..m];
      forall i | 0 <= i < |before| - 1
        ensures EdgeAt(G, before, i)
      {
        assert EdgeAt(G, path, i);
      }
      PathBound(G, order, times, before);
      EdgeBack(G, order, path[m - 1], g);
      LatestIsMax(times, G.preds[g]);
    }
  }

  /** Some path that ends with the gate is as long as its time. */
  lemma {:induction false} LongestPath<Op>(G: Graph<Op>, order: seq<nat>, times: map<nat, nat>, g: nat) returns (path: seq<nat>)
    requires Chained(G, order) && (forall h :: h in G.gates ==> Timed(G, times, h)) && g in G.gates && g in order
    ensures IsPath(G, path) && path[|path| - 1] == g && g in times && |path| == times[g]
    decreases IndexOf(order, g)
  {
    hide Chained, Edge, LatestOf;
    assert Timed(G, times, g);
    LatestIsMax(times, G.preds[g]);
    if times[g] == 1 {
      path := [g];
    } else {
      var p: nat :| Some(p) in G.preds[g] && p in times && times[p] == LatestOf(times, G.preds[g]);
      EdgeBack(G, order, p, g);
      EdgesLeadForward(G, order, p, g);
      InOrderInGates(G, order, p);
      var before := LongestPath(G, order, times, p);
      path := before + [g];
      forall i | 0 <= i < |path| - 1
        ensures EdgeAt(G, path, i)
      {
        assert i < |before| - 1 ==> EdgeAt(G, before, i);
      }
    }
  }

  lemma InOrderInGates<Op>(G: Graph<Op>, order: seq<nat>, g: nat)
    requires Chained(G, order)
    ensures g in order <==> g in G.gates
  {
  }
}
