/** Operators that turn one Pauli rotation into a Z rotation, and the circuit built from them. */
module Diagonalization {
  import opened Paulis
  import opened Operators
  import opened Tableaux
  import opened Meaning
  import opened MeaningLaws
  import opened Rotations

  // ---------------------------------------------------------------- the operators

  /** p with the types of the first k qubits turned into Z where they are not I. */
  function LocalZ(p: Pauli, k: nat): (r: Pauli)
    requires p.Sized(|p.z|) && k <= |p.z|
    ensures r.Sized(|p.z|)
  {
    var n := |p.z|;
    Pauli(seq(n, i requires 0 <= i < n => p.z[i] || (i < k && p.x[i])), seq(n, i requires 0 <= i < n => i >= k && p.x[i]), p.neg)
  }

  /** Z on the given qubits. */
  function ZOn(n: nat, qs: seq<nat>): (r: Pauli)
    ensures r.Sized(n)
  {
    Pauli(seq(n, i => i in qs), Zeros(n), false)
  }

  function LocalOps(p: Pauli, k: nat): seq<Op>
    requires p.Sized(|p.z|) && k < |p.z|
  {
    match p.Type(k)
    case X => [Op(OpH, k, 0)]
    case Y => [Op(OpV, k, 0)]
    case _ => []
  }

  lemma LocalStep(p: Pauli, k: nat)
    requires p.Sized(|p.z|) && k < |p.z|
    ensures ApplyAll(LocalOps(p, k), LocalZ(p, k)) == LocalZ(p, k + 1)
    ensures WellFormedAll(LocalOps(p, k), |p.z|)
  {
    hide Run, ApplyAll;
    var l, r := LocalZ(p, k), LocalZ(p, k + 1);
    match p.Type(k) {
      case X =>
        ApplyAllOne(Op(OpH, k, 0), l);
        Run1(H(k), l);
        var c := Conj(H(k), l);
        assert c.z == r.z && c.x == r.x;
      case Y =>
        ApplyAllOne(Op(OpV, k, 0), l);
        VBits(k, l);
        var c := l.x[k := l.x[k] != l.z[k]];
        assert c == r.x && l.z == r.z;
      case _ =>
        ApplyNothing(l);
        assert l.z == r.z && l.x == r.x;
    }
  }

  lemma ApplyNothing(p: Pauli)
    requires p.Sized(|p.z|)
    ensures ApplyAll([], p) == p
  {
  }

  lemma ChainStep(n: nat, qs: seq<nat>, k: nat)
    requires k + 1 < |qs| && (forall i :: 0 <= i < |qs| ==> qs[i] < n) && (forall i, j :: 0 <= i < j < |qs| ==> qs[i] < qs[j])
    ensures ApplyAll([Op(OpCX, qs[k], qs[k + 1])], ZOn(n, qs[k..])) == ZOn(n, qs[k + 1..])
  {
    hide Run, ApplyAll;
    var (c, t) := (qs[k], qs[k + 1]);
    var l, r := ZOn(n, qs[k..]), ZOn(n, qs[k + 1..]);
    ApplyAllOne(Op(OpCX, c, t), l);
    Run1(CX(c, t), l);
    assert qs[k..] == [c] + qs[k + 1..];
    assert c !in qs[k + 1..];
    assert t == qs[k + 1..][0];
    var m := Conj(CX(c, t), l);
    assert m.z == r.z && m.x == r.x;
  }

  /** Operators that take p to +Z on qubit q. */
  method ExtractOperators(p: Pauli) returns (ops: seq<Op>, q: nat)
    requires p.Sized(|p.z|) && !p.neg && !p.IsIdentity()
    ensures WellFormedAll(ops, |p.z|) && q < |p.z|
    ensures ApplyAll(ops, p) == ZAt(|p.z|, q)
  {
    hide ApplyAll;
    var n := |p.z|;
    var qs: seq<nat> := [];
    ops := [];
    ApplyNothing(p);
    assert LocalZ(p, 0) == p;
    for i := 0 to n
      invariant WellFormedAll(ops, n) && ApplyAll(ops, p) == LocalZ(p, i)
      invariant forall j :: 0 <= j < |qs| ==> qs[j] < i
      invariant forall j, k :: 0 <= j < k < |qs| ==> qs[j] < qs[k]
      invariant forall j: nat :: j < i ==> (j in qs <==> p.z[j] || p.x[j])
    {
      LocalStep(p, i);
      ApplyAllAppend(ops, LocalOps(p, i), p);
      ops := ops + LocalOps(p, i);
      if p.Type(i) != I {
        qs := qs + [i];
      }
    }
    var local := LocalZ(p, n);
    assert local.z == ZOn(n, qs).z && local.x == Zeros(n);
    assert qs != [];
    ops := AddChain(p, ops, qs);
    q := qs[|qs| - 1];
    assert qs[|qs| - 1..] == [q];
    assert ZOn(n, [q]).z == Unit(n, q);
  }

  method AddChain(p: Pauli, local: seq<Op>, qs: seq<nat>) returns (ops: seq<Op>)
    requires p.Sized(|p.z|) && WellFormedAll(local, |p.z|) && qs != []
    requires (forall i :: 0 <= i < |qs| ==> qs[i] < |p.z|) && (forall i, j :: 0 <= i < j < |qs| ==> qs[i] < qs[j])
    requires ApplyAll(local, p) == ZOn(|p.z|, qs)
    ensures WellFormedAll(ops, |p.z|) && ApplyAll(ops, p) == ZOn(|p.z|, qs[|qs| - 1..])
  {
    hide ApplyAll;
    ops := local;
    var k := 0;
    assert qs[0..] == qs;
    while k + 1 < |qs|
      invariant 0 <= k < |qs| && WellFormedAll(ops, |p.z|)
      invariant ApplyAll(ops, p) == ZOn(|p.z|, qs[k..])
    {
      var op := Op(OpCX, qs[k], qs[k + 1]);
      ChainStep(|p.z|, qs, k);
      ApplyAllAppend(ops, [op], p);
      ops := ops + [op];
      k := k + 1;
    }
  }

  // ---------------------------------------------------------------- meaning

  /** A phase gate between the operators and their adjoints is the rotation itself. */
  lemma DiagonalizedRotation(n: nat, p: Pauli, a: Phase, ops: seq<Op>, q: nat)
    requires p.Sized(n) && WellFormedAll(ops, n) && q < n && ApplyAll(ops, p) == ZAt(n, q)
    ensures Same(n, [Rotate(p, a)], Gates(ops) + [Rotate(ZAt(n, q), a)] + Gates(AdjointAll(ops)))
  {
    hide Same, ApplyAll;
    var i, z := Rotate(p, a), Rotate(ZAt(n, q), a);
    var gs, ad := Gates(ops), Gates(AdjointAll(ops));
    AdjointAllWellFormed(ops, n);
    GatesOk(ops, n);
    GatesOk(AdjointAll(ops), n);
    TwoOk(i, z, n);
    StringCancels(n, ops);
    SameSym(n, gs + ad, []);
    SameBefore(n, [i], [], gs + ad);
    assert [i] + [] == [i];
    PassStringRaw(n, p, a, ops);
    SameAfter(n, [i] + gs, gs + [z], ad);
    assert [i] + (gs + ad) == [i] + gs + ad;
    SameTrans(n, [i], [i] + gs + ad, gs + [z] + ad);
  }

  /** Operators and phase gates on single qubits only. */
  ghost predicate IsCircuit(w: seq<Item>, n: nat) {
    forall i :: 0 <= i < |w| ==> match w[i]
                                 case Do(op) => WellFormed(op, n)
                                 case Rotate(p, _) => exists q: nat :: q < n && p == ZAt(n, q)
                                 case _ => false
  }

  lemma CircuitPieces(ops: seq<Op>, n: nat, q: nat, a: Phase)
    requires WellFormedAll(ops, n) && q < n
    ensures IsCircuit(Gates(ops) + [Rotate(ZAt(n, q), a)] + Gates(AdjointAll(ops)), n)
  {
  }

  ghost predicate NoIdentities(rs: seq<Rotation>) {
    forall i :: 0 <= i < |rs| ==> !rs[i].p.IsIdentity()
  }

  /** Operators that take the product to Z, the phase gate, and their adjoints. */
  ghost predicate Sandwich(r: Rotation, n: nat, piece: seq<Item>) {
    r.p.Sized(|r.p.z|) && exists ops, q :: SandwichBy(r, n, piece, ops, q)
  }

  ghost predicate SandwichBy(r: Rotation, n: nat, piece: seq<Item>, ops: seq<Op>, q: nat)
    requires r.p.Sized(|r.p.z|)
  {
    && WellFormedAll(ops, n) && q < n && ApplyAll(ops, r.p) == ZAt(n, q)
    && piece == Gates(ops) + [Rotate(ZAt(n, q), r.phase)] + Gates(AdjointAll(ops))
  }

  ghost predicate OneByOne(rs: seq<Rotation>, n: nat, circuit: seq<Item>)
    decreases |rs|
  {
    if rs == [] then circuit == []
    else exists before, piece :: OneByOne(rs[..|rs| - 1], n, before) && Sandwich(rs[|rs| - 1], n, piece) && circuit == before + piece
  }

  lemma OneByOneMore(rs: seq<Rotation>, i: nat, n: nat, before: seq<Item>, piece: seq<Item>)
    requires i < |rs| && OneByOne(rs[..i], n, before) && Sandwich(rs[i], n, piece)
    ensures OneByOne(rs[..i + 1], n, before + piece)
  {
    hide Sandwich;
    var more := rs[..i + 1];
    assert more[..|more| - 1] == rs[..i] && more[|more| - 1] == rs[i];
  }

  /** One rotation after the other, each diagonalised on its own. */
  method SynthesizeNaively(rs: seq<Rotation>, n: nat) returns (circuit: seq<Item>)
    requires ProperList(rs, n) && NoIdentities(rs)
    ensures IsCircuit(circuit, n) && Same(n, Items(rs), circuit) && OneByOne(rs, n, circuit)
  {
    hide Same, IsCircuit, ApplyAll, OneByOne;
    circuit := [];
    assert OneByOne([], n, []) by { NoRotation(n); }
    var i := 0;
    assert Items(rs[..0]) == [];
    SameRefl(n, []);
    EmptyCircuit(n);
    while i < |rs|
      invariant i <= |rs| && IsCircuit(circuit, n) && Same(n, Items(rs[..i]), circuit) && OneByOne(rs[..i], n, circuit)
    {
      var ops, q := ExtractOperators(rs[i].p);
      var piece := Gates(ops) + [Rotate(ZAt(n, q), rs[i].phase)] + Gates(AdjointAll(ops));
      DiagonalizedRotation(n, rs[i].p, rs[i].phase, ops, q);
      CircuitPieces(ops, n, q, rs[i].phase);
      OneMorePiece(n, rs, i, circuit, piece);
      assert SandwichBy(rs[i], n, piece, ops, q);
      OneByOneMore(rs, i, n, circuit, piece);
      circuit := circuit + piece;
      i := i + 1;
    }
    assert rs[..i] == rs;
  }

  lemma NoRotation(n: nat)
    ensures OneByOne([], n, [])
  {
  }

  lemma EmptyCircuit(n: nat)
    ensures IsCircuit([], n)
  {
  }

  lemma OneMorePiece(n: nat, rs: seq<Rotation>, i: nat, circuit: seq<Item>, piece: seq<Item>)
    requires ProperList(rs, n) && i < |rs| && Same(n, Items(rs[..i]), circuit) && Same(n, [Item1(rs[i])], piece)
    requires IsCircuit(circuit, n) && IsCircuit(piece, n)
    ensures Same(n, Items(rs[..i + 1]), circuit + piece) && IsCircuit(circuit + piece, n)
  {
    hide Same;
    assert rs[..i + 1] == rs[..i] + [rs[i]];
    ItemsAppend(rs[..i], [rs[i]]);
    assert Items([rs[i]]) == [Item1(rs[i])];
    ItemsOk([rs[i]], n);
    SameAfter(n, Items(rs[..i]), circuit, [Item1(rs[i])]);
    SameOk(n, Items(rs[..i]), circuit);
    SameBefore(n, circuit, [Item1(rs[i])], piece);
    SameTrans(n, Items(rs[..i + 1]), circuit + [Item1(rs[i])], circuit + piece);
  }
}
