/** Circuits of CX and phase gates replayed on basis states: where the bits go and what phase is picked up. */
module Replaying {
  import opened Paulis
  import opened Operators
  import opened Tableaux
  import opened Meaning
  import opened PhaseFunctions

  /** The bits after a CX. */
  function Moved(op: Op, bits: seq<bool>): (r: seq<bool>)
    ensures |r| == |bits|
  {
    if op.kind.OpCX? && op.q0 < |bits| && op.q1 < |bits| then bits[op.q1 := bits[op.q1] != bits[op.q0]] else bits
  }

  function MovedBy(i: Item, bits: seq<bool>): (r: seq<bool>)
    ensures |r| == |bits|
  {
    if i.Do? then Moved(i.op, bits) else bits
  }

  /** A rotation about a product of Z adds its phase when the parity of the selected bits is odd. */
  function PickedUp(i: Item, bits: seq<bool>): Phase {
    if i.Rotate? && |i.p.z| == |bits| && Parity(i.p.z, bits) then i.phase else 0.0
  }

  function BitsAfter(w: seq<Item>, bits: seq<bool>): (r: seq<bool>)
    ensures |r| == |bits|
  {
    if w == [] then bits else MovedBy(w[|w| - 1], BitsAfter(w[..|w| - 1], bits))
  }

  function PhaseAfter(w: seq<Item>, bits: seq<bool>): Phase {
    if w == [] then 0.0
    else PhaseAfter(w[..|w| - 1], bits) + PickedUp(w[|w| - 1], BitsAfter(w[..|w| - 1], bits))
  }

  /** Nothing but CX gates and phase gates on single qubits. */
  ghost predicate OnBasis(w: seq<Item>, n: nat) {
    forall i :: 0 <= i < |w| ==> BasisItem(w[i], n)
  }

  ghost predicate BasisItem(i: Item, n: nat) {
    || (i.Do? && i.op.kind.OpCX? && WellFormed(i.op, n))
    || (i.Rotate? && exists q: nat :: q < n && i.p == ZAt(n, q))
  }

  lemma OneMore(w: seq<Item>, i: Item, bits: seq<bool>)
    ensures BitsAfter(w + [i], bits) == MovedBy(i, BitsAfter(w, bits))
    ensures PhaseAfter(w + [i], bits) == PhaseAfter(w, bits) + PickedUp(i, BitsAfter(w, bits))
  {
    assert (w + [i])[..|w|] == w;
  }

  /** Gates after a circuit move the bits on and add no phase. */
  lemma {:induction false} GatesAfter(w: seq<Item>, ops: seq<Op>, bits: seq<bool>)
    ensures BitsAfter(w + Gates(ops), bits) == BitsAfter(Gates(ops), BitsAfter(w, bits))
    ensures PhaseAfter(w + Gates(ops), bits) == PhaseAfter(w, bits)
    decreases |ops|
  {
    hide Moved, Parity;
    if ops == [] {
      assert w + Gates(ops) == w;
    } else {
      var m := |ops| - 1;
      assert Gates(ops) == Gates(ops[..m]) + [Do(ops[m])];
      assert w + Gates(ops) == (w + Gates(ops[..m])) + [Do(ops[m])];
      GatesAfter(w, ops[..m], bits);
      OneMore(w + Gates(ops[..m]), Do(ops[m]), bits);
      OneMore(Gates(ops[..m]), Do(ops[m]), BitsAfter(w, bits));
    }
  }

  lemma UnitParity(q: nat, bits: seq<bool>)
    requires q < |bits|
    ensures Parity(Unit(|bits|, q), bits) == bits[q]
  {
    ParityOfUnit(bits, q, |bits|);
    assert Unit(|bits|, q)[..|bits|] == Unit(|bits|, q) && bits[..|bits|] == bits;
  }

  lemma {:induction false} ParitySwap(a: seq<bool>, b: seq<bool>)
    requires |a| == |b|
    ensures Parity(a, b) == Parity(b, a)
  {
    if a != [] {
      ParitySwap(a[..|a| - 1], b[..|b| - 1]);
    }
  }

  /** A CX changes selection and bits so that the parity stays. */
  lemma ParityKept(c: nat, t: nat, p: Pauli, bits: seq<bool>)
    requires p.Sized(|bits|) && c < |bits| && t < |bits| && c != t
    ensures Parity(Conj(CX(c, t), p).z, bits[t := bits[t] != bits[c]]) == Parity(p.z, bits)
  {
    var n := |bits|;
    var u, v, z := Unit(n, c), Unit(n, t), p.z;
    var z' := if z[t] then Xor(z, u) else z;
    var bits' := if bits[c] then Xor(bits, v) else bits;
    assert Conj(CX(c, t), p).z == z' && bits[t := bits[t] != bits[c]] == bits';
    hide Parity;
    ParityXorLeft(z, u, bits');
    ParityOfXor(z, bits, v);
    ParityOfXor(u, bits, v);
    ParitySwap(z, v);
    UnitParity(c, bits);
    UnitParity(t, z);
    UnitParity(c, v);
  }

  /** CX gates take a selection along with the bits. */
  lemma {:induction false} ParityAlong(ks: seq<Op>, p: Pauli, bits: seq<bool>)
    requires p.Sized(|bits|) && CXOnly(ks, |bits|)
    ensures ApplyAll(ks, p).Sized(|bits|) && Parity(ApplyAll(ks, p).z, BitsAfter(Gates(ks), bits)) == Parity(p.z, bits)
    decreases |ks|
  {
    hide Parity, Conj;
    if ks == [] {
      assert Gates(ks) == [];
      AppliedNone(p);
    } else {
      hide ApplyAll;
      var m := |ks| - 1;
      var before, op := ks[..m], ks[m];
      assert ks == before + [op] && CXOnly(before, |bits|);
      ParityAlong(before, p, bits);
      assert Gates(ks) == Gates(before) + [Do(op)];
      OneMore(Gates(before), Do(op), bits);
      ApplyAllAppend(before, [op], p);
      var q := ApplyAll(before, p);
      ApplyAllOne(op, q);
      Run1(CX(op.q0, op.q1), q);
      ConjSized(CX(op.q0, op.q1), q, |bits|);
      ParityKept(op.q0, op.q1, q, BitsAfter(Gates(before), bits));
    }
  }

  lemma AppliedNone(p: Pauli)
    requires p.Sized(|p.z|)
    ensures ApplyAll([], p) == p
  {
  }

  /** CX gates that have the tableau of the adjoint string bring every bit back. */
  lemma BitsComeBack(ks: seq<Op>, us: seq<Op>, bits: seq<bool>)
    requires CXOnly(ks, |bits|) && CXOnly(us, |bits|) && WellFormedAll(AdjointAll(ks), |bits|)
    requires TableauOf(us, |bits|) == TableauOf(AdjointAll(ks), |bits|)
    ensures BitsAfter(Gates(us), BitsAfter(Gates(ks), bits)) == bits
  {
    hide Parity, BitsAfter, ApplyAll, TableauOf;
    var n, after := |bits|, BitsAfter(Gates(us), BitsAfter(Gates(ks), bits));
    forall q: nat | q < n
      ensures after[q] == bits[q]
    {
      var z := ZAt(n, q);
      ParityAlong(ks, z, bits);
      ParityAlong(us, ApplyAll(ks, z), BitsAfter(Gates(ks), bits));
      EqualTableauxActEqually(us, AdjointAll(ks), ApplyAll(ks, z));
      AdjointAllUndoes(ks, z);
      UnitParity(q, bits);
      UnitParity(q, after);
    }
    assert after == bits;
  }
}
