/** The twelve Clifford operators, the gate chains that define them, and adjoint strings. */
module Operators {
  import opened Paulis

  datatype OpKind = OpH | OpS | OpCX | OpSdg | OpV | OpVdg | OpX | OpY | OpZ | OpCZ | OpSwap | OpECR

  /** q1 is unused by the one-qubit kinds. */
  datatype Op = Op(kind: OpKind, q0: nat, q1: nat)

  predicate TwoQubit(k: OpKind) {
    k.OpCX? || k.OpCZ? || k.OpSwap? || k.OpECR?
  }

  /** The qubits of the operator exist and differ. */
  predicate WellFormed(op: Op, n: nat) {
    op.q0 < n && (TwoQubit(op.kind) ==> op.q1 < n && op.q0 != op.q1)
  }

  predicate WellFormedAll(ops: seq<Op>, n: nat) {
    forall i :: 0 <= i < |ops| ==> WellFormed(ops[i], n)
  }

  /** One CX from each of the qubits in turn, all onto the same target. */
  ghost predicate CXOnto(ops: seq<Op>, ctrls: seq<nat>, targ: nat) {
    |ops| == |ctrls| && forall i :: 0 <= i < |ops| ==> ops[i] == Op(OpCX, ctrls[i], targ)
  }

  /** One CX onto each of the qubits in turn, all from the same control. */
  ghost predicate CXFrom(ops: seq<Op>, ctrl: nat, targs: seq<nat>) {
    |ops| == |targs| && forall i :: 0 <= i < |ops| ==> ops[i] == Op(OpCX, ctrl, targs[i])
  }

  /** One CX from each of the qubits onto the one after it. */
  ghost predicate CXAlong(ops: seq<Op>, qs: seq<nat>) {
    |qs| == |ops| + 1 && forall i :: 0 <= i < |ops| ==> ops[i] == Op(OpCX, qs[i], qs[i + 1])
  }

  /** One CX onto each of the qubits from the one before it, the last qubit first. */
  ghost predicate CXBackAlong(ops: seq<Op>, qs: seq<nat>) {
    |qs| == |ops| + 1 && forall i :: 0 <= i < |ops| ==> ops[i] == Op(OpCX, qs[|ops| - 1 - i], qs[|ops| - i])
  }

  /** The chain of H, S and CX that an operator stands for, in the order applied. */
  function Expand(op: Op): seq<Gate> {
    var (a, b) := (op.q0, op.q1);
    match op.kind
    case OpH => [H(a)]
    case OpS => [S(a)]
    case OpCX => [CX(a, b)]
    case OpSdg => [S(a), S(a), S(a)]
    case OpV => [H(a), S(a), H(a)]
    case OpVdg => [H(a), S(a), S(a), S(a), H(a)]
    case OpX => [H(a), S(a), S(a), H(a)]
    case OpY => [H(a), S(a), S(a), H(a), S(a), S(a)]
    case OpZ => [S(a), S(a)]
    case OpCZ => [H(b), CX(a, b), H(b)]
    case OpSwap => [CX(a, b), CX(b, a), CX(a, b)]
    case OpECR => [CX(a, b), S(a), H(a), S(a), S(a), H(a), H(b), S(b), H(b)]
  }

  function ExpandAll(ops: seq<Op>): seq<Gate> {
    if ops == [] then [] else Expand(ops[0]) + ExpandAll(ops[1..])
  }

  ghost predicate ProperAll(gs: seq<Gate>, n: nat) {
    forall i :: 0 <= i < |gs| ==> Proper(gs[i], n)
  }

  /** Conjugation by a gate string, first gate first. */
  function Run(gs: seq<Gate>, p: Pauli): (r: Pauli)
    requires p.Sized(|p.z|)
    ensures r.Sized(|p.z|)
  {
    if gs == [] then p else Run(gs[1..], Conj(gs[0], p))
  }

  function Apply(op: Op, p: Pauli): (r: Pauli)
    requires p.Sized(|p.z|)
    ensures r.Sized(|p.z|)
  {
    Run(Expand(op), p)
  }

  function ApplyAll(ops: seq<Op>, p: Pauli): (r: Pauli)
    requires p.Sized(|p.z|)
    ensures r.Sized(|p.z|)
  {
    if ops == [] then p else ApplyAll(ops[1..], Apply(ops[0], p))
  }

  function AdjointKind(k: OpKind): OpKind {
    match k
    case OpS => OpSdg
    case OpSdg => OpS
    case OpV => OpVdg
    case OpVdg => OpV
    case _ => k
  }

  function Adjoint(op: Op): Op {
    op.(kind := AdjointKind(op.kind))
  }

  ghost predicate CXOnly(ops: seq<Op>, n: nat) {
    forall i :: 0 <= i < |ops| ==> ops[i].kind == OpCX && WellFormed(ops[i], n)
  }

  function AdjointAll(ops: seq<Op>): (r: seq<Op>)
    ensures |r| == |ops| && forall i :: 0 <= i < |ops| ==> r[i] == Adjoint(ops[|ops| - 1 - i])
  {
    seq(|ops|, i requires 0 <= i < |ops| => Adjoint(ops[|ops| - 1 - i]))
  }

  // ---------------------------------------------------------------- strings

  lemma {:induction false} RunAppend(gs: seq<Gate>, hs: seq<Gate>, p: Pauli)
    requires p.Sized(|p.z|)
    ensures Run(gs + hs, p) == Run(hs, Run(gs, p))
  {
    if gs == [] {
      assert gs + hs == hs;
    } else {
      assert (gs + hs)[1..] == gs[1..] + hs;
      RunAppend(gs[1..], hs, Conj(gs[0], p));
    }
  }

  lemma {:induction false} ApplyAllAppend(ops: seq<Op>, more: seq<Op>, p: Pauli)
    requires p.Sized(|p.z|)
    ensures ApplyAll(ops + more, p) == ApplyAll(more, ApplyAll(ops, p))
  {
    if ops == [] {
      assert ops + more == more;
    } else {
      assert (ops + more)[1..] == ops[1..] + more;
      ApplyAllAppend(ops[1..], more, Apply(ops[0], p));
    }
  }

  lemma {:induction false} ApplyAllIsRun(ops: seq<Op>, p: Pauli)
    requires p.Sized(|p.z|)
    ensures ApplyAll(ops, p) == Run(ExpandAll(ops), p)
  {
    if ops != [] {
      ApplyAllIsRun(ops[1..], Apply(ops[0], p));
      RunAppend(Expand(ops[0]), ExpandAll(ops[1..]), p);
    }
  }

  lemma ExpandProper(op: Op, n: nat)
    requires WellFormed(op, n)
    ensures ProperAll(Expand(op), n)
  {
  }

  lemma {:induction false} ExpandAllProper(ops: seq<Op>, n: nat)
    requires WellFormedAll(ops, n)
    ensures ProperAll(ExpandAll(ops), n)
  {
    if ops != [] {
      ExpandProper(ops[0], n);
      ExpandAllProper(ops[1..], n);
    }
  }

  lemma {:induction false} RunMul(gs: seq<Gate>, a: Pauli, b: Pauli)
    requires a.Sized(|a.z|) && b.Sized(|a.z|) && ProperAll(gs, |a.z|)
    ensures Run(gs, Mul(a, b)) == Mul(Run(gs, a), Run(gs, b))
  {
    if gs != [] {
      hide Mul, Conj;
      ConjMul(gs[0], a, b);
      ConjSized(gs[0], a, |a.z|);
      ConjSized(gs[0], b, |a.z|);
      RunMul(gs[1..], Conj(gs[0], a), Conj(gs[0], b));
    }
  }

  lemma {:induction false} RunCommute(gs: seq<Gate>, a: Pauli, b: Pauli)
    requires a.Sized(|a.z|) && b.Sized(|a.z|) && ProperAll(gs, |a.z|)
    ensures Commute(Run(gs, a), Run(gs, b)) == Commute(a, b)
  {
    if gs != [] {
      ConjCommute(gs[0], a, b);
      RunCommute(gs[1..], Conj(gs[0], a), Conj(gs[0], b));
    }
  }

  lemma {:induction false} RunNegate(gs: seq<Gate>, p: Pauli)
    requires p.Sized(|p.z|)
    ensures Run(gs, p.Negate()) == Run(gs, p).Negate()
  {
    if gs != [] {
      assert Conj(gs[0], p.Negate()) == Conj(gs[0], p).Negate();
      RunNegate(gs[1..], Conj(gs[0], p));
    }
  }

  lemma ApplyAllCommute(ops: seq<Op>, a: Pauli, b: Pauli)
    requires a.Sized(|a.z|) && b.Sized(|a.z|) && WellFormedAll(ops, |a.z|)
    ensures Commute(ApplyAll(ops, a), ApplyAll(ops, b)) == Commute(a, b)
  {
    ExpandAllProper(ops, |a.z|);
    ApplyAllIsRun(ops, a);
    ApplyAllIsRun(ops, b);
    RunCommute(ExpandAll(ops), a, b);
  }

  lemma ApplyAllNegate(ops: seq<Op>, p: Pauli)
    requires p.Sized(|p.z|)
    ensures ApplyAll(ops, p.Negate()) == ApplyAll(ops, p).Negate()
  {
    ApplyAllIsRun(ops, p);
    ApplyAllIsRun(ops, p.Negate());
    RunNegate(ExpandAll(ops), p);
  }

  // ---------------------------------------------------------------- what the chains do

  function Flip(p: Pauli, b: bool): Pauli {
    p.(neg := p.neg != b)
  }

  lemma Run2(g: Gate, h: Gate, p: Pauli)
    requires p.Sized(|p.z|)
    ensures Run([g, h], p) == Conj(h, Conj(g, p))
  {
    assert [g, h][1..] == [h];
    Run1(h, Conj(g, p));
  }

  lemma Run1(g: Gate, p: Pauli)
    requires p.Sized(|p.z|)
    ensures Run([g], p) == Conj(g, p)
  {
    assert [g][1..] == [];
  }

  lemma Run3(g: Gate, h: Gate, k: Gate, p: Pauli)
    requires p.Sized(|p.z|)
    ensures Run([g, h, k], p) == Conj(k, Conj(h, Conj(g, p)))
  {
    assert [g, h, k][1..] == [h, k];
    Run2(h, k, Conj(g, p));
  }

  lemma ZFlips(q: nat, p: Pauli)
    requires p.Sized(|p.z|) && q < |p.z|
    ensures Run([S(q), S(q)], p) == Flip(p, p.x[q])
  {
    Run2(S(q), S(q), p);
    assert p.z[q := p.z[q] != p.x[q]][q := p.z[q]] == p.z;
  }

  lemma HTwice(q: nat, p: Pauli)
    requires p.Sized(|p.z|) && q < |p.z|
    ensures Conj(H(q), Conj(H(q), p)) == p
  {
    var r := Conj(H(q), Conj(H(q), p));
    assert r.z == p.z && r.x == p.x;
  }

  lemma CXTwice(c: nat, t: nat, p: Pauli)
    requires p.Sized(|p.z|) && c < |p.z| && t < |p.z| && c != t
    ensures Conj(CX(c, t), Conj(CX(c, t), p)) == p
  {
    var r := Conj(CX(c, t), Conj(CX(c, t), p));
    assert r.z == p.z && r.x == p.x;
  }

  lemma XFlips(q: nat, p: Pauli)
    requires p.Sized(|p.z|) && q < |p.z|
    ensures Run([H(q), S(q), S(q), H(q)], p) == Flip(p, p.z[q])
  {
    var h := Conj(H(q), p);
    assert [H(q), S(q), S(q), H(q)] == [H(q)] + ([S(q), S(q)] + [H(q)]);
    RunAppend([H(q)], [S(q), S(q)] + [H(q)], p);
    RunAppend([S(q), S(q)], [H(q)], h);
    Run1(H(q), p);
    ZFlips(q, h);
    Run1(H(q), Flip(h, h.x[q]));
    HTwice(q, p);
  }

  lemma SdgBits(q: nat, p: Pauli)
    requires p.Sized(|p.z|) && q < |p.z|
    ensures Run([S(q), S(q), S(q)], p) == Flip(Conj(S(q), p), p.x[q])
  {
    assert [S(q), S(q), S(q)] == [S(q)] + [S(q), S(q)];
    RunAppend([S(q)], [S(q), S(q)], p);
    Run1(S(q), p);
    ZFlips(q, Conj(S(q), p));
  }

  // ---------------------------------------------------------------- adjoints

  lemma SFour(q: nat, p: Pauli)
    requires p.Sized(|p.z|) && q < |p.z|
    ensures Run([S(q), S(q), S(q), S(q)], p) == p
  {
    assert [S(q), S(q), S(q), S(q)] == [S(q), S(q)] + [S(q), S(q)];
    RunAppend([S(q), S(q)], [S(q), S(q)], p);
    ZFlips(q, p);
    ZFlips(q, Flip(p, p.x[q]));
  }

  /** A chain undone between two H gates is undone with them. */
  lemma Sandwich(q: nat, mid: seq<Gate>, undo: seq<Gate>, p: Pauli)
    requires p.Sized(|p.z|) && q < |p.z|
    requires Run(undo, Run(mid, Conj(H(q), p))) == Conj(H(q), p)
    ensures Run([H(q)] + undo + [H(q)], Run([H(q)] + mid + [H(q)], p)) == p
  {
    var inner := Run(mid, Conj(H(q), p));
    RunAround(q, mid, p);
    RunAround(q, undo, Conj(H(q), inner));
    HTwice(q, inner);
    HTwice(q, p);
  }

  lemma RunAround(q: nat, mid: seq<Gate>, p: Pauli)
    requires p.Sized(|p.z|)
    ensures Run([H(q)] + mid + [H(q)], p) == Conj(H(q), Run(mid, Conj(H(q), p)))
  {
    RunAppend([H(q)] + mid, [H(q)], p);
    RunAppend([H(q)], mid, p);
    Run1(H(q), p);
    Run1(H(q), Run(mid, Conj(H(q), p)));
  }

  lemma VBits(q: nat, p: Pauli)
    requires p.Sized(|p.z|) && q < |p.z|
    ensures Run([H(q), S(q), H(q)], p) ==
            Pauli(p.z, p.x[q := p.x[q] != p.z[q]], p.neg != (p.z[q] && !p.x[q]))
  {
    hide Run, HalfUpTo, OddUpTo;
    Run3(H(q), S(q), H(q), p);
    var (z, x) := (p.z[q], p.x[q]);
    UpdateTwice(p.z, q, x, x != z);
    UpdateTwice(p.z, q, x != z, z);
    UpdateTwice(p.x, q, z, x != z);
  }

  lemma UpdateTwice(s: seq<bool>, q: nat, a: bool, b: bool)
    requires q < |s|
    ensures s[q := a][q := b] == s[q := b] && s[q := s[q]] == s
  {
  }

  /** The effect of an echoed cross-resonance operator. */
  lemma EcrBits(a: nat, b: nat, p: Pauli)
    requires p.Sized(|p.z|) && a < |p.z| && b < |p.z| && a != b
    ensures Apply(Op(OpECR, a, b), p) ==
            Pauli(p.z[a := p.z[a] != (p.z[b] != p.x[a])], p.x[b := p.x[b] != (p.x[a] != p.z[b])],
                  p.neg != ((((p.x[a] && p.z[b] && p.x[b] == p.z[a]) != (p.z[a] != p.z[b] && p.x[a]))
                             != ((p.z[a] != p.z[b]) != p.x[a])) != (p.z[b] && p.x[b] == p.x[a])))
  {
    hide Run;
    var p1 := Conj(CX(a, b), p);
    var p2 := Conj(S(a), p1);
    var p3 := Flip(p2, p2.z[a]);
    var xs, vs := [H(a), S(a), S(a), H(a)], [H(b), S(b), H(b)];
    assert Expand(Op(OpECR, a, b)) == [CX(a, b), S(a)] + (xs + vs);
    RunAppend([CX(a, b), S(a)], xs + vs, p);
    Run2(CX(a, b), S(a), p);
    RunAppend(xs, vs, p2);
    XFlips(a, p2);
    VBits(b, p3);
  }

  lemma EcrTwice(a: nat, b: nat, p: Pauli)
    requires p.Sized(|p.z|) && a < |p.z| && b < |p.z| && a != b
    ensures Apply(Op(OpECR, a, b), Apply(Op(OpECR, a, b), p)) == p
  {
    var r := Apply(Op(OpECR, a, b), p);
    EcrBits(a, b, p);
    EcrBits(a, b, r);
    var r2 := Apply(Op(OpECR, a, b), r);
    assert r2.z == p.z;
    assert r2.x == p.x;
  }

  lemma SwapTwice(a: nat, b: nat, p: Pauli)
    requires p.Sized(|p.z|) && a < |p.z| && b < |p.z| && a != b
    ensures Apply(Op(OpSwap, a, b), Apply(Op(OpSwap, a, b), p)) == p
  {
    var r := Apply(Op(OpSwap, a, b), p);
    Run3(CX(a, b), CX(b, a), CX(a, b), p);
    Run3(CX(a, b), CX(b, a), CX(a, b), r);
    CXTwice(a, b, Conj(CX(b, a), Conj(CX(a, b), p)));
    CXTwice(b, a, Conj(CX(a, b), p));
    CXTwice(a, b, p);
  }

  lemma YTwice(q: nat, p: Pauli)
    requires p.Sized(|p.z|) && q < |p.z|
    ensures Apply(Op(OpY, q, 0), Apply(Op(OpY, q, 0), p)) == p
  {
    var r := Flip(Flip(p, p.z[q]), p.x[q]);
    YFlips(q, p);
    YFlips(q, r);
  }

  lemma YFlips(q: nat, p: Pauli)
    requires p.Sized(|p.z|) && q < |p.z|
    ensures Run([H(q), S(q), S(q), H(q), S(q), S(q)], p) == Flip(Flip(p, p.z[q]), p.x[q])
  {
    hide Run, Conj;
    assert [H(q), S(q), S(q), H(q), S(q), S(q)] == [H(q), S(q), S(q), H(q)] + [S(q), S(q)];
    RunAppend([H(q), S(q), S(q), H(q)], [S(q), S(q)], p);
    XFlips(q, p);
    ZFlips(q, Flip(p, p.z[q]));
  }

  /** S and its adjoint undo each other, alone or between H gates. */
  lemma SSdg(q: nat, p: Pauli)
    requires p.Sized(|p.z|) && q < |p.z|
    ensures Run([S(q), S(q), S(q)], Run([S(q)], p)) == p
    ensures Run([S(q)], Run([S(q), S(q), S(q)], p)) == p
  {
    hide Run, Conj;
    SFour(q, p);
    RunAppend([S(q)], [S(q), S(q), S(q)], p);
    RunAppend([S(q), S(q), S(q)], [S(q)], p);
    assert [S(q)] + [S(q), S(q), S(q)] == [S(q), S(q), S(q), S(q)] == [S(q), S(q), S(q)] + [S(q)];
  }

  lemma VVdg(q: nat, p: Pauli)
    requires p.Sized(|p.z|) && q < |p.z|
    ensures Run([H(q), S(q), S(q), S(q), H(q)], Run([H(q), S(q), H(q)], p)) == p
    ensures Run([H(q), S(q), H(q)], Run([H(q), S(q), S(q), S(q), H(q)], p)) == p
  {
    var s, t := [S(q)], [S(q), S(q), S(q)];
    assert [H(q)] + s + [H(q)] == [H(q), S(q), H(q)] && [H(q)] + t + [H(q)] == [H(q), S(q), S(q), S(q), H(q)];
    SSdg(q, Conj(H(q), p));
    Sandwich(q, s, t, p);
    Sandwich(q, t, s, p);
  }

  lemma CzTwice(a: nat, b: nat, p: Pauli)
    requires p.Sized(|p.z|) && a < |p.z| && b < |p.z| && a != b
    ensures Apply(Op(OpCZ, a, b), Apply(Op(OpCZ, a, b), p)) == p
  {
    var mid := [CX(a, b)];
    var h := Conj(H(b), p);
    Run1(CX(a, b), h);
    Run1(CX(a, b), Conj(CX(a, b), h));
    CXTwice(a, b, h);
    Sandwich(b, mid, mid, p);
    assert [H(b)] + mid + [H(b)] == Expand(Op(OpCZ, a, b));
  }

  /** Every operator followed by its adjoint acts as the identity. */
  lemma AdjointUndoes(op: Op, p: Pauli)
    requires p.Sized(|p.z|) && WellFormed(op, |p.z|)
    ensures Apply(Adjoint(op), Apply(op, p)) == p
  {
    hide Run, Conj;
    var (a, b) := (op.q0, op.q1);
    match op.kind
    case OpH => HTwice(a, p); Run1(H(a), p); Run1(H(a), Conj(H(a), p));
    case OpS => SSdg(a, p);
    case OpSdg => SSdg(a, p);
    case OpCX => CXTwice(a, b, p); Run1(CX(a, b), p); Run1(CX(a, b), Conj(CX(a, b), p));
    case OpV => VVdg(a, p);
    case OpVdg => VVdg(a, p);
    case OpX => XFlips(a, p); XFlips(a, Flip(p, p.z[a]));
    case OpY => YTwice(a, p);
    case OpZ => ZFlips(a, p); ZFlips(a, Flip(p, p.x[a]));
    case OpCZ => CzTwice(a, b, p);
    case OpSwap => SwapTwice(a, b, p);
    case OpECR => EcrTwice(a, b, p);
  }

  lemma AdjointAllCons(ops: seq<Op>)
    requires ops != []
    ensures AdjointAll(ops) == AdjointAll(ops[1..]) + [Adjoint(ops[0])]
  {
  }

  lemma AdjointAllTwice(ops: seq<Op>)
    ensures AdjointAll(AdjointAll(ops)) == ops
  {
  }

  lemma AdjointAllWellFormed(ops: seq<Op>, n: nat)
    requires WellFormedAll(ops, n)
    ensures WellFormedAll(AdjointAll(ops), n)
  {
  }

  lemma ApplyAllOne(op: Op, p: Pauli)
    requires p.Sized(|p.z|)
    ensures ApplyAll([op], p) == Apply(op, p)
  {
    assert [op][1..] == [];
  }

  /** An operator string followed by its adjoint acts as the identity on every Pauli. */
  lemma {:induction false} AdjointAllUndoes(ops: seq<Op>, p: Pauli)
    requires p.Sized(|p.z|) && WellFormedAll(ops, |p.z|)
    ensures ApplyAll(AdjointAll(ops), ApplyAll(ops, p)) == p
  {
    if ops != [] {
      var r := Apply(ops[0], p);
      AdjointAllUndoes(ops[1..], r);
      AdjointAllCons(ops);
      ApplyAllAppend(AdjointAll(ops[1..]), [Adjoint(ops[0])], ApplyAll(ops, p));
      ApplyAllOne(Adjoint(ops[0]), r);
      AdjointUndoes(ops[0], p);
    }
  }

  /** And so does the adjoint followed by the string. */
  lemma AdjointAllUndone(ops: seq<Op>, p: Pauli)
    requires p.Sized(|p.z|) && WellFormedAll(ops, |p.z|)
    ensures ApplyAll(ops, ApplyAll(AdjointAll(ops), p)) == p
  {
    AdjointAllWellFormed(ops, |p.z|);
    AdjointAllUndoes(AdjointAll(ops), p);
    AdjointAllTwice(ops);
  }
}
