/** Prepending an operator to a tableau: row swaps and row products that mirror appending. */
module Prepending {
  import opened Collections
  import opened Paulis
  import opened Operators
  import opened Tableaux

  /** The row updates for one prepended gate. */
  function PrependGate(g: Gate, rows: seq<Pauli>, n: nat): (r: seq<Pauli>)
    requires Shaped(rows, n)
    ensures Shaped(r, n)
  {
    match g
    case H(q) => if q >= n then rows else rows[q := rows[q + n]][q + n := rows[q]]
    case S(q) => if q >= n then rows else rows[q + n := Mul(rows[q], rows[q + n])]
    case CX(c, t) =>
      if c >= n || t >= n then rows
      else
        var rows' := rows[t := Mul(rows[c], rows[t])];
        rows'[c + n := Mul(rows'[t + n], rows'[c + n])]
  }

  function PrependGates(gs: seq<Gate>, rows: seq<Pauli>, n: nat): (r: seq<Pauli>)
    requires Shaped(rows, n)
    ensures Shaped(r, n)
  {
    if gs == [] then rows else PrependGates(gs[1..], PrependGate(gs[0], rows, n), n)
  }

  /** The chain of prepended gates each operator stands for. */
  function PrependChain(op: Op): seq<Gate> {
    var (a, b) := (op.q0, op.q1);
    match op.kind
    case OpY => [H(a), S(a), S(a), H(a), S(a), S(a)]
    case OpECR => [H(a), S(a), S(a), H(a), S(a), H(b), S(b), H(b), CX(a, b)]
    case _ => Expand(op)
  }

  function PrependOp(op: Op, rows: seq<Pauli>, n: nat): (r: seq<Pauli>)
    requires Shaped(rows, n)
    ensures Shaped(r, n)
  {
    PrependGates(PrependChain(op), rows, n)
  }

  /** Operators prepended one after the other: the last one ends up first. */
  function PrependAll(ops: seq<Op>, rows: seq<Pauli>, n: nat): (r: seq<Pauli>)
    requires Shaped(rows, n)
    ensures Shaped(r, n)
  {
    if ops == [] then rows else PrependAll(ops[1..], PrependOp(ops[0], rows, n), n)
  }

  // ---------------------------------------------------------------- one gate

  lemma RunCons(g: Gate, gs: seq<Gate>, p: Pauli)
    requires p.Sized(|p.z|)
    ensures Run([g] + gs, p) == Run(gs, Conj(g, p))
  {
    RunAppend([g], gs, p);
    Run1(g, p);
  }

  /** What a gate does to each basis row, as a product of basis rows. */
  lemma ConjBasis(g: Gate, i: nat, n: nat)
    requires Proper(g, n) && i < 2 * n
    ensures Conj(g, BasisRow(i, n)) ==
            match g
            case H(q) => if i == q then BasisRow(q + n, n) else if i == q + n then BasisRow(q, n) else BasisRow(i, n)
            case S(q) => if i == q + n then Mul(BasisRow(q, n), BasisRow(q + n, n)) else BasisRow(i, n)
            case CX(c, t) =>
              if i == t then Mul(BasisRow(c, n), BasisRow(t, n))
              else if i == c + n then Mul(BasisRow(t + n, n), BasisRow(c + n, n)) else BasisRow(i, n)
  {
    var p := BasisRow(i, n);
    var l := Conj(g, p);
    match g {
      case H(q) =>
        var r := if i == q then BasisRow(q + n, n) else if i == q + n then BasisRow(q, n) else p;
        assert l.z == r.z && l.x == r.x;
      case S(q) =>
        if i == q + n {
          LocalProduct(n, q, true, true);
          var r := LocalZX(n, q, true, true);
          assert l.z == r.z && l.x == r.x;
        } else {
          assert l.z == p.z;
        }
      case CX(c, t) => ConjBasisCX(c, t, i, n);
    }
  }

  lemma {:induction false} ConjBasisCX(c: nat, t: nat, i: nat, n: nat)
    requires c < n && t < n && c != t && i < 2 * n
    ensures Conj(CX(c, t), BasisRow(i, n)) ==
            if i == t then Mul(BasisRow(c, n), BasisRow(t, n))
            else if i == c + n then Mul(BasisRow(t + n, n), BasisRow(c + n, n)) else BasisRow(i, n)
  {
    var p := BasisRow(i, n);
    var l := Conj(CX(c, t), p);
    if i == t {
      NoPower(BasisRow(c, n), p, n);
      var r := Mul(BasisRow(c, n), p);
      assert l.z == r.z && l.x == r.x;
    } else if i == c + n {
      NoPower(BasisRow(t + n, n), p, n);
      var r := Mul(BasisRow(t + n, n), p);
      assert l.z == r.z && l.x == r.x;
    } else {
      assert l.z == p.z && l.x == p.x;
    }
  }

  lemma {:induction false} PrependGateMirrorsAt(g: Gate, gs: seq<Gate>, n: nat, i: nat)
    requires Proper(g, n) && ProperAll(gs, n) && i < 2 * n
    ensures PrependGate(g, MapGates(gs, IdentityRows(n)), n)[i] == Run([g] + gs, IdentityRows(n)[i])
  {
    hide Mul, Run, Conj, BasisRow;
    var id := IdentityRows(n);
    RunCons(g, gs, id[i]);
    ConjBasis(g, i, n);
    match g {
      case H(q) =>
      case S(q) => RunMul(gs, id[q], id[q + n]);
      case CX(c, t) =>
        RunMul(gs, id[c], id[t]);
        RunMul(gs, id[t + n], id[c + n]);
    }
  }

  /** Prepending g to the tableau of gs gives the tableau of g followed by gs. */
  lemma {:induction false} PrependGateMirrors(g: Gate, gs: seq<Gate>, n: nat)
    requires Proper(g, n) && ProperAll(gs, n)
    ensures PrependGate(g, MapGates(gs, IdentityRows(n)), n) == MapGates([g] + gs, IdentityRows(n))
  {
    hide PrependGate, Run;
    var l, r := PrependGate(g, MapGates(gs, IdentityRows(n)), n), MapGates([g] + gs, IdentityRows(n));
    forall i | 0 <= i < 2 * n
      ensures l[i] == r[i]
    {
      PrependGateMirrorsAt(g, gs, n, i);
    }
  }

  lemma {:induction false} PrependGatesMirror(chain: seq<Gate>, gs: seq<Gate>, n: nat)
    requires ProperAll(chain, n) && ProperAll(gs, n)
    ensures PrependGates(chain, MapGates(gs, IdentityRows(n)), n) == MapGates(Reversed(chain) + gs, IdentityRows(n))
  {
    hide PrependGate;
    if chain == [] {
      assert Reversed(chain) + gs == gs;
    } else {
      PrependGateMirrors(chain[0], gs, n);
      PrependGatesMirror(chain[1..], [chain[0]] + gs, n);
      assert Reversed(chain) + gs == Reversed(chain[1..]) + ([chain[0]] + gs);
    }
  }

  // ---------------------------------------------------------------- operators

  lemma MirroredY(q: nat, p: Pauli)
    requires p.Sized(|p.z|) && q < |p.z|
    ensures Run([S(q), S(q), H(q), S(q), S(q), H(q)], p) == Apply(Op(OpY, q, 0), p)
  {
    hide Run, Conj;
    YFlips(q, p);
    var zs, xs := [S(q), S(q)], [H(q), S(q), S(q), H(q)];
    assert [S(q), S(q), H(q), S(q), S(q), H(q)] == zs + xs;
    RunAppend(zs, xs, p);
    ZFlips(q, p);
    XFlips(q, Flip(p, p.x[q]));
  }

  lemma MirroredEcr(a: nat, b: nat, p: Pauli)
    requires p.Sized(|p.z|) && a < |p.z| && b < |p.z| && a != b
    ensures Run([CX(a, b), H(b), S(b), H(b), S(a), H(a), S(a), S(a), H(a)], p) == Apply(Op(OpECR, a, b), p)
  {
    hide Run;
    EcrBits(a, b, p);
    hide Apply;
    var cx, vs, s, xs := [CX(a, b)], [H(b), S(b), H(b)], [S(a)], [H(a), S(a), S(a), H(a)];
    assert [CX(a, b), H(b), S(b), H(b), S(a), H(a), S(a), S(a), H(a)] == cx + (vs + (s + xs));
    RunAppend(cx, vs + (s + xs), p);
    Run1(CX(a, b), p);
    var p1 := Conj(CX(a, b), p);
    RunAppend(vs, s + xs, p1);
    VBits(b, p1);
    var p2 := Run(vs, p1);
    RunAppend(s, xs, p2);
    Run1(S(a), p2);
    XFlips(a, Conj(S(a), p2));
  }

  /** The reversed prepend chain acts as the append chain does. */
  lemma MirroredChain(op: Op, p: Pauli)
    requires p.Sized(|p.z|) && WellFormed(op, |p.z|)
    ensures Run(Reversed(PrependChain(op)), p) == Apply(op, p)
  {
    hide Run, Conj;
    var (a, b) := (op.q0, op.q1);
    match op.kind
    case OpY =>
      assert Reversed(PrependChain(op)) == [S(a), S(a), H(a), S(a), S(a), H(a)];
      assert Expand(op) == Expand(Op(OpY, a, 0));
      MirroredY(a, p);
    case OpECR =>
      assert Reversed(PrependChain(op)) == [CX(a, b), H(b), S(b), H(b), S(a), H(a), S(a), S(a), H(a)];
      MirroredEcr(a, b, p);
    case _ =>
      assert Reversed(PrependChain(op)) == Expand(op);
  }

  lemma TableauIsMapGates(ops: seq<Op>, n: nat)
    requires WellFormedAll(ops, n)
    ensures ProperAll(ExpandAll(ops), n)
    ensures TableauOf(ops, n) == MapGates(ExpandAll(ops), IdentityRows(n))
  {
    ExpandAllProper(ops, n);
    forall i | 0 <= i < 2 * n
      ensures ApplyAll(ops, IdentityRows(n)[i]) == Run(ExpandAll(ops), IdentityRows(n)[i])
    {
      ApplyAllIsRun(ops, IdentityRows(n)[i]);
    }
  }

  /** Prepending an operator to the tableau of a string is the tableau of the operator followed by the string. */
  lemma PrependMirrorsAppend(op: Op, ops: seq<Op>, n: nat)
    requires WellFormed(op, n) && WellFormedAll(ops, n)
    ensures PrependOp(op, TableauOf(ops, n), n) == TableauOf([op] + ops, n)
  {
    hide Run, Mul, Conj;
    var id, chain, gs := IdentityRows(n), PrependChain(op), ExpandAll(ops);
    TableauIsMapGates(ops, n);
    assert ProperAll(chain, n) by { ExpandProper(op, n); }
    PrependGatesMirror(chain, gs, n);
    forall i | 0 <= i < 2 * n
      ensures Run(Reversed(chain) + gs, id[i]) == ApplyAll([op] + ops, id[i])
    {
      RunAppend(Reversed(chain), gs, id[i]);
      MirroredChain(op, id[i]);
      ApplyAllAppend([op], ops, id[i]);
      ApplyAllOne(op, id[i]);
      ApplyAllIsRun(ops, Apply(op, id[i]));
    }
  }

  /** Prepending a whole string puts it before the circuit, in reverse order. */
  lemma ReverseShift<T>(pre: seq<T>, ops: seq<T>)
    requires pre != []
    ensures Reversed(pre) + ops == Reversed(pre[1..]) + ([pre[0]] + ops)
  {
  }

  lemma {:induction false} PrependAllMirrors(pre: seq<Op>, ops: seq<Op>, n: nat)
    requires WellFormedAll(pre, n) && WellFormedAll(ops, n)
    ensures PrependAll(pre, TableauOf(ops, n), n) == TableauOf(Reversed(pre) + ops, n)
  {
    hide PrependOp, TableauOf;
    if pre == [] {
      assert Reversed(pre) + ops == ops;
    } else {
      PrependMirrorsAppend(pre[0], ops, n);
      PrependAllMirrors(pre[1..], [pre[0]] + ops, n);
      ReverseShift(pre, ops);
    }
  }
}
