/** A tableau under synthesis together with the operators applied to it so far. */
module Recording {
  import opened Paulis
  import opened Operators
  import opened Tableaux
  import opened StabilizerTableaux

  function HCount(ops: seq<Op>): nat {
    if ops == [] then 0 else (if ops[0].kind == OpH then 1 else 0) + HCount(ops[1..])
  }

  lemma {:induction false} HCountAppend(ops: seq<Op>, more: seq<Op>)
    ensures HCount(ops + more) == HCount(ops) + HCount(more)
  {
    if ops == [] {
      assert ops + more == more;
    } else {
      assert (ops + more)[1..] == ops[1..] + more;
      HCountAppend(ops[1..], more);
    }
  }

  lemma {:induction false} HCountAdjoint(ops: seq<Op>)
    ensures HCount(AdjointAll(ops)) == HCount(ops)
  {
    if ops != [] {
      AdjointAllCons(ops);
      HCountAdjoint(ops[1..]);
      HCountAppend(AdjointAll(ops[1..]), [Adjoint(ops[0])]);
    }
  }

  /** No v, vdg or ecr: the operators whose chains hide an H. */
  predicate Plain(ops: seq<Op>) {
    forall i :: 0 <= i < |ops| ==> !ops[i].kind.OpV? && !ops[i].kind.OpVdg? && !ops[i].kind.OpECR?
  }

  /** All stabilizers are products of Z and I. */
  ghost predicate DiagonalStabilizers(rows: seq<Pauli>, n: nat)
    requires Shaped(rows, n)
  {
    forall i :: 0 <= i < n ==> rows[i].IsDiagonal()
  }

  /** Stabilizers without X, destabilizers without Z, and no sign: what CX gates make of the identity. */
  ghost predicate Linear(rows: seq<Pauli>, n: nat)
    requires Shaped(rows, n)
  {
    forall i :: 0 <= i < n ==> LinearAt(rows, n, i)
  }

  ghost predicate LinearAt(rows: seq<Pauli>, n: nat, i: int)
    requires Shaped(rows, n) && 0 <= i < n
  {
    PureZ(rows[i]) && PureX(rows[i + n])
  }

  ghost predicate PureZ(p: Pauli) {
    !p.neg && forall j :: 0 <= j < |p.x| ==> !p.x[j]
  }

  ghost predicate PureX(p: Pauli) {
    !p.neg && forall j :: 0 <= j < |p.z| ==> !p.z[j]
  }

  lemma CXKeepsPure(c: nat, t: nat, p: Pauli)
    requires p.Sized(|p.z|)
    ensures PureZ(p) ==> PureZ(Conj(CX(c, t), p))
    ensures PureX(p) ==> PureX(Conj(CX(c, t), p))
  {
  }

  lemma LinearAfterCX(rows: seq<Pauli>, rows': seq<Pauli>, n: nat, c: nat, t: nat)
    requires Shaped(rows, n) && Shaped(rows', n) && Linear(rows, n)
    requires forall i :: 0 <= i < 2 * n ==> rows'[i] == Conj(CX(c, t), rows[i])
    ensures Linear(rows', n)
  {
    hide PureZ, PureX, Conj;
    forall i | 0 <= i < n
      ensures LinearAt(rows', n, i)
    {
      assert LinearAt(rows, n, i);
      CXKeepsPure(c, t, rows[i]);
      CXKeepsPure(c, t, rows[i + n]);
    }
  }

  lemma ConjKeepsDiagonal(g: Gate, p: Pauli)
    requires p.Sized(|p.z|) && Proper(g, |p.z|) && !g.H? && p.IsDiagonal()
    ensures Conj(g, p).IsDiagonal()
  {
  }

  function OpFor(g: Gate): Op {
    match g
    case H(q) => Op(OpH, q, 0)
    case S(q) => Op(OpS, q, 0)
    case CX(c, t) => Op(OpCX, c, t)
  }

  class Recorder {
    const tab: StabilizerTableau
    ghost const start: seq<Pauli>
    var ops: seq<Op>

    /** The recorded operators take start to the current rows. */
    ghost predicate Valid()
      reads this, tab
    {
      && tab.Valid() && Shaped(start, tab.n) && WellFormedAll(ops, tab.n) && Plain(ops)
      && tab.rows == MapOps(ops, start)
      && Symplectic(tab.rows, tab.n)
    }

    /** Only CX gates have been recorded, and only they are needed. */
    ghost predicate OnlyCX()
      reads this, tab
    {
      Shaped(tab.rows, tab.n) && Linear(tab.rows, tab.n) && CXOnly(ops, tab.n)
    }

    constructor (tab: StabilizerTableau)
      requires tab.Valid() && Symplectic(tab.rows, tab.n)
      ensures Valid() && this.tab == tab && ops == [] && start == tab.rows
    {
      this.tab := tab;
      start := tab.rows;
      ops := [];
      new;
      assert MapOps([], start) == start;
    }

    method Add(op: Op)
      requires Valid() && WellFormed(op, tab.n) && Plain([op])
      modifies this, tab
      ensures Valid() && ops == old(ops) + [op] && tab.rows == MapOps([op], old(tab.rows))
      ensures HCount(ops) == old(HCount(ops)) + (if op.kind == OpH then 1 else 0)
    {
      tab.ApplyOp(op);
      ops := ops + [op];
      MapOpsAppend(old(ops), [op], start, tab.n);
      SymplecticMap([op], old(tab.rows), tab.n);
      HCountAppend(old(ops), [op]);
    }

    method AddGate(g: Gate)
      requires Valid() && Proper(g, tab.n)
      modifies this, tab
      ensures Valid() && tab.rows == MapGates([g], old(tab.rows))
      ensures forall i :: 0 <= i < 2 * tab.n ==> tab.rows[i] == Conj(g, old(tab.rows)[i])
      ensures HCount(ops) == old(HCount(ops)) + (if g.H? then 1 else 0)
      ensures !g.H? && old(DiagonalStabilizers(tab.rows, tab.n)) ==> DiagonalStabilizers(tab.rows, tab.n)
      ensures g.CX? && old(OnlyCX()) ==> OnlyCX()
      ensures ops == old(ops) + [OpFor(g)]
    {
      hide Conj, PureZ, PureX;
      var op := OpFor(g);
      Add(op);
      forall i | 0 <= i < 2 * tab.n
        ensures tab.rows[i] == Conj(g, old(tab.rows)[i]) == Run([g], old(tab.rows)[i])
      {
        ApplyAllOne(op, old(tab.rows)[i]);
        Run1(g, old(tab.rows)[i]);
      }
      if !g.H? && old(DiagonalStabilizers(tab.rows, tab.n)) {
        forall i | 0 <= i < tab.n
          ensures tab.rows[i].IsDiagonal()
        {
          ConjKeepsDiagonal(g, old(tab.rows)[i]);
        }
      }
      if g.CX? && old(OnlyCX()) {
        LinearAfterCX(old(tab.rows), tab.rows, tab.n, g.c, g.t);
      }
    }
  }
}
