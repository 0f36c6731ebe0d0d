/** The mutable tableau: rows rewritten in place, one gate at a time. */
module StabilizerTableaux {
  import opened Paulis
  import opened Operators
  import opened Tableaux
  import opened Prepending

  /** Row j once the first i qubits have their stabilizer and destabilizer set. */
  function SetUpTo(i: nat, j: nat, n: nat): Pauli
    requires j < 2 * n
  {
    if (if j < n then j else j - n) < i then BasisRow(j, n) else Identity(n)
  }

  lemma BasisRowSet(i: nat, n: nat)
    requires i < n
    ensures BasisRow(i, n) == Pauli(Zeros(n)[i := true], Zeros(n)[i := false], false)
    ensures BasisRow(i + n, n) == Pauli(Zeros(n)[i := false], Zeros(n)[i := true], false)
  {
    assert Unit(n, i) == Zeros(n)[i := true];
  }

  class StabilizerTableau {
    const n: nat
    var rows: seq<Pauli>

    ghost predicate Valid()
      reads this
    {
      Shaped(rows, n)
    }

    /** The tableau of the empty circuit. */
    constructor (n: nat)
      ensures Valid() && this.n == n && rows == IdentityRows(n)
    {
      this.n := n;
      rows := seq(2 * n, _ => Identity(n));
      new;
      var i := 0;
      while i < n
        invariant i <= n && |rows| == 2 * n
        invariant forall j: nat :: j < 2 * n ==> rows[j] == SetUpTo(i, j, n)
      {
        BasisRowSet(i, n);
        rows := rows[i := Pauli(rows[i].z[i := true], rows[i].x[i := false], rows[i].neg)];
        rows := rows[i + n := Pauli(rows[i + n].z[i := false], rows[i + n].x[i := true], rows[i + n].neg)];
        i := i + 1;
      }
    }

    constructor Copy(rows: seq<Pauli>, n: nat)
      requires Shaped(rows, n)
      ensures Valid() && this.n == n && this.rows == rows
    {
      this.n := n;
      this.rows := rows;
    }

    /** Applies one gate to every row. */
    method ApplyGate(g: Gate)
      requires Valid()
      modifies this
      ensures Valid() && rows == MapGates([g], old(rows))
    {
      var i := 0;
      while i < |rows|
        invariant i <= |rows| && Valid()
        invariant forall j :: 0 <= j < i ==> rows[j] == Conj(g, old(rows)[j])
        invariant forall j :: i <= j < |rows| ==> rows[j] == old(rows)[j]
      {
        ConjSized(g, rows[i], n);
        rows := rows[i := Conj(g, rows[i])];
        i := i + 1;
      }
      forall j | 0 <= j < |rows|
        ensures rows[j] == Run([g], old(rows)[j])
      {
        Run1(g, old(rows)[j]);
      }
    }

    method ApplyGates(gs: seq<Gate>)
      requires Valid()
      modifies this
      ensures Valid() && rows == MapGates(gs, old(rows))
    {
      hide Conj;
      var i := 0;
      assert gs[..0] == [];
      while i < |gs|
        invariant i <= |gs| && Valid()
        invariant rows == MapGates(gs[..i], old(rows))
      {
        ghost var before := rows;
        ApplyGate(gs[i]);
        assert gs[..i + 1] == gs[..i] + [gs[i]];
        forall j | 0 <= j < |rows|
          ensures rows[j] == Run(gs[..i + 1], old(rows)[j])
        {
          RunAppend(gs[..i], [gs[i]], old(rows)[j]);
        }
        i := i + 1;
      }
      assert gs[..i] == gs;
    }

    method ApplyOp(op: Op)
      requires Valid()
      modifies this
      ensures Valid() && rows == MapOps([op], old(rows))
    {
      ApplyGates(Expand(op));
      forall j | 0 <= j < |rows|
        ensures rows[j] == ApplyAll([op], old(rows)[j])
      {
        ApplyAllOne(op, old(rows)[j]);
      }
    }

    method ApplyString(ops: seq<Op>)
      requires Valid()
      modifies this
      ensures Valid() && rows == MapOps(ops, old(rows))
    {
      var i := 0;
      assert ops[..0] == [];
      assert MapOps([], rows) == rows;
      while i < |ops|
        invariant i <= |ops| && Valid()
        invariant rows == MapOps(ops[..i], old(rows))
      {
        ApplyOp(ops[i]);
        assert ops[..i + 1] == ops[..i] + [ops[i]];
        MapOpsAppend(ops[..i], [ops[i]], old(rows), n);
        i := i + 1;
      }
      assert ops[..i] == ops;
    }

    // -------------------------------------------------------------- prepending

    method PrependH(q: nat)
      requires Valid()
      modifies this
      ensures Valid() && rows == PrependGate(H(q), old(rows), n)
    {
      if q < n {
        rows := rows[q := rows[q + n]][q + n := rows[q]];
      }
    }

    method PrependS(q: nat)
      requires Valid()
      modifies this
      ensures Valid() && rows == PrependGate(S(q), old(rows), n)
    {
      if q < n {
        rows := rows[q + n := Mul(rows[q], rows[q + n])];
      }
    }

    method PrependCX(c: nat, t: nat)
      requires Valid()
      modifies this
      ensures Valid() && rows == PrependGate(CX(c, t), old(rows), n)
    {
      if c < n && t < n {
        rows := rows[t := Mul(rows[c], rows[t])];
        rows := rows[c + n := Mul(rows[t + n], rows[c + n])];
      }
    }

    method PrependString(ops: seq<Op>)
      requires Valid()
      modifies this
      ensures Valid() && rows == PrependAll(ops, old(rows), n)
    {
      var i := 0;
      while i < |ops|
        invariant i <= |ops| && Valid()
        invariant PrependAll(ops[i..], rows, n) == PrependAll(ops, old(rows), n)
      {
        PrependOperator(ops[i]);
        assert ops[i..][1..] == ops[i + 1..];
        i := i + 1;
      }
    }

    method PrependOperator(op: Op)
      requires Valid()
      modifies this
      ensures Valid() && rows == PrependOp(op, old(rows), n)
    {
      hide PrependGate;
      var gs, i := PrependChain(op), 0;
      while i < |gs|
        invariant i <= |gs| && Valid()
        invariant PrependGates(gs[i..], rows, n) == PrependGates(gs, old(rows), n)
      {
        match gs[i] {
          case H(q) => PrependH(q);
          case S(q) => PrependS(q);
          case CX(c, t) => PrependCX(c, t);
        }
        assert gs[i..][1..] == gs[i + 1..];
        i := i + 1;
      }
    }
  }
}
