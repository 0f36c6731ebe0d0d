/** Stabilizer tableaux: the images of Z_0.. and X_0.. under a Clifford operator. */
module Tableaux {
  import opened Paulis
  import opened Operators

  // ---------------------------------------------------------------- values

  /** 2n rows of n qubits each: stabilizers first, then destabilizers. */
  ghost predicate Shaped(rows: seq<Pauli>, n: nat) {
    |rows| == 2 * n && forall i :: 0 <= i < 2 * n ==> rows[i].Sized(n)
  }

  function BasisRow(i: nat, n: nat): (p: Pauli)
    requires i < 2 * n
    ensures p.Sized(n)
  {
    if i < n then ZAt(n, i) else XAt(n, i - n)
  }

  function IdentityRows(n: nat): (rows: seq<Pauli>)
    ensures Shaped(rows, n)
  {
    seq(2 * n, i requires 0 <= i < 2 * n => BasisRow(i, n))
  }

  function MapGates(gs: seq<Gate>, rows: seq<Pauli>): (r: seq<Pauli>)
    requires forall i :: 0 <= i < |rows| ==> rows[i].Sized(|rows[i].z|)
    ensures |r| == |rows| && forall i :: 0 <= i < |rows| ==> r[i] == Run(gs, rows[i])
  {
    seq(|rows|, i requires 0 <= i < |rows| => Run(gs, rows[i]))
  }

  function MapOps(ops: seq<Op>, rows: seq<Pauli>): (r: seq<Pauli>)
    requires forall i :: 0 <= i < |rows| ==> rows[i].Sized(|rows[i].z|)
    ensures |r| == |rows| && forall i :: 0 <= i < |rows| ==> r[i] == ApplyAll(ops, rows[i])
  {
    seq(|rows|, i requires 0 <= i < |rows| => ApplyAll(ops, rows[i]))
  }

  /** The tableau of an operator string: the string applied to the identity tableau. */
  function TableauOf(ops: seq<Op>, n: nat): (rows: seq<Pauli>)
    ensures Shaped(rows, n)
  {
    MapOps(ops, IdentityRows(n))
  }

  predicate Partners(i: nat, j: nat, n: nat) {
    i == j + n || j == i + n
  }

  /** Destabilizer i anticommutes with stabilizer i, and all other pairs of rows commute. */
  ghost predicate Symplectic(rows: seq<Pauli>, n: nat) {
    && Shaped(rows, n)
    && forall i: nat, j: nat {:trigger Commute(rows[i], rows[j])} :: i < 2 * n && j < 2 * n ==>
         (Commute(rows[i], rows[j]) <==> !Partners(i, j, n))
  }

  // ---------------------------------------------------------------- a tableau determines its operator

  function Pick(b: bool, p: Pauli): Pauli {
    if b then p else Identity(|p.z|)
  }

  /** Product of the rows that p selects among the first k qubits, Z before X at each. */
  function ImageUpTo(rows: seq<Pauli>, p: Pauli, k: nat): (r: Pauli)
    requires p.Sized(|p.z|) && Shaped(rows, |p.z|) && k <= |p.z|
    ensures r.Sized(|p.z|)
  {
    var n := |p.z|;
    if k == 0 then Flip(Identity(n), p.neg)
    else Mul(ImageUpTo(rows, p, k - 1), Mul(Pick(p.z[k - 1], rows[k - 1]), Pick(p.x[k - 1], rows[k - 1 + n])))
  }

  /** The image of p under the operator whose tableau is rows. */
  function Image(rows: seq<Pauli>, p: Pauli): (r: Pauli)
    requires p.Sized(|p.z|) && Shaped(rows, |p.z|)
    ensures r.Sized(|p.z|)
  {
    ImageUpTo(rows, p, |p.z|)
  }

  /** p on its first k qubits, with its sign. */
  function Prefix(p: Pauli, k: nat): (r: Pauli)
    requires p.Sized(|p.z|) && k <= |p.z|
    ensures r.Sized(|p.z|)
  {
    var n := |p.z|;
    Pauli(seq(n, i requires 0 <= i < n => i < k && p.z[i]), seq(n, i requires 0 <= i < n => i < k && p.x[i]), p.neg)
  }

  function LocalZX(n: nat, q: nat, z: bool, x: bool): (r: Pauli)
    ensures r.Sized(n)
  {
    Pauli(seq(n, i => i == q && z), seq(n, i => i == q && x), false)
  }

  /** Where one factor is the identity the exponent is 0. */
  lemma {:induction false} NoPower(a: Pauli, b: Pauli, k: nat)
    requires a.Sized(|a.z|) && b.Sized(|a.z|) && k <= |a.z|
    requires forall i :: 0 <= i < k ==> (!a.z[i] && !a.x[i]) || (!b.z[i] && !b.x[i])
    ensures !OddUpTo(a, b, k) && !HalfUpTo(a, b, k)
  {
    if k > 0 {
      NoPower(a, b, k - 1);
    }
  }

  /** Z before X at one qubit is that qubit's type with a plus sign. */
  lemma LocalProduct(n: nat, q: nat, z: bool, x: bool)
    requires q < n
    ensures Mul(Pick(z, ZAt(n, q)), Pick(x, XAt(n, q))) == LocalZX(n, q, z, x)
  {
    var a, b := Pick(z, ZAt(n, q)), Pick(x, XAt(n, q));
    OnlyPowerAt(a, b, q, n);
    var l, r := Mul(a, b), LocalZX(n, q, z, x);
    assert l.z == r.z && l.x == r.x;
  }

  lemma {:induction false} OnlyPowerAt(a: Pauli, b: Pauli, q: nat, k: nat)
    requires a.Sized(|a.z|) && b.Sized(|a.z|) && q < |a.z| && k <= |a.z|
    requires forall i :: 0 <= i < k && i != q ==> (!a.z[i] && !a.x[i]) || (!b.z[i] && !b.x[i])
    ensures q < k ==> OddUpTo(a, b, k) == OddAt(a, b, q) && HalfUpTo(a, b, k) == HalfAt(a, b, q)
  {
    if k > 0 {
      if q < k - 1 {
        OnlyPowerAt(a, b, q, k - 1);
      } else {
        NoPower(a, b, k - 1);
      }
    }
  }

  lemma PrefixStep(p: Pauli, k: nat)
    requires p.Sized(|p.z|) && 0 < k <= |p.z|
    ensures Mul(Prefix(p, k - 1), LocalZX(|p.z|, k - 1, p.z[k - 1], p.x[k - 1])) == Prefix(p, k)
  {
    var n := |p.z|;
    var a, b := Prefix(p, k - 1), LocalZX(n, k - 1, p.z[k - 1], p.x[k - 1]);
    NoPower(a, b, n);
    hide HalfUpTo, OddUpTo;
    var l, r := Mul(a, b), Prefix(p, k);
    assert l.z == r.z && l.x == r.x;
  }

  lemma {:induction false} IdentityImageUpTo(p: Pauli, k: nat)
    requires p.Sized(|p.z|) && k <= |p.z|
    ensures ImageUpTo(IdentityRows(|p.z|), p, k) == Prefix(p, k)
  {
    hide Mul, Pick, ZAt, XAt, LocalZX;
    var n := |p.z|;
    if k == 0 {
      assert Prefix(p, 0) == Flip(Identity(n), p.neg);
    } else {
      hide Prefix;
      IdentityImageUpTo(p, k - 1);
      LocalProduct(n, k - 1, p.z[k - 1], p.x[k - 1]);
      PrefixStep(p, k);
    }
  }

  lemma {:induction false} IdentityImage(p: Pauli)
    requires p.Sized(|p.z|)
    ensures Image(IdentityRows(|p.z|), p) == p
  {
    hide ImageUpTo;
    IdentityImageUpTo(p, |p.z|);
    WholePrefix(p);
  }

  lemma {:induction false} WholePrefix(p: Pauli)
    requires p.Sized(|p.z|)
    ensures Prefix(p, |p.z|) == p
  {
    assert Prefix(p, |p.z|).z == p.z && Prefix(p, |p.z|).x == p.x;
  }

  lemma {:induction false} RunIdentity(gs: seq<Gate>, n: nat, neg: bool)
    ensures Run(gs, Flip(Identity(n), neg)) == Flip(Identity(n), neg)
  {
    if gs != [] {
      var p := Flip(Identity(n), neg);
      var r := Conj(gs[0], p);
      assert r.z == p.z && r.x == p.x;
      RunIdentity(gs[1..], n, neg);
    }
  }

  lemma RunPick(gs: seq<Gate>, b: bool, p: Pauli)
    requires p.Sized(|p.z|)
    ensures Run(gs, Pick(b, p)) == Pick(b, Run(gs, p))
  {
    RunIdentity(gs, |p.z|, false);
  }

  /** A gate string applied to an image is the image under the updated tableau. */
  lemma {:induction false} RunImageUpTo(gs: seq<Gate>, rows: seq<Pauli>, p: Pauli, k: nat)
    requires p.Sized(|p.z|) && Shaped(rows, |p.z|) && k <= |p.z| && ProperAll(gs, |p.z|)
    ensures Run(gs, ImageUpTo(rows, p, k)) == ImageUpTo(MapGates(gs, rows), p, k)
  {
    hide Run, Mul;
    var n := |p.z|;
    if k == 0 {
      RunIdentity(gs, n, p.neg);
    } else {
      var a, b := Pick(p.z[k - 1], rows[k - 1]), Pick(p.x[k - 1], rows[k - 1 + n]);
      MulSized(a, b, n);
      RunImageUpTo(gs, rows, p, k - 1);
      RunMul(gs, ImageUpTo(rows, p, k - 1), Mul(a, b));
      RunMul(gs, a, b);
      RunPick(gs, p.z[k - 1], rows[k - 1]);
      RunPick(gs, p.x[k - 1], rows[k - 1 + n]);
    }
  }

  /** The tableau of a string determines the string's action on every Pauli product. */
  lemma TableauDetermines(ops: seq<Op>, p: Pauli)
    requires p.Sized(|p.z|) && WellFormedAll(ops, |p.z|)
    ensures ApplyAll(ops, p) == Image(TableauOf(ops, |p.z|), p)
  {
    hide Mul, Run, ApplyAll, ImageUpTo;
    var n := |p.z|;
    var gs, id := ExpandAll(ops), IdentityRows(n);
    ExpandAllProper(ops, n);
    IdentityImage(p);
    RunImageUpTo(gs, id, p, n);
    ApplyAllIsRun(ops, p);
    forall i | 0 <= i < 2 * n
      ensures ApplyAll(ops, id[i]) == Run(gs, id[i])
    {
      ApplyAllIsRun(ops, id[i]);
    }
    assert MapGates(gs, id) == TableauOf(ops, n);
  }

  /** Two strings with equal tableaux act equally on every Pauli product. */
  lemma EqualTableauxActEqually(ops: seq<Op>, ops': seq<Op>, p: Pauli)
    requires p.Sized(|p.z|) && WellFormedAll(ops, |p.z|) && WellFormedAll(ops', |p.z|)
    requires TableauOf(ops, |p.z|) == TableauOf(ops', |p.z|)
    ensures ApplyAll(ops, p) == ApplyAll(ops', p)
  {
    TableauDetermines(ops, p);
    TableauDetermines(ops', p);
  }

  lemma MapOpsAppend(ops: seq<Op>, more: seq<Op>, rows: seq<Pauli>, n: nat)
    requires Shaped(rows, n)
    ensures MapOps(ops + more, rows) == MapOps(more, MapOps(ops, rows))
  {
    forall i | 0 <= i < |rows|
      ensures ApplyAll(ops + more, rows[i]) == ApplyAll(more, ApplyAll(ops, rows[i]))
    {
      ApplyAllAppend(ops, more, rows[i]);
    }
  }

  /** Applying a string and then its adjoint gives every tableau back. */
  lemma MapOpsAdjoint(ops: seq<Op>, rows: seq<Pauli>, n: nat)
    requires Shaped(rows, n) && WellFormedAll(ops, n)
    ensures MapOps(AdjointAll(ops), MapOps(ops, rows)) == rows
  {
    forall i | 0 <= i < |rows|
      ensures ApplyAll(AdjointAll(ops), ApplyAll(ops, rows[i])) == rows[i]
    {
      AdjointAllUndoes(ops, rows[i]);
    }
  }

  // ---------------------------------------------------------------- commutation relations

  lemma SymplecticMap(ops: seq<Op>, rows: seq<Pauli>, n: nat)
    requires Symplectic(rows, n) && WellFormedAll(ops, n)
    ensures Symplectic(MapOps(ops, rows), n)
  {
    var r := MapOps(ops, rows);
    forall i: nat, j: nat | i < 2 * n && j < 2 * n
      ensures Commute(r[i], r[j]) <==> !Partners(i, j, n)
    {
      ApplyAllCommute(ops, rows[i], rows[j]);
      assert Commute(rows[i], rows[j]) <==> !Partners(i, j, n);
    }
  }

  lemma BasisCommute(i: nat, j: nat, n: nat)
    requires i < 2 * n && j < 2 * n
    ensures Commute(BasisRow(i, n), BasisRow(j, n)) <==> !Partners(i, j, n)
  {
    var a, b := BasisRow(i, n), BasisRow(j, n);
    if Partners(i, j, n) {
      OnlyPowerAt(a, b, if i < n then i else j, n);
    } else {
      NoOdd(a, b, n);
    }
  }

  lemma {:induction false} NoOdd(a: Pauli, b: Pauli, k: nat)
    requires a.Sized(|a.z|) && b.Sized(|a.z|) && k <= |a.z|
    requires forall i :: 0 <= i < k ==> !OddAt(a, b, i)
    ensures !OddUpTo(a, b, k)
  {
    if k > 0 {
      NoOdd(a, b, k - 1);
    }
  }

  /** Every tableau that operators can build has the commutation relations. */
  lemma TableauOfIsSymplectic(ops: seq<Op>, n: nat)
    requires WellFormedAll(ops, n)
    ensures Symplectic(TableauOf(ops, n), n)
  {
    var id := IdentityRows(n);
    forall i: nat, j: nat | i < 2 * n && j < 2 * n
      ensures Commute(id[i], id[j]) <==> !Partners(i, j, n)
    {
      BasisCommute(i, j, n);
    }
    SymplecticMap(ops, id, n);
  }
}
