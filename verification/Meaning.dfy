/** The meaning of a program of operators, tableaux and Pauli rotations: the expectation of
    every Pauli observable after it, for every initial state. It fixes the program's unitary
    up to a global phase. */
module Meaning {
  import opened Paulis
  import opened Operators
  import opened Tableaux

  // ---------------------------------------------------------------- phases

  /** In units of pi. */
  type Phase = real

  function CFloor(q: real): int {
    if q >= 0.0 then q.Floor else -((-q).Floor + 1)
  }

  /** q and k whole turns. */
  function Turn(q: Phase, k: int): Phase {
    q + 2.0 * k as real
  }

  /** The representative modulo 2 in (-1, 1]. */
  function Normalize(q: Phase): (r: Phase)
    ensures -1.0 < r <= 1.0
    ensures exists k: int :: r == Turn(q, k)
  {
    var m := CFloor(q / 2.0);
    var s := q - 2.0 * m as real;
    assert s == Turn(q, -m);
    if s > 1.0 then
      assert s - 2.0 == Turn(q, -m - 1);
      s - 2.0
    else s
  }

  /** The cosine and sine of pi times a phase, by the laws the proofs use. */
  datatype Trig = Trig(c: Phase -> real, s: Phase -> real)

  ghost predicate AddLaw(t: Trig, a: Phase, b: Phase) {
    && t.c(a + b) == t.c(a) * t.c(b) - t.s(a) * t.s(b)
    && t.s(a + b) == t.s(a) * t.c(b) + t.c(a) * t.s(b)
  }

  ghost predicate MirrorLaw(t: Trig, a: Phase) {
    t.c(-a) == t.c(a) && t.s(-a) == -t.s(a)
  }

  ghost predicate IsTrig(t: Trig) {
    && t.c(0.0) == 1.0 && t.s(0.0) == 0.0
    && t.c(0.5) == 0.0 && t.s(0.5) == 1.0
    && (forall a, b :: AddLaw(t, a, b))
    && (forall a :: MirrorLaw(t, a))
  }

  lemma HalfTurn(t: Trig)
    requires IsTrig(t)
    ensures t.c(1.0) == -1.0 && t.s(1.0) == 0.0
    ensures t.c(2.0) == 1.0 && t.s(2.0) == 0.0
  {
    assert AddLaw(t, 0.5, 0.5);
    assert AddLaw(t, 1.0, 1.0);
  }

  lemma {:induction false} WholeTurns(t: Trig, a: Phase, k: nat)
    requires IsTrig(t)
    ensures t.c(Turn(a, k)) == t.c(a) && t.s(Turn(a, k)) == t.s(a)
  {
    if k == 0 {
      assert Turn(a, k) == a;
    } else {
      WholeTurns(t, a, k - 1);
      HalfTurn(t);
      assert AddLaw(t, Turn(a, k - 1), 2.0);
      assert Turn(a, k - 1) + 2.0 == Turn(a, k);
    }
  }

  lemma NormalizeKeeps(t: Trig, a: Phase)
    requires IsTrig(t)
    ensures t.c(Normalize(a)) == t.c(a) && t.s(Normalize(a)) == t.s(a)
  {
    var r := Normalize(a);
    var k: int :| r == Turn(a, k);
    if k >= 0 {
      WholeTurns(t, a, k);
    } else {
      WholeTurns(t, r, -k);
      assert Turn(r, -k) == a;
    }
  }

  // ---------------------------------------------------------------- programs

  datatype Item = Do(op: Op) | Table(rows: seq<Pauli>) | Rotate(p: Pauli, phase: Phase)

  ghost predicate ItemOk(i: Item, n: nat) {
    match i
    case Do(op) => WellFormed(op, n)
    case Table(rows) => exists ops :: WellFormedAll(ops, n) && rows == TableauOf(ops, n)
    case Rotate(p, _) => p.Sized(n)
  }

  ghost predicate Ok(w: seq<Item>, n: nat) {
    forall i :: 0 <= i < |w| ==> ItemOk(w[i], n)
  }

  /** The Pauli product that the operator with tableau rows takes to q. */
  function InverseImage(rows: seq<Pauli>, q: Pauli): (r: Pauli)
    requires q.Sized(|q.z|) && Shaped(rows, |q.z|)
    ensures r.Sized(|q.z|)
  {
    var n := |q.z|;
    var p := Pauli(seq(n, i requires 0 <= i < n => !Commute(q, rows[i + n])),
                   seq(n, i requires 0 <= i < n => !Commute(q, rows[i])), false);
    if Image(rows, p) == q then p else p.Negate()
  }

  /** e0 gives the expectation of every Pauli product in the initial state. */
  ghost predicate State(e0: Pauli -> real) {
    forall q :: Opposite(e0, q)
  }

  ghost predicate Opposite(e0: Pauli -> real, q: Pauli) {
    e0(q.Negate()) == -e0(q)
  }

  /** Expectation of q after w. A gate takes q back through its adjoint; a rotation about an
      anticommuting p mixes q with p * q. */
  ghost function Expect(t: Trig, e0: Pauli -> real, w: seq<Item>, q: Pauli): real
    requires q.Sized(|q.z|) && Ok(w, |q.z|)
  {
    if w == [] then e0(q)
    else
      var before := w[..|w| - 1];
      match w[|w| - 1]
      case Do(op) => Expect(t, e0, before, Apply(Adjoint(op), q))
      case Table(rows) => Expect(t, e0, before, InverseImage(rows, q))
      case Rotate(p, phase) =>
        if Commute(p, q) then Expect(t, e0, before, q)
        else t.c(phase) * Expect(t, e0, before, q) - t.s(phase) * Expect(t, e0, before, Mul(p, q))
  }

  /** Both programs give every observable the same expectation, from every initial state. */
  ghost predicate Same(n: nat, v: seq<Item>, w: seq<Item>) {
    && Ok(v, n) && Ok(w, n)
    && forall t: Trig, e0: Pauli -> real, q: Pauli :: IsTrig(t) && State(e0) && q.Sized(n) ==>
         Expect(t, e0, v, q) == Expect(t, e0, w, q)
  }

  function Gates(ops: seq<Op>): (w: seq<Item>)
    ensures |w| == |ops| && forall i :: 0 <= i < |ops| ==> w[i] == Do(ops[i])
  {
    seq(|ops|, i requires 0 <= i < |ops| => Do(ops[i]))
  }

  lemma GatesOk(ops: seq<Op>, n: nat)
    requires WellFormedAll(ops, n)
    ensures Ok(Gates(ops), n)
  {
  }
}
