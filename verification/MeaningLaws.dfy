/** Laws of program meaning: equivalence, contexts, and the rewriting rules the passes use. */
module MeaningLaws {
  import opened Paulis
  import opened Operators
  import opened Tableaux
  import opened Meaning

  // ---------------------------------------------------------------- products

  /** p times p * q is q, negated, when p and q anticommute. */
  lemma MulTwice(p: Pauli, q: Pauli)
    requires p.Sized(|p.z|) && q.Sized(|p.z|) && !Commute(p, q)
    ensures Mul(p, Mul(p, q)) == q.Negate()
  {
    var n := |p.z|;
    var pp, pq := Mul(p, p), Mul(p, q);
    PowerCocycle(p, p, q, pp, pq, n);
    NoOdd(p, p, n);
    PowerSwap(p, p, n);
    NoPower(pp, q, n);
    assert HalfUpTo(p, p, n) == false by { SelfPower(p, n); }
    var r := Mul(p, pq);
    assert r.z == q.z && r.x == q.x;
    CommuteMul(p, p, q);
  }

  lemma {:induction false} SelfPower(p: Pauli, k: nat)
    requires p.Sized(|p.z|) && k <= |p.z|
    ensures !OddUpTo(p, p, k) && !HalfUpTo(p, p, k)
  {
    if k > 0 {
      SelfPower(p, k - 1);
    }
  }

  /** Commuting p and q that both anticommute with r can be multiplied onto it in either order. */
  lemma MulExchange(p: Pauli, q: Pauli, r: Pauli)
    requires p.Sized(|p.z|) && q.Sized(|p.z|) && r.Sized(|p.z|)
    requires Commute(p, q) && !Commute(p, r) && !Commute(q, r)
    ensures Mul(p, Mul(q, r)) == Mul(q, Mul(p, r))
  {
    var n := |p.z|;
    PowerCocycle(p, q, r, Mul(p, q), Mul(q, r), n);
    PowerCocycle(q, p, r, Mul(q, p), Mul(p, r), n);
    MulSwap(p, q);
    PowerSwap(p, q, n);
    CommuteMul(p, q, r);
    CommuteMul(q, p, r);
    CommuteSymmetric(p, q);
    hide HalfUpTo, OddUpTo;
    var a, b := Mul(p, Mul(q, r)), Mul(q, Mul(p, r));
    assert a.z == b.z && a.x == b.x;
  }

  // ---------------------------------------------------------------- expectation

  lemma OkPrefix(w: seq<Item>, n: nat)
    requires w != [] && Ok(w, n)
    ensures Ok(w[..|w| - 1], n) && ItemOk(w[|w| - 1], n)
  {
  }

  lemma OkAppend(v: seq<Item>, w: seq<Item>, n: nat)
    requires Ok(v, n) && Ok(w, n)
    ensures Ok(v + w, n)
  {
  }

  /** Commutation with the images of Z_i and X_i reads off the bits of the preimage p. */
  lemma PreimageBits(ops: seq<Op>, p: Pauli, i: nat, n: nat)
    requires p.Sized(n) && WellFormedAll(ops, n) && i < n
    ensures Commute(ApplyAll(ops, p), TableauOf(ops, n)[i]) == !p.x[i]
    ensures Commute(ApplyAll(ops, p), TableauOf(ops, n)[i + n]) == !p.z[i]
  {
    hide ApplyAll;
    ApplyAllCommute(ops, p, BasisRow(i, n));
    ApplyAllCommute(ops, p, BasisRow(i + n, n));
    OnlyPowerAt(p, BasisRow(i, n), i, n);
    OnlyPowerAt(p, BasisRow(i + n, n), i, n);
  }

  /** The tableau's inverse image is the adjoint string's action. */
  lemma InverseImageIsAdjoint(ops: seq<Op>, q: Pauli)
    requires q.Sized(|q.z|) && WellFormedAll(ops, |q.z|)
    ensures InverseImage(TableauOf(ops, |q.z|), q) == ApplyAll(AdjointAll(ops), q)
  {
    hide ApplyAll, Image, Mul, Commute, TableauOf;
    var n := |q.z|;
    var rows, p := TableauOf(ops, n), ApplyAll(AdjointAll(ops), q);
    AdjointAllUndone(ops, q);
    var r := Pauli(seq(n, i requires 0 <= i < n => !Commute(q, rows[i + n])),
                   seq(n, i requires 0 <= i < n => !Commute(q, rows[i])), false);
    forall i | 0 <= i < n
      ensures r.z[i] == p.z[i] && r.x[i] == p.x[i]
    {
      PreimageBits(ops, p, i, n);
    }
    assert r.z == p.z && r.x == p.x;
    TableauDetermines(ops, r);
    if p != r {
      assert p == r.Negate();
      ApplyAllNegate(ops, r);
    }
  }

  lemma ApplyAdjointNegate(op: Op, q: Pauli)
    requires q.Sized(|q.z|)
    ensures Apply(Adjoint(op), q.Negate()) == Apply(Adjoint(op), q).Negate()
  {
    RunNegate(Expand(Adjoint(op)), q);
  }

  lemma InverseImageNegate(rows: seq<Pauli>, q: Pauli, n: nat)
    requires q.Sized(n) && ItemOk(Table(rows), n)
    ensures InverseImage(rows, q.Negate()) == InverseImage(rows, q).Negate()
  {
    hide InverseImage;
    var ops :| WellFormedAll(ops, n) && rows == TableauOf(ops, n);
    InverseImageIsAdjoint(ops, q);
    InverseImageIsAdjoint(ops, q.Negate());
    ApplyAllNegate(AdjointAll(ops), q);
  }

  lemma {:induction false} OddNegate(p: Pauli, q: Pauli, k: nat)
    requires p.Sized(|p.z|) && q.Sized(|p.z|) && k <= |p.z|
    ensures OddUpTo(p, q.Negate(), k) == OddUpTo(p, q, k) && HalfUpTo(p, q.Negate(), k) == HalfUpTo(p, q, k)
    ensures OddUpTo(p.Negate(), q, k) == OddUpTo(p, q, k) && HalfUpTo(p.Negate(), q, k) == HalfUpTo(p, q, k)
  {
    if k > 0 {
      OddNegate(p, q, k - 1);
    }
  }

  lemma {:induction false} ExpectLast(t: Trig, e0: Pauli -> real, w: seq<Item>, before: seq<Item>, i: Item, q: Pauli)
    requires q.Sized(|q.z|) && Ok(w, |q.z|) && w == before + [i]
    ensures Ok(before, |q.z|) && ItemOk(i, |q.z|)
    ensures Expect(t, e0, w, q) ==
            match i
            case Do(op) => Expect(t, e0, before, Apply(Adjoint(op), q))
            case Table(rows) => Expect(t, e0, before, InverseImage(rows, q))
            case Rotate(p, phase) =>
              if Commute(p, q) then Expect(t, e0, before, q)
              else t.c(phase) * Expect(t, e0, before, q) - t.s(phase) * Expect(t, e0, before, Mul(p, q))
  {
    hide Apply, InverseImage, Mul, Commute;
    assert w[..|w| - 1] == before && w[|w| - 1] == i;
    OkPrefix(w, |q.z|);
  }

  lemma {:induction false} NegateOverRotation(t: Trig, e0: Pauli -> real, w: seq<Item>, before: seq<Item>, p: Pauli, a: Phase, q: Pauli)
    requires q.Sized(|q.z|) && Ok(w, |q.z|) && w == before + [Rotate(p, a)] && p.Sized(|q.z|) && Ok(before, |q.z|)
    requires Mul(p, q).Sized(|q.z|)
    requires Expect(t, e0, before, q.Negate()) == -Expect(t, e0, before, q)
    requires Expect(t, e0, before, Mul(p, q).Negate()) == -Expect(t, e0, before, Mul(p, q))
    ensures Expect(t, e0, w, q.Negate()) == -Expect(t, e0, w, q)
  {
    hide Ok, Commute, Mul, Expect;
    NegatedFactor(p, q);
    ExpectLast(t, e0, w, before, Rotate(p, a), q);
    ExpectLast(t, e0, w, before, Rotate(p, a), q.Negate());
    NegatedSum(t.c(a), t.s(a), Expect(t, e0, before, q), Expect(t, e0, before, Mul(p, q)));
  }

  lemma NegatedSum(c: real, s: real, a: real, b: real)
    ensures c * -a - s * -b == -(c * a - s * b)
  {
  }

  /** Opposite observables have opposite expectations after every program. */
  lemma {:induction false} ExpectNegate(t: Trig, e0: Pauli -> real, w: seq<Item>, q: Pauli)
    requires q.Sized(|q.z|) && Ok(w, |q.z|) && State(e0)
    ensures Expect(t, e0, w, q.Negate()) == -Expect(t, e0, w, q)
    decreases |w|
  {
    hide Apply, InverseImage, Ok, Commute, Mul;
    if w == [] {
      assert Opposite(e0, q);
    } else {
      hide Expect, State;
      OkPrefix(w, |q.z|);
      var before, last := w[..|w| - 1], w[|w| - 1];
      match last {
        case Do(op) =>
          ExpectLast(t, e0, w, before, last, q);
          ExpectLast(t, e0, w, before, last, q.Negate());
          ApplyAdjointNegate(op, q);
          ExpectNegate(t, e0, before, Apply(Adjoint(op), q));
        case Table(rows) =>
          ExpectLast(t, e0, w, before, last, q);
          ExpectLast(t, e0, w, before, last, q.Negate());
          InverseImageNegate(rows, q, |q.z|);
          ExpectNegate(t, e0, before, InverseImage(rows, q));
        case Rotate(p, phase) =>
          NegatedFactor(p, q);
          ExpectNegate(t, e0, before, q);
          ExpectNegate(t, e0, before, Mul(p, q));
          NegateOverRotation(t, e0, w, before, p, phase, q);
      }
    }
  }

  lemma {:induction false} NegatedFactor(p: Pauli, q: Pauli)
    requires p.Sized(|p.z|) && q.Sized(|p.z|)
    ensures Mul(p, q).Sized(|p.z|) && Mul(p, q.Negate()) == Mul(p, q).Negate() && Commute(p, q.Negate()) == Commute(p, q)
  {
    OddNegate(p, q, |p.z|);
  }

  /** The state after u, as a state. */
  ghost function After(t: Trig, e0: Pauli -> real, u: seq<Item>, n: nat): Pauli -> real
    requires Ok(u, n)
  {
    (q: Pauli) => if q.Sized(n) then Expect(t, e0, u, q) else 0.0
  }

  lemma AfterIsState(t: Trig, e0: Pauli -> real, u: seq<Item>, n: nat)
    requires Ok(u, n) && State(e0)
    ensures State(After(t, e0, u, n))
  {
    hide Expect;
    forall q: Pauli
      ensures Opposite(After(t, e0, u, n), q)
    {
      if q.Sized(n) {
        ExpectNegate(t, e0, u, q);
      }
    }
  }

  /** Running u and then v is running v from the state after u. */
  lemma {:induction false} ExpectAppend(t: Trig, e0: Pauli -> real, u: seq<Item>, v: seq<Item>, q: Pauli)
    requires q.Sized(|q.z|) && Ok(u, |q.z|) && Ok(v, |q.z|)
    ensures Ok(u + v, |q.z|)
    ensures Expect(t, e0, u + v, q) == Expect(t, After(t, e0, u, |q.z|), v, q)
    decreases |v|
  {
    hide Apply, InverseImage, Mul, Commute, Ok;
    OkAppend(u, v, |q.z|);
    if v == [] {
      assert u + v == u;
    } else {
      hide Expect;
      var before, last := v[..|v| - 1], v[|v| - 1];
      assert v == before + [last] && u + v == (u + before) + [last];
      ExpectLast(t, e0, u + v, u + before, last, q);
      ExpectLast(t, After(t, e0, u, |q.z|), v, before, last, q);
      match last {
        case Do(op) => ExpectAppend(t, e0, u, before, Apply(Adjoint(op), q));
        case Table(rows) => ExpectAppend(t, e0, u, before, InverseImage(rows, q));
        case Rotate(p, phase) =>
          MulSized(p, q, |q.z|);
          ExpectAppend(t, e0, u, before, q);
          ExpectAppend(t, e0, u, before, Mul(p, q));
      }
    }
  }

  // ---------------------------------------------------------------- equivalence

  lemma SameRefl(n: nat, w: seq<Item>)
    requires Ok(w, n)
    ensures Same(n, w, w)
  {
  }

  lemma SameSym(n: nat, v: seq<Item>, w: seq<Item>)
    requires Same(n, v, w)
    ensures Same(n, w, v)
  {
  }

  lemma SameTrans(n: nat, u: seq<Item>, v: seq<Item>, w: seq<Item>)
    requires Same(n, u, v) && Same(n, v, w)
    ensures Same(n, u, w)
  {
    hide Expect;
    forall t: Trig, e0: Pauli -> real, q: Pauli | IsTrig(t) && State(e0) && q.Sized(n)
      ensures Expect(t, e0, u, q) == Expect(t, e0, w, q)
    {
      assert Expect(t, e0, u, q) == Expect(t, e0, v, q);
    }
  }

  /** Same programs stay the same in every context. */
  lemma SameInContext(n: nat, u: seq<Item>, v: seq<Item>, v': seq<Item>, w: seq<Item>)
    requires Ok(u, n) && Ok(w, n) && Same(n, v, v')
    ensures Same(n, u + v + w, u + v' + w)
  {
    hide Expect, After;
    OkAppend(u, v, n);
    OkAppend(u, v', n);
    OkAppend(u + v, w, n);
    OkAppend(u + v', w, n);
    forall t: Trig, e0: Pauli -> real, q: Pauli | IsTrig(t) && State(e0) && q.Sized(n)
      ensures Expect(t, e0, u + v + w, q) == Expect(t, e0, u + v' + w, q)
    {
      ExpectAppend(t, e0, u + v, w, q);
      ExpectAppend(t, e0, u + v', w, q);
      SameFromHere(t, e0, n, u, v, v');
      ExpectFrom(t, After(t, e0, u + v, n), After(t, e0, u + v', n), w, q);
    }
  }

  lemma SameFromHere(t: Trig, e0: Pauli -> real, n: nat, u: seq<Item>, v: seq<Item>, v': seq<Item>)
    requires IsTrig(t) && State(e0) && Ok(u, n) && Same(n, v, v') && Ok(u + v, n) && Ok(u + v', n)
    ensures forall q: Pauli :: q.Sized(n) ==> After(t, e0, u + v, n)(q) == After(t, e0, u + v', n)(q)
  {
    hide Expect;
    AfterIsState(t, e0, u, n);
    forall q: Pauli | q.Sized(n)
      ensures After(t, e0, u + v, n)(q) == After(t, e0, u + v', n)(q)
    {
      ExpectAppend(t, e0, u, v, q);
      ExpectAppend(t, e0, u, v', q);
    }
  }

  /** Expectations depend on the initial state only through its values. */
  lemma {:induction false} ExpectFrom(t: Trig, e: Pauli -> real, e': Pauli -> real, w: seq<Item>, q: Pauli)
    requires q.Sized(|q.z|) && Ok(w, |q.z|)
    requires forall r: Pauli :: r.Sized(|q.z|) ==> e(r) == e'(r)
    ensures Expect(t, e, w, q) == Expect(t, e', w, q)
    decreases |w|
  {
    hide Apply, InverseImage, Mul, Commute;
    if w != [] {
      OkPrefix(w, |q.z|);
      var before := w[..|w| - 1];
      match w[|w| - 1] {
        case Do(op) => ExpectFrom(t, e, e', before, Apply(Adjoint(op), q));
        case Table(rows) => ExpectFrom(t, e, e', before, InverseImage(rows, q));
        case Rotate(p, phase) =>
          MulSized(p, q, |q.z|);
          ExpectFrom(t, e, e', before, q);
          ExpectFrom(t, e, e', before, Mul(p, q));
      }
    }
  }

  // ---------------------------------------------------------------- rewriting rules

  /** The expectation of q after one item, from the expectations e before it. */
  ghost function ExpectItem(t: Trig, e: Pauli -> real, i: Item, q: Pauli): real
    requires q.Sized(|q.z|) && ItemOk(i, |q.z|)
  {
    match i
    case Do(op) => e(Apply(Adjoint(op), q))
    case Table(rows) => e(InverseImage(rows, q))
    case Rotate(p, phase) => if Commute(p, q) then e(q) else t.c(phase) * e(q) - t.s(phase) * e(Mul(p, q))
  }

  lemma ExpectOne(t: Trig, e0: Pauli -> real, i: Item, q: Pauli)
    requires q.Sized(|q.z|) && ItemOk(i, |q.z|)
    ensures Ok([i], |q.z|)
    ensures Expect(t, e0, [i], q) == ExpectItem(t, e0, i, q)
  {
    hide Apply, InverseImage, Mul, Commute;
    assert [i][..0] == [];
  }

  lemma ExpectTwo(t: Trig, e0: Pauli -> real, i: Item, j: Item, q: Pauli)
    requires q.Sized(|q.z|) && ItemOk(i, |q.z|) && ItemOk(j, |q.z|)
    ensures Ok([i], |q.z|) && Ok([i, j], |q.z|)
    ensures Expect(t, e0, [i, j], q) == ExpectItem(t, After(t, e0, [i], |q.z|), j, q)
  {
    hide ExpectItem;
    assert [i, j] == [i] + [j];
    ExpectAppend(t, e0, [i], [j], q);
    ExpectOne(t, After(t, e0, [i], |q.z|), j, q);
  }

  lemma MulOnto(p: Pauli, q: Pauli, r: Pauli)
    requires p.Sized(|p.z|) && q.Sized(|p.z|) && r.Sized(|p.z|) && Commute(p, q)
    ensures Commute(p, Mul(q, r)) == Commute(p, r)
  {
    CommuteMul(p, q, r);
  }

  lemma MixedTerms(a: real, b: real, c: real, d: real, w: real, x: real, y: real, z: real)
    ensures c * (a * w - b * x) - d * (a * y - b * z) == a * (c * w - d * y) - b * (c * x - d * z)
  {
  }

  /** Rotations about commuting Paulis can be swapped. */
  lemma SwapRotations(n: nat, p: Pauli, a: Phase, q: Pauli, b: Phase)
    requires p.Sized(n) && q.Sized(n) && Commute(p, q)
    ensures Same(n, [Rotate(p, a), Rotate(q, b)], [Rotate(q, b), Rotate(p, a)])
  {
    hide Mul, Commute, Expect;
    CommuteSymmetric(p, q);
    var i, j := Rotate(p, a), Rotate(q, b);
    forall t: Trig, e: Pauli -> real, r: Pauli | IsTrig(t) && State(e) && r.Sized(n)
      ensures Ok([i, j], n) && Ok([j, i], n) && Expect(t, e, [i, j], r) == Expect(t, e, [j, i], r)
    {
      MulSized(p, r, n);
      MulSized(q, r, n);
      ExpectTwo(t, e, i, j, r);
      ExpectTwo(t, e, j, i, r);
      ExpectOne(t, e, i, r);
      ExpectOne(t, e, j, r);
      ExpectOne(t, e, i, Mul(q, r));
      ExpectOne(t, e, j, Mul(p, r));
      MulOnto(p, q, r);
      MulOnto(q, p, r);
      if !Commute(p, r) && !Commute(q, r) {
        MulExchange(p, q, r);
        MixedTerms(t.c(a), t.s(a), t.c(b), t.s(b), e(r), e(Mul(p, r)), e(Mul(q, r)), e(Mul(p, Mul(q, r))));
      }
    }
    TwoOk(i, j, n);
    TwoOk(j, i, n);
  }

  lemma TwoOk(i: Item, j: Item, n: nat)
    requires ItemOk(i, n) && ItemOk(j, n)
    ensures Ok([i, j], n) && Ok([i], n)
  {
  }

  lemma TurnTwice(t: Trig, a: Phase, b: Phase, x: real, y: real)
    requires IsTrig(t)
    ensures t.c(b) * (t.c(a) * x - t.s(a) * y) - t.s(b) * (t.c(a) * y - t.s(a) * (-x)) ==
            t.c(a + b) * x - t.s(a + b) * y
  {
    assert AddLaw(t, a, b);
  }

  /** Rotations about the same Pauli add up. */
  lemma MergeRotations(n: nat, p: Pauli, a: Phase, b: Phase)
    requires p.Sized(n)
    ensures Same(n, [Rotate(p, a), Rotate(p, b)], [Rotate(p, Normalize(a + b))])
  {
    hide Mul, Commute, Expect, Normalize;
    var i, j, k := Rotate(p, a), Rotate(p, b), Rotate(p, Normalize(a + b));
    TwoOk(i, j, n);
    TwoOk(k, k, n);
    forall t: Trig, e: Pauli -> real, r: Pauli | IsTrig(t) && State(e) && r.Sized(n)
      ensures Expect(t, e, [i, j], r) == Expect(t, e, [k], r)
    {
      MulSized(p, r, n);
      ExpectTwo(t, e, i, j, r);
      ExpectOne(t, e, i, r);
      ExpectOne(t, e, k, r);
      ExpectOne(t, e, i, Mul(p, r));
      NormalizeKeeps(t, a + b);
      if !Commute(p, r) {
        MulTwice(p, r);
        assert Opposite(e, r);
        CommuteMul(p, p, r);
        CommuteSelf(p);
        TurnTwice(t, a, b, e(r), e(Mul(p, r)));
      }
    }
  }

  lemma CommuteSelf(p: Pauli)
    requires p.Sized(|p.z|)
    ensures Commute(p, p)
  {
    SelfPower(p, |p.z|);
  }

  /** A rotation by no phase does nothing. */
  lemma DropZeroRotation(n: nat, p: Pauli)
    requires p.Sized(n)
    ensures Same(n, [Rotate(p, 0.0)], [])
  {
    hide Mul, Commute;
    TwoOk(Rotate(p, 0.0), Rotate(p, 0.0), n);
    forall t: Trig, e: Pauli -> real, r: Pauli | IsTrig(t) && State(e) && r.Sized(n)
      ensures Expect(t, e, [Rotate(p, 0.0)], r) == Expect(t, e, [], r)
    {
      ExpectOne(t, e, Rotate(p, 0.0), r);
    }
  }

  /** A rotation about the identity is a global phase. */
  lemma DropIdentityRotation(n: nat, p: Pauli, a: Phase)
    requires p.Sized(n) && p.IsIdentity()
    ensures Same(n, [Rotate(p, a)], [])
  {
    TwoOk(Rotate(p, a), Rotate(p, a), n);
    forall t: Trig, e: Pauli -> real, r: Pauli | IsTrig(t) && State(e) && r.Sized(n)
      ensures Expect(t, e, [Rotate(p, a)], r) == Expect(t, e, [], r)
    {
      ExpectOne(t, e, Rotate(p, a), r);
      NoPower(p, r, n);
    }
  }

  /** A rotation about -p is the opposite rotation about p. */
  lemma NegateRotation(n: nat, p: Pauli, a: Phase)
    requires p.Sized(n)
    ensures Same(n, [Rotate(p.Negate(), a)], [Rotate(p, Normalize(-a))])
  {
    hide Mul, Normalize;
    var i, j := Rotate(p.Negate(), a), Rotate(p, Normalize(-a));
    TwoOk(i, j, n);
    TwoOk(j, i, n);
    forall t: Trig, e: Pauli -> real, r: Pauli | IsTrig(t) && State(e) && r.Sized(n)
      ensures Expect(t, e, [i], r) == Expect(t, e, [j], r)
    {
      hide Expect;
      ExpectOne(t, e, i, r);
      ExpectOne(t, e, j, r);
      OddNegate(p, r, n);
      NormalizeKeeps(t, -a);
      MulNegate(p, r);
      assert MirrorLaw(t, a);
      assert Opposite(e, Mul(p, r));
    }
  }

  lemma MulNegate(p: Pauli, r: Pauli)
    requires p.Sized(|p.z|) && r.Sized(|p.z|)
    ensures Mul(p.Negate(), r) == Mul(p, r).Negate()
  {
    OddNegate(p, r, |p.z|);
  }

  /** A rotation moves past a later operator by conjugation. */
  lemma PassOperator(n: nat, p: Pauli, a: Phase, op: Op)
    requires p.Sized(n) && WellFormed(op, n)
    ensures Same(n, [Rotate(p, a), Do(op)], [Do(op), Rotate(Apply(op, p), a)])
  {
    hide Mul, Commute, Expect, Apply;
    var p' := Apply(op, p);
    var i, j, k := Rotate(p, a), Do(op), Rotate(p', a);
    TwoOk(i, j, n);
    TwoOk(j, k, n);
    forall t: Trig, e: Pauli -> real, r: Pauli | IsTrig(t) && State(e) && r.Sized(n)
      ensures Expect(t, e, [i, j], r) == Expect(t, e, [j, k], r)
    {
      var r' := Apply(Adjoint(op), r);
      ApplyMul(op, p, r);
      MulSized(p', r, n);
      ExpectTwo(t, e, i, j, r);
      ExpectOne(t, e, i, r');
      ExpectTwo(t, e, j, k, r);
      ExpectOne(t, e, j, r);
      ExpectOne(t, e, j, Mul(p', r));
    }
  }

  /** Taking the adjoint action through a product with a conjugated Pauli. */
  lemma ApplyMul(op: Op, p: Pauli, r: Pauli)
    requires p.Sized(|p.z|) && r.Sized(|p.z|) && WellFormed(op, |p.z|)
    ensures Apply(op, p).Sized(|p.z|) && Apply(Adjoint(op), r).Sized(|p.z|)
    ensures Commute(Apply(op, p), r) == Commute(p, Apply(Adjoint(op), r))
    ensures Apply(Adjoint(op), Mul(Apply(op, p), r)) == Mul(p, Apply(Adjoint(op), r))
  {
    hide Mul, Commute, Run;
    var ad := Adjoint(op);
    ExpandProper(ad, |p.z|);
    AdjointUndoes(op, p);
    RunMul(Expand(ad), Apply(op, p), r);
    RunCommute(Expand(ad), Apply(op, p), r);
  }

  lemma ExpectNone(t: Trig, e: Pauli -> real, r: Pauli)
    requires r.Sized(|r.z|)
    ensures Expect(t, e, [], r) == e(r)
  {
  }

  /** S, its adjoint and Z are rotations about Z_q. */
  lemma CliffordRotation(n: nat, q: nat, op: Op)
    requires q < n && op.q0 == q && (op.kind.OpS? || op.kind.OpSdg? || op.kind.OpZ?)
    ensures Same(n, [Rotate(ZAt(n, q), if op.kind.OpS? then 0.5 else if op.kind.OpZ? then 1.0 else -0.5)], [Do(op)])
  {
    hide Mul, Commute, Expect, Apply;
    var a := if op.kind.OpS? then 0.5 else if op.kind.OpZ? then 1.0 else -0.5;
    var i, j := Rotate(ZAt(n, q), a), Do(op);
    TwoOk(i, j, n);
    TwoOk(j, i, n);
    forall t: Trig, e: Pauli -> real, r: Pauli | IsTrig(t) && State(e) && r.Sized(n)
      ensures Expect(t, e, [i], r) == Expect(t, e, [j], r)
    {
      ExpectOne(t, e, i, r);
      ExpectOne(t, e, j, r);
      HalfTurn(t);
      assert MirrorLaw(t, 0.5);
      ZCommutes(n, q, r);
      if r.x[q] {
        ZTimes(n, q, r);
      }
      assert Opposite(e, r) && Opposite(e, Mul(ZAt(n, q), r));
      match op.kind {
        case OpS => SdgOnRow(op, r);
        case OpSdg => SdgOnRow(op, r);
        case OpZ => ZOnRow(op, r);
      }
    }
  }

  lemma ZCommutes(n: nat, q: nat, r: Pauli)
    requires q < n && r.Sized(n)
    ensures Commute(ZAt(n, q), r) == !r.x[q]
  {
    OnlyPowerAt(ZAt(n, q), r, q, n);
  }

  /** Z_q times a Pauli with an x bit at q is S conjugation. */
  lemma ZTimes(n: nat, q: nat, r: Pauli)
    requires q < n && r.Sized(n) && r.x[q]
    ensures Mul(ZAt(n, q), r) == Conj(S(q), r)
  {
    OnlyPowerAt(ZAt(n, q), r, q, n);
    hide HalfUpTo;
    var l := Mul(ZAt(n, q), r);
    var s := Conj(S(q), r);
    assert l.z == s.z && l.x == s.x;
  }

  lemma SdgOnRow(op: Op, r: Pauli)
    requires r.Sized(|r.z|) && op.q0 < |r.z| && (op.kind.OpS? || op.kind.OpSdg?)
    ensures Apply(Adjoint(op), r) ==
            if r.x[op.q0] then (if op.kind.OpS? then Conj(S(op.q0), r).Negate() else Conj(S(op.q0), r)) else r
  {
    hide Run;
    var q := op.q0;
    if op.kind.OpS? {
      SdgBits(q, r);
    } else {
      Run1(S(q), r);
    }
    if !r.x[q] {
      assert Conj(S(q), r).z == r.z;
    }
  }

  lemma ZOnRow(op: Op, r: Pauli)
    requires r.Sized(|r.z|) && op.q0 < |r.z| && op.kind.OpZ?
    ensures Apply(Adjoint(op), r) == if r.x[op.q0] then r.Negate() else r
  {
    ZFlips(op.q0, r);
  }
}
