/** Pauli rotations and lists of them: conjugation, reordering, and one-rotation diagonalisation. */
module Rotations {
  import opened Paulis
  import opened Operators
  import opened Tableaux
  import opened Meaning
  import opened MeaningLaws

  // ---------------------------------------------------------------- values

  /** The Pauli product carries no sign and the phase lies in (-1, 1]. */
  datatype Rotation = Rotation(p: Pauli, phase: Phase)

  ghost predicate Proper1(r: Rotation, n: nat) {
    r.p.Sized(n) && !r.p.neg && -1.0 < r.phase <= 1.0
  }

  ghost predicate ProperList(rs: seq<Rotation>, n: nat) {
    forall i :: 0 <= i < |rs| ==> Proper1(rs[i], n)
  }

  /** Moves the sign of p into the phase. */
  function MakeRotation(p: Pauli, phase: Phase): Rotation {
    if p.neg then Rotation(p.Negate(), Normalize(-phase)) else Rotation(p, phase)
  }

  /** Conjugation of a rotation by one gate, sign moved into the phase. */
  function ConjRotation(g: Gate, r: Rotation): Rotation
    requires r.p.Sized(|r.p.z|)
  {
    MakeRotation(Conj(g, r.p), r.phase)
  }

  function RunRotation(gs: seq<Gate>, r: Rotation): (r': Rotation)
    requires r.p.Sized(|r.p.z|)
    ensures r'.p.Sized(|r.p.z|)
  {
    if gs == [] then r
    else
      ConjSized(gs[0], r.p, |r.p.z|);
      RunRotation(gs[1..], ConjRotation(gs[0], r))
  }

  /** Conjugation of a rotation by an operator string. */
  function ApplyRotation(ops: seq<Op>, r: Rotation): Rotation
    requires r.p.Sized(|r.p.z|)
  {
    MakeRotation(ApplyAll(ops, r.p), r.phase)
  }

  function ApplyRotations(ops: seq<Op>, rs: seq<Rotation>): (r: seq<Rotation>)
    requires forall i :: 0 <= i < |rs| ==> rs[i].p.Sized(|rs[i].p.z|)
    ensures |r| == |rs| && forall i :: 0 <= i < |rs| ==> r[i] == ApplyRotation(ops, rs[i])
  {
    seq(|rs|, i requires 0 <= i < |rs| => ApplyRotation(ops, rs[i]))
  }

  function Item1(r: Rotation): Item {
    Rotate(r.p, r.phase)
  }

  function Items(rs: seq<Rotation>): (w: seq<Item>)
    ensures |w| == |rs| && forall i :: 0 <= i < |rs| ==> w[i] == Item1(rs[i])
  {
    seq(|rs|, i requires 0 <= i < |rs| => Item1(rs[i]))
  }

  lemma ItemsOk(rs: seq<Rotation>, n: nat)
    requires ProperList(rs, n)
    ensures Ok(Items(rs), n)
  {
  }

  lemma ItemsAppend(rs: seq<Rotation>, more: seq<Rotation>)
    ensures Items(rs + more) == Items(rs) + Items(more)
  {
  }

  // ---------------------------------------------------------------- signs and conjugation

  lemma NormalizeTwice(a: Phase)
    requires -1.0 < a <= 1.0
    ensures Normalize(-Normalize(-a)) == a && Normalize(a) == a
  {
    NormalizeFixes(a);
    if a == 1.0 {
      NormalizeIs(-1.0, 1.0, 1);
    } else {
      NormalizeFixes(-a);
    }
  }

  /** Two phases in (-1, 1] that differ by whole turns are equal. */
  lemma NormalizeIs(a: Phase, b: Phase, k: int)
    requires -1.0 < b <= 1.0 && b == Turn(a, k)
    ensures Normalize(a) == b
  {
    var r := Normalize(a);
    var j: int :| r == Turn(a, j);
    assert r - b == 2.0 * (j - k) as real;
    assert -1.0 < (j - k) as real < 1.0;
    assert j == k;
  }

  lemma NormalizeFixes(a: Phase)
    requires -1.0 < a <= 1.0
    ensures Normalize(a) == a
  {
    NormalizeIs(a, a, 0);
  }

  lemma MakeRotationProper(p: Pauli, phase: Phase, n: nat)
    requires p.Sized(n) && -1.0 < phase <= 1.0
    ensures Proper1(MakeRotation(p, phase), n)
  {
  }

  /** Moving the sign after every gate comes to the same as moving it once at the end. */
  lemma {:induction false} RunRotationOnce(gs: seq<Gate>, r: Rotation, n: nat)
    requires Proper1(r, n)
    ensures RunRotation(gs, r) == MakeRotation(Run(gs, r.p), r.phase)
  {
    hide Normalize, Conj;
    if gs == [] {
    } else {
      var p := Conj(gs[0], r.p);
      ConjSized(gs[0], r.p, n);
      MakeRotationProper(p, r.phase, n);
      RunRotationOnce(gs[1..], ConjRotation(gs[0], r), n);
      if p.neg {
        assert p.Negate().Negate() == p;
        RunNegate(gs[1..], p.Negate());
        NormalizeTwice(r.phase);
      }
    }
  }

  /** The sign of a Pauli can be moved into the phase. */
  lemma SignIntoPhase(n: nat, p: Pauli, a: Phase)
    requires p.Sized(n)
    ensures Same(n, [Rotate(p, a)], [Item1(MakeRotation(p, a))])
  {
    hide Same, Normalize;
    if p.neg {
      assert p.Negate().Negate() == p;
      NegateRotation(n, p.Negate(), a);
    } else {
      TwoOk(Rotate(p, a), Rotate(p, a), n);
      SameRefl(n, [Rotate(p, a)]);
    }
  }

  lemma GatesCons(ops: seq<Op>)
    requires ops != []
    ensures Gates(ops) == [Do(ops[0])] + Gates(ops[1..])
  {
  }

  lemma SameOk(n: nat, v: seq<Item>, w: seq<Item>)
    requires Same(n, v, w)
    ensures Ok(v, n) && Ok(w, n)
  {
  }

  lemma SameBefore(n: nat, u: seq<Item>, v: seq<Item>, v': seq<Item>)
    requires Ok(u, n) && Same(n, v, v')
    ensures Same(n, u + v, u + v')
  {
    hide Same;
    SameInContext(n, u, v, v', []);
    assert u + v + [] == u + v && u + v' + [] == u + v';
  }

  lemma SameAfter(n: nat, v: seq<Item>, v': seq<Item>, w: seq<Item>)
    requires Ok(w, n) && Same(n, v, v')
    ensures Same(n, v + w, v' + w)
  {
    hide Same;
    SameInContext(n, [], v, v', w);
    assert [] + v + w == v + w && [] + v' + w == v' + w;
  }

  lemma ApplyAllCons(ops: seq<Op>, p: Pauli)
    requires p.Sized(|p.z|)
    ensures ApplyAll(ops, p) == if ops == [] then p else ApplyAll(ops[1..], Apply(ops[0], p))
  {
  }

  lemma ItemsOk1(p: Pauli, a: Phase, ops: seq<Op>, n: nat)
    requires p.Sized(n) && WellFormedAll(ops, n)
    ensures ItemOk(Rotate(p, a), n)
    ensures ops != [] ==> ItemOk(Do(ops[0]), n)
  {
  }

  lemma PassOneMore(n: nat, i: Item, d: Item, k: Item, k': Item, rest: seq<Item>)
    requires Ok([d], n) && Ok(rest, n) && Same(n, [i, d], [d, k]) && Same(n, [k] + rest, rest + [k'])
    ensures Same(n, [i] + ([d] + rest), ([d] + rest) + [k'])
  {
    hide Same, Ok;
    SameAfter(n, [i, d], [d, k], rest);
    SameBefore(n, [d], [k] + rest, rest + [k']);
    assert [i, d] + rest == [i] + ([d] + rest);
    assert [d, k] + rest == [d] + ([k] + rest);
    assert [d] + (rest + [k']) == ([d] + rest) + [k'];
    SameTrans(n, [i] + ([d] + rest), [d, k] + rest, ([d] + rest) + [k']);
  }

  /** A rotation moves past a later string by conjugation. */
  lemma {:induction false} PassStringRaw(n: nat, p: Pauli, a: Phase, ops: seq<Op>)
    requires p.Sized(n) && WellFormedAll(ops, n)
    ensures Same(n, [Rotate(p, a)] + Gates(ops), Gates(ops) + [Rotate(ApplyAll(ops, p), a)])
    decreases |ops|
  {
    hide Same, Apply, ApplyAll, Ok, ItemOk;
    var i := Rotate(p, a);
    ItemsOk1(p, a, ops, n);
    ApplyAllCons(ops, p);
    TwoOk(i, i, n);
    if ops == [] {
      assert [i] + Gates(ops) == [i] && Gates(ops) + [i] == [i];
      SameRefl(n, [i]);
    } else {
      var d, p' := Do(ops[0]), Apply(ops[0], p);
      GatesCons(ops);
      GatesOk(ops[1..], n);
      TwoOk(d, i, n);
      PassOperator(n, p, a, ops[0]);
      PassStringRaw(n, p', a, ops[1..]);
      PassOneMore(n, i, d, Rotate(p', a), Rotate(ApplyAll(ops, p), a), Gates(ops[1..]));
    }
  }

  lemma PassString(n: nat, r: Rotation, ops: seq<Op>)
    requires r.p.Sized(n) && WellFormedAll(ops, n)
    ensures Same(n, [Item1(r)] + Gates(ops), Gates(ops) + [Item1(ApplyRotation(ops, r))])
  {
    hide Same, ApplyAll;
    PassStringRaw(n, r.p, r.phase, ops);
    SignIntoPhase(n, ApplyAll(ops, r.p), r.phase);
    GatesOk(ops, n);
    SameBefore(n, Gates(ops), [Rotate(ApplyAll(ops, r.p), r.phase)], [Item1(ApplyRotation(ops, r))]);
    SameTrans(n, [Item1(r)] + Gates(ops), Gates(ops) + [Rotate(ApplyAll(ops, r.p), r.phase)],
              Gates(ops) + [Item1(ApplyRotation(ops, r))]);
  }

  lemma ApplyRotationProper(ops: seq<Op>, r: Rotation, n: nat)
    requires Proper1(r, n)
    ensures Proper1(ApplyRotation(ops, r), n)
  {
    MakeRotationProper(ApplyAll(ops, r.p), r.phase, n);
  }

  lemma ApplyRotationsProper(ops: seq<Op>, rs: seq<Rotation>, n: nat)
    requires ProperList(rs, n)
    ensures ProperList(ApplyRotations(ops, rs), n)
  {
    forall i | 0 <= i < |rs|
      ensures Proper1(ApplyRotations(ops, rs)[i], n)
    {
      ApplyRotationProper(ops, rs[i], n);
    }
  }

  /** A list of rotations moves past a later string, each one conjugated. */
  lemma {:induction false} PassStringAll(n: nat, rs: seq<Rotation>, ops: seq<Op>)
    requires ProperList(rs, n) && WellFormedAll(ops, n)
    ensures Same(n, Items(rs) + Gates(ops), Gates(ops) + Items(ApplyRotations(ops, rs)))
    decreases |rs|
  {
    hide Same, ApplyRotation;
    GatesOk(ops, n);
    var gs := Gates(ops);
    if rs == [] {
      assert Items(rs) + gs == gs && gs + Items(ApplyRotations(ops, rs)) == gs;
      SameRefl(n, gs);
    } else {
      var m := |rs| - 1;
      var init, last := rs[..m], rs[m];
      var init', last' := ApplyRotations(ops, init), ApplyRotation(ops, last);
      assert rs == init + [last] && ApplyRotations(ops, rs) == init' + [last'];
      SizedOf(last, n);
      PassString(n, last, ops);
      ItemsOk(init, n);
      SameBefore(n, Items(init), [Item1(last)] + gs, gs + [Item1(last')]);
      assert Items(rs) + gs == Items(init) + ([Item1(last)] + gs);
      PassStringAll(n, init, ops);
      SameOk(n, [Item1(last)] + gs, gs + [Item1(last')]);
      OkSuffix(gs, [Item1(last')], n);
      SameAfter(n, Items(init) + gs, gs + Items(init'), [Item1(last')]);
      assert Items(init) + (gs + [Item1(last')]) == Items(init) + gs + [Item1(last')];
      assert gs + Items(init') + [Item1(last')] == gs + Items(init' + [last']);
      SameTrans(n, Items(rs) + gs, Items(init) + gs + [Item1(last')], gs + Items(init' + [last']));
    }
  }

  lemma SizedOf(r: Rotation, n: nat)
    requires Proper1(r, n)
    ensures r.p.Sized(n)
  {
  }

  lemma OkSuffix(v: seq<Item>, w: seq<Item>, n: nat)
    requires Ok(v + w, n)
    ensures Ok(w, n)
  {
    forall i | 0 <= i < |w|
      ensures ItemOk(w[i], n)
    {
      assert (v + w)[|v| + i] == w[i];
    }
  }

  // ---------------------------------------------------------------- strings and tableaux

  /** A string and its tableau mean the same. */
  lemma StringIsTable(n: nat, ops: seq<Op>)
    requires WellFormedAll(ops, n)
    ensures Same(n, Gates(ops), [Table(TableauOf(ops, n))])
  {
    hide Expect, InverseImage, ApplyAll;
    GatesOk(ops, n);
    TwoOk(Table(TableauOf(ops, n)), Table(TableauOf(ops, n)), n);
    forall t: Trig, e: Pauli -> real, q: Pauli | IsTrig(t) && State(e) && q.Sized(n)
      ensures Expect(t, e, Gates(ops), q) == Expect(t, e, [Table(TableauOf(ops, n))], q)
    {
      ExpectOne(t, e, Table(TableauOf(ops, n)), q);
      InverseImageIsAdjoint(ops, q);
      ExpectGates(t, e, ops, q);
    }
  }

  lemma {:induction false} ExpectGates(t: Trig, e: Pauli -> real, ops: seq<Op>, q: Pauli)
    requires q.Sized(|q.z|) && WellFormedAll(ops, |q.z|)
    ensures Ok(Gates(ops), |q.z|)
    ensures Expect(t, e, Gates(ops), q) == e(ApplyAll(AdjointAll(ops), q))
    decreases |ops|
  {
    hide Apply;
    GatesOk(ops, |q.z|);
    if ops == [] {
      assert AdjointAll(ops) == [];
    } else {
      var m := |ops| - 1;
      assert Gates(ops)[..m] == Gates(ops[..m]);
      ExpectGates(t, e, ops[..m], Apply(Adjoint(ops[m]), q));
      assert AdjointAll(ops)[1..] == AdjointAll(ops[..m]);
    }
  }

  lemma GatesAppend(ops: seq<Op>, more: seq<Op>)
    ensures Gates(ops + more) == Gates(ops) + Gates(more)
  {
  }

  /** A tableau followed by a string is the updated tableau. */
  lemma TableThenString(n: nat, pre: seq<Op>, ops: seq<Op>)
    requires WellFormedAll(pre, n) && WellFormedAll(ops, n)
    ensures Same(n, [Table(TableauOf(pre, n))] + Gates(ops), [Table(MapOps(ops, TableauOf(pre, n)))])
  {
    hide Same, TableauOf;
    var a, b := Table(TableauOf(pre, n)), Table(TableauOf(pre + ops, n));
    assert MapOps(ops, TableauOf(pre, n)) == TableauOf(pre + ops, n) by { TableauAppend(n, pre, ops); }
    StringIsTable(n, pre);
    GatesOk(ops, n);
    SameSym(n, Gates(pre), [a]);
    SameAfter(n, [a], Gates(pre), Gates(ops));
    GatesAppend(pre, ops);
    StringIsTable(n, pre + ops);
    SameTrans(n, [a] + Gates(ops), Gates(pre) + Gates(ops), [b]);
  }

  lemma TableauAppend(n: nat, pre: seq<Op>, ops: seq<Op>)
    requires WellFormedAll(pre, n) && WellFormedAll(ops, n)
    ensures MapOps(ops, TableauOf(pre, n)) == TableauOf(pre + ops, n)
  {
    hide ApplyAll;
    MapOpsAppend(pre, ops, IdentityRows(n), n);
  }

  /** A string followed by its adjoint means nothing. */
  lemma StringCancels(n: nat, ops: seq<Op>)
    requires WellFormedAll(ops, n)
    ensures Same(n, Gates(ops) + Gates(AdjointAll(ops)), [])
    ensures Same(n, Gates(AdjointAll(ops)) + Gates(ops), [])
  {
    hide ApplyAll, Expect;
    AdjointAllWellFormed(ops, n);
    AdjointAllTwice(ops);
    GatesAppend(ops, AdjointAll(ops));
    GatesAppend(AdjointAll(ops), ops);
    GatesOk(ops + AdjointAll(ops), n);
    GatesOk(AdjointAll(ops) + ops, n);
    forall t: Trig, e: Pauli -> real, q: Pauli | IsTrig(t) && State(e) && q.Sized(n)
      ensures Expect(t, e, Gates(ops) + Gates(AdjointAll(ops)), q) == Expect(t, e, [], q)
      ensures Expect(t, e, Gates(AdjointAll(ops)) + Gates(ops), q) == Expect(t, e, [], q)
    {
      ExpectGates(t, e, ops + AdjointAll(ops), q);
      ExpectGates(t, e, AdjointAll(ops) + ops, q);
      ExpectNone(t, e, q);
      AdjointOfCancelling(ops);
      ApplyAllAppend(ops, AdjointAll(ops), q);
      ApplyAllAppend(AdjointAll(ops), ops, q);
      AdjointAllUndoes(ops, q);
      AdjointAllUndone(ops, q);
    }
  }

  lemma AdjointOfCancelling(ops: seq<Op>)
    ensures AdjointAll(ops + AdjointAll(ops)) == ops + AdjointAll(ops)
    ensures AdjointAll(AdjointAll(ops) + ops) == AdjointAll(ops) + ops
  {
  }
}
