/** Operator strings that act alike on every Pauli product. */
module OperatorIdentities {
  import opened Paulis
  import opened Operators
  import opened Tableaux
  import opened Meaning
  import opened MeaningLaws
  import opened Rotations
  import opened Diagonalization

  ghost predicate ActAlike(ops: seq<Op>, ops': seq<Op>, n: nat) {
    && WellFormedAll(ops, n) && WellFormedAll(ops', n)
    && forall p: Pauli :: p.Sized(n) ==> ApplyAll(ops, p) == ApplyAll(ops', p)
  }

  /** Strings that act alike mean the same. */
  lemma AlikeIsSame(n: nat, ops: seq<Op>, ops': seq<Op>)
    requires ActAlike(ops, ops', n)
    ensures Same(n, Gates(ops), Gates(ops'))
  {
    hide Same, ApplyAll;
    assert TableauOf(ops, n) == TableauOf(ops', n);
    StringIsTable(n, ops);
    StringIsTable(n, ops');
    SameSym(n, Gates(ops'), [Table(TableauOf(ops, n))]);
    SameTrans(n, Gates(ops), [Table(TableauOf(ops, n))], Gates(ops'));
  }

  /** Strings with the same gate chain act alike. */
  lemma {:induction false} SameChain(n: nat, ops: seq<Op>, ops': seq<Op>)
    requires WellFormedAll(ops, n) && WellFormedAll(ops', n) && ExpandAll(ops) == ExpandAll(ops')
    ensures ActAlike(ops, ops', n)
  {
    hide ApplyAll, ExpandAll, WellFormedAll, ActAlike;
    forall p: Pauli | p.Sized(n)
      ensures ApplyAll(ops, p) == ApplyAll(ops', p)
    {
      SameChainAt(ops, ops', p);
    }
    AlikeEverywhere(ops, ops', n);
  }

  lemma {:induction false} AlikeEverywhere(ops: seq<Op>, ops': seq<Op>, n: nat)
    requires WellFormedAll(ops, n) && WellFormedAll(ops', n)
    requires forall p: Pauli :: p.Sized(n) ==> ApplyAll(ops, p) == ApplyAll(ops', p)
    ensures ActAlike(ops, ops', n)
  {
    hide ApplyAll, WellFormedAll;
  }

  lemma {:induction false} SameChainAt(ops: seq<Op>, ops': seq<Op>, p: Pauli)
    requires ExpandAll(ops) == ExpandAll(ops') && p.Sized(|p.z|)
    ensures ApplyAll(ops, p) == ApplyAll(ops', p)
  {
    hide *;
    ApplyAllIsRun(ops, p);
    ApplyAllIsRun(ops', p);
  }

  lemma {:induction false} ExpandThree(a: Op, b: Op, c: Op)
    ensures ExpandAll([a, b, c]) == Expand(a) + Expand(b) + Expand(c) && ExpandAll([a]) == Expand(a)
  {
    hide Expand;
    assert [a, b, c][1..] == [b, c] && [b, c][1..] == [c] && [c][1..] == [] && [a][1..] == [];
    assert ExpandAll([c]) == Expand(c);
    assert ExpandAll([b, c]) == Expand(b) + Expand(c);
  }

  lemma ApplyThree(a: Op, b: Op, c: Op, p: Pauli)
    requires p.Sized(|p.z|)
    ensures ApplyAll([a, b, c], p) == Apply(c, Apply(b, Apply(a, p)))
  {
    hide Apply;
    assert [a, b, c][1..] == [b, c] && [b, c][1..] == [c];
    ApplyAllOne(c, Apply(b, Apply(a, p)));
  }

  lemma ApplyFour(a: Op, b: Op, c: Op, d: Op, p: Pauli)
    requires p.Sized(|p.z|)
    ensures ApplyAll([a, b, c, d], p) == Apply(d, Apply(c, Apply(b, Apply(a, p))))
  {
    hide Apply;
    assert [a, b, c, d][1..] == [b, c, d];
    ApplyThree(b, c, d, Apply(a, p));
  }

  // ---------------------------------------------------------------- single operators

  lemma OnS(q: nat, p: Pauli)
    requires p.Sized(|p.z|)
    ensures Apply(Op(OpS, q, 0), p) == Conj(S(q), p)
  {
    Run1(S(q), p);
  }

  lemma OnSdg(q: nat, p: Pauli)
    requires p.Sized(|p.z|) && q < |p.z|
    ensures Apply(Op(OpSdg, q, 0), p) == Flip(Conj(S(q), p), p.x[q])
  {
    SdgBits(q, p);
  }

  lemma OnV(q: nat, p: Pauli)
    requires p.Sized(|p.z|) && q < |p.z|
    ensures Apply(Op(OpV, q, 0), p) == Pauli(p.z, p.x[q := p.x[q] != p.z[q]], p.neg != (p.z[q] && !p.x[q]))
  {
    VBits(q, p);
  }

  lemma OnCX(a: nat, b: nat, p: Pauli)
    requires p.Sized(|p.z|)
    ensures Apply(Op(OpCX, a, b), p) == Conj(CX(a, b), p)
  {
    Run1(CX(a, b), p);
  }

  lemma OnZ(q: nat, p: Pauli)
    requires p.Sized(|p.z|) && q < |p.z|
    ensures Apply(Op(OpZ, q, 0), p) == Flip(p, p.x[q])
  {
    ZFlips(q, p);
  }

  lemma OnY(q: nat, p: Pauli)
    requires p.Sized(|p.z|) && q < |p.z|
    ensures Apply(Op(OpY, q, 0), p) == Flip(Flip(p, p.z[q]), p.x[q])
  {
    YFlips(q, p);
  }

  // ---------------------------------------------------------------- one qubit

  /** Z, S and its adjoint between H gates. */
  lemma {:induction false} BetweenH(n: nat, q: nat)
    requires q < n
    ensures ActAlike([Op(OpH, q, 0), Op(OpZ, q, 0), Op(OpH, q, 0)], [Op(OpX, q, 0)], n)
    ensures ActAlike([Op(OpH, q, 0), Op(OpS, q, 0), Op(OpH, q, 0)], [Op(OpV, q, 0)], n)
    ensures ActAlike([Op(OpH, q, 0), Op(OpSdg, q, 0), Op(OpH, q, 0)], [Op(OpVdg, q, 0)], n)
  {
    hide ActAlike;
    BetweenHAs(n, q, OpZ, OpX);
    BetweenHAs(n, q, OpS, OpV);
    BetweenHAs(n, q, OpSdg, OpVdg);
  }

  lemma {:induction false} BetweenHAs(n: nat, q: nat, k: OpKind, k': OpKind)
    requires q < n && ((k.OpZ? && k'.OpX?) || (k.OpS? && k'.OpV?) || (k.OpSdg? && k'.OpVdg?))
    ensures ActAlike([Op(OpH, q, 0), Op(k, q, 0), Op(OpH, q, 0)], [Op(k', q, 0)], n)
  {
    hide ActAlike, ExpandAll;
    var h, a, b := Op(OpH, q, 0), Op(k, q, 0), Op(k', q, 0);
    ExpandThree(h, a, h);
    ExpandThree(b, h, h);
    assert [H(q)] + Expand(a) + [H(q)] == Expand(b);
    hide Expand;
    SameChain(n, [h, a, h], [b]);
  }

  /** Z between V and its adjoint. */
  lemma YBetweenV(n: nat, q: nat)
    requires q < n
    ensures ActAlike([Op(OpV, q, 0), Op(OpZ, q, 0), Op(OpVdg, q, 0)], [Op(OpY, q, 0)], n)
  {
    forall p: Pauli | p.Sized(n)
      ensures ApplyAll([Op(OpV, q, 0), Op(OpZ, q, 0), Op(OpVdg, q, 0)], p) == ApplyAll([Op(OpY, q, 0)], p)
    {
      YAt(q, p);
    }
  }

  lemma YAt(q: nat, p: Pauli)
    requires p.Sized(|p.z|) && q < |p.z|
    ensures ApplyAll([Op(OpV, q, 0), Op(OpZ, q, 0), Op(OpVdg, q, 0)], p) == ApplyAll([Op(OpY, q, 0)], p)
  {
    hide Apply, ApplyAll;
    var v := Apply(Op(OpV, q, 0), p);
    ApplyThree(Op(OpV, q, 0), Op(OpZ, q, 0), Op(OpVdg, q, 0), p);
    ApplyAllOne(Op(OpY, q, 0), p);
    OnV(q, p);
    OnZ(q, v);
    OnY(q, p);
    AdjointUndoes(Op(OpV, q, 0), p);
    FlipThrough(Op(OpVdg, q, 0), v, v.x[q]);
  }

  lemma FlipThrough(op: Op, p: Pauli, b: bool)
    requires p.Sized(|p.z|)
    ensures Apply(op, Flip(p, b)) == Flip(Apply(op, p), b)
  {
    hide Run, Expand;
    if b {
      assert Flip(p, b) == p.Negate();
      RunNegate(Expand(op), p);
    } else {
      assert Flip(p, b) == p;
    }
  }

  /** S between V and its adjoint is V between the adjoint of S and S. */
  lemma RootOfY(n: nat, q: nat)
    requires q < n
    ensures ActAlike([Op(OpV, q, 0), Op(OpS, q, 0), Op(OpVdg, q, 0)], [Op(OpSdg, q, 0), Op(OpV, q, 0), Op(OpS, q, 0)], n)
  {
    var v, s, vdg, sdg := Op(OpV, q, 0), Op(OpS, q, 0), Op(OpVdg, q, 0), Op(OpSdg, q, 0);
    forall p: Pauli | p.Sized(n)
      ensures ApplyAll([v, s, vdg], p) == ApplyAll([sdg, v, s], p)
    {
      ApplyThree(v, s, vdg, p);
      ApplyThree(sdg, v, s, p);
      hide ApplyAll;
      var r := Apply(s, Apply(v, Apply(sdg, p)));
      RootOfYBits(q, p);
      AdjointUndoes(v, r);
    }
  }

  lemma RootOfYBits(q: nat, p: Pauli)
    requires p.Sized(|p.z|) && q < |p.z|
    ensures Apply(Op(OpS, q, 0), Apply(Op(OpV, q, 0), p))
            == Apply(Op(OpV, q, 0), Apply(Op(OpS, q, 0), Apply(Op(OpV, q, 0), Apply(Op(OpSdg, q, 0), p))))
  {
    hide Apply;
    var v, s := Op(OpV, q, 0), Op(OpS, q, 0);
    var p1 := Apply(Op(OpSdg, q, 0), p);
    OnSdg(q, p);
    OnV(q, p);
    OnV(q, p1);
    var p2 := Apply(v, p1);
    OnS(q, Apply(v, p));
    OnS(q, p2);
    OnV(q, Apply(s, p2));
    var l, r := Apply(s, Apply(v, p)), Apply(v, Apply(s, p2));
    assert l.z == r.z;
    assert l.x == r.x;
  }

  /** Strings that act alike have adjoints that act alike. */
  lemma AdjointsAlike(n: nat, ops: seq<Op>, ops': seq<Op>)
    requires ActAlike(ops, ops', n)
    ensures ActAlike(AdjointAll(ops), AdjointAll(ops'), n)
  {
    hide ApplyAll;
    AdjointAllWellFormed(ops, n);
    AdjointAllWellFormed(ops', n);
    forall p: Pauli | p.Sized(n)
      ensures ApplyAll(AdjointAll(ops), p) == ApplyAll(AdjointAll(ops'), p)
    {
      var r := ApplyAll(AdjointAll(ops), p);
      AdjointAllUndone(ops, p);
      assert ApplyAll(ops', r) == ApplyAll(ops, r) == p;
      AdjointAllUndoes(ops', r);
    }
  }

  // ---------------------------------------------------------------- two qubits

  lemma CzBits(a: nat, b: nat, p: Pauli)
    requires p.Sized(|p.z|) && a < |p.z| && b < |p.z| && a != b
    ensures Apply(Op(OpCZ, a, b), p) ==
            Pauli(p.z[a := p.z[a] != p.x[b]][b := p.z[b] != p.x[a]], p.x, p.neg != (p.x[a] && p.x[b] && p.z[a] != p.z[b]))
  {
    hide Run;
    Run3(H(b), CX(a, b), H(b), p);
    var r := Apply(Op(OpCZ, a, b), p);
    assert r.x == p.x;
  }

  /** CZ from S gates on both qubits and the adjoint of S on their parity. */
  lemma CzFromParities(n: nat, a: nat, b: nat)
    requires a < n && b < n && a != b
    ensures ActAlike([Op(OpS, a, 0), Op(OpS, b, 0), Op(OpCX, a, b), Op(OpSdg, b, 0), Op(OpCX, a, b)], [Op(OpCZ, a, b)], n)
  {
    var s, t, cx, sdg, cz := Op(OpS, a, 0), Op(OpS, b, 0), Op(OpCX, a, b), Op(OpSdg, b, 0), Op(OpCZ, a, b);
    forall p: Pauli | p.Sized(n)
      ensures ApplyAll([s, t, cx, sdg, cx], p) == ApplyAll([cz], p)
    {
      hide Apply;
      assert [s, t, cx, sdg, cx][1..] == [t, cx, sdg, cx];
      ApplyFour(t, cx, sdg, cx, Apply(s, p));
      ApplyAllOne(cz, p);
      hide ApplyAll;
      CzParityBits(a, b, p);
    }
  }

  lemma CzParityBits(a: nat, b: nat, p: Pauli)
    requires p.Sized(|p.z|) && a < |p.z| && b < |p.z| && a != b
    ensures var p2 := Apply(Op(OpS, b, 0), Apply(Op(OpS, a, 0), p));
            Apply(Op(OpCX, a, b), Apply(Op(OpSdg, b, 0), Apply(Op(OpCX, a, b), p2))) == Apply(Op(OpCZ, a, b), p)
  {
    hide Apply, Conj;
    var p3 := Apply(Op(OpCX, a, b), Apply(Op(OpS, b, 0), Apply(Op(OpS, a, 0), p)));
    FirstParityBits(a, b, p);
    SecondParityBits(a, b, p3);
    CzBits(a, b, p);
    var l, r := Apply(Op(OpCX, a, b), Apply(Op(OpSdg, b, 0), p3)), Apply(Op(OpCZ, a, b), p);
    assert l.z == r.z;
    assert l.x == r.x;
  }

  lemma FirstParityBits(a: nat, b: nat, p: Pauli)
    requires p.Sized(|p.z|) && a < |p.z| && b < |p.z| && a != b
    ensures var (za, zb) := (p.z[a] != p.x[a], p.z[b] != p.x[b]);
            Apply(Op(OpCX, a, b), Apply(Op(OpS, b, 0), Apply(Op(OpS, a, 0), p))) ==
            Pauli(p.z[a := za != zb][b := zb], p.x[b := p.x[b] != p.x[a]],
                  ((p.neg != (p.z[a] && p.x[a])) != (p.z[b] && p.x[b])) != (p.x[a] && zb && p.x[b] == za))
  {
    hide Apply;
    OnS(a, p);
    var p1 := Apply(Op(OpS, a, 0), p);
    OnS(b, p1);
    var p2 := Apply(Op(OpS, b, 0), p1);
    OnCX(a, b, p2);
    var p3 := Apply(Op(OpCX, a, b), p2);
    assert p3.z == p.z[a := (p.z[a] != p.x[a]) != (p.z[b] != p.x[b])][b := p.z[b] != p.x[b]];
  }

  lemma SecondParityBits(a: nat, b: nat, p3: Pauli)
    requires p3.Sized(|p3.z|) && a < |p3.z| && b < |p3.z| && a != b
    ensures var zb := p3.z[b] != p3.x[b];
            Apply(Op(OpCX, a, b), Apply(Op(OpSdg, b, 0), p3)) ==
            Pauli(p3.z[a := p3.z[a] != zb][b := zb], p3.x[b := p3.x[b] != p3.x[a]],
                  ((p3.neg != (p3.z[b] && p3.x[b])) != p3.x[b]) != (p3.x[a] && zb && p3.x[b] == p3.z[a]))
  {
    hide Apply;
    OnSdg(b, p3);
    var p4 := Apply(Op(OpSdg, b, 0), p3);
    OnCX(a, b, p4);
    assert Apply(Op(OpCX, a, b), p4).z == p3.z[a := p3.z[a] != (p3.z[b] != p3.x[b])][b := p3.z[b] != p3.x[b]];
  }

  /** CZ between H gates on the target. */
  lemma CxBetweenH(n: nat, a: nat, b: nat)
    requires a < n && b < n && a != b
    ensures ActAlike([Op(OpH, b, 0), Op(OpCZ, a, b), Op(OpH, b, 0)], [Op(OpCX, a, b)], n)
  {
    var h, cz, cx := Op(OpH, b, 0), Op(OpCZ, a, b), Op(OpCX, a, b);
    forall p: Pauli | p.Sized(n)
      ensures ApplyAll([h, cz, h], p) == ApplyAll([cx], p)
    {
      CxBetweenHAt(a, b, p);
    }
  }

  lemma CxBetweenHAt(a: nat, b: nat, p: Pauli)
    requires p.Sized(|p.z|) && a < |p.z| && b < |p.z| && a != b
    ensures ApplyAll([Op(OpH, b, 0), Op(OpCZ, a, b), Op(OpH, b, 0)], p) == ApplyAll([Op(OpCX, a, b)], p)
  {
    hide ApplyAll, Run;
    var h, cz, cx := Op(OpH, b, 0), Op(OpCZ, a, b), Op(OpCX, a, b);
    ApplyThree(h, cz, h, p);
    ApplyAllOne(cx, p);
    Run1(H(b), p);
    var p1 := Apply(h, p);
    Run3(H(b), CX(a, b), H(b), p1);
    HTwice(b, p);
    var p2 := Conj(CX(a, b), p);
    Run1(H(b), Conj(H(b), p2));
    HTwice(b, p2);
    Run1(CX(a, b), p);
  }

  /** CZ between V and its adjoint on the target. */
  lemma CyBetweenV(n: nat, a: nat, b: nat)
    requires a < n && b < n && a != b
    ensures ActAlike([Op(OpV, b, 0), Op(OpCZ, a, b), Op(OpVdg, b, 0)], [Op(OpSdg, b, 0), Op(OpCX, a, b), Op(OpS, b, 0)], n)
  {
    var v, cz, vdg, sdg, cx, s := Op(OpV, b, 0), Op(OpCZ, a, b), Op(OpVdg, b, 0), Op(OpSdg, b, 0), Op(OpCX, a, b), Op(OpS, b, 0);
    forall p: Pauli | p.Sized(n)
      ensures ApplyAll([v, cz, vdg], p) == ApplyAll([sdg, cx, s], p)
    {
      ApplyThree(v, cz, vdg, p);
      ApplyThree(sdg, cx, s, p);
      hide ApplyAll;
      var r := Apply(s, Apply(cx, Apply(sdg, p)));
      CyBits(a, b, p);
      AdjointUndoes(v, r);
    }
  }

  lemma CyBits(a: nat, b: nat, p: Pauli)
    requires p.Sized(|p.z|) && a < |p.z| && b < |p.z| && a != b
    ensures Apply(Op(OpCZ, a, b), Apply(Op(OpV, b, 0), p))
            == Apply(Op(OpV, b, 0), Apply(Op(OpS, b, 0), Apply(Op(OpCX, a, b), Apply(Op(OpSdg, b, 0), p))))
  {
    hide Apply;
    OnV(b, p);
    CzBits(a, b, Apply(Op(OpV, b, 0), p));
    OnSdg(b, p);
    var p1 := Apply(Op(OpSdg, b, 0), p);
    OnCX(a, b, p1);
    var p2 := Apply(Op(OpCX, a, b), p1);
    OnS(b, p2);
    var p3 := Apply(Op(OpS, b, 0), p2);
    OnV(b, p3);
    var l, r := Apply(Op(OpCZ, a, b), Apply(Op(OpV, b, 0), p)), Apply(Op(OpV, b, 0), p3);
    assert l.z == r.z;
    assert l.x == r.x;
  }

  // ---------------------------------------------------------------- what every operator does

  lemma VdgBits(q: nat, p: Pauli)
    requires p.Sized(|p.z|) && q < |p.z|
    ensures Apply(Op(OpVdg, q, 0), p) == Pauli(p.z, p.x[q := p.x[q] != p.z[q]], p.neg != (p.z[q] && p.x[q]))
  {
    var r := Pauli(p.z, p.x[q := p.x[q] != p.z[q]], p.neg != (p.z[q] && p.x[q]));
    OnV(q, r);
    assert r.x[q := r.x[q] != r.z[q]] == p.x;
    AdjointUndoes(Op(OpV, q, 0), r);
  }

  /** A swap exchanges what the two qubits hold, and leaves the sign. */
  lemma SwapBits(a: nat, b: nat, p: Pauli)
    requires p.Sized(|p.z|) && a < |p.z| && b < |p.z| && a != b
    ensures Apply(Op(OpSwap, a, b), p) == Pauli(p.z[a := p.z[b]][b := p.z[a]], p.x[a := p.x[b]][b := p.x[a]], p.neg)
  {
    hide Run;
    Run3(CX(a, b), CX(b, a), CX(a, b), p);
    var r := Apply(Op(OpSwap, a, b), p);
    assert r.z == p.z[a := p.z[b]][b := p.z[a]];
    assert r.x == p.x[a := p.x[b]][b := p.x[a]];
  }

  /** The product of Z on a and X on b. */
  function ZX(n: nat, a: nat, b: nat): Pauli {
    Pauli(Unit(n, a), Unit(n, b), false)
  }

  /** The image of every signed product under each of the twelve operators, bit by bit. */
  lemma OperatorActs(op: Op, p: Pauli)
    requires p.Sized(|p.z|) && WellFormed(op, |p.z|)
    ensures var (a, b) := (op.q0, op.q1);
            Apply(op, p) ==
            match op.kind
            case OpH => Pauli(p.z[a := p.x[a]], p.x[a := p.z[a]], p.neg != (p.z[a] && p.x[a]))
            case OpS => Pauli(p.z[a := p.z[a] != p.x[a]], p.x, p.neg != (p.z[a] && p.x[a]))
            case OpSdg => Pauli(p.z[a := p.z[a] != p.x[a]], p.x, p.neg != (!p.z[a] && p.x[a]))
            case OpV => Pauli(p.z, p.x[a := p.x[a] != p.z[a]], p.neg != (p.z[a] && !p.x[a]))
            case OpVdg => Pauli(p.z, p.x[a := p.x[a] != p.z[a]], p.neg != (p.z[a] && p.x[a]))
            case OpX => Pauli(p.z, p.x, p.neg != p.z[a])
            case OpY => Pauli(p.z, p.x, p.neg != (p.z[a] != p.x[a]))
            case OpZ => Pauli(p.z, p.x, p.neg != p.x[a])
            case OpCX => Pauli(p.z[a := p.z[a] != p.z[b]], p.x[b := p.x[b] != p.x[a]], p.neg != (p.x[a] && p.z[b] && p.x[b] == p.z[a]))
            case OpCZ => Pauli(p.z[a := p.z[a] != p.x[b]][b := p.z[b] != p.x[a]], p.x, p.neg != (p.x[a] && p.x[b] && p.z[a] != p.z[b]))
            case OpSwap => Pauli(p.z[a := p.z[b]][b := p.z[a]], p.x[a := p.x[b]][b := p.x[a]], p.neg)
            case OpECR => Pauli(p.z[a := p.z[a] != (p.z[b] != p.x[a])], p.x[b := p.x[b] != (p.x[a] != p.z[b])],
                                p.neg != ((((p.x[a] && p.z[b] && p.x[b] == p.z[a]) != (p.z[a] != p.z[b] && p.x[a]))
                                           != ((p.z[a] != p.z[b]) != p.x[a])) != (p.z[b] && p.x[b] == p.x[a])))
  {
    hide Run;
    var (a, b) := (op.q0, op.q1);
    match op.kind
    case OpH => Run1(H(a), p);
    case OpS => Run1(S(a), p);
    case OpSdg => SdgBits(a, p);
    case OpV => VBits(a, p);
    case OpVdg => VdgBits(a, p); SameApply(op, p);
    case OpX => XFlips(a, p);
    case OpY => YFlips(a, p);
    case OpZ => ZFlips(a, p);
    case OpCX => Run1(CX(a, b), p);
    case OpCZ => CzBits(a, b, p);
    case OpSwap => SwapBits(a, b, p);
    case OpECR => EcrBits(a, b, p);
  }

  /** The second qubit of a one-qubit operator does not matter. */
  lemma SameApply(op: Op, p: Pauli)
    requires p.Sized(|p.z|) && op.kind.OpVdg?
    ensures Apply(op, p) == Apply(Op(OpVdg, op.q0, 0), p)
  {
  }

  // ---------------------------------------------------------------- ECR as turns

  lemma XAxis(n: nat, q: nat)
    requires q < n
    ensures ApplyAll([Op(OpH, q, 0)], XAt(n, q)) == ZAt(n, q)
  {
    hide Apply;
    ApplyAllOne(Op(OpH, q, 0), XAt(n, q));
    OperatorActs(Op(OpH, q, 0), XAt(n, q));
    assert Apply(Op(OpH, q, 0), XAt(n, q)).z == Unit(n, q) && Apply(Op(OpH, q, 0), XAt(n, q)).x == Zeros(n);
  }

  /** A half turn about X is X. */
  lemma XTurn(n: nat, q: nat)
    requires q < n
    ensures Same(n, [Rotate(XAt(n, q), 1.0)], [Do(Op(OpX, q, 0))])
  {
    hide Same, ApplyAll, Apply, ActAlike, XAt, ZAt;
    var h, z, x := Op(OpH, q, 0), Op(OpZ, q, 0), Op(OpX, q, 0);
    assert XAt(n, q).Sized(n) by { XSized(n, q); }
    XAxis(n, q);
    DiagonalizedTurn(n, XAt(n, q), 1.0, [h], q, z);
    BetweenH(n, q);
    AlikeIsSame(n, [h, z, h], [x]);
    assert AdjointAll([h]) == [h] && [h] + [z] + [h] == [h, z, h] && Gates([x]) == [Do(x)];
    SameTrans(n, [Rotate(XAt(n, q), 1.0)], Gates([h, z, h]), [Do(x)]);
  }

  lemma XSized(n: nat, q: nat)
    ensures XAt(n, q).Sized(n)
  {
  }

  /** A rotation that a string takes to a Clifford one on a single qubit is the string, that operator, and the string undone. */
  lemma DiagonalizedTurn(n: nat, p: Pauli, a: Phase, ops: seq<Op>, q: nat, op: Op)
    requires p.Sized(n) && WellFormedAll(ops, n) && q < n && ApplyAll(ops, p) == ZAt(n, q)
    requires op.q0 == q && ((op.kind.OpS? && a == 0.5) || (op.kind.OpZ? && a == 1.0))
    ensures WellFormedAll(ops + [op] + AdjointAll(ops), n)
    ensures Same(n, [Rotate(p, a)], Gates(ops + [op] + AdjointAll(ops)))
  {
    hide Same, ApplyAll;
    AdjointAllWellFormed(ops, n);
    GatesOk(ops, n);
    GatesOk(AdjointAll(ops), n);
    DiagonalizedRotation(n, p, a, ops, q);
    CliffordRotation(n, q, op);
    SameInContext(n, Gates(ops), [Rotate(ZAt(n, q), a)], [Do(op)], Gates(AdjointAll(ops)));
    assert Gates(ops + [op] + AdjointAll(ops)) == Gates(ops) + [Do(op)] + Gates(AdjointAll(ops));
    SameTrans(n, [Rotate(p, a)], Gates(ops) + [Rotate(ZAt(n, q), a)] + Gates(AdjointAll(ops)), Gates(ops + [op] + AdjointAll(ops)));
  }

  /** ECR is a quarter turn about Z on its control and X on its target, and then X on the control. */
  lemma EcrTurns(n: nat, a: nat, b: nat)
    requires a < n && b < n && a != b
    ensures Same(n, [Rotate(ZX(n, a, b), 0.5), Rotate(XAt(n, a), 1.0)], [Do(Op(OpECR, a, b))])
  {
    hide Same, ApplyAll, Apply;
    var h, cx, s, x, ecr := Op(OpH, b, 0), Op(OpCX, a, b), Op(OpS, b, 0), Op(OpX, a, 0), Op(OpECR, a, b);
    var turn := [h, cx, s, cx, h];
    EcrAxis(n, a, b);
    DiagonalizedTurn(n, ZX(n, a, b), 0.5, [h, cx], b, s);
    assert [h, cx] + [s] + AdjointAll([h, cx]) == turn;
    XTurn(n, a);
    TwoOk(Rotate(XAt(n, a), 1.0), Rotate(XAt(n, a), 1.0), n);
    SameAfter(n, [Rotate(ZX(n, a, b), 0.5)], Gates(turn), [Rotate(XAt(n, a), 1.0)]);
    GatesOk(turn, n);
    SameBefore(n, Gates(turn), [Rotate(XAt(n, a), 1.0)], [Do(x)]);
    assert Gates(turn + [x]) == Gates(turn) + [Do(x)] && Gates([ecr]) == [Do(ecr)];
    assert [Rotate(ZX(n, a, b), 0.5)] + [Rotate(XAt(n, a), 1.0)] == [Rotate(ZX(n, a, b), 0.5), Rotate(XAt(n, a), 1.0)];
    EcrAlike(n, a, b);
    AlikeIsSame(n, turn + [x], [ecr]);
    SameTrans(n, [Rotate(ZX(n, a, b), 0.5), Rotate(XAt(n, a), 1.0)], Gates(turn) + [Rotate(XAt(n, a), 1.0)], Gates(turn + [x]));
    SameTrans(n, [Rotate(ZX(n, a, b), 0.5), Rotate(XAt(n, a), 1.0)], Gates(turn + [x]), [Do(ecr)]);
  }

  lemma EcrAxis(n: nat, a: nat, b: nat)
    requires a < n && b < n && a != b
    ensures ApplyAll([Op(OpH, b, 0), Op(OpCX, a, b)], ZX(n, a, b)) == ZAt(n, b)
  {
    hide Apply;
    var h, cx, p := Op(OpH, b, 0), Op(OpCX, a, b), ZX(n, a, b);
    ApplyAllAppend([h], [cx], p);
    assert [h] + [cx] == [h, cx];
    ApplyAllOne(h, p);
    ApplyAllOne(cx, Apply(h, p));
    OperatorActs(h, p);
    OperatorActs(cx, Apply(h, p));
    assert Apply(cx, Apply(h, p)).z == Unit(n, b) && Apply(cx, Apply(h, p)).x == Zeros(n);
  }

  lemma EcrAlike(n: nat, a: nat, b: nat)
    requires a < n && b < n && a != b
    ensures var (h, cx) := (Op(OpH, b, 0), Op(OpCX, a, b));
            ActAlike([h, cx, Op(OpS, b, 0), cx, h] + [Op(OpX, a, 0)], [Op(OpECR, a, b)], n)
  {
    var h, cx, s, x, ecr := Op(OpH, b, 0), Op(OpCX, a, b), Op(OpS, b, 0), Op(OpX, a, 0), Op(OpECR, a, b);
    forall p: Pauli | p.Sized(n)
      ensures ApplyAll([h, cx, s, cx, h] + [x], p) == ApplyAll([ecr], p)
    {
      hide Apply, ApplyAll;
      ApplyAllAppend([h, cx], [s, cx, h, x], p);
      assert [h, cx] + [s, cx, h, x] == [h, cx, s, cx, h] + [x] && [h] + [cx] == [h, cx];
      ApplyAllAppend([h], [cx], p);
      ApplyAllOne(h, p);
      ApplyAllOne(cx, Apply(h, p));
      ApplyFour(s, cx, h, x, Apply(cx, Apply(h, p)));
      ApplyAllOne(ecr, p);
      EcrStart(a, b, p);
      EcrEnd(a, b, Apply(cx, Apply(h, p)));
      EcrWhole(a, b, p);
    }
  }

  lemma EcrStart(a: nat, b: nat, p: Pauli)
    requires p.Sized(|p.z|) && a < |p.z| && b < |p.z| && a != b
    ensures Apply(Op(OpCX, a, b), Apply(Op(OpH, b, 0), p)) ==
            Pauli(p.z[a := p.z[a] != p.x[b]][b := p.x[b]], p.x[b := p.z[b] != p.x[a]],
                  (p.neg != (p.z[b] && p.x[b])) != (p.x[a] && p.x[b] && p.z[b] == p.z[a]))
  {
    hide Apply;
    OperatorActs(Op(OpH, b, 0), p);
    var p1 := Apply(Op(OpH, b, 0), p);
    OperatorActs(Op(OpCX, a, b), p1);
    assert Apply(Op(OpCX, a, b), p1).z == p.z[a := p.z[a] != p.x[b]][b := p.x[b]];
    assert Apply(Op(OpCX, a, b), p1).x == p.x[b := p.z[b] != p.x[a]];
  }

  lemma EcrEnd(a: nat, b: nat, p: Pauli)
    requires p.Sized(|p.z|) && a < |p.z| && b < |p.z| && a != b
    ensures var zb := p.z[b] != p.x[b];
            Apply(Op(OpX, a, 0), Apply(Op(OpH, b, 0), Apply(Op(OpCX, a, b), Apply(Op(OpS, b, 0), p)))) ==
            Pauli(p.z[a := p.z[a] != zb][b := p.x[b] != p.x[a]], p.x[b := zb],
                  (((p.neg != (p.z[b] && p.x[b])) != (p.x[a] && zb && p.x[b] == p.z[a])) != (zb && (p.x[b] != p.x[a]))) != (p.z[a] != zb))
  {
    hide Apply;
    OperatorActs(Op(OpS, b, 0), p);
    var p1 := Apply(Op(OpS, b, 0), p);
    OperatorActs(Op(OpCX, a, b), p1);
    var p2 := Apply(Op(OpCX, a, b), p1);
    OperatorActs(Op(OpH, b, 0), p2);
    var p3 := Apply(Op(OpH, b, 0), p2);
    OperatorActs(Op(OpX, a, 0), p3);
    var zb := p.z[b] != p.x[b];
    assert p3.z == p.z[a := p.z[a] != zb][b := p.x[b] != p.x[a]];
    assert p3.x == p.x[b := zb];
  }

  lemma EcrWhole(a: nat, b: nat, p: Pauli)
    requires p.Sized(|p.z|) && a < |p.z| && b < |p.z| && a != b
    ensures var (h, cx) := (Op(OpH, b, 0), Op(OpCX, a, b));
            Apply(Op(OpX, a, 0), Apply(h, Apply(cx, Apply(Op(OpS, b, 0), Apply(cx, Apply(h, p)))))) == Apply(Op(OpECR, a, b), p)
  {
    hide Apply;
    var m := Apply(Op(OpCX, a, b), Apply(Op(OpH, b, 0), p));
    EcrStart(a, b, p);
    EcrEnd(a, b, m);
    EcrBits(a, b, p);
    var l, r := Apply(Op(OpX, a, 0), Apply(Op(OpH, b, 0), Apply(Op(OpCX, a, b), Apply(Op(OpS, b, 0), m)))), Apply(Op(OpECR, a, b), p);
    assert l.z == r.z;
    assert l.x == r.x;
  }
}
