/** Absorbing Clifford rotations into the tableau in front of a rotation list. */
module Absorbing {
  import opened Paulis
  import opened Operators
  import opened Tableaux
  import opened StabilizerTableaux
  import opened Meaning
  import opened MeaningLaws
  import opened Rotations
  import opened Diagonalization
  import opened Merging

  /** The tableau of some operator string. */
  ghost predicate Built(rows: seq<Pauli>, n: nat) {
    ItemOk(Table(rows), n)
  }

  lemma BuiltMore(rows: seq<Pauli>, ops: seq<Op>, n: nat)
    requires Built(rows, n) && WellFormedAll(ops, n)
    ensures Shaped(rows, n) && Built(MapOps(ops, rows), n)
    ensures Same(n, [Table(rows)] + Gates(ops), [Table(MapOps(ops, rows))])
  {
    hide Same, ApplyAll;
    var pre :| WellFormedAll(pre, n) && rows == TableauOf(pre, n);
    TableauAppend(n, pre, ops);
    TableThenString(n, pre, ops);
    assert WellFormedAll(pre + ops, n);
  }

  lemma BuiltShaped(rows: seq<Pauli>, n: nat)
    requires Built(rows, n)
    ensures Shaped(rows, n)
  {
  }

  /** A tableau followed by a list of rotations. */
  ghost function Program(rows: seq<Pauli>, rs: seq<Rotation>): seq<Item> {
    [Table(rows)] + Items(rs)
  }

  lemma ProgramOk(rows: seq<Pauli>, rs: seq<Rotation>, n: nat)
    requires Built(rows, n) && ProperList(rs, n)
    ensures Ok(Program(rows, rs), n)
  {
    hide ItemOk;
    TwoOk(Table(rows), Table(rows), n);
    ItemsOk(rs, n);
    OkAppend([Table(rows)], Items(rs), n);
  }

  /** The first i rotations conjugated, the others as they are. */
  function ConjugateUpTo(ops: seq<Op>, rs: seq<Rotation>, i: nat, n: nat): (r: seq<Rotation>)
    requires i <= |rs| && ProperList(rs, n)
    ensures |r| == |rs|
  {
    seq(|rs|, k requires 0 <= k < |rs| => if k < i then ApplyRotation(ops, rs[k]) else rs[k])
  }

  /** Conjugates the tableau and the first upto rotations together. */
  class ConjugationView {
    const clifford: StabilizerTableau
    const rotations: RotationList
    const upto: nat

    ghost predicate Valid()
      reads this, clifford, rotations
    {
      && clifford.Valid() && rotations.Valid() && clifford.n == rotations.n
      && upto <= |rotations.list| && Built(clifford.rows, clifford.n)
    }

    constructor (clifford: StabilizerTableau, rotations: RotationList, upto: nat)
      requires clifford.Valid() && rotations.Valid() && clifford.n == rotations.n
      requires upto <= |rotations.list| && Built(clifford.rows, clifford.n)
      ensures Valid() && this.clifford == clifford && this.rotations == rotations && this.upto == upto
    {
      this.clifford := clifford;
      this.rotations := rotations;
      this.upto := upto;
    }

    method ApplyGate(g: Gate)
      requires clifford.Valid() && rotations.Valid() && clifford.n == rotations.n && upto <= |rotations.list|
      modifies clifford, rotations
      ensures clifford.Valid() && rotations.Valid() && |rotations.list| == |old(rotations.list)|
      ensures clifford.rows == MapGates([g], old(clifford.rows))
      ensures forall k :: 0 <= k < |rotations.list| ==>
                rotations.list[k] == if k < upto then RunRotation([g], old(rotations.list)[k]) else old(rotations.list)[k]
    {
      hide ConjRotation;
      clifford.ApplyGate(g);
      var i := 0;
      while i < upto
        invariant i <= upto && rotations.Valid() && |rotations.list| == |old(rotations.list)|
        invariant clifford.Valid() && clifford.rows == MapGates([g], old(clifford.rows))
        invariant forall k :: 0 <= k < |rotations.list| ==>
                    rotations.list[k] == if k < i then RunRotation([g], old(rotations.list)[k]) else old(rotations.list)[k]
      {
        ConjRotationProper(g, rotations.list[i], rotations.n);
        rotations.list := rotations.list[i := ConjRotation(g, rotations.list[i])];
        i := i + 1;
      }
    }

    method ApplyGates(gs: seq<Gate>)
      requires clifford.Valid() && rotations.Valid() && clifford.n == rotations.n && upto <= |rotations.list|
      modifies clifford, rotations
      ensures clifford.Valid() && rotations.Valid() && |rotations.list| == |old(rotations.list)|
      ensures clifford.rows == MapGates(gs, old(clifford.rows))
      ensures forall k :: 0 <= k < |rotations.list| ==>
                rotations.list[k] == if k < upto then RunRotation(gs, old(rotations.list)[k]) else old(rotations.list)[k]
    {
      hide ConjRotation, Conj;
      var i := 0;
      assert gs[..0] == [];
      while i < |gs|
        invariant i <= |gs| && clifford.Valid() && rotations.Valid() && |rotations.list| == |old(rotations.list)|
        invariant clifford.rows == MapGates(gs[..i], old(clifford.rows))
        invariant forall k :: 0 <= k < |rotations.list| ==>
                    rotations.list[k] == if k < upto then RunRotation(gs[..i], old(rotations.list)[k]) else old(rotations.list)[k]
      {
        ApplyGate(gs[i]);
        assert gs[..i + 1] == gs[..i] + [gs[i]];
        forall k | 0 <= k < |clifford.rows|
          ensures clifford.rows[k] == Run(gs[..i + 1], old(clifford.rows)[k])
        {
          RunAppend(gs[..i], [gs[i]], old(clifford.rows)[k]);
        }
        forall k | 0 <= k < upto
          ensures rotations.list[k] == RunRotation(gs[..i + 1], old(rotations.list)[k])
        {
          RunRotationAppend(gs[..i], [gs[i]], old(rotations.list)[k]);
        }
        i := i + 1;
      }
      assert gs[..i] == gs;
    }

    /** Conjugates by a string of operators. */
    method ApplyString(ops: seq<Op>)
      requires Valid() && WellFormedAll(ops, clifford.n)
      modifies clifford, rotations
      ensures Valid()
      ensures clifford.rows == MapOps(ops, old(clifford.rows))
      ensures rotations.list == ConjugateUpTo(ops, old(rotations.list), upto, clifford.n)
    {
      hide ApplyAll, RunRotation, Run, Built;
      BuiltMore(clifford.rows, ops, clifford.n);
      ApplyGates(ExpandAll(ops));
      forall k | 0 <= k < |clifford.rows|
        ensures clifford.rows[k] == ApplyAll(ops, old(clifford.rows)[k])
      {
        ApplyAllIsRun(ops, old(clifford.rows)[k]);
      }
      assert clifford.rows == MapOps(ops, old(clifford.rows));
      forall k | 0 <= k < upto
        ensures rotations.list[k] == ApplyRotation(ops, old(rotations.list)[k])
      {
        ApplyAllIsRun(ops, old(rotations.list)[k].p);
        RunRotationOnce(ExpandAll(ops), old(rotations.list)[k], rotations.n);
      }
    }
  }

  lemma ConjRotationProper(g: Gate, r: Rotation, n: nat)
    requires Proper1(r, n)
    ensures Proper1(ConjRotation(g, r), n) && RunRotation([g], r) == ConjRotation(g, r)
  {
    ConjSized(g, r.p, n);
    MakeRotationProper(Conj(g, r.p), r.phase, n);
    assert [g][1..] == [];
  }

  lemma {:induction false} RunRotationAppend(gs: seq<Gate>, hs: seq<Gate>, r: Rotation)
    requires r.p.Sized(|r.p.z|)
    ensures RunRotation(gs + hs, r) == RunRotation(hs, RunRotation(gs, r))
  {
    if gs == [] {
      assert gs + hs == hs;
    } else {
      assert (gs + hs)[1..] == gs[1..] + hs;
      RunRotationAppend(gs[1..], hs, ConjRotation(gs[0], r));
    }
  }

  // ---------------------------------------------------------------- absorbing one rotation

  predicate CliffordPhase(a: Phase) {
    a == 0.5 || a == -0.5 || a == 1.0
  }

  /** The operator a Clifford phase stands for, at q. */
  function PhaseOp(a: Phase, q: nat): Op {
    if a == 0.5 then Op(OpS, q, 0) else if a == -0.5 then Op(OpSdg, q, 0) else Op(OpZ, q, 0)
  }

  /** The operators of a Clifford rotation: diagonalise, apply the phase, undo. */
  lemma CliffordRotationIsString(n: nat, p: Pauli, a: Phase, ops: seq<Op>, q: nat)
    requires p.Sized(n) && WellFormedAll(ops, n) && q < n && ApplyAll(ops, p) == ZAt(n, q) && CliffordPhase(a)
    ensures var c := ops + [PhaseOp(a, q)] + AdjointAll(ops);
            WellFormedAll(c, n) && Same(n, [Rotate(p, a)], Gates(c))
  {
    hide Same, ApplyAll;
    var c, d := ops + [PhaseOp(a, q)] + AdjointAll(ops), PhaseOp(a, q);
    AdjointAllWellFormed(ops, n);
    GatesOk(ops, n);
    GatesOk(AdjointAll(ops), n);
    DiagonalizedRotation(n, p, a, ops, q);
    CliffordRotation(n, q, d);
    SameInContext(n, Gates(ops), [Rotate(ZAt(n, q), a)], [Do(d)], Gates(AdjointAll(ops)));
    assert Gates(c) == Gates(ops) + [Do(d)] + Gates(AdjointAll(ops));
    SameTrans(n, [Rotate(p, a)], Gates(ops) + [Rotate(ZAt(n, q), a)] + Gates(AdjointAll(ops)), Gates(c));
  }

  /** A string after the first i rotations moves through them into the tableau. */
  lemma StringIntoTableau(n: nat, rows: seq<Pauli>, rs: seq<Rotation>, i: nat, c: seq<Op>, w: seq<Item>)
    requires Built(rows, n) && Shaped(rows, n) && ProperList(rs, n) && i <= |rs| && WellFormedAll(c, n) && Ok(w, n)
    ensures Same(n, [Table(rows)] + Items(rs[..i]) + Gates(c) + w,
                 [Table(MapOps(c, rows))] + Items(ApplyRotations(c, rs[..i])) + w)
  {
    hide Same, ItemOk, ApplyAll, Built;
    var t, t' := [Table(rows)], [Table(MapOps(c, rows))];
    var a, b, g := Items(rs[..i]), Items(ApplyRotations(c, rs[..i])), Gates(c);
    assert Ok(t, n) by { assert Built(rows, n); BuiltOk(rows, n); }
    PassStringAll(n, rs[..i], c);
    SameInContext(n, t, a + g, g + b, w);
    assert t + (a + g) + w == t + a + g + w;
    assert t + (g + b) + w == (t + g) + (b + w);
    BuiltMore(rows, c, n);
    ApplyRotationsProper(c, rs[..i], n);
    ItemsOk(ApplyRotations(c, rs[..i]), n);
    OkAppend(b, w, n);
    SameAfter(n, t + g, t', b + w);
    assert t' + (b + w) == t' + b + w;
    SameTrans(n, t + a + g + w, (t + g) + (b + w), t' + b + w);
  }

  lemma BuiltOk(rows: seq<Pauli>, n: nat)
    requires Built(rows, n)
    ensures Ok([Table(rows)], n)
  {
  }

  /** Rotation i splits into an absorbed Clifford part and a rest. */
  lemma SplitRotation(n: nat, p: Pauli, c: seq<Op>, a: Phase, rest: Phase)
    requires p.Sized(n) && WellFormedAll(c, n) && Same(n, [Rotate(p, a)], Gates(c))
    ensures Same(n, [Rotate(p, Normalize(a + rest))], Gates(c) + [Rotate(p, rest)])
  {
    hide Same, ItemOk, Normalize;
    var i, j := Rotate(p, a), Rotate(p, rest);
    RotateOk(p, rest, n);
    RotateOk(p, a, n);
    TwoOk(j, i, n);
    MergeRotations(n, p, a, rest);
    SameSym(n, [i, j], [Rotate(p, Normalize(a + rest))]);
    SameAfter(n, [i], Gates(c), [j]);
    assert [i] + [j] == [i, j];
    SameTrans(n, [Rotate(p, Normalize(a + rest))], [i, j], Gates(c) + [j]);
  }

  /** The rotations once the Clifford part of rotation i has moved through the earlier ones. */
  function Absorbed(c: seq<Op>, rs: seq<Rotation>, i: nat, n: nat, rest: Phase): (r: seq<Rotation>)
    requires i < |rs| && ProperList(rs, n)
    ensures |r| == |rs|
  {
    ConjugateUpTo(c, rs, i, n)[i := Rotation(rs[i].p, rest)]
  }

  lemma AbsorbedProper(c: seq<Op>, rs: seq<Rotation>, i: nat, n: nat, rest: Phase)
    requires i < |rs| && ProperList(rs, n) && -1.0 < rest <= 1.0
    ensures ProperList(Absorbed(c, rs, i, n, rest), n)
    ensures Absorbed(c, rs, i, n, rest)[..i] == ApplyRotations(c, rs[..i])
    ensures Absorbed(c, rs, i, n, rest)[i + 1..] == rs[i + 1..]
  {
    hide ApplyRotation;
    forall k | 0 <= k < i
      ensures Proper1(ApplyRotation(c, rs[k]), n)
    {
      ApplyRotationProper(c, rs[k], n);
    }
  }

  /** Conjugating the tableau and the first i rotations absorbs a Clifford rotation by a about
      rotation i's Pauli product, which leaves the phase rest on rotation i. */
  lemma AbsorbStep(n: nat, rows: seq<Pauli>, rs: seq<Rotation>, i: nat, c: seq<Op>, a: Phase, rest: Phase)
    requires Built(rows, n) && Shaped(rows, n) && ProperList(rs, n) && i < |rs| && WellFormedAll(c, n)
    requires Same(n, [Rotate(rs[i].p, a)], Gates(c)) && Normalize(a + rest) == rs[i].phase && -1.0 < rest <= 1.0
    ensures ProperList(Absorbed(c, rs, i, n, rest), n) && Built(MapOps(c, rows), n)
    ensures Same(n, Program(rows, rs), Program(MapOps(c, rows), Absorbed(c, rs, i, n, rest)))
  {
    hide Same, ItemOk, ApplyAll, Built, Normalize, ApplyRotations, Program;
    var rs' := Absorbed(c, rs, i, n, rest);
    AbsorbedProper(c, rs, i, n, rest);
    BuiltMore(rows, c, n);
    hide Absorbed;
    BuiltOk(rows, n);
    var t, p := [Table(rows)], rs[i].p;
    var pre, post, w := Items(rs[..i]), Items(rs[i + 1..]), [Rotate(p, rest)] + Items(rs[i + 1..]);
    ItemsOk(rs[..i], n);
    ItemsOk(rs[i + 1..], n);
    RotateOk(p, rest, n);
    TwoOk(Rotate(p, rest), Rotate(p, rest), n);
    OkAppend([Rotate(p, rest)], post, n);
    OkAppend(t, pre, n);
    SplitRotation(n, p, c, a, rest);
    SameInContext(n, t + pre, [Item1(rs[i])], Gates(c) + [Rotate(p, rest)], post);
    SplitProgram(rows, rs, i);
    assert t + pre + (Gates(c) + [Rotate(p, rest)]) + post == t + pre + Gates(c) + w;
    StringIntoTableau(n, rows, rs, i, c, w);
    SplitProgram(MapOps(c, rows), rs', i);
    AbsorbedAt(c, rs, i, n, rest);
    var t' := [Table(MapOps(c, rows))];
    assert t' + Items(rs'[..i]) + w == t' + Items(rs'[..i]) + [Item1(rs'[i])] + post;
    SameTrans(n, Program(rows, rs), t + pre + Gates(c) + w, Program(MapOps(c, rows), rs'));
  }

  lemma AbsorbedAt(c: seq<Op>, rs: seq<Rotation>, i: nat, n: nat, rest: Phase)
    requires i < |rs| && ProperList(rs, n)
    ensures Item1(Absorbed(c, rs, i, n, rest)[i]) == Rotate(rs[i].p, rest)
  {
  }

  lemma RotateOk(p: Pauli, a: Phase, n: nat)
    requires p.Sized(n)
    ensures ItemOk(Rotate(p, a), n)
  {
  }

  lemma SplitProgram(rows: seq<Pauli>, rs: seq<Rotation>, i: nat)
    requires i < |rs|
    ensures Program(rows, rs) == [Table(rows)] + Items(rs[..i]) + [Item1(rs[i])] + Items(rs[i + 1..])
  {
  }

  lemma ApplyRotationIsRun(ops: seq<Op>, r: Rotation, n: nat)
    requires Proper1(r, n)
    ensures ApplyRotation(ops, r) == RunRotation(ExpandAll(ops), r)
  {
    ApplyAllIsRun(ops, r.p);
    RunRotationOnce(ExpandAll(ops), r, n);
  }

  lemma {:induction false} ExpandAllAppend(ops: seq<Op>, more: seq<Op>)
    ensures ExpandAll(ops + more) == ExpandAll(ops) + ExpandAll(more)
  {
    if ops == [] {
      assert ops + more == more;
    } else {
      assert (ops + more)[1..] == ops[1..] + more;
      ExpandAllAppend(ops[1..], more);
    }
  }

  lemma ApplyRotationAppend(ops: seq<Op>, more: seq<Op>, r: Rotation, n: nat)
    requires Proper1(r, n)
    ensures Proper1(ApplyRotation(ops, r), n)
    ensures ApplyRotation(more, ApplyRotation(ops, r)) == ApplyRotation(ops + more, r)
  {
    hide ApplyRotation, RunRotation;
    ApplyRotationProper(ops, r, n);
    ApplyRotationIsRun(ops, r, n);
    ApplyRotationIsRun(more, ApplyRotation(ops, r), n);
    ApplyRotationIsRun(ops + more, r, n);
    ExpandAllAppend(ops, more);
    RunRotationAppend(ExpandAll(ops), ExpandAll(more), r);
  }

  lemma ConjugateAppend(ops: seq<Op>, more: seq<Op>, rs: seq<Rotation>, i: nat, n: nat)
    requires ProperList(rs, n) && i <= |rs|
    ensures ProperList(ConjugateUpTo(ops, rs, i, n), n)
    ensures ConjugateUpTo(more, ConjugateUpTo(ops, rs, i, n), i, n) == ConjugateUpTo(ops + more, rs, i, n)
  {
    hide ApplyRotation;
    forall k | 0 <= k < i
      ensures Proper1(ApplyRotation(ops, rs[k]), n)
      ensures ApplyRotation(more, ApplyRotation(ops, rs[k])) == ApplyRotation(ops + more, rs[k])
    {
      ApplyRotationAppend(ops, more, rs[k], n);
    }
  }

  /** Conjugation keeps rotations proper, does not make them identities, and keeps each phase
      up to its sign. */
  lemma ConjugatedRotation(ops: seq<Op>, r: Rotation, n: nat)
    requires Proper1(r, n) && WellFormedAll(ops, n)
    ensures Proper1(ApplyRotation(ops, r), n)
    ensures ApplyRotation(ops, r).p.IsIdentity() ==> r.p.IsIdentity()
    ensures ApplyRotation(ops, r).phase == r.phase || ApplyRotation(ops, r).phase == Normalize(-r.phase)
  {
    ApplyRotationProper(ops, r, n);
    var p := ApplyAll(ops, r.p);
    if p.IsIdentity() {
      AdjointAllUndoes(ops, r.p);
      ApplyAllIsRun(AdjointAll(ops), p);
      assert p == Flip(Identity(n), p.neg) by { assert p.z == Zeros(n) && p.x == Zeros(n); }
      RunIdentity(ExpandAll(AdjointAll(ops)), n, p.neg);
    }
  }

  /** Absorbs the Clifford part a of rotation i and leaves rest on it. */
  method AbsorbAt(clifford: StabilizerTableau, rotations: RotationList, i: nat, a: Phase, rest: Phase)
    requires clifford.Valid() && rotations.Valid() && clifford.n == rotations.n && Built(clifford.rows, clifford.n)
    requires i < |rotations.list| && !rotations.list[i].p.IsIdentity()
    requires CliffordPhase(a) && -1.0 < rest <= 1.0 && Normalize(a + rest) == rotations.list[i].phase
    modifies clifford, rotations
    ensures clifford.Valid() && rotations.Valid() && Built(clifford.rows, clifford.n)
    ensures exists c :: WellFormedAll(c, clifford.n) && rotations.list == Absorbed(c, old(rotations.list), i, clifford.n, rest)
    ensures Same(clifford.n, Program(old(clifford.rows), old(rotations.list)), Program(clifford.rows, rotations.list))
  {
    hide Same, Built, ApplyAll, ConjugateUpTo, Normalize, TableauOf;
    var n := clifford.n;
    ghost var rows, rs := clifford.rows, rotations.list;
    var view := new ConjugationView(clifford, rotations, i);
    var ops, q := ExtractOperators(rotations.list[i].p);
    var d := PhaseOp(a, q);
    var ad := AdjointAll(ops);
    AdjointAllWellFormed(ops, n);
    CliffordRotationIsString(n, rs[i].p, a, ops, q);
    ghost var c := ops + [d] + ad;
    view.ApplyString(ops);
    view.ApplyString([d]);
    view.ApplyString(ad);
    ConjugateAppend(ops, [d], rs, i, n);
    ConjugateAppend(ops + [d], ad, rs, i, n);
    MapOpsAppend(ops, [d], rows, n);
    MapOpsAppend(ops + [d], ad, rows, n);
    ConjugateKeeps(c, rs, i, n);
    rotations.list := rotations.list[i := Rotation(rotations.list[i].p, rest)];
    assert rotations.list == Absorbed(c, rs, i, n, rest);
    AbsorbStep(n, rows, rs, i, c, a, rest);
  }

  lemma ConjugateKeeps(c: seq<Op>, rs: seq<Rotation>, i: nat, n: nat)
    requires i < |rs| && ProperList(rs, n)
    ensures ConjugateUpTo(c, rs, i, n)[i] == rs[i]
  {
  }

  // ---------------------------------------------------------------- absorbing a list

  /** Rotations before i have no Clifford phase. */
  ghost predicate NoCliffordsBefore(rs: seq<Rotation>, i: nat) {
    i <= |rs| && forall k :: 0 <= k < i ==> !CliffordPhase(rs[k].phase)
  }

  /** No rotation by a Clifford phase is about the identity. */
  ghost predicate NoCliffordIdentities(rs: seq<Rotation>) {
    forall k :: 0 <= k < |rs| && CliffordPhase(rs[k].phase) ==> !rs[k].p.IsIdentity()
  }

  lemma AbsorbedKeeps(c: seq<Op>, rs: seq<Rotation>, i: nat, n: nat, rest: Phase)
    requires i < |rs| && ProperList(rs, n) && WellFormedAll(c, n)
    ensures NoIdentities(rs) ==> NoIdentities(Absorbed(c, rs, i, n, rest))
    ensures NoCliffordIdentities(rs) && !CliffordPhase(rest) ==> NoCliffordIdentities(Absorbed(c, rs, i, n, rest))
    ensures NoCliffordsBefore(rs, i) ==> NoCliffordsBefore(Absorbed(c, rs, i, n, rest), i)
  {
    hide ApplyRotation, Normalize;
    var r := Absorbed(c, rs, i, n, rest);
    forall k | 0 <= k < |rs|
      ensures r[k].p.IsIdentity() ==> rs[k].p.IsIdentity()
      ensures k != i && CliffordPhase(r[k].phase) ==> CliffordPhase(rs[k].phase)
    {
      if k < i {
        ConjugatedRotation(c, rs[k], n);
        NegatedPhase(rs[k].phase);
      }
    }
  }

  lemma NegatedPhase(a: Phase)
    requires -1.0 < a <= 1.0
    ensures CliffordPhase(Normalize(-a)) ==> CliffordPhase(a)
  {
    if a == 1.0 {
      NormalizeIs(-1.0, 1.0, 1);
    } else {
      NormalizeFixes(-a);
    }
  }

  lemma PhaseSums(a: Phase)
    requires -1.0 < a <= 1.0
    ensures Normalize(a + 0.0) == a
  {
    NormalizeFixes(a);
  }

  /** Moves every rotation by a Clifford phase into the tableau and drops idle rotations. */
  method AbsorbCliffordRotations(clifford: StabilizerTableau, rotations: RotationList)
    requires clifford.Valid() && rotations.Valid() && clifford.n == rotations.n && Built(clifford.rows, clifford.n)
    requires NoCliffordIdentities(rotations.list)
    modifies clifford, rotations
    ensures clifford.Valid() && rotations.Valid() && Built(clifford.rows, clifford.n)
    ensures Same(clifford.n, Program(old(clifford.rows), old(rotations.list)), Program(clifford.rows, rotations.list))
    ensures forall k :: 0 <= k < |rotations.list| ==> !CliffordPhase(rotations.list[k].phase) && !Idle(rotations.list[k])
    ensures |rotations.list| <= |old(rotations.list)|
    ensures |rotations.list| == |old(rotations.list)| ==>
              rotations.list == old(rotations.list) && clifford.rows == old(clifford.rows)
  {
    hide Same, Built, Absorbed, Normalize, Program;
    var n, i := clifford.n, 0;
    ghost var w0 := Program(clifford.rows, rotations.list);
    ProgramOk(clifford.rows, rotations.list, n);
    SameRefl(n, w0);
    while i < |rotations.list|
      invariant i <= |rotations.list| == |old(rotations.list)|
      invariant clifford.Valid() && rotations.Valid() && Built(clifford.rows, n) && NoCliffordIdentities(rotations.list)
      invariant Same(n, w0, Program(clifford.rows, rotations.list))
      invariant NoCliffordsBefore(rotations.list, i)
      invariant HasZeroBefore(rotations.list, i) ||
                (rotations.list == old(rotations.list) && clifford.rows == old(clifford.rows))
    {
      ghost var rows, rs := clifford.rows, rotations.list;
      var a := rotations.list[i].phase;
      if CliffordPhase(a) {
        PhaseSums(a);
        AbsorbAt(clifford, rotations, i, a, 0.0);
        ghost var c :| WellFormedAll(c, n) && rotations.list == Absorbed(c, rs, i, n, 0.0);
        AbsorbedKeeps(c, rs, i, n, 0.0);
        AbsorbedAt(c, rs, i, n, 0.0);
        SameTrans(n, w0, Program(rows, rs), Program(clifford.rows, rotations.list));
      }
      i := i + 1;
    }
    ghost var rs := rotations.list;
    rotations.RemoveIdentities();
    KeptProgram(n, clifford.rows, rs);
    SameTrans(n, w0, Program(clifford.rows, rs), Program(clifford.rows, rotations.list));
    KeptCliffords(rs);
    if HasZeroBefore(rs, i) {
      var k :| 0 <= k < i && rs[k].phase == 0.0;
      assert Idle(rs[k]);
    }
  }

  ghost predicate HasZeroBefore(rs: seq<Rotation>, i: nat) {
    i <= |rs| && exists k :: 0 <= k < i && rs[k].phase == 0.0
  }

  lemma KeptProgram(n: nat, rows: seq<Pauli>, rs: seq<Rotation>)
    requires Built(rows, n) && ProperList(rs, n)
    ensures ProperList(Kept(rs), n) && Same(n, Program(rows, rs), Program(rows, Kept(rs)))
  {
    hide Same, Built;
    BuiltOk(rows, n);
    KeptSame(n, rs);
    SameBefore(n, [Table(rows)], Items(rs), Items(Kept(rs)));
  }

  lemma KeptCliffords(rs: seq<Rotation>)
    requires NoCliffordsBefore(rs, |rs|)
    ensures NoCliffordsBefore(Kept(rs), |Kept(rs)|)
  {
    var r := Kept(rs);
    forall k | 0 <= k < |r|
      ensures !CliffordPhase(r[k].phase)
    {
      assert r[k] in rs;
      var j :| 0 <= j < |rs| && rs[j] == r[k];
    }
  }
}
