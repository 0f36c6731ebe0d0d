/** A tableau without a Clifford loses the gates appended to it. */
module LostGates {
  import opened Paulis
  import opened Operators
  import opened Tableaux
  import opened Meaning
  import opened MeaningLaws
  import opened OperatorIdentities
  import opened Absorbing
  import opened Rotations
  import opened MixedTableaux
  import TableauPasses

  /** The state in which only p has an expectation. */
  function Only(p: Pauli): Pauli -> real {
    q => if q == p then 1.0 else if q == p.Negate() then -1.0 else 0.0
  }

  lemma OnlyIsState(p: Pauli)
    ensures State(Only(p))
  {
    forall q: Pauli
      ensures Opposite(Only(p), q)
    {
      assert q.Negate().Negate() == q && p.Negate().Negate() == p && p != p.Negate();
    }
  }

  /** A product that the gate changes. */
  function Witness(g: Gate, n: nat): Pauli {
    match g
    case H(q) => ZAt(n, q)
    case S(q) => XAt(n, q)
    case CX(c, _) => XAt(n, c)
  }

  lemma GateChanges(g: Gate, n: nat)
    requires Proper(g, n)
    ensures WellFormed(GateOp(g), n) && Witness(g, n).Sized(n)
    ensures var q := Apply(Adjoint(GateOp(g)), Witness(g, n)); q.z != Witness(g, n).z || q.x != Witness(g, n).x
  {
    var p := Witness(g, n);
    match g {
      case H(q) =>
        Run1(H(q), p);
        assert Conj(H(q), p).x[q] && !p.x[q];
      case S(q) =>
        OnSdg(q, p);
        assert Conj(S(q), p).z[q] && !p.z[q];
      case CX(c, t) =>
        OnCX(c, t, p);
        assert Conj(CX(c, t), p).x[t] && !p.x[t];
    }
  }

  /** No gate is the identity. */
  lemma GateIsSomething(t: Trig, n: nat, g: Gate)
    requires IsTrig(t) && Proper(g, n)
    ensures !Same(n, [Do(GateOp(g))], [])
  {
    hide Apply, Witness;
    var d, p := Do(GateOp(g)), Witness(g, n);
    GateChanges(g, n);
    OnlyIsState(p);
    TwoOk(d, d, n);
    ExpectOne(t, Only(p), d, p);
    ExpectNone(t, Only(p), p);
    assert Only(p)(Apply(Adjoint(GateOp(g)), p)) == 0.0;
    assert Expect(t, Only(p), [d], p) != Expect(t, Only(p), [], p);
  }

  lemma {:induction false} OnlyRotations(subs: seq<Sub>, n: nat)
    requires SubsOk(subs, n) && !HasClifford(subs)
    ensures AllItems(subs) == Items(TableauPasses.RotationsOf(subs))
  {
    hide SubOk, HasClifford;
    if subs != [] {
      var m := |subs| - 1;
      var last := subs[m];
      NoCliffordBefore(subs, m);
      OnlyRotations(subs[..m], n);
      assert subs == subs[..m] + [last];
      TableauPasses.RotationsOfAppend(subs[..m], [last]);
      assert TableauPasses.RotationsOf([last]) == last.list by { JustOne(last); }
      ItemsAppend(TableauPasses.RotationsOf(subs[..m]), last.list);
    }
  }

  lemma NoCliffordBefore(subs: seq<Sub>, m: nat)
    requires m < |subs| && !HasClifford(subs)
    ensures !HasClifford(subs[..m]) && subs[m].Rotations?
  {
    assert !subs[m].Clifford?;
    forall i | 0 <= i < m
      ensures !subs[..m][i].Clifford?
    {
      assert !subs[i].Clifford?;
    }
  }

  lemma JustOne(s: Sub)
    requires s.Rotations?
    ensures TableauPasses.RotationsOf([s]) == s.list
  {
    assert [s][1..] == [];
    assert TableauPasses.RotationsOf([s]) == s.list + [];
  }

  /** A list of rotations, which has an inverse, cannot swallow a gate in front of it. */
  lemma NotSwallowed(t: Trig, n: nat, g: Gate, list: seq<Rotation>)
    requires IsTrig(t) && Proper(g, n) && ProperList(list, n)
    ensures !Same(n, [Do(GateOp(g))] + Items(list), Items(list))
  {
    hide Same;
    var h, w, ad := [Do(GateOp(g))], Items(list), Items(AdjointRotations(list));
    GateIsSomething(t, n, g);
    GateChanges(g, n);
    TwoOk(h[0], h[0], n);
    AdjointRotationsInverse(n, list);
    ItemsOk(AdjointRotations(list), n);
    if Same(n, h + w, w) {
      SameAfter(n, h + w, w, ad);
      SameBefore(n, h, w + ad, []);
      assert h + w + ad == h + (w + ad) && h + [] == h;
      SameSym(n, h + (w + ad), h);
      SameTrans(n, h, h + w + ad, w + ad);
      SameTrans(n, h, w + ad, []);
    }
  }

  /** Appending a gate to a tableau without a Clifford never keeps the meaning. */
  lemma LostWithoutClifford(t: Trig, n: nat, g: Gate, before: seq<Sub>, after: seq<Sub>)
    requires IsTrig(t) && Proper(g, n) && SubsOk(before, n) && SubsOk(after, n) && !HasClifford(before) && Appended(n, g, before, after)
    ensures !Same(n, AllItems(before) + [Do(GateOp(g))], AllItems(after))
  {
    hide Same, SubOk;
    var h := [Do(GateOp(g))];
    assert !HasClifford(after);
    OnlyRotations(after, n);
    var list := TableauPasses.RotationsOf(after);
    TableauPasses.RotationsOfProper(after, n);
    NotSwallowed(t, n, g, list);
    if Same(n, AllItems(before) + h, AllItems(after)) {
      SameSym(n, AllItems(before) + h, h + AllItems(after));
      SameTrans(n, h + AllItems(after), AllItems(before) + h, AllItems(after));
    }
  }

  /** Appending a gate to the tableau is appending it to the program exactly when a Clifford is there to
      take it. */
  lemma KeptExactlyWithClifford(t: Trig, n: nat, g: Gate, before: seq<Sub>, after: seq<Sub>)
    requires IsTrig(t) && Proper(g, n) && SubsOk(before, n) && SubsOk(after, n) && Appended(n, g, before, after)
    ensures Same(n, AllItems(before) + [Do(GateOp(g))], AllItems(after)) <==> HasClifford(before)
  {
    hide Same, SubOk;
    if !HasClifford(before) {
      LostWithoutClifford(t, n, g, before, after);
    }
  }

  /** Removing the identities from an identity tableau leaves nothing, and the next gate is lost. */
  method AppendToTidiedIdentity(n: nat, g: Gate) returns (tableau: Tableau)
    requires Proper(g, n)
    ensures tableau.n == n && tableau.subs == [] && Appended(n, g, [], tableau.subs)
  {
    hide Appended;
    IdentityOk(n);
    tableau := new Tableau([Clifford(IdentityRows(n))], n);
    TableauPasses.RemoveIdentities(tableau);
    tableau.AppendGate(g);
    NothingAppended(n, g, tableau.subs);
  }

  lemma NothingAppended(n: nat, g: Gate, after: seq<Sub>)
    requires Appended(n, g, [], after)
    ensures after == []
  {
  }

  lemma IdentityOk(n: nat)
    ensures SubsOk([Clifford(IdentityRows(n))], n)
  {
    assert MapOps([], IdentityRows(n)) == IdentityRows(n);
    assert WellFormedAll([], n) && IdentityRows(n) == TableauOf([], n);
  }

  /** The gate appended there is not the empty program. */
  lemma TidiedIdentityLoses(t: Trig, n: nat, g: Gate)
    requires IsTrig(t) && Proper(g, n) && Appended(n, g, [], [])
    ensures !Same(n, AllItems([]) + [Do(GateOp(g))], AllItems([]))
  {
    hide Same;
    LostWithoutClifford(t, n, g, [], []);
  }
}
