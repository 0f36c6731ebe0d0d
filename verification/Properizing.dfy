/** Bringing every rotation's phase into (0, 1/2) by absorbing quarter turns into the tableau. */
module Properizing {
  import opened Paulis
  import opened Operators
  import opened Tableaux
  import opened StabilizerTableaux
  import opened Meaning
  import opened MeaningLaws
  import opened Rotations
  import opened Diagonalization
  import opened Merging
  import opened Absorbing

  predicate ProperPhase(a: Phase) {
    0.0 <= a < 0.5
  }

  /** The phase as a turn in [0, 2). */
  function Unwrapped(a: Phase): Phase {
    if a < 0.0 then a + 2.0 else a
  }

  lemma QuarterBack(a: Phase)
    requires -1.0 < a <= 1.0 && !ProperPhase(a)
    ensures var b := Normalize(a - 0.5); -1.0 < b <= 1.0 && Unwrapped(b) == Unwrapped(a) - 0.5 >= 0.0
  {
    if a - 0.5 > -1.0 {
      NormalizeFixes(a - 0.5);
    } else {
      NormalizeIs(a - 0.5, a + 1.5, 1);
    }
  }

  /** k quarter turns, normalised. */
  function Quarters(k: nat): Phase {
    if k == 0 then 0.0 else if k == 1 then 0.5 else if k == 2 then 1.0 else -0.5
  }

  lemma OneMoreQuarter(k: nat)
    requires k < 3
    ensures Normalize(Quarters(k) + 0.5) == Quarters(k + 1)
  {
    if k == 2 {
      NormalizeIs(1.5, -0.5, -1);
    } else {
      NormalizeFixes(Quarters(k) + 0.5);
    }
  }

  lemma QuartersAddUp(a: Phase, b: Phase, k: nat)
    requires -1.0 < a <= 1.0 && -1.0 < b <= 1.0 && k <= 3 && Unwrapped(b) == Unwrapped(a) - 0.5 * k as real
    ensures Normalize(Quarters(k) + b) == a
  {
    var s := Quarters(k) + b;
    if s == a {
      NormalizeFixes(a);
    } else if s == a + 2.0 {
      NormalizeIs(s, a, -1);
    } else {
      NormalizeIs(s, a, 1);
    }
  }

  /** Splits a phase into a number of quarter turns and a rest in [0, 1/2). */
  method SplitPhase(a: Phase) returns (rest: Phase, complement: Phase)
    requires -1.0 < a <= 1.0
    ensures ProperPhase(rest) && (complement == 0.0 || CliffordPhase(complement))
    ensures Normalize(complement + rest) == a && (complement == 0.0 ==> rest == a)
  {
    hide Normalize;
    rest, complement := a, 0.0;
    ghost var k := 0;
    while !ProperPhase(rest)
      invariant -1.0 < rest <= 1.0 && k <= 3 && complement == Quarters(k)
      invariant Unwrapped(rest) == Unwrapped(a) - 0.5 * k as real
      invariant k == 0 ==> rest == a
      decreases 3 - k
    {
      assert Unwrapped(rest) >= 0.5;
      QuarterBack(rest);
      OneMoreQuarter(k);
      rest := Normalize(rest - 0.5);
      complement := Normalize(complement + 0.5);
      k := k + 1;
    }
    QuartersAddUp(a, rest, k);
  }

  /** Rotations from i on have phases in [0, 1/2). */
  ghost predicate ProperFrom(rs: seq<Rotation>, i: nat) {
    i <= |rs| && forall k :: i <= k < |rs| ==> ProperPhase(rs[k].phase)
  }

  lemma AbsorbedProperFrom(c: seq<Op>, rs: seq<Rotation>, i: nat, n: nat, rest: Phase)
    requires i < |rs| && ProperList(rs, n) && ProperPhase(rest) && ProperFrom(rs, i + 1)
    ensures ProperFrom(Absorbed(c, rs, i, n, rest), i)
  {
  }

  /** Leaves every rotation with a phase in (0, 1/2). */
  method Properize(clifford: StabilizerTableau, rotations: RotationList)
    requires clifford.Valid() && rotations.Valid() && clifford.n == rotations.n && Built(clifford.rows, clifford.n)
    modifies clifford, rotations
    ensures clifford.Valid() && rotations.Valid() && Built(clifford.rows, clifford.n)
    ensures Same(clifford.n, Program(old(clifford.rows), old(rotations.list)), Program(clifford.rows, rotations.list))
    ensures forall k :: 0 <= k < |rotations.list| ==>
              0.0 < rotations.list[k].phase < 0.5 && !rotations.list[k].p.IsIdentity()
    ensures |rotations.list| <= |old(rotations.list)|
  {
    hide Same, Built, Absorbed, Normalize, Program;
    var n := clifford.n;
    ghost var w0, rs0 := Program(clifford.rows, rotations.list), rotations.list;
    rotations.Merge();
    SameLists(n, clifford.rows, rs0, rotations.list);
    var i: nat := |rotations.list|;
    while i > 0
      invariant i <= |rotations.list| <= |rs0|
      invariant clifford.Valid() && rotations.Valid() && Built(clifford.rows, n) && NoIdentities(rotations.list)
      invariant Same(n, w0, Program(clifford.rows, rotations.list))
      invariant ProperFrom(rotations.list, i)
    {
      i := i - 1;
      ghost var rows, rs := clifford.rows, rotations.list;
      var rest, complement := SplitPhase(rotations.list[i].phase);
      if complement != 0.0 {
        AbsorbAt(clifford, rotations, i, complement, rest);
        ghost var c :| WellFormedAll(c, n) && rotations.list == Absorbed(c, rs, i, n, rest);
        AbsorbedKeeps(c, rs, i, n, rest);
        AbsorbedProperFrom(c, rs, i, n, rest);
        SameTrans(n, w0, Program(rows, rs), Program(clifford.rows, rotations.list));
      }
    }
    ghost var rs := rotations.list;
    rotations.RemoveIdentities();
    KeptProgram(n, clifford.rows, rs);
    SameTrans(n, w0, Program(clifford.rows, rs), Program(clifford.rows, rotations.list));
    KeptProper(rs);
  }

  lemma SameLists(n: nat, rows: seq<Pauli>, rs: seq<Rotation>, rs': seq<Rotation>)
    requires Built(rows, n) && Same(n, Items(rs), Items(rs'))
    ensures Same(n, Program(rows, rs), Program(rows, rs'))
  {
    hide Same, Built;
    BuiltOk(rows, n);
    SameBefore(n, [Table(rows)], Items(rs), Items(rs'));
  }

  lemma KeptProper(rs: seq<Rotation>)
    requires ProperFrom(rs, 0)
    ensures forall k :: 0 <= k < |Kept(rs)| ==> 0.0 < Kept(rs)[k].phase < 0.5 && !Kept(rs)[k].p.IsIdentity()
  {
    var r := Kept(rs);
    forall k | 0 <= k < |r|
      ensures 0.0 < r[k].phase < 0.5 && !r[k].p.IsIdentity()
    {
      assert r[k] in rs;
      var j :| 0 <= j < |rs| && rs[j] == r[k];
    }
  }
}
