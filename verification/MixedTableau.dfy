/** Tableaux that alternate Clifford operators and lists of Pauli rotations. */
module MixedTableaux {
  import opened Paulis
  import opened Operators
  import opened Tableaux
  import opened StabilizerTableaux
  import opened Meaning
  import opened MeaningLaws
  import opened Rotations
  import opened Absorbing
  import HOptimal

  datatype Sub = Clifford(rows: seq<Pauli>) | Rotations(list: seq<Rotation>)

  ghost predicate SubOk(s: Sub, n: nat) {
    match s
    case Clifford(rows) => Built(rows, n)
    case Rotations(list) => ProperList(list, n)
  }

  ghost predicate SubsOk(subs: seq<Sub>, n: nat) {
    forall i :: 0 <= i < |subs| ==> SubOk(subs[i], n)
  }

  ghost function SubItems(s: Sub): seq<Item> {
    match s
    case Clifford(rows) => [Table(rows)]
    case Rotations(list) => Items(list)
  }

  /** The program a list of sub-tableaux stands for. */
  ghost function AllItems(subs: seq<Sub>): seq<Item> {
    if subs == [] then [] else AllItems(subs[..|subs| - 1]) + SubItems(subs[|subs| - 1])
  }

  lemma SubItemsOk(s: Sub, n: nat)
    requires SubOk(s, n)
    ensures Ok(SubItems(s), n)
  {
    match s
    case Clifford(rows) => BuiltOk(rows, n);
    case Rotations(list) => ItemsOk(list, n);
  }

  lemma {:induction false} AllItemsOk(subs: seq<Sub>, n: nat)
    requires SubsOk(subs, n)
    ensures Ok(AllItems(subs), n)
  {
    hide Ok, SubOk;
    if subs == [] {
      NothingOk(n);
    } else {
      AllItemsOk(subs[..|subs| - 1], n);
      SubItemsOk(subs[|subs| - 1], n);
      OkAppend(AllItems(subs[..|subs| - 1]), SubItems(subs[|subs| - 1]), n);
    }
  }

  lemma NothingOk(n: nat)
    ensures Ok([], n)
  {
  }

  lemma {:induction false} AllItemsAppend(subs: seq<Sub>, more: seq<Sub>)
    ensures AllItems(subs + more) == AllItems(subs) + AllItems(more)
    decreases |more|
  {
    hide AllItems, SubItems;
    if more == [] {
      AllItemsNone();
      assert subs + more == subs;
      assert AllItems(subs) + [] == AllItems(subs);
    } else {
      var m := |more| - 1;
      assert (subs + more)[..|subs + more| - 1] == subs + more[..m];
      AllItemsAppend(subs, more[..m]);
      AllItemsLast(subs + more);
      AllItemsLast(more);
      Regroup(AllItems(subs), AllItems(more[..m]), SubItems(more[m]));
    }
  }

  lemma {:induction false} AllItemsLast(subs: seq<Sub>)
    requires subs != []
    ensures AllItems(subs) == AllItems(subs[..|subs| - 1]) + SubItems(subs[|subs| - 1])
  {
    hide SubItems;
  }

  lemma {:induction false} Regroup(a: seq<Item>, b: seq<Item>, c: seq<Item>)
    ensures a + b + c == a + (b + c)
  {
    assert a + b + c == a + (b + c);
  }

  lemma AllItemsNone()
    ensures AllItems([]) == []
  {
  }

  lemma {:induction false} AllItemsOne(s: Sub)
    ensures AllItems([s]) == SubItems(s)
  {
    assert [s][..0] == [];
  }

  lemma {:induction false} AllItemsSplit(subs: seq<Sub>, i: nat)
    requires i < |subs|
    ensures AllItems(subs) == AllItems(subs[..i]) + SubItems(subs[i]) + AllItems(subs[i + 1..])
  {
    hide *;
    var pre, one, post := subs[..i], [subs[i]], subs[i + 1..];
    assert subs == (pre + one) + post;
    AllItemsAppend(pre + one, post);
    AllItemsAppend(pre, one);
    AllItemsOne(subs[i]);
  }

  /** Replacing one sub-tableau by an equivalent one keeps the meaning. */
  lemma ReplaceSub(n: nat, subs: seq<Sub>, i: nat, s: Sub)
    requires SubsOk(subs, n) && i < |subs| && SubOk(s, n) && Same(n, SubItems(subs[i]), SubItems(s))
    ensures SubsOk(subs[i := s], n) && Same(n, AllItems(subs), AllItems(subs[i := s]))
  {
    hide Same, SubOk, SubItems, AllItems;
    AllItemsSplit(subs, i);
    AllItemsSplit(subs[i := s], i);
    assert subs[i := s][..i] == subs[..i] && subs[i := s][i + 1..] == subs[i + 1..];
    AllItemsOk(subs[..i], n);
    AllItemsOk(subs[i + 1..], n);
    SameInContext(n, AllItems(subs[..i]), SubItems(subs[i]), SubItems(s), AllItems(subs[i + 1..]));
  }

  lemma BuiltIsSymplectic(rows: seq<Pauli>, n: nat)
    requires Built(rows, n)
    ensures Symplectic(rows, n)
  {
    var ops :| WellFormedAll(ops, n) && rows == TableauOf(ops, n);
    TableauOfIsSymplectic(ops, n);
  }

  /** Operators that build the given tableau, by the default strategy. */
  method ExtractFromTableau(rows: seq<Pauli>, n: nat) returns (ops: seq<Op>)
    requires Built(rows, n)
    ensures WellFormedAll(ops, n) && TableauOf(ops, n) == rows
    ensures Same(n, [Table(rows)], Gates(ops)) && Same(n, Gates(ops), [Table(rows)])
  {
    hide Built, Same, TableauOf;
    BuiltIsSymplectic(rows, n);
    var copy := new StabilizerTableau.Copy(rows, n);
    ops := HOptimal.Synthesize(copy, HOptimal.Star);
    StringIsTable(n, ops);
    SameSym(n, Gates(ops), [Table(rows)]);
  }

  /** The tableau of the inverse operator. */
  method AdjointTableau(rows: seq<Pauli>, n: nat) returns (r: seq<Pauli>)
    requires Built(rows, n)
    ensures Built(r, n)
    ensures Same(n, [Table(rows), Table(r)], []) && Same(n, [Table(r), Table(rows)], [])
  {
    hide Same, ApplyAll;
    var ops := ExtractFromTableau(rows, n);
    var t := new StabilizerTableau(n);
    t.ApplyString(AdjointAll(ops));
    r := t.rows;
    AdjointAllWellFormed(ops, n);
    assert r == TableauOf(AdjointAll(ops), n);
    InverseTables(n, ops);
  }

  lemma InverseTables(n: nat, ops: seq<Op>)
    requires WellFormedAll(ops, n)
    ensures var a, b := Table(TableauOf(ops, n)), Table(TableauOf(AdjointAll(ops), n));
            Same(n, [a, b], []) && Same(n, [b, a], [])
  {
    hide Same, TableauOf;
    var ad := AdjointAll(ops);
    var a, b := Table(TableauOf(ops, n)), Table(TableauOf(ad, n));
    AdjointAllWellFormed(ops, n);
    GatesOk(ops, n);
    GatesOk(ad, n);
    StringIsTable(n, ops);
    StringIsTable(n, ad);
    StringCancels(n, ops);
    TwoTables(n, ops, ad);
    TwoTables(n, ad, ops);
    SameTrans(n, [a, b], Gates(ops) + Gates(ad), []);
    SameTrans(n, [b, a], Gates(ad) + Gates(ops), []);
  }

  lemma TwoTables(n: nat, ops: seq<Op>, more: seq<Op>)
    requires WellFormedAll(ops, n) && WellFormedAll(more, n)
    ensures Same(n, [Table(TableauOf(ops, n)), Table(TableauOf(more, n))], Gates(ops) + Gates(more))
  {
    hide Same, TableauOf;
    var a, b := Table(TableauOf(ops, n)), Table(TableauOf(more, n));
    StringIsTable(n, ops);
    StringIsTable(n, more);
    SameSym(n, Gates(ops), [a]);
    SameSym(n, Gates(more), [b]);
    SameOk(n, Gates(more), [b]);
    SameOk(n, Gates(ops), [a]);
    SameAfter(n, [a], Gates(ops), [b]);
    SameBefore(n, Gates(ops), [b], Gates(more));
    assert [a] + [b] == [a, b];
    SameTrans(n, [a, b], Gates(ops) + [b], Gates(ops) + Gates(more));
  }

  // ---------------------------------------------------------------- inverse rotation lists

  function AdjointRotation(r: Rotation): Rotation {
    Rotation(r.p, Normalize(-r.phase))
  }

  function AdjointRotations(rs: seq<Rotation>): (r: seq<Rotation>)
    ensures |r| == |rs| && forall i :: 0 <= i < |rs| ==> r[i] == AdjointRotation(rs[|rs| - 1 - i])
  {
    seq(|rs|, i requires 0 <= i < |rs| => AdjointRotation(rs[|rs| - 1 - i]))
  }

  lemma AdjointRotationCancels(n: nat, r: Rotation)
    requires Proper1(r, n)
    ensures Same(n, [Item1(r), Item1(AdjointRotation(r))], []) && Same(n, [Item1(AdjointRotation(r)), Item1(r)], [])
  {
    hide Same, Normalize;
    var a, b := Item1(r), Item1(AdjointRotation(r));
    OppositePhases(r.phase);
    MergeRotations(n, r.p, r.phase, Normalize(-r.phase));
    MergeRotations(n, r.p, Normalize(-r.phase), r.phase);
    DropZeroRotation(n, r.p);
    SameTrans(n, [a, b], [Rotate(r.p, 0.0)], []);
    SameTrans(n, [b, a], [Rotate(r.p, 0.0)], []);
  }

  lemma OppositePhases(a: Phase)
    requires -1.0 < a <= 1.0
    ensures Normalize(a + Normalize(-a)) == 0.0 && Normalize(Normalize(-a) + a) == 0.0
  {
    if a == 1.0 {
      NormalizeIs(-1.0, 1.0, 1);
      NormalizeIs(2.0, 0.0, -1);
    } else {
      NormalizeFixes(-a);
      NormalizeFixes(0.0);
    }
  }

  /** A program v followed by w, and w followed by v, mean nothing. */
  ghost predicate Inverse(n: nat, v: seq<Item>, w: seq<Item>) {
    Same(n, v + w, []) && Same(n, w + v, [])
  }

  /** The inverse of v1 and then v2 is the inverse of v2 and then that of v1. */
  lemma InverseAppend(n: nat, v1: seq<Item>, w1: seq<Item>, v2: seq<Item>, w2: seq<Item>)
    requires Ok(v1, n) && Ok(w1, n) && Ok(v2, n) && Ok(w2, n) && Inverse(n, v1, w1) && Inverse(n, v2, w2)
    ensures Inverse(n, v1 + v2, w2 + w1)
  {
    hide Same;
    CancelInside(n, v1, v2, w2, w1);
    CancelInside(n, w2, w1, v1, v2);
  }

  lemma CancelInside(n: nat, v1: seq<Item>, v2: seq<Item>, w2: seq<Item>, w1: seq<Item>)
    requires Ok(v1, n) && Ok(w1, n) && Same(n, v2 + w2, []) && Same(n, v1 + w1, [])
    ensures Same(n, (v1 + v2) + (w2 + w1), [])
  {
    hide Same;
    SameInContext(n, v1, v2 + w2, [], w1);
    assert v1 + (v2 + w2) + w1 == (v1 + v2) + (w2 + w1) && v1 + [] + w1 == v1 + w1;
    SameTrans(n, (v1 + v2) + (w2 + w1), v1 + w1, []);
  }

  lemma AdjointRotationProper(r: Rotation, n: nat)
    requires Proper1(r, n)
    ensures Proper1(AdjointRotation(r), n)
  {
  }

  lemma {:induction false} AdjointRotationsInverse(n: nat, rs: seq<Rotation>)
    requires ProperList(rs, n)
    ensures ProperList(AdjointRotations(rs), n) && Inverse(n, Items(rs), Items(AdjointRotations(rs)))
    decreases |rs|
  {
    hide Same, AdjointRotation;
    if rs == [] {
      assert Items(rs) + Items(AdjointRotations(rs)) == [];
      NothingOk(n);
      SameRefl(n, []);
      assert Items(AdjointRotations(rs)) + Items(rs) == [];
    } else {
      var m := |rs| - 1;
      var init, last := rs[..m], rs[m];
      var ad := AdjointRotation(last);
      AdjointRotationProper(last, n);
      AdjointRotationsInverse(n, init);
      AdjointRotationCancels(n, last);
      assert rs == init + [last] && AdjointRotations(rs) == [ad] + AdjointRotations(init);
      assert Items(rs) == Items(init) + [Item1(last)] && Items(AdjointRotations(rs)) == [Item1(ad)] + Items(AdjointRotations(init));
      ItemsOk(init, n);
      ItemsOk(AdjointRotations(init), n);
      ItemsOk([last], n);
      ItemsOk([ad], n);
      assert Items([last]) == [Item1(last)] && Items([ad]) == [Item1(ad)];
      assert [Item1(last)] + [Item1(ad)] == [Item1(last), Item1(ad)] && [Item1(ad)] + [Item1(last)] == [Item1(ad), Item1(last)];
      InverseAppend(n, Items(init), Items(AdjointRotations(init)), [Item1(last)], [Item1(ad)]);
    }
  }

  // ---------------------------------------------------------------- the class

  function GateOp(g: Gate): Op {
    match g
    case H(q) => Op(OpH, q, 0)
    case S(q) => Op(OpS, q, 0)
    case CX(c, t) => Op(OpCX, c, t)
  }

  ghost predicate HasClifford(subs: seq<Sub>) {
    exists i :: 0 <= i < |subs| && subs[i].Clifford?
  }

  /** What appending a gate makes of the sub-tableaux: with a Clifford the gate is in it, without one the
      gate is left standing in front. */
  ghost predicate Appended(n: nat, g: Gate, before: seq<Sub>, after: seq<Sub>) {
    && WellFormed(GateOp(g), n) && |after| == |before|
    && (forall k :: 0 <= k < |after| ==> after[k].Clifford? == before[k].Clifford?)
    && if HasClifford(before) then Same(n, AllItems(before) + [Do(GateOp(g))], AllItems(after))
       else Same(n, AllItems(before) + [Do(GateOp(g))], [Do(GateOp(g))] + AllItems(after))
  }

  /** A Clifford sub-tableau followed by a gate is the sub-tableau with the gate applied. */
  lemma GateIntoClifford(n: nat, rows: seq<Pauli>, g: Gate)
    requires Built(rows, n) && Proper(g, n)
    ensures Shaped(rows, n) && Built(MapGates([g], rows), n) && WellFormed(GateOp(g), n)
    ensures Same(n, [Table(rows)] + [Do(GateOp(g))], [Table(MapGates([g], rows))])
  {
    hide Same, ApplyAll, Run;
    var ops := [GateOp(g)];
    BuiltShaped(rows, n);
    assert WellFormedAll(ops, n);
    BuiltMore(rows, ops, n);
    forall i | 0 <= i < |rows|
      ensures ApplyAll(ops, rows[i]) == Run([g], rows[i])
    {
      ApplyAllOne(GateOp(g), rows[i]);
    }
    assert MapOps(ops, rows) == MapGates([g], rows);
    assert Gates(ops) == [Do(GateOp(g))];
  }

  lemma GateRotation(g: Gate, r: Rotation, n: nat)
    requires Proper1(r, n)
    ensures ApplyRotation([GateOp(g)], r) == ConjRotation(g, r)
  {
    ApplyAllOne(GateOp(g), r.p);
    Run1(g, r.p);
  }

  class Tableau {
    const n: nat
    var subs: seq<Sub>

    ghost predicate Valid()
      reads this
    {
      SubsOk(subs, n)
    }

    constructor (subs: seq<Sub>, n: nat)
      requires SubsOk(subs, n)
      ensures Valid() && this.n == n && this.subs == subs
    {
      this.n := n;
      this.subs := subs;
    }

    method GateOnRows(rows: seq<Pauli>, g: Gate) returns (r: seq<Pauli>)
      requires Shaped(rows, n)
      ensures r == MapGates([g], rows)
    {
      var st := new StabilizerTableau.Copy(rows, n);
      st.ApplyGate(g);
      r := st.rows;
    }

    /** Applies a gate to a rotation list. */
    method ConjugateList(list: seq<Rotation>, g: Gate) returns (r: seq<Rotation>)
      requires ProperList(list, n)
      ensures r == ApplyRotations([GateOp(g)], list)
    {
      hide ConjRotation, ApplyRotation;
      r := [];
      for i := 0 to |list|
        invariant |r| == i && forall k :: 0 <= k < i ==> r[k] == ApplyRotation([GateOp(g)], list[k])
      {
        GateRotation(g, list[i], n);
        r := r + [ConjRotation(g, list[i])];
      }
    }

    /** Appends a gate: it passes the trailing rotations and enters the last Clifford. Without
        a Clifford it is left standing in front. */
    method AppendGate(g: Gate)
      requires Valid() && Proper(g, n)
      modifies this
      ensures Valid() && Appended(n, g, old(subs), subs)
    {
      hide Same, SubOk, MapGates, Run, AllItems, Ok;
      AllItemsNone();
      var d := Do(GateOp(g));
      ghost var start := subs;
      DoOk(g, n);
      var i := |subs|;
      AllItemsOk(subs, n);
      OkAppend(AllItems(subs), [d], n);
      SameRefl(n, AllItems(subs) + [d]);
      assert subs[..i] == subs && subs[i..] == [] && AllItems(subs) + [d] == AllItems(subs[..i]) + [d] + AllItems(subs[i..]);
      while i > 0
        invariant i <= |subs| == |start| && Valid() && subs[..i] == start[..i]
        invariant forall k :: i <= k < |start| ==> start[k].Rotations? && subs[k].Rotations?
        invariant Same(n, AllItems(start) + [d], AllItems(subs[..i]) + [d] + AllItems(subs[i..]))
      {
        i := i - 1;
        var s' := subs[i];
        match subs[i] {
          case Clifford(rows) =>
            RowsBuilt(subs[i], n);
            GateIntoClifford(n, rows, g);
            var rows' := GateOnRows(rows, g);
            s' := Clifford(rows');
            NewCliffordOk(rows', n);
            GateStepClifford(n, start, subs, i, d, s');
            subs := subs[i := s'];
            assert start[i].Clifford?;
            return;
          case Rotations(list) =>
            ListProper(subs[i], n);
            var list' := ConjugateList(list, g);
            s' := Rotations(list');
            GateStepRotations(n, start, subs, i, g, s');
            subs := subs[i := s'];
        }
      }
      assert subs[..0] == [] && subs[0..] == subs;
      assert AllItems(subs[..0]) + [d] + AllItems(subs[0..]) == [d] + AllItems(subs);
    }
  }

  lemma DoOk(g: Gate, n: nat)
    requires Proper(g, n)
    ensures WellFormed(GateOp(g), n) && Ok([Do(GateOp(g))], n)
  {
  }

  lemma RowsBuilt(s: Sub, n: nat)
    requires SubOk(s, n) && s.Clifford?
    ensures Built(s.rows, n) && Shaped(s.rows, n)
  {
    BuiltShaped(s.rows, n);
  }

  lemma ListProper(s: Sub, n: nat)
    requires SubOk(s, n) && s.Rotations?
    ensures ProperList(s.list, n)
  {
  }

  lemma NewCliffordOk(rows: seq<Pauli>, n: nat)
    requires Built(rows, n)
    ensures SubOk(Clifford(rows), n)
  {
  }

  /** The gate enters the Clifford at i. */
  lemma GateStepClifford(n: nat, start: seq<Sub>, subs: seq<Sub>, i: nat, d: Item, s: Sub)
    requires SubsOk(subs, n) && i < |subs| && Ok([d], n) && SubOk(s, n)
    requires Same(n, AllItems(start) + [d], AllItems(subs[..i + 1]) + [d] + AllItems(subs[i + 1..]))
    requires Same(n, SubItems(subs[i]) + [d], SubItems(s))
    ensures SubsOk(subs[i := s], n) && Same(n, AllItems(start) + [d], AllItems(subs[i := s]))
  {
    hide Same, SubOk, SubItems, AllItems;
    var a, b := AllItems(subs[..i]), AllItems(subs[i + 1..]);
    assert subs[..i + 1] == subs[..i] + [subs[i]];
    AllItemsAppend(subs[..i], [subs[i]]);
    AllItemsOne(subs[i]);
    AllItemsOk(subs[..i], n);
    AllItemsOk(subs[i + 1..], n);
    SameInContext(n, a, SubItems(subs[i]) + [d], SubItems(s), b);
    assert a + (SubItems(subs[i]) + [d]) + b == AllItems(subs[..i + 1]) + [d] + b;
    AllItemsSplit(subs[i := s], i);
    assert subs[i := s][..i] == subs[..i] && subs[i := s][i + 1..] == subs[i + 1..];
    SameTrans(n, AllItems(start) + [d], AllItems(subs[..i + 1]) + [d] + b, AllItems(subs[i := s]));
  }

  lemma PassMiddle(n: nat, w: seq<Item>, a: seq<Item>, l: seq<Item>, d: seq<Item>, l': seq<Item>, b: seq<Item>)
    requires Ok(a, n) && Ok(b, n) && Same(n, w, (a + l) + d + b) && Same(n, l + d, d + l')
    ensures Same(n, w, a + d + (l' + b))
  {
    hide Same, Ok;
    SameInContext(n, a, l + d, d + l', b);
    assert a + (l + d) + b == (a + l) + d + b;
    assert a + (d + l') + b == a + d + (l' + b);
    SameTrans(n, w, (a + l) + d + b, a + d + (l' + b));
  }

  lemma AllItemsFront(s: Sub, more: seq<Sub>)
    ensures AllItems([s] + more) == SubItems(s) + AllItems(more)
  {
    AllItemsAppend([s], more);
    AllItemsOne(s);
  }

  lemma AllItemsBack(subs: seq<Sub>, s: Sub)
    ensures AllItems(subs + [s]) == AllItems(subs) + SubItems(s)
  {
    AllItemsAppend(subs, [s]);
    AllItemsOne(s);
  }

  /** The gate passes the rotation list at i. */
  lemma GateStepRotations(n: nat, start: seq<Sub>, subs: seq<Sub>, i: nat, g: Gate, s: Sub)
    requires SubsOk(subs, n) && i < |subs| && Proper(g, n) && subs[i].Rotations?
    requires ProperList(subs[i].list, n) && s == Rotations(ApplyRotations([GateOp(g)], subs[i].list))
    requires Same(n, AllItems(start) + [Do(GateOp(g))], AllItems(subs[..i + 1]) + [Do(GateOp(g))] + AllItems(subs[i + 1..]))
    ensures SubsOk(subs[i := s], n)
    ensures var subs' := subs[i := s];
            Same(n, AllItems(start) + [Do(GateOp(g))], AllItems(subs'[..i]) + [Do(GateOp(g))] + AllItems(subs'[i..]))
  {
    hide Same, SubItems, AllItems, ApplyRotation;
    var ops, list := [GateOp(g)], subs[i].list;
    DoOk(g, n);
    ApplyRotationsProper(ops, list, n);
    PassStringAll(n, list, ops);
    assert Gates(ops) == [Do(GateOp(g))];
    SubItemsOfRotations(subs[i]);
    SubItemsOfRotations(s);
    hide Items, ApplyRotations, Gates;
    var subs' := subs[i := s];
    AllItemsOk(subs[..i], n);
    AllItemsOk(subs[i + 1..], n);
    AllItemsBack(subs[..i], subs[i]);
    AllItemsFront(s, subs[i + 1..]);
    assert subs[..i + 1] == subs[..i] + [subs[i]];
    assert subs'[..i] == subs[..i] && subs'[i..] == [s] + subs[i + 1..];
    PassMiddle(n, AllItems(start) + [Do(GateOp(g))], AllItems(subs[..i]), Items(list), [Do(GateOp(g))], Items(s.list),
               AllItems(subs[i + 1..]));
  }

  lemma SubItemsOfRotations(s: Sub)
    requires s.Rotations?
    ensures SubItems(s) == Items(s.list)
  {
  }
}
