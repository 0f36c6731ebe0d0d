/** What GraySynth updates as it runs: the columns, the circuit, the frozen rotations and the closing Clifford. */
module GrayState {
  import opened Collections
  import opened Paulis
  import opened Operators
  import opened Tableaux
  import opened Prepending
  import opened StabilizerTableaux
  import opened Meaning
  import opened MeaningLaws
  import opened Rotations
  import opened Diagonalization
  import opened PhaseFunctions
  import opened Replaying
  import opened GrayInvariant

  // ---------------------------------------------------------------- diagonal rotations commute

  /** A diagonal rotation moves to the end past diagonal rotations. */
  lemma MoveToEnd(n: nat, r: Rotation, rs: seq<Rotation>)
    requires Proper1(r, n) && ProperList(rs, n) && r.p.IsDiagonal() && AllDiagonal(rs)
    ensures Same(n, [Item1(r)] + Items(rs), Items(rs) + [Item1(r)])
  {
    hide Same, PhaseOn;
    ItemsOfTerms(rs, n);
    ItemsOfTerms([r], n);
    assert TermsOf([r] + rs) == TermsOf([r]) + TermsOf(rs) && TermsOf(rs + [r]) == TermsOf(rs) + TermsOf([r]);
    forall bits: seq<bool> | |bits| == n
      ensures SameTurn(PhaseOn(TermsOf([r] + rs), bits), PhaseOn(TermsOf(rs + [r]), bits))
    {
      PhaseAppend(TermsOf([r]), TermsOf(rs), bits);
      PhaseAppend(TermsOf(rs), TermsOf([r]), bits);
      NoTurn(PhaseOn(TermsOf([r] + rs), bits));
    }
    assert Items([r] + rs) == [Item1(r)] + Items(rs) && Items(rs + [r]) == Items(rs) + [Item1(r)];
    SamePhaseRotations(n, [r] + rs, rs + [r]);
  }

  function Reordered(rs: seq<Rotation>, order: seq<nat>): (r: seq<Rotation>)
    requires forall i :: 0 <= i < |order| ==> order[i] < |rs|
    ensures |r| == |order| && forall i :: 0 <= i < |order| ==> r[i] == rs[order[i]]
  {
    seq(|order|, i requires 0 <= i < |order| => rs[order[i]])
  }

  /** Diagonal rotations mean the same in every order. */
  lemma {:induction false} AnyOrder(n: nat, rs: seq<Rotation>, order: seq<nat>)
    requires ProperList(rs, n) && AllDiagonal(rs) && Enumerates(order, |rs|)
    ensures Same(n, Items(Reordered(rs, order)), Items(rs))
    decreases |rs|
  {
    hide Same, Ok, Enumerates, ProperList, AllDiagonal;
    if rs == [] {
      NothingToOrder(order, 0);
      assert Items(Reordered(rs, order)) == Items(rs);
      ItemsOk(rs, n);
      SameRefl(n, Items(rs));
    } else {
      var m := |rs| - 1;
      var init, last := rs[..m], rs[m];
      var a, b := AroundTop(order, m);
      AroundLast(rs, a, b, n);
      AnyOrder(n, init, a + b);
      LastToEnd(n, init, last, Reordered(init, a), Reordered(init, b));
      assert init + [last] == rs;
    }
  }

  lemma NothingToOrder(order: seq<nat>, m: nat)
    requires Enumerates(order, m)
    ensures order == [] || 0 <= order[0] < m
  {
  }

  lemma AroundLast(rs: seq<Rotation>, a: seq<nat>, b: seq<nat>, n: nat)
    requires rs != [] && ProperList(rs, n) && AllDiagonal(rs)
    requires (forall i :: 0 <= i < |a| ==> a[i] < |rs| - 1) && (forall i :: 0 <= i < |b| ==> b[i] < |rs| - 1)
    ensures var m := |rs| - 1;
            var pa, pb := Reordered(rs[..m], a), Reordered(rs[..m], b);
            && ProperList(rs[..m], n) && AllDiagonal(rs[..m]) && ProperList(pa, n) && ProperList(pb, n)
            && Proper1(rs[m], n) && rs[m].p.IsDiagonal() && AllDiagonal(pb)
            && Reordered(rs[..m], a + b) == pa + pb
            && Reordered(rs, a + [m] + b) == pa + [rs[m]] + pb
  {
  }

  lemma LastToEnd(n: nat, init: seq<Rotation>, last: Rotation, pa: seq<Rotation>, pb: seq<Rotation>)
    requires ProperList(init, n) && Proper1(last, n) && ProperList(pa, n) && ProperList(pb, n)
    requires last.p.IsDiagonal() && AllDiagonal(pb) && Same(n, Items(pa + pb), Items(init))
    ensures Same(n, Items(pa + [last] + pb), Items(init + [last]))
  {
    hide Same, Ok;
    var l := [Item1(last)];
    assert Items([last]) == l;
    ItemsOk([last], n);
    ItemsOk(pa, n);
    MoveToEnd(n, last, pb);
    SameBefore(n, Items(pa), l + Items(pb), Items(pb) + l);
    SameAfter(n, Items(pa + pb), Items(init), l);
    assert Items(pa + [last] + pb) == Items(pa) + (l + Items(pb));
    assert Items(pa + pb) + l == Items(pa) + (Items(pb) + l);
    assert Items(init + [last]) == Items(init) + l;
    SameTrans(n, Items(pa + [last] + pb), Items(pa + pb) + l, Items(init + [last]));
  }

  lemma {:induction false} AroundTop(order: seq<nat>, m: nat) returns (a: seq<nat>, b: seq<nat>)
    requires Enumerates(order, m + 1)
    ensures order == a + [m] + b && Enumerates(a + b, m)
    ensures (forall i :: 0 <= i < |a| ==> a[i] < m) && (forall i :: 0 <= i < |b| ==> b[i] < m)
  {
    assert m in order;
    var k :| 0 <= k < |order| && order[k] == m;
    a, b := order[..k], order[k + 1..];
    OthersEnumerate(order, m, k);
    assert order == a + [m] + b;
  }

  lemma {:induction false} OthersEnumerate(order: seq<nat>, m: nat, k: nat)
    requires Enumerates(order, m + 1) && k < |order| && order[k] == m
    ensures Enumerates(order[..k] + order[k + 1..], m)
    ensures (forall i :: 0 <= i < k ==> order[i] < m) && forall i :: k < i < |order| ==> order[i] < m
  {
    var rest := order[..k] + order[k + 1..];
    forall i | 0 <= i < |order| && i != k
      ensures order[i] < m
    {
      assert order[i] != order[k];
    }
    DistinctWithout(order, k);
    forall c: nat | c < m
      ensures c in rest
    {
      assert c in order;
      var i :| 0 <= i < |order| && order[i] == c;
      assert rest[if i < k then i else i - 1] == c;
    }
  }

  lemma {:induction false} DistinctWithout(order: seq<nat>, k: nat)
    requires Distinct(order) && k < |order|
    ensures Distinct(order[..k] + order[k + 1..])
  {
    var s := order[..k] + order[k + 1..];
    forall i, j | 0 <= i < j < |s|
      ensures s[i] != s[j]
    {
      assert s[i] == order[if i < k then i else i + 1];
      assert s[j] == order[if j < k then j else j + 1];
    }
  }

  // ---------------------------------------------------------------- the state

  lemma CXOnlyWellFormed(ops: seq<Op>, n: nat)
    requires CXOnly(ops, n)
    ensures WellFormedAll(ops, n) && AdjointAll(ops) == Reversed(ops)
  {
  }

  /** The z bits of the columns. */
  ghost function ZBits(columns: seq<Rotation>): (z: seq<seq<bool>>)
    ensures |z| == |columns| && forall k :: 0 <= k < |columns| ==> z[k] == columns[k].p.z
  {
    seq(|columns|, k requires 0 <= k < |columns| => columns[k].p.z)
  }

  /** A diagonal positive rotation under a CX: one z bit changes and nothing else. */
  lemma DiagonalCX(r: Rotation, c: nat, t: nat, n: nat)
    requires Proper1(r, n) && r.p.IsDiagonal() && c < n && t < n
    ensures ConjRotation(CX(c, t), r) == Rotation(Pauli(AddBit(r.p.z, c, t), r.p.x, false), r.phase)
  {
    assert r.p.x[t := r.p.x[t] != r.p.x[c]] == r.p.x;
  }

  /** The original rotation taken through the CX gates so far. */
  ghost predicate Tracks(column: Rotation, r: Rotation, ks: seq<Op>)
    requires r.p.Sized(|r.p.z|)
  {
    column == Rotation(ApplyAll(ks, r.p), r.phase)
  }

  lemma TracksCX(column: Rotation, r: Rotation, ks: seq<Op>, c: nat, t: nat, n: nat)
    requires Proper1(r, n) && Proper1(column, n) && column.p.IsDiagonal() && Tracks(column, r, ks) && c < n && t < n
    ensures Tracks(ConjRotation(CX(c, t), column), r, ks + [Op(OpCX, c, t)])
  {
    hide ApplyAll;
    DiagonalCX(column, c, t, n);
    ApplyAllAppend(ks, [Op(OpCX, c, t)], r.p);
    ApplyAllOne(Op(OpCX, c, t), column.p);
    Run1(CX(c, t), column.p);
  }

  /** A rotation is the identity exactly when its column has no z bit left. */
  lemma EmptyColumn(column: Rotation, r: Rotation, ks: seq<Op>, n: nat)
    requires Proper1(r, n) && Proper1(column, n) && column.p.IsDiagonal() && Tracks(column, r, ks) && WellFormedAll(ks, n)
    ensures r.p.IsIdentity() <==> column.p.z == Zeros(n)
  {
    hide Run, ApplyAll;
    var id := Identity(n);
    ApplyAllIsRun(ks, id);
    RunIdentity(ExpandAll(ks), n, false);
    AdjointAllUndoes(ks, r.p);
    AdjointAllUndoes(ks, id);
    if column.p.z == Zeros(n) {
      assert column.p.x == id.x;
      assert column.p == id;
    }
    if r.p.IsIdentity() {
      assert r.p.z == id.z && r.p.x == id.x;
    }
  }

  // ---------------------------------------------------------------- phases in a circuit

  /** The phases of the rotations in a program, in order. */
  function Phases(w: seq<Item>): seq<Phase> {
    if w == [] then []
    else Phases(w[..|w| - 1]) + match w[|w| - 1] case Rotate(_, phase) => [phase] case _ => []
  }

  lemma PhasesOne(w: seq<Item>, i: Item)
    ensures Phases(w + [i]) == Phases(w) + match i case Rotate(_, phase) => [phase] case _ => []
  {
    assert (w + [i])[..|w|] == w;
  }

  lemma {:induction false} PhasesGates(w: seq<Item>, ops: seq<Op>)
    ensures Phases(w + Gates(ops)) == Phases(w)
    decreases |ops|
  {
    if ops == [] {
      assert w + Gates(ops) == w;
    } else {
      var m := |ops| - 1;
      assert w + Gates(ops) == (w + Gates(ops[..m])) + [Do(ops[m])];
      PhasesOne(w + Gates(ops[..m]), Do(ops[m]));
      PhasesGates(w, ops[..m]);
    }
  }

  function PhasesOf(rs: seq<Rotation>): (r: seq<Phase>)
    ensures |r| == |rs| && forall i :: 0 <= i < |rs| ==> r[i] == rs[i].phase
  {
    seq(|rs|, i requires 0 <= i < |rs| => rs[i].phase)
  }

  // ---------------------------------------------------------------- the circuit on basis states

  /** On every basis state the circuit moves the bits as the CX gates do, and adds the phases of the rotations. */
  ghost predicate ReplaysAs(circuit: seq<Item>, done: seq<Rotation>, ks: seq<Op>, n: nat) {
    && OnBasis(circuit, n) && TermsSized(TermsOf(done), n)
    && forall bits: seq<bool> :: |bits| == n ==> ReplayAt(circuit, done, ks, bits)
  }

  ghost predicate ReplayAt(circuit: seq<Item>, done: seq<Rotation>, ks: seq<Op>, bits: seq<bool>)
    requires TermsSized(TermsOf(done), |bits|)
  {
    BitsAfter(circuit, bits) == BitsAfter(Gates(ks), bits) && PhaseAfter(circuit, bits) == PhaseOn(TermsOf(done), bits)
  }

  lemma NothingReplayed(n: nat)
    ensures ReplaysAs([], [], [], n)
  {
    assert Gates([]) == [];
  }

  lemma ReplayCX(circuit: seq<Item>, done: seq<Rotation>, ks: seq<Op>, n: nat, op: Op)
    requires ReplaysAs(circuit, done, ks, n) && op.kind.OpCX? && WellFormed(op, n)
    ensures ReplaysAs(circuit + [Do(op)], done, ks + [op], n)
  {
    hide BitsAfter, PhaseAfter, PhaseOn;
    assert Gates(ks + [op]) == Gates(ks) + [Do(op)];
    forall bits: seq<bool> | |bits| == n
      ensures ReplayAt(circuit + [Do(op)], done, ks + [op], bits)
    {
      assert ReplayAt(circuit, done, ks, bits);
      OneMore(circuit, Do(op), bits);
      OneMore(Gates(ks), Do(op), bits);
    }
  }

  lemma ReplayPhase(circuit: seq<Item>, done: seq<Rotation>, ks: seq<Op>, n: nat, r: Rotation, targ: nat)
    requires ReplaysAs(circuit, done, ks, n) && CXOnly(ks, n) && Proper1(r, n) && targ < n && ApplyAll(ks, r.p) == ZAt(n, targ)
    ensures ReplaysAs(circuit + [Rotate(ZAt(n, targ), r.phase)], done + [r], ks, n)
  {
    hide BitsAfter, PhaseAfter, PhaseOn, ApplyAll, Parity;
    var i := Rotate(ZAt(n, targ), r.phase);
    assert TermsOf(done + [r]) == TermsOf(done) + [Term(r.p.z, r.phase)];
    assert BasisItem(i, n);
    forall bits: seq<bool> | |bits| == n
      ensures ReplayAt(circuit + [i], done + [r], ks, bits)
    {
      assert ReplayAt(circuit, done, ks, bits);
      OneMore(circuit, i, bits);
      ParityAlong(ks, r.p, bits);
      PhaseOnLast(TermsOf(done), Term(r.p.z, r.phase), bits);
    }
  }

  lemma {:induction false} PhaseInAnyOrder(rs: seq<Rotation>, order: seq<nat>, n: nat, bits: seq<bool>)
    requires ProperList(rs, n) && Enumerates(order, |rs|) && |bits| == n
    ensures TermsSized(TermsOf(rs), n) && TermsSized(TermsOf(Reordered(rs, order)), n)
    ensures PhaseOn(TermsOf(Reordered(rs, order)), bits) == PhaseOn(TermsOf(rs), bits)
    decreases |rs|
  {
    hide PhaseOn, Enumerates;
    if rs == [] {
      NothingToOrder(order, 0);
      assert Reordered(rs, order) == rs;
    } else {
      var m := |rs| - 1;
      var a, b := AroundTop(order, m);
      PhaseInAnyOrder(rs[..m], a + b, n, bits);
      var pa, pb, t := TermsOf(Reordered(rs[..m], a)), TermsOf(Reordered(rs[..m], b)), [Term(rs[m].p.z, rs[m].phase)];
      assert TermsOf(Reordered(rs[..m], a + b)) == pa + pb && TermsOf(Reordered(rs, order)) == pa + t + pb;
      assert TermsOf(rs) == TermsOf(rs[..m]) + t;
      PhaseAppend(pa, pb, bits);
      PhaseAppend(pa, t, bits);
      PhaseAppend(pa + t, pb, bits);
      PhaseAppend(TermsOf(rs[..m]), t, bits);
    }
  }

  // ---------------------------------------------------------------- the synthesizer

  class Synthesizer {
    const n: nat
    const rs: seq<Rotation>
    const final: StabilizerTableau
    var columns: seq<Rotation>
    var frozen: set<nat>
    var circuit: seq<Item>
    ghost var ks: seq<Op>
    ghost var emitted: seq<nat>

    ghost predicate Columns()
      reads this
    {
      && |columns| == |rs| && ProperList(rs, n) && ProperList(columns, n) && AllDiagonal(columns)
      && CXOnly(ks, n)
      && forall k: nat :: k < |rs| && k !in frozen ==> Tracks(columns[k], rs[k], ks)
    }

    /** What has been emitted, followed by the CX gates, is the circuit so far. */
    ghost predicate Emitted()
      reads this
    {
      && (forall k :: k in frozen <==> k in emitted) && Distinct(emitted)
      && (forall i :: 0 <= i < |emitted| ==> emitted[i] < |rs|)
      && (forall i :: 0 <= i < |emitted| ==> !rs[emitted[i]].p.IsIdentity())
      && IsCircuit(circuit, n) && Phases(circuit) == PhasesOf(Reordered(rs, emitted))
      && Same(n, circuit, Items(Reordered(rs, emitted)) + Gates(ks)) && ReplaysAs(circuit, Reordered(rs, emitted), ks, n)
    }

    ghost predicate Valid()
      reads this, final
    {
      && Columns() && Emitted()
      && final.Valid() && final.n == n && final.rows == TableauOf(AdjointAll(ks), n)
    }

    constructor (rs: seq<Rotation>, n: nat)
      requires ProperList(rs, n) && AllDiagonal(rs)
      ensures Valid() && this.rs == rs && this.n == n && columns == rs && frozen == {} && fresh(final) && circuit == [] && ks == []
    {
      this.n, this.rs := n, rs;
      final := new StabilizerTableau(n);
      columns, frozen, circuit := rs, {}, [];
      ks, emitted := [], [];
      new;
      forall k | 0 <= k < |rs|
        ensures Tracks(columns[k], rs[k], ks)
      {
        assert !rs[k].p.neg;
      }
      assert Items(Reordered(rs, [])) + Gates([]) == [];
      EmptyCircuit(n);
      SameRefl(n, []);
      assert Reordered(rs, []) == [];
      NothingReplayed(n);
      assert TableauOf(AdjointAll([]), n) == IdentityRows(n) by { assert AdjointAll([]) == []; }
    }

    /** Takes the columns that are not frozen through a CX. */
    method ConjugateColumns(c: nat, t: nat)
      requires Columns() && c < n && t < n && c != t
      modifies `columns
      ensures |columns| == |rs| && ProperList(columns, n) && AllDiagonal(columns)
      ensures forall k: nat :: k < |rs| && k !in frozen ==> Tracks(columns[k], rs[k], ks + [Op(OpCX, c, t)])
      ensures CXOnColumns(ZBits(old(columns)), ZBits(columns), frozen, c, t, n)
    {
      hide ApplyAll, ConjRotation, Tracks;
      var k := 0;
      while k < |columns|
        invariant k <= |columns| == |rs| && ProperList(columns, n) && AllDiagonal(columns)
        invariant forall j :: 0 <= j < |columns| ==>
                    columns[j] == if j < k && j !in frozen then ConjRotation(CX(c, t), old(columns)[j]) else old(columns)[j]
      {
        if k !in frozen {
          DiagonalCX(columns[k], c, t, n);
          columns := columns[k := ConjRotation(CX(c, t), columns[k])];
        }
        k := k + 1;
      }
      forall j: nat | j < |rs|
        ensures ZBits(columns)[j] == if j in frozen then ZBits(old(columns))[j] else AddBit(ZBits(old(columns))[j], c, t)
        ensures j !in frozen ==> Tracks(columns[j], rs[j], ks + [Op(OpCX, c, t)])
      {
        if j !in frozen {
          DiagonalCX(old(columns)[j], c, t, n);
          TracksCX(old(columns)[j], rs[j], ks, c, t, n);
        }
      }
    }

    /** Appends a CX to the circuit and takes the columns that are not frozen through it. */
    method ApplyCX(c: nat, t: nat)
      requires Valid() && c < n && t < n && c != t
      modifies this, final
      ensures Valid() && frozen == old(frozen) && emitted == old(emitted)
      ensures circuit == old(circuit) + [Do(Op(OpCX, c, t))] && ks == old(ks) + [Op(OpCX, c, t)]
      ensures CXOnColumns(ZBits(old(columns)), ZBits(columns), frozen, c, t, n)
    {
      hide Same, IsCircuit, ApplyAll, ConjRotation, Tracks, TableauOf, MapOps, CXOnColumns, ProperList, AllDiagonal, Distinct, Phases, ReplaysAs;
      ConjugateColumns(c, t);
      ghost var op := Op(OpCX, c, t);
      OneMoreCX(n, circuit, Items(Reordered(rs, emitted)), ks, op);
      PrependedCX(n, ks, c, t);
      ReplayCX(circuit, Reordered(rs, emitted), ks, n, op);
      PhasesOne(circuit, Do(op));
      circuit := circuit + [Do(Op(OpCX, c, t))];
      ks := ks + [op];
      final.PrependCX(c, t);
    }

    /** Appends the phase gate of a column that is a single Z, and freezes the column. */
    method Emit(k: nat, targ: nat)
      requires Valid() && k < |rs| && k !in frozen && targ < n && columns[k].p.z == Unit(n, targ)
      modifies `frozen, `circuit, `emitted
      ensures Valid() && frozen == old(frozen) + {k} && circuit == old(circuit) + [Rotate(ZAt(n, targ), rs[k].phase)]
    {
      hide Same, IsCircuit, ApplyAll, TableauOf, MapOps, ProperList, AllDiagonal, Distinct, Phases, ReplaysAs;
      ghost var column := columns[k];
      ColumnFacts(rs, columns, k, n);
      assert column.p.x == Zeros(n);
      EmptyColumn(column, rs[k], ks, n);
      assert column.p.z[targ] && !Zeros(n)[targ];
      OneMoreRotation(n, circuit, rs, emitted, ks, k, targ);
      PhasesOne(circuit, Rotate(ZAt(n, targ), columns[k].phase));
      PickOneMore(rs, emitted, k);
      ReplayPhase(circuit, Reordered(rs, emitted), ks, n, rs[k], targ);
      circuit := circuit + [Rotate(ZAt(n, targ), columns[k].phase)];
      frozen := frozen + {k};
      DistinctOneMore(emitted, k);
      emitted := emitted + [k];
    }
  }

  lemma ColumnFacts(rs: seq<Rotation>, columns: seq<Rotation>, k: nat, n: nat)
    requires ProperList(rs, n) && ProperList(columns, n) && AllDiagonal(columns) && k < |rs| == |columns|
    ensures Proper1(rs[k], n) && Proper1(columns[k], n) && columns[k].p.IsDiagonal()
  {
  }

  lemma PickOneMore(rs: seq<Rotation>, emitted: seq<nat>, k: nat)
    requires (forall i :: 0 <= i < |emitted| ==> emitted[i] < |rs|) && k < |rs|
    ensures Reordered(rs, emitted + [k]) == Reordered(rs, emitted) + [rs[k]]
    ensures PhasesOf(Reordered(rs, emitted + [k])) == PhasesOf(Reordered(rs, emitted)) + [rs[k].phase]
  {
  }

  lemma DistinctOneMore(s: seq<nat>, k: nat)
    requires Distinct(s) && k !in s
    ensures Distinct(s + [k])
  {
  }

  /** A phase gate behind the CX gates is the rotation in front of them. */
  lemma OneMoreRotation(n: nat, circuit: seq<Item>, rs: seq<Rotation>, emitted: seq<nat>, ks: seq<Op>, k: nat, targ: nat)
    requires ProperList(rs, n) && (forall i :: 0 <= i < |emitted| ==> emitted[i] < |rs|) && k < |rs| && targ < n
    requires WellFormedAll(ks, n) && ApplyAll(ks, rs[k].p) == ZAt(n, targ)
    requires IsCircuit(circuit, n) && Same(n, circuit, Items(Reordered(rs, emitted)) + Gates(ks))
    ensures var more := circuit + [Rotate(ZAt(n, targ), rs[k].phase)];
            IsCircuit(more, n) && Same(n, more, Items(Reordered(rs, emitted + [k])) + Gates(ks))
  {
    hide Same, ApplyAll, Ok, ProperList;
    var done, z, i := Items(Reordered(rs, emitted)), [Rotate(ZAt(n, targ), rs[k].phase)], [Item1(rs[k])];
    ReorderedProper(rs, emitted, k, n);
    ItemsOk(Reordered(rs, emitted), n);
    PassStringRaw(n, rs[k].p, rs[k].phase, ks);
    SameOk(n, i + Gates(ks), Gates(ks) + z);
    OkSuffix(Gates(ks), z, n);
    SameSym(n, i + Gates(ks), Gates(ks) + z);
    SameAfter(n, circuit, done + Gates(ks), z);
    SameBefore(n, done, Gates(ks) + z, i + Gates(ks));
    assert done + Gates(ks) + z == done + (Gates(ks) + z);
    assert Items(Reordered(rs, emitted + [k])) + Gates(ks) == done + (i + Gates(ks));
    SameTrans(n, circuit + z, done + (Gates(ks) + z), done + (i + Gates(ks)));
  }

  lemma ReorderedProper(rs: seq<Rotation>, emitted: seq<nat>, k: nat, n: nat)
    requires ProperList(rs, n) && (forall i :: 0 <= i < |emitted| ==> emitted[i] < |rs|) && k < |rs|
    ensures ProperList(Reordered(rs, emitted), n) && rs[k].p.Sized(n)
  {
  }

  lemma PrependOneCX(c: nat, t: nat, rows: seq<Pauli>, n: nat)
    requires Shaped(rows, n)
    ensures PrependOp(Op(OpCX, c, t), rows, n) == PrependGate(CX(c, t), rows, n)
  {
    hide PrependGate;
    var chain := PrependChain(Op(OpCX, c, t));
    assert chain == [CX(c, t)] && chain[1..] == [];
    assert PrependGates([], PrependGate(CX(c, t), rows, n), n) == PrependGate(CX(c, t), rows, n);
  }

  lemma PrependedCX(n: nat, ks: seq<Op>, c: nat, t: nat)
    requires CXOnly(ks, n) && c < n && t < n && c != t
    ensures PrependGate(CX(c, t), TableauOf(AdjointAll(ks), n), n) == TableauOf(AdjointAll(ks + [Op(OpCX, c, t)]), n)
  {
    hide TableauOf, PrependGate;
    var op := Op(OpCX, c, t);
    CXOnlyWellFormed(ks, n);
    AdjointAllWellFormed(ks, n);
    PrependMirrorsAppend(op, AdjointAll(ks), n);
    assert AdjointAll(ks + [op]) == [op] + AdjointAll(ks);
    PrependOneCX(c, t, TableauOf(AdjointAll(ks), n), n);
  }

  lemma OneMoreCX(n: nat, circuit: seq<Item>, w: seq<Item>, ks: seq<Op>, op: Op)
    requires IsCircuit(circuit, n) && Same(n, circuit, w + Gates(ks)) && WellFormed(op, n)
    ensures IsCircuit(circuit + [Do(op)], n) && Same(n, circuit + [Do(op)], w + Gates(ks + [op]))
  {
    hide Same;
    assert Gates([op]) == [Do(op)];
    GatesOk([op], n);
    SameAfter(n, circuit, w + Gates(ks), [Do(op)]);
    GatesAppend(ks, [op]);
    assert w + Gates(ks) + [Do(op)] == w + Gates(ks + [op]);
  }
}
