/** From a circuit to a tableau, gate by gate. */
module QcirToTableau {
  import opened Collections
  import opened Paulis
  import opened Operators
  import opened Tableaux
  import opened Meaning
  import opened MeaningLaws
  import opened Rotations
  import opened Absorbing
  import opened PhaseFunctions
  import opened Diagonalization
  import opened GrayState
  import opened ControlledPhases
  import opened OperatorIdentities
  import opened MixedTableaux

  // ---------------------------------------------------------------- gates and their meaning

  datatype Axis = AxisX | AxisY | AxisZ

  /** Phased: a phase about an axis of the last qubit, under control of the others. */
  datatype CircuitGate = GateId | GateH(q: nat) | GateSwap(a: nat, b: nat) | GateEcr(a: nat, b: nat)
                       | Phased(axis: Axis, qubits: seq<nat>, phase: Phase) | Unsupported

  predicate IsSupported(g: CircuitGate) {
    !g.Unsupported?
  }

  ghost predicate GateOk(g: CircuitGate, n: nat) {
    match g
    case GateH(q) => q < n
    case GateSwap(a, b) => a < n && b < n && a != b
    case GateEcr(a, b) => a < n && b < n && a != b
    case Phased(_, qubits, phase) => qubits != [] && Distinct(qubits) && Below(qubits, n) && -1.0 < phase <= 1.0
    case _ => true
  }

  function Target(qubits: seq<nat>): nat
    requires qubits != []
  {
    qubits[|qubits| - 1]
  }

  /** The operators that turn Z into the axis and back. */
  function Before(axis: Axis, q: nat): seq<Op> {
    match axis
    case AxisX => [Op(OpH, q, 0)]
    case AxisY => [Op(OpV, q, 0)]
    case AxisZ => []
  }

  function After(axis: Axis, q: nat): seq<Op> {
    match axis
    case AxisX => [Op(OpH, q, 0)]
    case AxisY => [Op(OpVdg, q, 0)]
    case AxisZ => []
  }

  ghost function AroundTarget(axis: Axis, q: nat, w: seq<Item>): seq<Item> {
    Gates(Before(axis, q)) + w + Gates(After(axis, q))
  }

  /** The product with the axis in place of Z on qubit q. */
  function OnAxis(axis: Axis, q: nat, p: Pauli): Pauli {
    if q >= |p.z| || q >= |p.x| || !p.z[q] then p
    else
      match axis
      case AxisX => Pauli(p.z[q := false], p.x[q := true], p.neg)
      case AxisY => Pauli(p.z, p.x[q := true], p.neg)
      case AxisZ => p
  }

  function Turned(axis: Axis, q: nat, rs: seq<Rotation>): (r: seq<Rotation>)
    ensures |r| == |rs| && forall i :: 0 <= i < |rs| ==> r[i] == Rotation(OnAxis(axis, q, rs[i].p), rs[i].phase)
  {
    seq(|rs|, i requires 0 <= i < |rs| => Rotation(OnAxis(axis, q, rs[i].p), rs[i].phase))
  }

  /** Diagonal rotations that give every basis state the phase if all bits are set, and none otherwise, up to whole turns. */
  ghost predicate ControlsPhase(rs: seq<Rotation>, qubits: seq<nat>, phase: Phase, n: nat) {
    && ProperList(rs, n) && AllDiagonal(rs) && Below(qubits, n) && TermsSized(TermsOf(rs), n)
    && forall bits: seq<bool> :: |bits| == n ==> SameTurn(PhaseOn(TermsOf(rs), bits), if AllOn(qubits, bits) then phase else 0.0)
  }

  lemma ExactlyControls(rs: seq<Rotation>, qubits: seq<nat>, phase: Phase, n: nat)
    requires IsControlledPhase(rs, qubits, phase, n)
    ensures ControlsPhase(rs, qubits, phase, n)
  {
    hide PhaseOn, SameTurn;
    forall bits: seq<bool> | |bits| == n
      ensures SameTurn(PhaseOn(TermsOf(rs), bits), if AllOn(qubits, bits) then phase else 0.0)
    {
      NoTurn(PhaseOn(TermsOf(rs), bits));
    }
  }

  /** The tableau that exchanges Z and X on qubit q. */
  function TurnedRows(q: nat, n: nat): (rows: seq<Pauli>)
    requires q < n
    ensures |rows| == 2 * n
  {
    seq(2 * n, i requires 0 <= i < 2 * n => BasisRow(if i == q then q + n else if i == q + n then q else i, n))
  }

  /** The tableau that exchanges qubits a and b. */
  function ExchangedRows(a: nat, b: nat, n: nat): (rows: seq<Pauli>)
    requires a < n && b < n
    ensures |rows| == 2 * n
  {
    seq(2 * n, i requires 0 <= i < 2 * n => BasisRow(if i == a then b else if i == b then a else if i == a + n then b + n else if i == b + n then a + n else i, n))
  }

  /** The programs that mean the gate: H exchanges Z and X, a swap exchanges its qubits, ECR is two turns, and a
      phased gate is any list of diagonal rotations with the controlled phase as its phase function, each with X or
      Y in place of Z on the target. */
  ghost predicate Denotes(g: CircuitGate, w: seq<Item>, n: nat) {
    match g
    case GateId => w == []
    case GateH(q) => q < n && w == [Table(TurnedRows(q, n))]
    case GateSwap(a, b) => a < n && b < n && w == [Table(ExchangedRows(a, b, n))]
    case GateEcr(a, b) => w == [Rotate(ZX(n, a, b), 0.5), Rotate(XAt(n, a), 1.0)]
    case Phased(axis, qubits, phase) =>
      qubits != [] && exists rs :: ControlsPhase(rs, qubits, phase, n) && w == Items(Turned(axis, Target(qubits), rs))
    case Unsupported => false
  }

  ghost predicate DenotesAll(gs: seq<CircuitGate>, w: seq<Item>, n: nat) {
    if gs == [] then w == []
    else exists u, v :: w == u + v && DenotesAll(gs[..|gs| - 1], u, n) && Denotes(gs[|gs| - 1], v, n)
  }

  lemma AroundOk(n: nat, axis: Axis, q: nat)
    requires q < n
    ensures WellFormedAll(Before(axis, q), n) && WellFormedAll(After(axis, q), n)
  {
  }

  /** All programs of a gate mean the same. */
  lemma DenotationUnique(n: nat, g: CircuitGate, v: seq<Item>, w: seq<Item>)
    requires GateOk(g, n) && Denotes(g, v, n) && Denotes(g, w, n)
    ensures Same(n, v, w)
  {
    hide Same, ControlsPhase;
    match g {
      case GateId => NothingIsSame(n);
      case GateH(q) =>
        HTurns(n, q);
        SameRefl(n, v);
      case GateSwap(a, b) =>
        SwapExchanges(n, a, b);
        SameRefl(n, v);
      case GateEcr(a, b) =>
        EcrTurns(n, a, b);
        SameOk(n, v, [Do(Op(OpECR, a, b))]);
        SameRefl(n, v);
      case Phased(axis, qubits, phase) =>
        var q := Target(qubits);
        var rs :| ControlsPhase(rs, qubits, phase, n) && v == Items(Turned(axis, q, rs));
        var rs' :| ControlsPhase(rs', qubits, phase, n) && w == Items(Turned(axis, q, rs'));
        ControlledPhaseUnique(n, rs, rs', qubits, phase);
        InsideAxis(n, axis, q, Items(rs), Items(rs'));
        TurnedIsAround(n, axis, qubits, phase, rs);
        TurnedIsAround(n, axis, qubits, phase, rs');
        SameSym(n, AroundTarget(axis, q, Items(rs)), v);
        SameTrans(n, v, AroundTarget(axis, q, Items(rs)), AroundTarget(axis, q, Items(rs')));
        SameTrans(n, v, AroundTarget(axis, q, Items(rs')), w);
    }
  }

  // ---------------------------------------------------------------- phases about an axis

  /** The operators after the target turn Z there into the axis. */
  lemma AxisOfTarget(axis: Axis, q: nat, p: Pauli)
    requires p.Sized(|p.z|) && p.IsDiagonal() && q < |p.z|
    ensures ApplyAll(After(axis, q), p) == OnAxis(axis, q, p)
  {
    hide Apply, ApplyAll;
    var a := OnAxis(axis, q, p);
    match axis {
      case AxisX =>
        ApplyAllOne(Op(OpH, q, 0), p);
        HOfDiagonal(q, p);
      case AxisY =>
        ApplyAllOne(Op(OpVdg, q, 0), p);
        OnV(q, a);
        AdjointUndoes(Op(OpV, q, 0), a);
        YBack(q, p);
      case AxisZ =>
        ApplyNothing(p);
    }
  }

  lemma ApplyNothing(p: Pauli)
    requires p.Sized(|p.z|)
    ensures ApplyAll([], p) == p
  {
  }

  lemma HOfDiagonal(q: nat, p: Pauli)
    requires p.Sized(|p.z|) && p.IsDiagonal() && q < |p.z|
    ensures Apply(Op(OpH, q, 0), p) == OnAxis(AxisX, q, p)
  {
    Run1(H(q), p);
    assert p.z[q := p.z[q]] == p.z && p.x[q := false] == p.x;
    assert !p.z[q] ==> p.z[q := p.x[q]] == p.z && p.x[q := p.z[q]] == p.x;
  }

  lemma YBack(q: nat, p: Pauli)
    requires p.Sized(|p.z|) && p.IsDiagonal() && q < |p.z|
    ensures var a := OnAxis(AxisY, q, p); Pauli(a.z, a.x[q := a.x[q] != a.z[q]], a.neg != (a.z[q] && !a.x[q])) == p
  {
    assert p.x[q := true][q := false] == p.x && p.x[q := false] == p.x;
  }

  lemma TurnedIsApplied(n: nat, axis: Axis, q: nat, rs: seq<Rotation>)
    requires ProperList(rs, n) && AllDiagonal(rs) && q < n
    ensures ApplyRotations(After(axis, q), rs) == Turned(axis, q, rs)
  {
    hide ApplyAll, OnAxis;
    forall i | 0 <= i < |rs|
      ensures ApplyRotation(After(axis, q), rs[i]) == Turned(axis, q, rs)[i]
    {
      assert Proper1(rs[i], n) && rs[i].p.IsDiagonal();
      AxisOfTarget(axis, q, rs[i].p);
      SignStays(axis, q, rs[i].p);
    }
  }

  lemma SignStays(axis: Axis, q: nat, p: Pauli)
    ensures OnAxis(axis, q, p).neg == p.neg
  {
  }

  lemma AxisAdjoint(axis: Axis, q: nat)
    ensures AdjointAll(Before(axis, q)) == After(axis, q)
  {
  }

  /** The rotations about products with the axis mean the diagonal ones between the operators of the axis. */
  lemma TurnedIsAround(n: nat, axis: Axis, qubits: seq<nat>, phase: Phase, rs: seq<Rotation>)
    requires qubits != [] && Target(qubits) < n && ControlsPhase(rs, qubits, phase, n)
    ensures Same(n, AroundTarget(axis, Target(qubits), Items(rs)), Items(Turned(axis, Target(qubits), rs)))
  {
    AroundIsTurned(n, axis, Target(qubits), rs);
  }

  lemma AroundIsTurned(n: nat, axis: Axis, q: nat, rs: seq<Rotation>)
    requires ProperList(rs, n) && AllDiagonal(rs) && q < n
    ensures Same(n, AroundTarget(axis, q, Items(rs)), Items(Turned(axis, q, rs)))
  {
    hide Same, AllDiagonal, ProperList;
    var b, a, ts := Gates(Before(axis, q)), Gates(After(axis, q)), Items(Turned(axis, q, rs));
    AroundOk(n, axis, q);
    GatesOk(Before(axis, q), n);
    PassStringAll(n, rs, After(axis, q));
    TurnedIsApplied(n, axis, q, rs);
    SameBefore(n, b, Items(rs) + a, a + ts);
    AxisAdjoint(axis, q);
    StringCancels(n, Before(axis, q));
    SameOk(n, Items(rs) + a, a + ts);
    OkSuffix(a, ts, n);
    SameAfter(n, b + a, [], ts);
    assert b + (Items(rs) + a) == AroundTarget(axis, q, Items(rs)) && b + (a + ts) == (b + a) + ts && [] + ts == ts;
    SameTrans(n, AroundTarget(axis, q, Items(rs)), (b + a) + ts, ts);
  }

  /** The operators mean what the gates are. */
  lemma HTurns(n: nat, q: nat)
    requires q < n
    ensures ItemOk(Table(TurnedRows(q, n)), n) && Ok([Table(TurnedRows(q, n))], n)
    ensures Same(n, [Table(TurnedRows(q, n))], [Do(Op(OpH, q, 0))])
  {
    hide Same, Apply;
    var op := Op(OpH, q, 0);
    forall i: nat | i < 2 * n
      ensures TableauOf([op], n)[i] == TurnedRows(q, n)[i]
    {
      HOnBasis(n, q, i);
    }
    assert TableauOf([op], n) == TurnedRows(q, n);
    OperatorMeans(n, op);
  }

  lemma HOnBasis(n: nat, q: nat, i: nat)
    requires q < n && i < 2 * n
    ensures TableauOf([Op(OpH, q, 0)], n)[i] == BasisRow(if i == q then q + n else if i == q + n then q else i, n)
  {
    hide Apply;
    var p, t := BasisRow(i, n), BasisRow(if i == q then q + n else if i == q + n then q else i, n);
    ApplyAllOne(Op(OpH, q, 0), p);
    OperatorActs(Op(OpH, q, 0), p);
    assert Apply(Op(OpH, q, 0), p).z == t.z && Apply(Op(OpH, q, 0), p).x == t.x;
  }

  lemma SwapExchanges(n: nat, a: nat, b: nat)
    requires a < n && b < n && a != b
    ensures ItemOk(Table(ExchangedRows(a, b, n)), n) && Ok([Table(ExchangedRows(a, b, n))], n)
    ensures Same(n, [Table(ExchangedRows(a, b, n))], [Do(Op(OpSwap, a, b))])
  {
    hide Same, Apply;
    var op := Op(OpSwap, a, b);
    forall i: nat | i < 2 * n
      ensures TableauOf([op], n)[i] == ExchangedRows(a, b, n)[i]
    {
      SwapOnBasis(n, a, b, i);
    }
    assert TableauOf([op], n) == ExchangedRows(a, b, n);
    OperatorMeans(n, op);
  }

  lemma SwapOnBasis(n: nat, a: nat, b: nat, i: nat)
    requires a < n && b < n && a != b && i < 2 * n
    ensures TableauOf([Op(OpSwap, a, b)], n)[i]
            == BasisRow(if i == a then b else if i == b then a else if i == a + n then b + n else if i == b + n then a + n else i, n)
  {
    hide Apply;
    var op, p := Op(OpSwap, a, b), BasisRow(i, n);
    var t := BasisRow(if i == a then b else if i == b then a else if i == a + n then b + n else if i == b + n then a + n else i, n);
    ApplyAllOne(op, p);
    OperatorActs(op, p);
    assert Apply(op, p).z == t.z && Apply(op, p).x == t.x;
  }

  lemma OperatorMeans(n: nat, op: Op)
    requires WellFormed(op, n)
    ensures ItemOk(Table(TableauOf([op], n)), n) && Ok([Table(TableauOf([op], n))], n)
    ensures Same(n, [Table(TableauOf([op], n))], [Do(op)])
  {
    hide Same;
    assert WellFormedAll([op], n) && Gates([op]) == [Do(op)];
    StringIsTable(n, [op]);
    SameSym(n, [Do(op)], [Table(TableauOf([op], n))]);
    SameOk(n, [Table(TableauOf([op], n))], [Do(op)]);
  }

  lemma ControlledPhaseUnique(n: nat, rs: seq<Rotation>, rs': seq<Rotation>, qubits: seq<nat>, phase: Phase)
    requires ControlsPhase(rs, qubits, phase, n) && ControlsPhase(rs', qubits, phase, n)
    ensures Same(n, Items(rs), Items(rs'))
  {
    hide Same, PhaseOn, SameTurn;
    forall bits: seq<bool> | |bits| == n
      ensures SameTurn(PhaseOn(TermsOf(rs), bits), PhaseOn(TermsOf(rs'), bits))
    {
      TurnsThrough(PhaseOn(TermsOf(rs), bits), PhaseOn(TermsOf(rs'), bits), if AllOn(qubits, bits) then phase else 0.0);
    }
    SamePhaseRotations(n, rs, rs');
  }

  lemma InsideAxis(n: nat, axis: Axis, q: nat, v: seq<Item>, w: seq<Item>)
    requires q < n && Same(n, v, w)
    ensures Same(n, AroundTarget(axis, q, v), AroundTarget(axis, q, w))
  {
    hide Same;
    AroundOk(n, axis, q);
    GatesOk(Before(axis, q), n);
    GatesOk(After(axis, q), n);
    SameInContext(n, Gates(Before(axis, q)), v, w, Gates(After(axis, q)));
  }

  // ---------------------------------------------------------------- appending operators

  ghost predicate SameKinds(subs: seq<Sub>, subs': seq<Sub>) {
    |subs| == |subs'| && forall k :: 0 <= k < |subs| ==> subs[k].Clifford? == subs'[k].Clifford?
  }

  lemma KindsKeepClifford(subs: seq<Sub>, subs': seq<Sub>)
    requires SameKinds(subs, subs') && HasClifford(subs)
    ensures HasClifford(subs')
  {
    var i :| 0 <= i < |subs| && subs[i].Clifford?;
    assert subs'[i].Clifford?;
  }

  function GateOps(gs: seq<Gate>): (ops: seq<Op>)
    ensures |ops| == |gs| && forall i :: 0 <= i < |gs| ==> ops[i] == GateOp(gs[i])
  {
    seq(|gs|, i requires 0 <= i < |gs| => GateOp(gs[i]))
  }

  lemma {:induction false} ExpandGateOps(gs: seq<Gate>)
    ensures ExpandAll(GateOps(gs)) == gs
  {
    if gs != [] {
      assert GateOps(gs)[1..] == GateOps(gs[1..]);
      ExpandGateOps(gs[1..]);
    }
  }

  /** The chain of an operator means the operator. */
  lemma {:induction false} ChainIsOperator(n: nat, op: Op)
    requires WellFormed(op, n)
    ensures WellFormedAll(GateOps(Expand(op)), n) && Same(n, Gates(GateOps(Expand(op))), [Do(op)])
  {
    hide Same, ApplyAll;
    var ops := GateOps(Expand(op));
    ExpandProper(op, n);
    hide Expand;
    forall i | 0 <= i < |ops|
      ensures WellFormed(ops[i], n)
    {
      DoOk(Expand(op)[i], n);
    }
    ExpandGateOps(Expand(op));
    ExpandThree(op, op, op);
    SameChain(n, ops, [op]);
    AlikeIsSame(n, ops, [op]);
    assert Gates([op]) == [Do(op)];
  }

  method AppendOp(t: Tableau, op: Op)
    requires t.Valid() && WellFormed(op, t.n) && HasClifford(t.subs)
    modifies t
    ensures t.Valid() && SameKinds(old(t.subs), t.subs) && HasClifford(t.subs)
    ensures Same(t.n, AllItems(old(t.subs)) + [Do(op)], AllItems(t.subs))
  {
    hide Same, Ok, SubsOk, AllItems, HasClifford, SubOk;
    ghost var start := t.subs;
    var gs := Expand(op);
    ExpandProper(op, t.n);
    hide Expand;
    ChainIsOperator(t.n, op);
    AllItemsOk(t.subs, t.n);
    SameRefl(t.n, AllItems(t.subs));
    assert gs[..0] == [] && AllItems(start) + Gates(GateOps(gs[..0])) == AllItems(start);
    var i := 0;
    while i < |gs|
      invariant i <= |gs| && t.Valid() && SameKinds(start, t.subs) && HasClifford(t.subs)
      invariant Same(t.n, AllItems(start) + Gates(GateOps(gs[..i])), AllItems(t.subs))
    {
      ghost var before := t.subs;
      t.AppendGate(gs[i]);
      KindsKeepClifford(before, t.subs);
      OneMoreGate(t.n, AllItems(start), gs, i, AllItems(before), AllItems(t.subs));
      i := i + 1;
    }
    assert gs[..i] == gs;
    SameSym(t.n, Gates(GateOps(gs)), [Do(op)]);
    SameBefore(t.n, AllItems(start), [Do(op)], Gates(GateOps(gs)));
    SameTrans(t.n, AllItems(start) + [Do(op)], AllItems(start) + Gates(GateOps(gs)), AllItems(t.subs));
  }

  lemma OneMoreGate(n: nat, w: seq<Item>, gs: seq<Gate>, i: nat, u: seq<Item>, v: seq<Item>)
    requires i < |gs| && Proper(gs[i], n) && Same(n, w + Gates(GateOps(gs[..i])), u) && Same(n, u + [Do(GateOp(gs[i]))], v)
    ensures Same(n, w + Gates(GateOps(gs[..i + 1])), v)
  {
    hide Same;
    var d := [Do(GateOp(gs[i]))];
    DoOk(gs[i], n);
    SameAfter(n, w + Gates(GateOps(gs[..i])), u, d);
    assert gs[..i + 1] == gs[..i] + [gs[i]];
    assert Gates(GateOps(gs[..i + 1])) == Gates(GateOps(gs[..i])) + d;
    assert w + Gates(GateOps(gs[..i + 1])) == w + Gates(GateOps(gs[..i])) + d;
    SameTrans(n, w + Gates(GateOps(gs[..i + 1])), u + d, v);
  }

  method AppendOps(t: Tableau, ops: seq<Op>)
    requires t.Valid() && WellFormedAll(ops, t.n) && (ops == [] || HasClifford(t.subs))
    modifies t
    ensures t.Valid() && SameKinds(old(t.subs), t.subs) && (old(HasClifford(t.subs)) ==> HasClifford(t.subs))
    ensures Same(t.n, AllItems(old(t.subs)) + Gates(ops), AllItems(t.subs))
  {
    hide Same, SubOk, AllItems, HasClifford, SubOk;
    ghost var start := t.subs;
    AllItemsOk(t.subs, t.n);
    SameRefl(t.n, AllItems(t.subs));
    assert ops[..0] == [] && AllItems(start) + Gates(ops[..0]) == AllItems(start);
    var i := 0;
    while i < |ops|
      invariant i <= |ops| && t.Valid() && SameKinds(start, t.subs) && (ops != [] || old(HasClifford(t.subs)) ==> HasClifford(t.subs))
      invariant Same(t.n, AllItems(start) + Gates(ops[..i]), AllItems(t.subs))
    {
      ghost var before := t.subs;
      AppendOp(t, ops[i]);
      OneMoreOp(t.n, AllItems(start), ops, i, AllItems(before), AllItems(t.subs));
      i := i + 1;
    }
    assert ops[..i] == ops;
  }

  lemma OneMoreOp(n: nat, w: seq<Item>, ops: seq<Op>, i: nat, u: seq<Item>, v: seq<Item>)
    requires i < |ops| && WellFormed(ops[i], n) && Same(n, w + Gates(ops[..i]), u) && Same(n, u + [Do(ops[i])], v)
    ensures Same(n, w + Gates(ops[..i + 1]), v)
  {
    hide Same;
    var d := [Do(ops[i])];
    assert d == Gates([ops[i]]);
    GatesOk([ops[i]], n);
    SameAfter(n, w + Gates(ops[..i]), u, d);
    assert ops[..i + 1] == ops[..i] + [ops[i]];
    GatesAppend(ops[..i], [ops[i]]);
    assert w + Gates(ops[..i + 1]) == w + Gates(ops[..i]) + d;
    SameTrans(n, w + Gates(ops[..i + 1]), u + d, v);
  }

  // ---------------------------------------------------------------- the multi-controlled phase

  /** An empty rotation list at the end if a Clifford is there. */
  method EndWithList(t: Tableau)
    requires t.Valid() && t.subs != []
    modifies t
    ensures t.Valid() && t.subs != [] && t.subs[|t.subs| - 1].Rotations? && (old(HasClifford(t.subs)) ==> HasClifford(t.subs))
    ensures AllItems(t.subs) == AllItems(old(t.subs))
  {
    if t.subs[|t.subs| - 1].Clifford? {
      AllItemsBack(t.subs, Sub.Rotations([]));
      assert AllItems(t.subs) + SubItems(Sub.Rotations([])) == AllItems(t.subs);
      LongerKeepsClifford(t.subs, Sub.Rotations([]));
      t.subs := t.subs + [Sub.Rotations([])];
    }
  }

  lemma LongerKeepsClifford(subs: seq<Sub>, s: Sub)
    requires HasClifford(subs)
    ensures HasClifford(subs + [s])
  {
    var i :| 0 <= i < |subs| && subs[i].Clifford?;
    assert (subs + [s])[i].Clifford?;
  }

  lemma AppendToLast(n: nat, subs: seq<Sub>, rs: seq<Rotation>)
    requires SubsOk(subs, n) && subs != [] && subs[|subs| - 1].Rotations? && ProperList(rs, n)
    ensures var subs' := subs[|subs| - 1 := Sub.Rotations(subs[|subs| - 1].list + rs)];
            && SubsOk(subs', n) && SameKinds(subs, subs') && AllItems(subs') == AllItems(subs) + Items(rs)
  {
    var m := |subs| - 1;
    var list := subs[m].list;
    var s := Sub.Rotations(list + rs);
    var subs' := subs[m := s];
    assert SubOk(subs[m], n);
    ItemsAppend(list, rs);
    assert subs'[..m] == subs[..m];
    assert AllItems(subs[..m]) + (Items(list) + Items(rs)) == AllItems(subs[..m]) + Items(list) + Items(rs);
  }

  /** Appends the rotations of a controlled phase between the operators of its axis. */
  method ImplementMcp(t: Tableau, axis: Axis, qubits: seq<nat>, phase: Phase) returns (ghost w: seq<Item>)
    requires t.Valid() && HasClifford(t.subs) && GateOk(Phased(axis, qubits, phase), t.n)
    modifies t
    ensures t.Valid() && HasClifford(t.subs)
    ensures Denotes(Phased(axis, qubits, phase), w, t.n) && Same(t.n, AllItems(old(t.subs)) + w, AllItems(t.subs))
  {
    hide Same, SubOk, AllItems, HasClifford, IsControlledPhase, ControlsPhase, Distinct;
    ghost var start := AllItems(t.subs);
    var q := Target(qubits);
    AllItemsOk(t.subs, t.n);
    AroundOk(t.n, axis, q);
    NotEmpty(t.subs);
    EndWithList(t);
    AppendOps(t, Before(axis, q));
    ghost var middle := t.subs;
    var rs := ControlledPhaseTerms(qubits, phase, t.n);
    ControlledIsProper(rs, qubits, phase, t.n);
    AppendToLast(t.n, t.subs, rs);
    t.subs := t.subs[|t.subs| - 1 := Sub.Rotations(t.subs[|t.subs| - 1].list + rs)];
    KindsKeepClifford(middle, t.subs);
    AppendOps(t, After(axis, q));
    w := Items(Turned(axis, q, rs));
    ThreeParts(t.n, start, Gates(Before(axis, q)), AllItems(middle), Items(rs), Gates(After(axis, q)), AllItems(t.subs));
    ExactlyControls(rs, qubits, phase, t.n);
    TurnedIsAround(t.n, axis, qubits, phase, rs);
    Rewritten(t.n, start, AroundTarget(axis, q, Items(rs)), w, AllItems(t.subs));
  }

  lemma NotEmpty(subs: seq<Sub>)
    requires HasClifford(subs)
    ensures subs != []
  {
  }

  lemma ControlledIsProper(rs: seq<Rotation>, qubits: seq<nat>, phase: Phase, n: nat)
    requires IsControlledPhase(rs, qubits, phase, n)
    ensures ProperList(rs, n) && AllDiagonal(rs)
  {
  }

  lemma Rewritten(n: nat, start: seq<Item>, v: seq<Item>, w: seq<Item>, end: seq<Item>)
    requires Same(n, start + v, end) && Same(n, v, w) && Ok(start, n)
    ensures Same(n, start + w, end)
  {
    hide Same, Ok;
    SameSym(n, v, w);
    SameBefore(n, start, w, v);
    SameTrans(n, start + w, start + v, end);
  }

  lemma ThreeParts(n: nat, start: seq<Item>, b: seq<Item>, mid: seq<Item>, r: seq<Item>, a: seq<Item>, end: seq<Item>)
    requires Same(n, start + b, mid) && Same(n, (mid + r) + a, end) && Ok(r, n) && Ok(a, n)
    ensures Same(n, start + (b + r + a), end)
  {
    hide Same, Ok;
    OkAppend(r, a, n);
    SameAfter(n, start + b, mid, r + a);
    assert start + b + (r + a) == start + (b + r + a) && mid + (r + a) == (mid + r) + a;
    SameTrans(n, start + (b + r + a), (mid + r) + a, end);
  }

  // ---------------------------------------------------------------- Clifford phases

  /** The gates taken directly as operators: a quarter, half or three-quarter turn on one qubit,
      and a half turn under one control. */
  predicate IsCliffordPhase(qubits: seq<nat>, phase: Phase) {
    || (|qubits| == 1 && (phase == 1.0 || phase == 0.5 || phase == -0.5))
    || (|qubits| == 2 && phase == 1.0)
  }

  function CliffordString(axis: Axis, qubits: seq<nat>, phase: Phase): seq<Op>
    requires IsCliffordPhase(qubits, phase)
  {
    var q := Target(qubits);
    if |qubits| == 2 then
      match axis
      case AxisX => [Op(OpCX, qubits[0], q)]
      case AxisY => [Op(OpSdg, q, 0), Op(OpCX, qubits[0], q), Op(OpS, q, 0)]
      case AxisZ => [Op(OpCZ, qubits[0], q)]
    else if phase == 1.0 then
      match axis
      case AxisX => [Op(OpX, q, 0)]
      case AxisY => [Op(OpY, q, 0)]
      case AxisZ => [Op(OpZ, q, 0)]
    else
      var minus := phase == -0.5;
      match axis
      case AxisX => [Op(if minus then OpVdg else OpV, q, 0)]
      case AxisY => [Op(OpSdg, q, 0), Op(if minus then OpVdg else OpV, q, 0), Op(OpS, q, 0)]
      case AxisZ => [Op(if minus then OpSdg else OpS, q, 0)]
  }

  /** What stands between the operators of the axis: Z, S or its adjoint, or CZ. */
  function MiddleOp(qubits: seq<nat>, phase: Phase): Op
    requires IsCliffordPhase(qubits, phase)
  {
    if |qubits| == 2 then Op(OpCZ, qubits[0], qubits[1])
    else Op(if phase == 1.0 then OpZ else if phase == 0.5 then OpS else OpSdg, qubits[0], 0)
  }

  lemma StringOfAxis(n: nat, axis: Axis, qubits: seq<nat>, phase: Phase)
    requires IsCliffordPhase(qubits, phase) && GateOk(Phased(axis, qubits, phase), n)
    ensures ActAlike(Before(axis, Target(qubits)) + [MiddleOp(qubits, phase)] + After(axis, Target(qubits)),
                     CliffordString(axis, qubits, phase), n)
  {
    hide ActAlike, Distinct;
    var q := Target(qubits);
    var whole := Before(axis, q) + [MiddleOp(qubits, phase)] + After(axis, q);
    if |qubits| == 2 {
      var c := qubits[0];
      TwoDiffer(qubits);
      match axis {
        case AxisX =>
          CxBetweenH(n, c, q);
          assert whole == [Op(OpH, q, 0), Op(OpCZ, c, q), Op(OpH, q, 0)];
        case AxisY =>
          CyBetweenV(n, c, q);
          assert whole == [Op(OpV, q, 0), Op(OpCZ, c, q), Op(OpVdg, q, 0)];
        case AxisZ => AlikeItself(n, Op(OpCZ, c, q));
      }
    } else {
      var m := MiddleOp(qubits, phase);
      match axis {
        case AxisX =>
          BetweenH(n, q);
          assert whole == [Op(OpH, q, 0), m, Op(OpH, q, 0)];
        case AxisY =>
          YBetweenV(n, q);
          RootsOfY(n, q);
          assert whole == [Op(OpV, q, 0), m, Op(OpVdg, q, 0)];
        case AxisZ => AlikeItself(n, m);
      }
    }
  }

  lemma AlikeItself(n: nat, op: Op)
    requires WellFormed(op, n)
    ensures ActAlike([op], [op], n) && [] + [op] + [] == [op]
  {
  }

  lemma TwoDiffer(qubits: seq<nat>)
    requires |qubits| == 2 && Distinct(qubits)
    ensures qubits[0] != qubits[1]
  {
  }

  lemma RootsOfY(n: nat, q: nat)
    requires q < n
    ensures ActAlike([Op(OpV, q, 0), Op(OpS, q, 0), Op(OpVdg, q, 0)], [Op(OpSdg, q, 0), Op(OpV, q, 0), Op(OpS, q, 0)], n)
    ensures ActAlike([Op(OpV, q, 0), Op(OpSdg, q, 0), Op(OpVdg, q, 0)], [Op(OpSdg, q, 0), Op(OpVdg, q, 0), Op(OpS, q, 0)], n)
  {
    hide ActAlike;
    RootOfY(n, q);
    var l, r := [Op(OpV, q, 0), Op(OpS, q, 0), Op(OpVdg, q, 0)], [Op(OpSdg, q, 0), Op(OpV, q, 0), Op(OpS, q, 0)];
    AdjointsAlike(n, l, r);
    assert AdjointAll(l) == [Op(OpV, q, 0), Op(OpSdg, q, 0), Op(OpVdg, q, 0)];
    assert AdjointAll(r) == [Op(OpSdg, q, 0), Op(OpVdg, q, 0), Op(OpS, q, 0)];
  }

  // ---------------------------------------------------------------- their phase functions

  /** The rotations of a Clifford phase about Z. */
  function CliffordTerms(qubits: seq<nat>, phase: Phase, n: nat): seq<Rotation>
    requires IsCliffordPhase(qubits, phase)
  {
    if |qubits| == 1 then [Rotation(ZOn(n, qubits), phase)]
    else [Rotation(ZOn(n, [qubits[0]]), 0.5), Rotation(ZOn(n, [qubits[1]]), 0.5), Rotation(ZOn(n, qubits), -0.5)]
  }

  lemma TermPhase(n: nat, rs: seq<Rotation>, c: seq<nat>, a: Phase, bits: seq<bool>)
    requires ProperList(rs, n) && AllDiagonal(rs) && Distinct(c) && Below(c, n) && |bits| == n
    ensures TermsSized(TermsOf(rs), n)
    ensures TermsSized(TermsOf(rs + [Rotation(ZOn(n, c), a)]), n)
    ensures PhaseOn(TermsOf(rs + [Rotation(ZOn(n, c), a)]), bits) == PhaseOn(TermsOf(rs), bits) + if Odd(c, bits) then a else 0.0
  {
    hide PhaseOn;
    var t := Term(ZOn(n, c).z, a);
    assert TermsOf(rs + [Rotation(ZOn(n, c), a)]) == TermsOf(rs) + [t];
    PhaseAppend(TermsOf(rs), [t], bits);
    PhaseOfOne(t, bits);
    ParityOfChoice(c, bits);
  }

  lemma CliffordTermsPhase(n: nat, axis: Axis, qubits: seq<nat>, phase: Phase)
    requires IsCliffordPhase(qubits, phase) && GateOk(Phased(axis, qubits, phase), n)
    ensures IsControlledPhase(CliffordTerms(qubits, phase, n), qubits, phase, n)
  {
    var rs := CliffordTerms(qubits, phase, n);
    assert ProperList(rs, n) && AllDiagonal(rs);
    assert TermsSized(TermsOf(rs), n);
    forall bits: seq<bool> | |bits| == n
      ensures PhaseOn(TermsOf(rs), bits) == if AllOn(qubits, bits) then phase else 0.0
    {
      if |qubits| == 1 {
        CliffordPhaseOne(n, qubits, phase, bits);
      } else {
        CliffordPhaseTwo(n, qubits, phase, bits);
      }
    }
  }

  lemma CliffordPhaseOne(n: nat, qubits: seq<nat>, phase: Phase, bits: seq<bool>)
    requires IsCliffordPhase(qubits, phase) && |qubits| == 1 && Below(qubits, n) && |bits| == n
    ensures TermsSized(TermsOf(CliffordTerms(qubits, phase, n)), n)
    ensures PhaseOn(TermsOf(CliffordTerms(qubits, phase, n)), bits) == if AllOn(qubits, bits) then phase else 0.0
  {
    var t := Term(ZOn(n, qubits).z, phase);
    assert TermsOf(CliffordTerms(qubits, phase, n)) == [t];
    PhaseOfOne(t, bits);
    ParityOfChoice(qubits, bits);
    assert qubits[1..] == [];
  }

  lemma CliffordPhaseTwo(n: nat, qubits: seq<nat>, phase: Phase, bits: seq<bool>)
    requires IsCliffordPhase(qubits, phase) && |qubits| == 2 && Below(qubits, n) && Distinct(qubits) && |bits| == n
    ensures TermsSized(TermsOf(CliffordTerms(qubits, phase, n)), n)
    ensures PhaseOn(TermsOf(CliffordTerms(qubits, phase, n)), bits) == if AllOn(qubits, bits) then phase else 0.0
  {
    hide PhaseOn;
    var (a, b) := ([qubits[0]], [qubits[1]]);
    var r1, r2 := [Rotation(ZOn(n, a), 0.5)], [Rotation(ZOn(n, a), 0.5), Rotation(ZOn(n, b), 0.5)];
    TermPhase(n, [], a, 0.5, bits);
    assert [] + [Rotation(ZOn(n, a), 0.5)] == r1;
    TermPhase(n, r1, b, 0.5, bits);
    assert r1 + [Rotation(ZOn(n, b), 0.5)] == r2;
    TermPhase(n, r2, qubits, -0.5, bits);
    assert r2 + [Rotation(ZOn(n, qubits), -0.5)] == CliffordTerms(qubits, phase, n);
    assert PhaseOn(TermsOf([]), bits) == 0.0 by { NoTermsNoPhase(bits); }
    assert a[1..] == [] && b[1..] == [] && qubits[1..] == b;
    assert Odd(a, bits) == bits[qubits[0]] && Odd(b, bits) == bits[qubits[1]];
  }

  lemma NoTermsNoPhase(bits: seq<bool>)
    ensures PhaseOn(TermsOf([]), bits) == 0.0
  {
  }

  /** The rotations of a Clifford phase about Z mean the operator. */
  lemma CliffordTermsMean(n: nat, axis: Axis, qubits: seq<nat>, phase: Phase)
    requires IsCliffordPhase(qubits, phase) && GateOk(Phased(axis, qubits, phase), n)
    ensures WellFormed(MiddleOp(qubits, phase), n)
    ensures Same(n, Items(CliffordTerms(qubits, phase, n)), [Do(MiddleOp(qubits, phase))])
  {
    hide Same;
    if |qubits| == 1 {
      assert ZOn(n, qubits).z == Unit(n, qubits[0]);
      CliffordRotation(n, qubits[0], MiddleOp(qubits, phase));
      assert Items(CliffordTerms(qubits, phase, n)) == [Rotate(ZAt(n, qubits[0]), phase)];
    } else {
      TwoDiffer(qubits);
      CzTermsMean(n, qubits[0], qubits[1]);
      assert qubits == [qubits[0], qubits[1]];
      assert Items(CliffordTerms(qubits, phase, n))
          == [Rotate(ZOn(n, [qubits[0]]), 0.5)] + [Rotate(ZOn(n, [qubits[1]]), 0.5)] + [Rotate(ZOn(n, [qubits[0], qubits[1]]), -0.5)];
    }
  }

  lemma CzTermsMean(n: nat, a: nat, b: nat)
    requires a < n && b < n && a != b
    ensures Same(n, [Rotate(ZOn(n, [a]), 0.5)] + [Rotate(ZOn(n, [b]), 0.5)] + [Rotate(ZOn(n, [a, b]), -0.5)], [Do(Op(OpCZ, a, b))])
  {
    hide Same, ApplyAll;
    var s, t, cx, sdg := Op(OpS, a, 0), Op(OpS, b, 0), Op(OpCX, a, b), Op(OpSdg, b, 0);
    assert ZOn(n, [a]).z == Unit(n, a) && ZOn(n, [b]).z == Unit(n, b);
    CliffordRotation(n, a, s);
    CliffordRotation(n, b, t);
    ParityRotation(n, a, b);
    var i, j, k := [Rotate(ZAt(n, a), 0.5)], [Rotate(ZAt(n, b), 0.5)], [Rotate(ZOn(n, [a, b]), -0.5)];
    ThreeSame(n, i, [Do(s)], j, [Do(t)], k, [Do(cx), Do(sdg), Do(cx)]);
    CzFromParities(n, a, b);
    AlikeIsSame(n, [s, t, cx, sdg, cx], [Op(OpCZ, a, b)]);
    assert [Do(s)] + [Do(t)] + [Do(cx), Do(sdg), Do(cx)] == Gates([s, t, cx, sdg, cx]);
    assert Gates([Op(OpCZ, a, b)]) == [Do(Op(OpCZ, a, b))];
    SameTrans(n, i + j + k, Gates([s, t, cx, sdg, cx]), [Do(Op(OpCZ, a, b))]);
  }

  lemma ThreeSame(n: nat, i: seq<Item>, i': seq<Item>, j: seq<Item>, j': seq<Item>, k: seq<Item>, k': seq<Item>)
    requires Same(n, i, i') && Same(n, j, j') && Same(n, k, k')
    ensures Same(n, i + j + k, i' + j' + k')
  {
    hide Same;
    SameOk(n, i, i');
    SameOk(n, j, j');
    SameOk(n, k, k');
    SameAfter(n, i, i', j);
    SameBefore(n, i', j, j');
    SameTrans(n, i + j, i' + j, i' + j');
    SameAfter(n, i + j, i' + j', k);
    SameOk(n, i + j, i' + j');
    SameBefore(n, i' + j', k, k');
    SameTrans(n, i + j + k, i' + j' + k, i' + j' + k');
  }

  lemma ParityRotation(n: nat, a: nat, b: nat)
    requires a < n && b < n && a != b
    ensures Same(n, [Rotate(ZOn(n, [a, b]), -0.5)], [Do(Op(OpCX, a, b)), Do(Op(OpSdg, b, 0)), Do(Op(OpCX, a, b))])
  {
    hide Same, ApplyAll;
    var cx, sdg := Op(OpCX, a, b), Op(OpSdg, b, 0);
    var z, r := [Rotate(ZAt(n, b), -0.5)], [Rotate(ZOn(n, [a, b]), -0.5)];
    ChainStep2(n, a, b);
    DiagonalizedRotation(n, ZOn(n, [a, b]), -0.5, [cx], b);
    CliffordRotation(n, b, sdg);
    assert AdjointAll([cx]) == [cx] && Gates([cx]) == [Do(cx)];
    GatesOk([cx], n);
    SameInContext(n, [Do(cx)], z, [Do(sdg)], [Do(cx)]);
    assert [Do(cx)] + [Do(sdg)] + [Do(cx)] == [Do(cx), Do(sdg), Do(cx)];
    SameTrans(n, r, [Do(cx)] + z + [Do(cx)], [Do(cx), Do(sdg), Do(cx)]);
  }

  lemma ChainStep2(n: nat, a: nat, b: nat)
    requires a < n && b < n && a != b
    ensures ApplyAll([Op(OpCX, a, b)], ZOn(n, [a, b])) == ZAt(n, b)
  {
    hide ApplyAll, Run;
    var l := ZOn(n, [a, b]);
    ApplyAllOne(Op(OpCX, a, b), l);
    Run1(CX(a, b), l);
    var m := Conj(CX(a, b), l);
    assert m.z == Unit(n, b) && m.x == Zeros(n);
  }

  /** A Clifford phase and its operator string mean the same. */
  lemma CliffordStringDenotes(n: nat, axis: Axis, qubits: seq<nat>, phase: Phase) returns (w: seq<Item>)
    requires IsCliffordPhase(qubits, phase) && GateOk(Phased(axis, qubits, phase), n)
    ensures WellFormedAll(CliffordString(axis, qubits, phase), n)
    ensures Denotes(Phased(axis, qubits, phase), w, n) && Same(n, w, Gates(CliffordString(axis, qubits, phase)))
  {
    hide Same, IsControlledPhase, ControlsPhase, ActAlike, Distinct;
    var q, rs, m := Target(qubits), CliffordTerms(qubits, phase, n), MiddleOp(qubits, phase);
    var b, a := Before(axis, q), After(axis, q);
    w := Items(Turned(axis, q, rs));
    CliffordTermsPhase(n, axis, qubits, phase);
    CliffordTermsMean(n, axis, qubits, phase);
    InsideAxis(n, axis, q, Items(rs), [Do(m)]);
    StringOfAxis(n, axis, qubits, phase);
    AlikeWellFormed(n, b + [m] + a, CliffordString(axis, qubits, phase));
    AlikeIsSame(n, b + [m] + a, CliffordString(axis, qubits, phase));
    GatesAppend(b, [m]);
    GatesAppend(b + [m], a);
    assert Gates([m]) == [Do(m)];
    ExactlyControls(rs, qubits, phase, n);
    TurnedIsAround(n, axis, qubits, phase, rs);
    SameSym(n, AroundTarget(axis, q, Items(rs)), w);
    SameTrans(n, w, AroundTarget(axis, q, Items(rs)), AroundTarget(axis, q, [Do(m)]));
    SameTrans(n, w, AroundTarget(axis, q, [Do(m)]), Gates(CliffordString(axis, qubits, phase)));
  }

  lemma AlikeWellFormed(n: nat, ops: seq<Op>, ops': seq<Op>)
    requires ActAlike(ops, ops', n)
    ensures WellFormedAll(ops', n)
  {
  }

  // ---------------------------------------------------------------- whole circuits

  /** Appends one gate; false for a gate that is not supported. */
  method AppendGateOf(t: Tableau, g: CircuitGate) returns (ok: bool, ghost w: seq<Item>)
    requires t.Valid() && HasClifford(t.subs) && GateOk(g, t.n)
    modifies t
    ensures t.Valid() && HasClifford(t.subs) && ok == IsSupported(g)
    ensures ok ==> Denotes(g, w, t.n) && Same(t.n, AllItems(old(t.subs)) + w, AllItems(t.subs))
  {
    hide Same, AllItems, HasClifford, SubOk, IsControlledPhase, ControlsPhase, Distinct;
    ok, w := true, [];
    match g {
      case GateId =>
        AllItemsOk(t.subs, t.n);
        assert AllItems(t.subs) + w == AllItems(t.subs);
        SameRefl(t.n, AllItems(t.subs));
      case GateH(q) =>
        HTurns(t.n, q);
        w := AppendMeaning(t, Op(OpH, q, 0), [Table(TurnedRows(q, t.n))]);
      case GateSwap(a, b) =>
        SwapExchanges(t.n, a, b);
        w := AppendMeaning(t, Op(OpSwap, a, b), [Table(ExchangedRows(a, b, t.n))]);
      case GateEcr(a, b) =>
        EcrTurns(t.n, a, b);
        w := AppendMeaning(t, Op(OpECR, a, b), [Rotate(ZX(t.n, a, b), 0.5), Rotate(XAt(t.n, a), 1.0)]);
      case Phased(axis, qubits, phase) =>
        w := AppendPhased(t, axis, qubits, phase);
      case Unsupported =>
        ok := false;
    }
  }

  /** Appends an operator that means the program. */
  method AppendMeaning(t: Tableau, op: Op, ghost v: seq<Item>) returns (ghost w: seq<Item>)
    requires t.Valid() && HasClifford(t.subs) && WellFormed(op, t.n) && Same(t.n, v, [Do(op)])
    modifies t
    ensures t.Valid() && HasClifford(t.subs) && w == v && Same(t.n, AllItems(old(t.subs)) + w, AllItems(t.subs))
  {
    hide Same, AllItems, HasClifford, SubOk;
    w := v;
    ghost var start := AllItems(t.subs);
    AllItemsOk(t.subs, t.n);
    SameBefore(t.n, start, v, [Do(op)]);
    AppendOp(t, op);
    SameTrans(t.n, start + v, start + [Do(op)], AllItems(t.subs));
  }

  method AppendPhased(t: Tableau, axis: Axis, qubits: seq<nat>, phase: Phase) returns (ghost w: seq<Item>)
    requires t.Valid() && HasClifford(t.subs) && GateOk(Phased(axis, qubits, phase), t.n)
    modifies t
    ensures t.Valid() && HasClifford(t.subs)
    ensures Denotes(Phased(axis, qubits, phase), w, t.n) && Same(t.n, AllItems(old(t.subs)) + w, AllItems(t.subs))
  {
    if IsCliffordPhase(qubits, phase) {
      hide Same, AllItems, HasClifford, SubOk, CliffordString, Denotes, GateOk;
      ghost var start := t.subs;
      w := CliffordStringDenotes(t.n, axis, qubits, phase);
      AppendOps(t, CliffordString(axis, qubits, phase));
      AllItemsOk(start, t.n);
      SameBefore(t.n, AllItems(start), w, Gates(CliffordString(axis, qubits, phase)));
      SameTrans(t.n, AllItems(start) + w, AllItems(start) + Gates(CliffordString(axis, qubits, phase)), AllItems(t.subs));
    } else {
      w := ImplementMcp(t, axis, qubits, phase);
    }
  }

  ghost predicate CircuitOk(gs: seq<CircuitGate>, n: nat) {
    forall i :: 0 <= i < |gs| ==> GateOk(gs[i], n)
  }

  /** The tableau of a circuit means what the circuit means. */
  method ToTableau(gs: seq<CircuitGate>, n: nat) returns (t: Tableau, ok: bool, ghost w: seq<Item>)
    requires CircuitOk(gs, n)
    ensures fresh(t) && t.Valid() && t.n == n && HasClifford(t.subs)
    ensures ok <==> forall i :: 0 <= i < |gs| ==> IsSupported(gs[i])
    ensures ok ==> DenotesAll(gs, w, n) && Same(n, w, AllItems(t.subs))
  {
    hide Same, AllItems, HasClifford, SubOk, Denotes, GateOk;
    StartTableau(n);
    t := new Tableau([Clifford(IdentityRows(n))], n);
    w := [];
    assert gs[..0] == [];
    var i := 0;
    while i < |gs|
      invariant i <= |gs| && fresh(t) && t.Valid() && t.n == n && HasClifford(t.subs)
      invariant forall j :: 0 <= j < i ==> IsSupported(gs[j])
      invariant DenotesAll(gs[..i], w, n) && Same(n, w, AllItems(t.subs))
    {
      ghost var before := t.subs;
      ghost var v;
      ok, v := AppendGateOf(t, gs[i]);
      if !ok {
        return;
      }
      OneMoreDenotes(n, gs, i, w, v, AllItems(before), AllItems(t.subs));
      w := w + v;
      i := i + 1;
    }
    assert gs[..i] == gs;
    ok := true;
  }

  lemma StartTableau(n: nat)
    ensures SubsOk([Clifford(IdentityRows(n))], n) && HasClifford([Clifford(IdentityRows(n))])
    ensures Same(n, [], AllItems([Clifford(IdentityRows(n))]))
  {
    hide Same;
    var id := Clifford(IdentityRows(n));
    assert TableauOf([], n) == IdentityRows(n);
    assert WellFormedAll([], n);
    StringIsTable(n, []);
    assert Gates([]) == [];
    AllItemsOne(id);
    assert [id][0].Clifford?;
  }

  lemma OneMoreDenotes(n: nat, gs: seq<CircuitGate>, i: nat, w: seq<Item>, v: seq<Item>, a: seq<Item>, b: seq<Item>)
    requires i < |gs| && DenotesAll(gs[..i], w, n) && Denotes(gs[i], v, n) && Same(n, w, a) && Same(n, a + v, b)
    ensures DenotesAll(gs[..i + 1], w + v, n) && Same(n, w + v, b)
  {
    hide Same;
    assert gs[..i + 1][..i] == gs[..i];
    SameOk(n, a + v, b);
    OkSuffix(a, v, n);
    SameAfter(n, w, a, v);
    SameTrans(n, w + v, a + v, b);
  }
}
