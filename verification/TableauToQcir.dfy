/** From a tableau back to a circuit, segment by segment, and the whole compilation. */
module TableauToQcir {
  import opened Collections
  import opened Paulis
  import opened Operators
  import opened Tableaux
  import opened Meaning
  import opened MeaningLaws
  import opened Rotations
  import opened Absorbing
  import opened PhaseFunctions
  import opened Diagonalization
  import opened MixedTableaux
  import opened Merging
  import TableauPasses
  import GraySynth
  import HOptimal
  import AaronsonGottesman
  import opened Recording
  import opened StabilizerTableaux
  import QcirToTableau

  /** How Cliffords are taken apart. */
  datatype CliffordStrategy = Gottesman | FewestH(mode: HOptimal.Mode)

  datatype Strategy = Naive | Gray(mode: GraySynth.Mode, order: seq<nat>)

  ghost predicate StrategyOk(s: Strategy, n: nat) {
    s.Gray? ==> |s.order| == n && Distinct(s.order)
  }

  /** What the strategies demand of a rotation list. */
  ghost predicate Synthesizable(s: Sub, strategy: Strategy) {
    s.Rotations? ==> NoIdentities(s.list) && (strategy.Gray? ==> s.list != [])
  }

  ghost predicate Supported(s: Sub, strategy: Strategy) {
    s.Rotations? && strategy.Gray? ==> AllDiagonal(s.list)
  }

  /** The part of the circuit for a segment, made as the strategies have it. */
  ghost predicate PartOf(s: Sub, cliffords: CliffordStrategy, strategy: Strategy, n: nat, part: seq<Item>) {
    match s
    case Clifford(rows) => exists ops :: BuildsBy(rows, cliffords, n, ops) && part == Gates(ops)
    case Rotations(list) =>
      match strategy
      case Naive => OneByOne(list, n, part)
      case Gray(mode, order) => GraySynth.BySteps(mode, order, list, n, part)
  }

  /** Operators that build the tableau; as few H as possible if that is the strategy, in the shape of its mode. */
  ghost predicate BuildsBy(rows: seq<Pauli>, cliffords: CliffordStrategy, n: nat, ops: seq<Op>) {
    && Shaped(rows, n) && WellFormedAll(ops, n) && TableauOf(ops, n) == rows
    && (cliffords.FewestH? ==> HOptimal.Rank(HOptimal.XBlock(rows, n), n, HCount(ops))
                               && exists tail, diagonalizing :: ops == tail + AdjointAll(diagonalizing)
                                                                && HOptimal.Diagonalizes(cliffords.mode, rows, n, diagonalizing))
  }

  method CliffordToQcir(rows: seq<Pauli>, cliffords: CliffordStrategy, n: nat) returns (ops: seq<Op>)
    requires Built(rows, n)
    ensures BuildsBy(rows, cliffords, n, ops) && Same(n, [Table(rows)], Gates(ops))
  {
    hide Built, Same, TableauOf, HOptimal.Rank, HOptimal.XBlock, HOptimal.Diagonalizes;
    BuiltIsSymplectic(rows, n);
    BuiltShaped(rows, n);
    var copy := new StabilizerTableau.Copy(rows, n);
    match cliffords {
      case Gottesman => ops := AaronsonGottesman.Synthesize(copy);
      case FewestH(mode) => ops := HOptimal.Synthesize(copy, mode);
    }
    StringIsTable(n, ops);
    SameSym(n, Gates(ops), [Table(rows)]);
  }

  method SegmentToQcir(s: Sub, cliffords: CliffordStrategy, strategy: Strategy, n: nat) returns (r: Option<seq<Item>>)
    requires SubOk(s, n) && StrategyOk(strategy, n) && Synthesizable(s, strategy)
    ensures r.Some? <==> Supported(s, strategy)
    ensures r.Some? ==> IsCircuit(r.value, n) && Same(n, SubItems(s), r.value) && PartOf(s, cliffords, strategy, n, r.value)
  {
    hide Same, IsCircuit, NoIdentities, AllDiagonal, BuildsBy, OneByOne, GraySynth.BySteps;
    match s {
      case Clifford(rows) =>
        var ops := CliffordToQcir(rows, cliffords, n);
        StringIsCircuit(ops, n) by { BuildsWell(rows, cliffords, n, ops); }
        r := Some(Gates(ops));
      case Rotations(list) =>
        match strategy {
          case Naive =>
            var circuit := SynthesizeNaively(list, n);
            r := Some(circuit);
          case Gray(mode, order) =>
            SomeQubit(list, n);
            var g := GraySynth.Synthesize(list, n, mode, order);
            r := if g.Circuit? then Some(g.gates) else None;
        }
    }
  }

  lemma BuildsWell(rows: seq<Pauli>, cliffords: CliffordStrategy, n: nat, ops: seq<Op>)
    requires BuildsBy(rows, cliffords, n, ops)
    ensures WellFormedAll(ops, n)
  {
  }

  lemma StringIsCircuit(ops: seq<Op>, n: nat)
    requires WellFormedAll(ops, n)
    ensures IsCircuit(Gates(ops), n)
  {
  }

  lemma SomeQubit(list: seq<Rotation>, n: nat)
    requires ProperList(list, n) && NoIdentities(list) && list != []
    ensures n > 0
  {
    assert !list[0].p.IsIdentity() && Proper1(list[0], n);
  }

  lemma JoinCircuits(n: nat, v: seq<Item>, v': seq<Item>, w: seq<Item>, w': seq<Item>)
    requires Same(n, v, v') && Same(n, w, w') && IsCircuit(v', n) && IsCircuit(w', n)
    ensures Same(n, v + w, v' + w') && IsCircuit(v' + w', n)
  {
    hide Same;
    SameOk(n, v, v');
    SameOk(n, w, w');
    SameAfter(n, v, v', w);
    SameBefore(n, v', w, w');
    SameTrans(n, v + w, v' + w, v' + w');
  }

  /** The parts of the segments one after the other. */
  ghost predicate PartsOf(subs: seq<Sub>, cliffords: CliffordStrategy, strategy: Strategy, n: nat, circuit: seq<Item>)
    decreases |subs|
  {
    if subs == [] then circuit == []
    else exists before, part :: && PartsOf(subs[..|subs| - 1], cliffords, strategy, n, before)
                                && PartOf(subs[|subs| - 1], cliffords, strategy, n, part) && circuit == before + part
  }

  lemma NoPart(cliffords: CliffordStrategy, strategy: Strategy, n: nat)
    ensures PartsOf([], cliffords, strategy, n, [])
  {
  }

  lemma PartsMore(subs: seq<Sub>, i: nat, cliffords: CliffordStrategy, strategy: Strategy, n: nat, before: seq<Item>, part: seq<Item>)
    requires i < |subs| && PartsOf(subs[..i], cliffords, strategy, n, before) && PartOf(subs[i], cliffords, strategy, n, part)
    ensures PartsOf(subs[..i + 1], cliffords, strategy, n, before + part)
  {
    hide PartOf;
    var more := subs[..i + 1];
    assert more[..|more| - 1] == subs[..i] && more[|more| - 1] == subs[i];
  }

  /** A circuit that means what the tableau means, part by part as the strategies have it; none exactly when GraySynth
      meets a rotation that is not diagonal. */
  method ToQcir(t: Tableau, cliffords: CliffordStrategy, strategy: Strategy) returns (r: Option<seq<Item>>)
    requires t.Valid() && StrategyOk(strategy, t.n)
    requires forall k :: 0 <= k < |t.subs| ==> Synthesizable(t.subs[k], strategy)
    ensures r.Some? <==> forall k :: 0 <= k < |t.subs| ==> Supported(t.subs[k], strategy)
    ensures r.Some? ==> IsCircuit(r.value, t.n) && Same(t.n, AllItems(t.subs), r.value) && PartsOf(t.subs, cliffords, strategy, t.n, r.value)
  {
    hide Same, IsCircuit, SubOk, Synthesizable, Supported, SubItems, AllItems, PartOf, PartsOf;
    var circuit, i := [], 0;
    EmptyCircuit(t.n);
    SameRefl(t.n, []);
    AllItemsNone();
    NoPart(cliffords, strategy, t.n);
    assert t.subs[..0] == [];
    while i < |t.subs|
      invariant i <= |t.subs| && forall k :: 0 <= k < i ==> Supported(t.subs[k], strategy)
      invariant IsCircuit(circuit, t.n) && Same(t.n, AllItems(t.subs[..i]), circuit)
      invariant PartsOf(t.subs[..i], cliffords, strategy, t.n, circuit)
    {
      var part := SegmentToQcir(t.subs[i], cliffords, strategy, t.n);
      if part.None? {
        return None;
      }
      JoinCircuits(t.n, AllItems(t.subs[..i]), circuit, SubItems(t.subs[i]), part.value);
      AllItemsBack(t.subs[..i], t.subs[i]);
      PartsMore(t.subs, i, cliffords, strategy, t.n, circuit, part.value);
      assert t.subs[..i + 1] == t.subs[..i] + [t.subs[i]];
      circuit := circuit + part.value;
      i := i + 1;
    }
    assert t.subs[..i] == t.subs;
    return Some(circuit);
  }

  lemma SettledIsSynthesizable(subs: seq<Sub>, n: nat)
    requires TableauPasses.IsCollapsed(subs) && (|subs| == 2 ==> TableauPasses.Settled(subs[1].list, n))
    ensures forall k :: 0 <= k < |subs| ==> Synthesizable(subs[k], Naive) && Supported(subs[k], Naive)
  {
    if |subs| == 2 {
      var list := subs[1].list;
      forall i | 0 <= i < |list|
        ensures !list[i].p.IsIdentity()
      {
        assert !Idle(list[i]);
      }
    }
  }

  /** A circuit taken to a tableau, collapsed, merged, absorbed and taken back keeps its meaning. */
  method Recompile(gs: seq<QcirToTableau.CircuitGate>, n: nat) returns (r: Option<seq<Item>>, ghost w: seq<Item>)
    requires QcirToTableau.CircuitOk(gs, n)
    ensures r.Some? <==> forall i :: 0 <= i < |gs| ==> QcirToTableau.IsSupported(gs[i])
    ensures r.Some? ==> IsCircuit(r.value, n) && QcirToTableau.DenotesAll(gs, w, n) && Same(n, w, r.value)
  {
    hide Same, IsCircuit, SubOk, SubItems, AllItems, Synthesizable, Supported, HasClifford, TableauPasses.Settled, QcirToTableau.GateOk,
         QcirToTableau.Denotes, NoIdentities;
    var t, ok;
    t, ok, w := QcirToTableau.ToTableau(gs, n);
    if !ok {
      return None, w;
    }
    ghost var before := t.subs;
    QcirToTableau.NotEmpty(t.subs);
    TableauPasses.MergeRotations(t);
    SettledIsSynthesizable(t.subs, n);
    SameTrans(n, w, AllItems(before), AllItems(t.subs));
    r := ToQcir(t, FewestH(HOptimal.Star), Naive);
    SameTrans(n, w, AllItems(t.subs), r.value);
  }
}
