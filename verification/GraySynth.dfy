/** GraySynth: CX and phase gates for a list of diagonal rotations, in star and staircase mode. */
module GraySynth {
  import opened Collections
  import opened Paulis
  import opened Operators
  import opened Tableaux
  import opened Prepending
  import opened StabilizerTableaux
  import opened Meaning
  import opened MeaningLaws
  import opened Rotations
  import opened Diagonalization
  import opened PhaseFunctions
  import opened GrayInvariant
  import opened Replaying
  import opened Recording
  import opened GrayState
  import AG = AaronsonGottesman

  datatype Mode = Star | Staircase

  /** Aborted: the assertion on the target qubit failed. */
  datatype Result = Circuit(gates: seq<Item>) | NotDiagonal | Aborted

  // ---------------------------------------------------------------- choosing rows

  ghost predicate OnQubits(columns: seq<Rotation>, n: nat) {
    forall k :: 0 <= k < |columns| ==> |columns[k].p.z| == n
  }

  ghost predicate SetThroughout(columns: seq<seq<bool>>, ks: seq<nat>, row: nat) {
    forall k :: k in ks ==> k < |columns| && row < |columns[k]| && columns[k][row]
  }

  method AllSet(columns: seq<Rotation>, ks: seq<nat>, row: nat, n: nat) returns (all: bool)
    requires OnQubits(columns, n) && Below(ks, |columns|) && row < n
    ensures all <==> SetThroughout(ZBits(columns), ks, row)
  {
    var i := 0;
    while i < |ks|
      invariant i <= |ks| && forall j :: 0 <= j < i ==> columns[ks[j]].p.z[row]
    {
      if !columns[ks[i]].p.z[row] {
        assert ks[i] in ks && !ZBits(columns)[ks[i]][row];
        return false;
      }
      i := i + 1;
    }
    return true;
  }

  /** The rows other than the pivot in which every given column is set. */
  method ControlRows(columns: seq<Rotation>, ks: seq<nat>, pivot: nat, n: nat) returns (rows: seq<nat>)
    requires OnQubits(columns, n) && Below(ks, |columns|)
    ensures Distinct(rows)
    ensures forall b: nat :: b in rows <==> b < n && b != pivot && SetThroughout(ZBits(columns), ks, b)
  {
    hide SetThroughout;
    rows := [];
    var i := 0;
    while i < n
      invariant i <= n && Distinct(rows)
      invariant forall b: nat :: b in rows <==> b < i && b != pivot && SetThroughout(ZBits(columns), ks, b)
    {
      if i != pivot {
        var all := AllSet(columns, ks, i, n);
        if all {
          DistinctOneMore(rows, i);
          rows := rows + [i];
        }
      }
      i := i + 1;
    }
  }

  /** How many of the given columns are set in a row. */
  function Ones(columns: seq<Rotation>, ks: seq<nat>, row: nat, n: nat): (count: nat)
    requires OnQubits(columns, n) && Below(ks, |columns|) && row < n
    ensures count <= |ks|
  {
    if ks == [] then 0
    else Ones(columns, ks[..|ks| - 1], row, n) + if columns[ks[|ks| - 1]].p.z[row] then 1 else 0
  }

  /** The larger side of the split that a row makes. */
  function LargerSide(columns: seq<Rotation>, ks: seq<nat>, row: nat, n: nat): nat
    requires OnQubits(columns, n) && Below(ks, |columns|) && row < n
  {
    Max(Ones(columns, ks, row, n), |ks| - Ones(columns, ks, row, n))
  }

  lemma {:induction false} OnesNext(columns: seq<Rotation>, ks: seq<nat>, j: nat, qubits: seq<nat>, n: nat)
    requires OnQubits(columns, n) && Below(ks, |columns|) && Below(qubits, n) && j < |ks|
    ensures forall i :: 0 <= i < |qubits| ==>
              Ones(columns, ks[..j + 1], qubits[i], n)
              == Ones(columns, ks[..j], qubits[i], n) + if columns[ks[j]].p.z[qubits[i]] then 1 else 0
  {
    assert ks[..j + 1][..j] == ks[..j];
  }

  method CountOnes(columns: seq<Rotation>, ks: seq<nat>, qubits: seq<nat>, n: nat) returns (counts: seq<nat>)
    requires OnQubits(columns, n) && Below(ks, |columns|) && Below(qubits, n)
    ensures |counts| == |qubits| && forall i :: 0 <= i < |qubits| ==> counts[i] == Ones(columns, ks, qubits[i], n)
  {
    counts := seq(|qubits|, _ => 0);
    var j := 0;
    while j < |ks|
      invariant j <= |ks| && |counts| == |qubits|
      invariant forall i :: 0 <= i < |qubits| ==> counts[i] == Ones(columns, ks[..j], qubits[i], n)
    {
      OnesNext(columns, ks, j, qubits, n);
      hide Ones;
      var i := 0;
      while i < |qubits|
        invariant i <= |qubits| == |counts|
        invariant forall l :: 0 <= l < i ==> counts[l] == Ones(columns, ks[..j + 1], qubits[l], n)
        invariant forall l :: i <= l < |qubits| ==> counts[l] == Ones(columns, ks[..j], qubits[l], n)
      {
        if columns[ks[j]].p.z[qubits[i]] {
          counts := counts[i := counts[i] + 1];
        }
        i := i + 1;
      }
      j := j + 1;
    }
    assert ks[..j] == ks;
  }

  /** The row with the most ones or the most zeros: no other row splits the columns less evenly. */
  method CofactorRow(columns: seq<Rotation>, ks: seq<nat>, qubits: seq<nat>, n: nat) returns (row: nat)
    requires OnQubits(columns, n) && Below(ks, |columns|) && qubits != [] && Below(qubits, n)
    ensures row in qubits && row < n
    ensures forall i :: 0 <= i < |qubits| ==> LargerSide(columns, ks, qubits[i], n) <= LargerSide(columns, ks, row, n)
  {
    var counts := CountOnes(columns, ks, qubits, n);
    var least, most, i := 0, 0, 1;
    while i < |counts|
      invariant 1 <= i <= |counts| == |qubits| && least < |counts| && most < |counts|
      invariant forall l :: 0 <= l < i ==> counts[least] <= counts[l] <= counts[most]
    {
      if counts[i] < counts[least] {
        least := i;
      }
      if counts[i] >= counts[most] {
        most := i;
      }
      i := i + 1;
    }
    row := if counts[most] >= |ks| - counts[least] then qubits[most] else qubits[least];
  }

  /** The columns in which a row has the given bit. */
  method WithBit(columns: seq<Rotation>, ks: seq<nat>, row: nat, bit: bool, n: nat) returns (r: seq<nat>)
    requires OnQubits(columns, n) && Below(ks, |columns|) && row < n
    ensures Below(r, |columns|) && forall k :: k in r <==> k in ks && k < |columns| && columns[k].p.z[row] == bit
  {
    r := [];
    var i := 0;
    while i < |ks|
      invariant i <= |ks| && Below(r, |columns|)
      invariant forall k :: k in r <==> k in ks[..i] && k < |columns| && columns[k].p.z[row] == bit
    {
      assert ks[..i + 1] == ks[..i] + [ks[i]];
      if columns[ks[i]].p.z[row] == bit {
        r := r + [ks[i]];
      }
      i := i + 1;
    }
    assert ks[..i] == ks;
  }

  method FilterOut(s: seq<nat>, q: nat) returns (r: seq<nat>)
    ensures forall x :: x in r <==> x in s && x != q
    ensures |r| <= |s| && (q in s ==> |r| < |s|)
  {
    r := [];
    var i := 0;
    while i < |s|
      invariant i <= |s| && forall x :: x in r <==> x in s[..i] && x != q
      invariant |r| <= i && (q in s[..i] ==> |r| < i)
    {
      assert s[..i + 1] == s[..i] + [s[i]];
      if s[i] != q {
        r := r + [s[i]];
      }
      i := i + 1;
    }
    assert s[..i] == s;
  }

  // ---------------------------------------------------------------- moving bits with CX

  ghost predicate Ascending(s: seq<nat>, order: seq<nat>)
    requires Below(s, |order|)
  {
    forall i, j :: 0 <= i < j < |s| ==> order[s[i]] < order[s[j]]
  }

  /** The controls sorted by their place in the order. */
  method SortByOrder(s: seq<nat>, order: seq<nat>) returns (r: seq<nat>)
    requires Distinct(s) && Distinct(order) && Below(s, |order|)
    ensures |r| == |s| && (forall x :: x in r <==> x in s)
    ensures Below(r, |order|) && Ascending(r, order)
  {
    hide Ascending;
    r := [];
    var i := 0;
    assert Ascending([], order) by { EmptyAscends(order); }
    while i < |s|
      invariant i <= |s| && |r| == i && (forall x :: x in r <==> x in s[..i])
      invariant Below(r, |order|) && Ascending(r, order)
    {
      assert s[..i + 1] == s[..i] + [s[i]];
      assert s[i] !in s[..i];
      r := InsertByOrder(r, s[i], order);
      i := i + 1;
    }
    assert s[..i] == s;
  }

  lemma EmptyAscends(order: seq<nat>)
    ensures Ascending([], order)
  {
  }

  method InsertByOrder(s: seq<nat>, x: nat, order: seq<nat>) returns (r: seq<nat>)
    requires Distinct(order) && x < |order| && x !in s
    requires Below(s, |order|) && Ascending(s, order)
    ensures |r| == |s| + 1 && (forall y :: y in r <==> y in s || y == x)
    ensures Below(r, |order|) && Ascending(r, order)
  {
    var k := 0;
    while k < |s| && order[s[k]] < order[x]
      invariant k <= |s| && forall j :: 0 <= j < k ==> order[s[j]] < order[x]
    {
      k := k + 1;
    }
    r := s[..k] + [x] + s[k..];
    assert s == s[..k] + s[k..];
    forall j | k <= j < |s|
      ensures order[x] < order[s[j]]
    {
      assert s[k] in s && order[s[k]] <= order[s[j]];
    }
    InsertedAscends(s, k, x, order);
  }

  lemma InsertedAscends(s: seq<nat>, k: nat, x: nat, order: seq<nat>)
    requires x < |order| && Below(s, |order|) && Ascending(s, order) && k <= |s|
    requires forall j :: 0 <= j < k ==> order[s[j]] < order[x]
    requires forall j :: k <= j < |s| ==> order[x] < order[s[j]]
    ensures var r := s[..k] + [x] + s[k..]; Below(r, |order|) && Ascending(r, order)
  {
    var r := s[..k] + [x] + s[k..];
    forall i | 0 <= i < |r|
      ensures r[i] == if i < k then s[i] else if i == k then x else s[i - 1]
    {
    }
  }

  /** The chosen columns keep their bits except in the rows done, which are now clear. */
  ghost predicate Cleared(before: seq<seq<bool>>, after: seq<seq<bool>>, ks: seq<nat>, done: set<nat>, n: nat) {
    && |before| == |after| && ColumnsSized(before, n) && ColumnsSized(after, n)
    && forall k: nat :: k in ks && k < |before| ==> ColumnCleared(Column(before, k), Column(after, k), done)
  }

  ghost predicate ColumnCleared(u: seq<bool>, v: seq<bool>, done: set<nat>) {
    |u| == |v| && forall b: nat :: b < |u| ==> v[b] == (u[b] && b !in done)
  }

  lemma ClearOneMore(before: seq<seq<bool>>, now: seq<seq<bool>>, after: seq<seq<bool>>, ks: seq<nat>, done: set<nat>,
                     frozen: set<nat>, c: nat, t: nat, n: nat)
    requires Cleared(before, now, ks, done, n) && CXOnColumns(now, after, frozen, c, t, n)
    requires c != t && c !in done && t !in done && SetThroughout(before, ks, c) && SetThroughout(before, ks, t)
    requires forall k :: k in ks ==> k !in frozen
    ensures Cleared(before, after, ks, done + {c}, n)
  {
    forall k: nat | k in ks && k < |before|
      ensures ColumnCleared(Column(before, k), Column(after, k), done + {c})
    {
      assert Column(before, k)[c] && Column(before, k)[t];
      assert Column(after, k) == AddBit(Column(now, k), c, t);
    }
  }

  lemma StackKept(stack: seq<Elem>, columns: seq<seq<bool>>, columns': seq<seq<bool>>, frozen: set<nat>, order: seq<nat>,
                  hot: Target, c: nat, t: nat)
    requires StackOk(stack, columns, frozen, order, hot) && CXOnColumns(columns, columns', frozen, c, t, |order|)
    requires hot.Qubit? && c != hot.q && c != t && (t == hot.q || order[c] < order[t])
    ensures StackOk(stack, columns', frozen, order, hot)
  {
    hide ElemOk, CXOnColumns;
    forall i | 0 <= i < |stack|
      ensures ElemOk(stack[i], columns', order, hot)
    {
      ElemKept(stack[i], columns, columns', frozen, order, hot, c, t);
    }
    assert |columns'| == |columns| by { SameCount(columns, columns', frozen, c, t, |order|); }
  }

  lemma SameCount(columns: seq<seq<bool>>, columns': seq<seq<bool>>, frozen: set<nat>, c: nat, t: nat, n: nat)
    requires CXOnColumns(columns, columns', frozen, c, t, n)
    ensures |columns'| == |columns|
  {
  }

  // ---------------------------------------------------------------- one element of the stack

  /** What one run of CX gates may assume and keeps: the state, and the stack with the element in hand on top. */
  ghost predicate Working(s: Synthesizer, stack: seq<Elem>, order: seq<nat>, hot: Target)
    reads s, s.final
  {
    && s.Valid() && |order| == s.n && Distinct(order) && stack != []
    && StackOk(stack, ZBits(s.columns), s.frozen, order, hot)
  }

  ghost function TopColumns(stack: seq<Elem>): seq<nat>
    requires stack != []
  {
    stack[|stack| - 1].rotations
  }

  method MoveBit(s: Synthesizer, c: nat, t: nat, ghost stack: seq<Elem>, ghost order: seq<nat>, ghost hot: Target,
                 ghost before: seq<seq<bool>>, ghost done: set<nat>)
    requires Working(s, stack, order, hot) && c < s.n && t < s.n && c != t
    requires hot.Qubit? && c != hot.q && (t == hot.q || order[c] < order[t])
    requires Cleared(before, ZBits(s.columns), TopColumns(stack), done, s.n)
    requires c !in done && t !in done && SetThroughout(before, TopColumns(stack), c) && SetThroughout(before, TopColumns(stack), t)
    modifies s, s.final
    ensures Working(s, stack, order, hot) && s.frozen == old(s.frozen)
    ensures s.circuit == old(s.circuit) + [Do(Op(OpCX, c, t))] && s.ks == old(s.ks) + [Op(OpCX, c, t)]
    ensures Cleared(before, ZBits(s.columns), TopColumns(stack), done + {c}, s.n)
  {
    hide Cleared, SetThroughout, ElemOk, CXOnColumns, Synthesizer.Valid;
    s.ApplyCX(c, t);
    StackKept(stack, ZBits(old(s.columns)), ZBits(s.columns), s.frozen, order, hot, c, t);
    ClearOneMore(before, ZBits(old(s.columns)), ZBits(s.columns), TopColumns(stack), done, s.frozen, c, t, s.n);
  }

  lemma MembersNext(s: seq<nat>, i: nat)
    requires Distinct(s) && i < |s|
    ensures s[i] !in Members(s[..i]) && Members(s[..i + 1]) == Members(s[..i]) + {s[i]}
    ensures i + 1 < |s| ==> s[i + 1] !in Members(s[..i]) && s[i + 1] != s[i]
  {
    assert s[..i + 1] == s[..i] + [s[i]];
  }

  /** As a star, every control goes onto the target; as a staircase, every control goes onto the next one in the order,
      and the last one onto the target. */
  ghost predicate ShapedAs(mode: Mode, more: seq<Op>, ctrls: seq<nat>, targ: nat, order: seq<nat>) {
    match mode
    case Star => CXOnto(more, ctrls, targ)
    case Staircase => exists sorted :: StairsOf(more, ctrls, sorted, targ, order)
  }

  ghost predicate StairsOf(more: seq<Op>, ctrls: seq<nat>, sorted: seq<nat>, targ: nat, order: seq<nat>) {
    && |sorted| == |ctrls| && (forall x :: x in sorted <==> x in ctrls) && Below(sorted, |order|) && Ascending(sorted, order)
    && CXAlong(more, sorted + [targ])
  }

  /** Clears the control rows of the element on top of the stack. */
  method ApplyCXs(s: Synthesizer, ctrls: seq<nat>, targ: nat, mode: Mode, order: seq<nat>, ghost stack: seq<Elem>) returns (ghost more: seq<Op>)
    requires Working(s, stack, order, Qubit(targ)) && targ < s.n
    requires Distinct(ctrls) && targ !in ctrls && Below(ctrls, s.n) && SetThroughout(ZBits(s.columns), TopColumns(stack), targ)
    requires forall i :: 0 <= i < |ctrls| ==> SetThroughout(ZBits(s.columns), TopColumns(stack), ctrls[i])
    modifies s, s.final
    ensures Working(s, stack, order, Qubit(targ)) && s.frozen == old(s.frozen)
    ensures Cleared(old(ZBits(s.columns)), ZBits(s.columns), TopColumns(stack), Members(ctrls), s.n)
    ensures s.circuit == old(s.circuit) + Gates(more) && s.ks == old(s.ks) + more && ShapedAs(mode, more, ctrls, targ, order)
  {
    hide Synthesizer.Valid, StackOk, SetThroughout, Cleared, ReplaysAs, IsCircuit, Same, Ascending, CXOnto, CXAlong;
    match mode {
      case Star => more := ApplyStar(s, ctrls, targ, order, stack);
      case Staircase =>
        var sorted := SortByOrder(ctrls, order);
        assert Members(sorted) == Members(ctrls);
        assert forall i :: 0 <= i < |sorted| ==> sorted[i] in ctrls;
        more := ApplyStaircase(s, sorted, targ, order, stack);
        assert StairsOf(more, ctrls, sorted, targ, order);
    }
  }

  lemma NothingCleared(columns: seq<seq<bool>>, ks: seq<nat>, n: nat)
    requires ColumnsSized(columns, n)
    ensures Cleared(columns, columns, ks, {}, n)
  {
  }

  method ApplyStar(s: Synthesizer, ctrls: seq<nat>, targ: nat, ghost order: seq<nat>, ghost stack: seq<Elem>) returns (ghost more: seq<Op>)
    requires Working(s, stack, order, Qubit(targ)) && targ < s.n
    requires Distinct(ctrls) && targ !in ctrls && Below(ctrls, s.n) && SetThroughout(ZBits(s.columns), TopColumns(stack), targ)
    requires forall i :: 0 <= i < |ctrls| ==> SetThroughout(ZBits(s.columns), TopColumns(stack), ctrls[i])
    modifies s, s.final
    ensures Working(s, stack, order, Qubit(targ)) && s.frozen == old(s.frozen)
    ensures Cleared(old(ZBits(s.columns)), ZBits(s.columns), TopColumns(stack), Members(ctrls), s.n)
    ensures s.circuit == old(s.circuit) + Gates(more) && s.ks == old(s.ks) + more && CXOnto(more, ctrls, targ)
  {
    hide Cleared, SetThroughout, Distinct, Synthesizer.Valid;
    ghost var before := ZBits(s.columns);
    WorkingSized(s, stack, order, Qubit(targ));
    NothingCleared(before, TopColumns(stack), s.n);
    assert Members(ctrls[..0]) == {};
    more := [];
    var i := 0;
    while i < |ctrls|
      invariant i <= |ctrls| && Working(s, stack, order, Qubit(targ)) && s.frozen == old(s.frozen)
      invariant Cleared(before, ZBits(s.columns), TopColumns(stack), Members(ctrls[..i]), s.n)
      invariant s.circuit == old(s.circuit) + Gates(more) && s.ks == old(s.ks) + more && CXOnto(more, ctrls[..i], targ)
    {
      hide Working;
      MembersNext(ctrls, i);
      assert ctrls[i] in ctrls;
      MoveBit(s, ctrls[i], targ, stack, order, Qubit(targ), before, Members(ctrls[..i]));
      GatesMore(more, Op(OpCX, ctrls[i], targ));
      more := more + [Op(OpCX, ctrls[i], targ)];
      i := i + 1;
    }
    assert ctrls[..i] == ctrls;
  }

  lemma WorkingSized(s: Synthesizer, stack: seq<Elem>, order: seq<nat>, hot: Target)
    requires Working(s, stack, order, hot)
    ensures ColumnsSized(ZBits(s.columns), s.n)
  {
  }

  /** Each control onto the next one in the order, the last one onto the target. */
  method ApplyStaircase(s: Synthesizer, ctrls: seq<nat>, targ: nat, order: seq<nat>, ghost stack: seq<Elem>) returns (ghost more: seq<Op>)
    requires Working(s, stack, order, Qubit(targ)) && targ < s.n
    requires targ !in ctrls && Below(ctrls, s.n) && SetThroughout(ZBits(s.columns), TopColumns(stack), targ)
    requires Ascending(ctrls, order)
    requires forall i :: 0 <= i < |ctrls| ==> SetThroughout(ZBits(s.columns), TopColumns(stack), ctrls[i])
    modifies s, s.final
    ensures Working(s, stack, order, Qubit(targ)) && s.frozen == old(s.frozen)
    ensures Cleared(old(ZBits(s.columns)), ZBits(s.columns), TopColumns(stack), Members(ctrls), s.n)
    ensures s.circuit == old(s.circuit) + Gates(more) && s.ks == old(s.ks) + more && CXAlong(more, ctrls + [targ])
  {
    hide Cleared, SetThroughout, Synthesizer.Valid;
    ghost var before := ZBits(s.columns);
    WorkingSized(s, stack, order, Qubit(targ));
    NothingCleared(before, TopColumns(stack), s.n);
    assert Members(ctrls[..0]) == {};
    AscendingIsDistinct(ctrls, order);
    more := [];
    var i := 0;
    while i + 1 < |ctrls|
      invariant i <= |ctrls| && (ctrls == [] || i < |ctrls|)
      invariant Working(s, stack, order, Qubit(targ)) && s.frozen == old(s.frozen)
      invariant Cleared(before, ZBits(s.columns), TopColumns(stack), Members(ctrls[..i]), s.n)
      invariant s.circuit == old(s.circuit) + Gates(more) && s.ks == old(s.ks) + more && CXAlong(more, (ctrls + [targ])[..i + 1])
    {
      hide Working, Distinct;
      MembersNext(ctrls, i);
      assert ctrls[i] in ctrls && order[ctrls[i]] < order[ctrls[i + 1]];
      MoveBit(s, ctrls[i], ctrls[i + 1], stack, order, Qubit(targ), before, Members(ctrls[..i]));
      GatesMore(more, Op(OpCX, ctrls[i], ctrls[i + 1]));
      more := more + [Op(OpCX, ctrls[i], ctrls[i + 1])];
      i := i + 1;
    }
    if ctrls != [] {
      hide Working, Distinct;
      MembersNext(ctrls, i);
      assert ctrls[i] in ctrls;
      MoveBit(s, ctrls[i], targ, stack, order, Qubit(targ), before, Members(ctrls[..i]));
      GatesMore(more, Op(OpCX, ctrls[i], targ));
      more := more + [Op(OpCX, ctrls[i], targ)];
      assert ctrls[..i + 1] == ctrls;
    }
  }

  lemma GatesMore(ops: seq<Op>, op: Op)
    ensures Gates(ops + [op]) == Gates(ops) + [Do(op)]
  {
  }

  lemma AscendingIsDistinct(s: seq<nat>, order: seq<nat>)
    requires Below(s, |order|) && Ascending(s, order)
    ensures Distinct(s)
  {
    forall i, j | 0 <= i < j < |s|
      ensures s[i] != s[j]
    {
      assert order[s[i]] < order[s[j]];
    }
  }

  // ---------------------------------------------------------------- what a step does

  /** What is left to do, and the CX gates and the circuit so far. */
  datatype Stage = Stage(stack: seq<Elem>, ks: seq<Op>, circuit: seq<Item>)

  /** The rotation's bit at q after the CX gates. */
  ghost predicate BitNow(rs: seq<Rotation>, ks: seq<Op>, k: nat, q: nat) {
    k < |rs| && rs[k].p.Sized(|rs[k].p.z|) && q < |rs[k].p.z| && ApplyAll(ks, rs[k].p).z[q]
  }

  ghost predicate AllNow(rs: seq<Rotation>, ks: seq<Op>, rotations: seq<nat>, q: nat) {
    forall k :: k in rotations ==> BitNow(rs, ks, k, q)
  }

  /** How many of the rotations have the bit. */
  ghost function ShareNow(rs: seq<Rotation>, ks: seq<Op>, rotations: seq<nat>, q: nat): (share: nat)
    ensures share <= |rotations|
  {
    if rotations == [] then 0
    else ShareNow(rs, ks, rotations[..|rotations| - 1], q) + if BitNow(rs, ks, rotations[|rotations| - 1], q) then 1 else 0
  }

  ghost function LargerNow(rs: seq<Rotation>, ks: seq<Op>, rotations: seq<nat>, q: nat): nat {
    Max(ShareNow(rs, ks, rotations, q), |rotations| - ShareNow(rs, ks, rotations, q))
  }

  /** The CX gates bring the controls, which are the qubits other than the target where all rotations have a bit, onto
      the target; without a target there are none. */
  ghost predicate GatheredBy(mode: Mode, order: seq<nat>, rs: seq<Rotation>, n: nat, e: Elem, ks: seq<Op>, moved: seq<Op>) {
    if e.target.NoTarget? then moved == []
    else exists ctrls: seq<nat> :: ControlsOf(rs, n, e, ks, ctrls) && ShapedAs(mode, moved, ctrls, e.target.q, order)
  }

  ghost predicate ControlsOf(rs: seq<Rotation>, n: nat, e: Elem, ks: seq<Op>, ctrls: seq<nat>)
    requires e.target.Qubit?
  {
    Distinct(ctrls) && forall q: nat :: q in ctrls <==> q < n && q != e.target.q && AllNow(rs, ks, e.rotations, q)
  }

  /** The rotations without and with a bit at one of the qubits left, for which the larger side is largest. */
  ghost predicate Branches(rs: seq<Rotation>, e: Elem, ks: seq<Op>, zero: Elem, one: Elem, row: nat) {
    && row in e.qubits && (forall q :: q in e.qubits ==> LargerNow(rs, ks, e.rotations, q) <= LargerNow(rs, ks, e.rotations, row))
    && (forall k :: k in zero.rotations <==> k in e.rotations && !BitNow(rs, ks, k, row))
    && (forall k :: k in one.rotations <==> k in e.rotations && BitNow(rs, ks, k, row))
    && (forall q :: q in zero.qubits <==> q in e.qubits && q != row) && one.qubits == zero.qubits
    && zero.target == e.target && one.target == if e.target.NoTarget? then Qubit(row) else e.target
  }

  /** The phase gates of the rotations, on the target. */
  function PhaseGates(rs: seq<Rotation>, picked: seq<nat>, n: nat, targ: nat): (w: seq<Item>)
    requires Below(picked, |rs|)
  {
    seq(|picked|, i requires 0 <= i < |picked| => Rotate(ZAt(n, targ), rs[picked[i]].phase))
  }

  /** Each rotation once. */
  ghost predicate EmittedBy(rs: seq<Rotation>, n: nat, e: Elem, more: seq<Item>) {
    e.target.Qubit? && exists picked: seq<nat> ::
      Below(picked, |rs|) && Distinct(picked) && Members(picked) == Members(e.rotations) && more == PhaseGates(rs, picked, n, e.target.q)
  }

  /** One step: the element on top goes, by its phase gates if no qubit is left, and into two branches otherwise. */
  ghost predicate NextStage(mode: Mode, order: seq<nat>, rs: seq<Rotation>, n: nat, a: Stage, b: Stage) {
    && a.stack != []
    && var (rest, e) := (a.stack[..|a.stack| - 1], a.stack[|a.stack| - 1]);
       if e.rotations == [] then b == Stage(rest, a.ks, a.circuit)
       else exists moved: seq<Op> :: GatheredBy(mode, order, rs, n, e, a.ks, moved) && AfterGathering(rs, n, a, b, rest, e, moved)
  }

  ghost predicate AfterGathering(rs: seq<Rotation>, n: nat, a: Stage, b: Stage, rest: seq<Elem>, e: Elem, moved: seq<Op>) {
    && b.ks == a.ks + moved
    && if e.qubits == [] then
         b.stack == rest && exists more :: EmittedBy(rs, n, e, more) && b.circuit == a.circuit + Gates(moved) + more
       else
         b.circuit == a.circuit + Gates(moved)
         && exists zero, one, row: nat :: Branches(rs, e, b.ks, zero, one, row) && b.stack == rest + [zero] + [one]
  }

  /** Step by step from all rotations and qubits to an empty stack, and then CX gates that close the circuit. */
  ghost predicate BySteps(mode: Mode, order: seq<nat>, rs: seq<Rotation>, n: nat, gates: seq<Item>) {
    exists stages: seq<Stage>, us :: Stepped(mode, order, rs, n, stages) && stages[|stages| - 1].stack == []
                                     && CXOnly(us, n) && gates == stages[|stages| - 1].circuit + Gates(us)
  }

  ghost predicate Stepped(mode: Mode, order: seq<nat>, rs: seq<Rotation>, n: nat, stages: seq<Stage>) {
    && stages != [] && stages[0] == Stage([Elem(Iota(|rs|), Iota(n), NoTarget)], [], [])
    && forall i :: 0 <= i < |stages| - 1 ==> NextStage(mode, order, rs, n, stages[i], stages[i + 1])
  }

  lemma SteppedMore(mode: Mode, order: seq<nat>, rs: seq<Rotation>, n: nat, stages: seq<Stage>, b: Stage)
    requires Stepped(mode, order, rs, n, stages) && NextStage(mode, order, rs, n, stages[|stages| - 1], b)
    ensures Stepped(mode, order, rs, n, stages + [b])
  {
    hide NextStage;
  }

  /** The columns hold the bits of the rotations after the CX gates. */
  lemma BitsAreNow(s: Synthesizer, k: nat, q: nat)
    requires s.Valid() && k < |s.rs| && k !in s.frozen && q < s.n
    ensures |s.columns[k].p.z| == s.n && (BitNow(s.rs, s.ks, k, q) <==> s.columns[k].p.z[q])
  {
    hide Synthesizer.Emitted, ApplyAll;
    assert Tracks(s.columns[k], s.rs[k], s.ks);
  }

  lemma {:induction false} SharesAreNow(s: Synthesizer, rotations: seq<nat>, q: nat)
    requires s.Valid() && OnQubits(s.columns, s.n) && Below(rotations, |s.columns|) && |s.columns| == |s.rs| && q < s.n
    requires forall k :: k in rotations ==> k !in s.frozen
    ensures Ones(s.columns, rotations, q, s.n) == ShareNow(s.rs, s.ks, rotations, q)
    decreases |rotations|
  {
    hide Synthesizer.Valid, BitNow;
    if rotations != [] {
      var m := |rotations| - 1;
      assert rotations[m] in rotations;
      BitsAreNow(s, rotations[m], q);
      SharesAreNow(s, rotations[..m], q);
    }
  }

  lemma TopNotFrozen(s: Synthesizer, stack: seq<Elem>, order: seq<nat>, hot: Target)
    requires Working(s, stack, order, hot)
    ensures s.Valid() && |s.columns| == |s.rs| && forall k :: k in TopColumns(stack) ==> k < |s.rs| && k !in s.frozen
  {
    hide Synthesizer.Emitted;
    assert ElemOk(stack[|stack| - 1], ZBits(s.columns), order, hot);
  }

  lemma SameAt(s: Synthesizer, rotations: seq<nat>, q: nat)
    requires s.Valid() && |s.columns| == |s.rs| && (forall k :: k in rotations ==> k < |s.rs| && k !in s.frozen) && q < s.n
    ensures SetThroughout(ZBits(s.columns), rotations, q) <==> AllNow(s.rs, s.ks, rotations, q)
  {
    hide Synthesizer.Valid, BitNow;
    forall k | k in rotations
      ensures k < |s.columns| && q < |s.columns[k].p.z| && (BitNow(s.rs, s.ks, k, q) <==> ZBits(s.columns)[k][q])
    {
      BitsAreNow(s, k, q);
    }
  }

  lemma SameControls(s: Synthesizer, stack: seq<Elem>, order: seq<nat>, hot: Target, e: Elem, ctrls: seq<nat>)
    requires Working(s, stack, order, hot) && TopColumns(stack) == e.rotations && e.target.Qubit? && Distinct(ctrls)
    requires forall b: nat :: b in ctrls <==> b < s.n && b != e.target.q && SetThroughout(ZBits(s.columns), e.rotations, b)
    ensures ControlsOf(s.rs, s.n, e, s.ks, ctrls)
  {
    hide Working, Synthesizer.Valid, BitNow, SetThroughout, AllNow, Distinct;
    TopNotFrozen(s, stack, order, hot);
    forall q: nat | q < s.n
      ensures SetThroughout(ZBits(s.columns), e.rotations, q) <==> AllNow(s.rs, s.ks, e.rotations, q)
    {
      SameAt(s, e.rotations, q);
    }
  }

  lemma SameSides(s: Synthesizer, e: Elem, row: nat)
    requires s.Valid() && |s.columns| == |s.rs| && (forall k :: k in e.rotations ==> k !in s.frozen) && row < s.n
    requires OnQubits(s.columns, s.n) && Below(e.rotations, |s.columns|) && Below(e.qubits, s.n)
    requires forall i :: 0 <= i < |e.qubits| ==> LargerSide(s.columns, e.rotations, e.qubits[i], s.n) <= LargerSide(s.columns, e.rotations, row, s.n)
    ensures forall q :: q in e.qubits ==> LargerNow(s.rs, s.ks, e.rotations, q) <= LargerNow(s.rs, s.ks, e.rotations, row)
  {
    hide Synthesizer.Valid, BitNow, Ones, ShareNow;
    SharesAreNow(s, e.rotations, row);
    forall q | q in e.qubits
      ensures LargerNow(s.rs, s.ks, e.rotations, q) <= LargerNow(s.rs, s.ks, e.rotations, row)
    {
      var i :| 0 <= i < |e.qubits| && e.qubits[i] == q;
      SharesAreNow(s, e.rotations, q);
    }
  }

  lemma SameHalves(s: Synthesizer, e: Elem, zero: Elem, one: Elem, row: nat)
    requires s.Valid() && |s.columns| == |s.rs| && (forall k :: k in e.rotations ==> k < |s.rs| && k !in s.frozen)
    requires Halves(e, zero, one, ZBits(s.columns), row, s.n)
    ensures (forall k :: k in zero.rotations <==> k in e.rotations && !BitNow(s.rs, s.ks, k, row))
    ensures (forall k :: k in one.rotations <==> k in e.rotations && BitNow(s.rs, s.ks, k, row))
  {
    hide Synthesizer.Valid, BitNow;
    forall k | k in e.rotations
      ensures k < |s.columns| && (BitNow(s.rs, s.ks, k, row) <==> Column(ZBits(s.columns), k)[row])
    {
      BitsAreNow(s, k, row);
    }
  }

  /** What splitting an element amounts to. */
  lemma SplitBranches(s: Synthesizer, stack: seq<Elem>, order: seq<nat>, hot: Target, e: Elem, zero: Elem, one: Elem, row: nat)
    requires Working(s, stack, order, hot) && TopColumns(stack) == e.rotations && Halves(e, zero, one, ZBits(s.columns), row, s.n)
    requires OnQubits(s.columns, s.n) && Below(e.rotations, |s.columns|) && Below(e.qubits, s.n)
    requires forall i :: 0 <= i < |e.qubits| ==> LargerSide(s.columns, e.rotations, e.qubits[i], s.n) <= LargerSide(s.columns, e.rotations, row, s.n)
    ensures Branches(s.rs, e, s.ks, zero, one, row)
  {
    hide Working, Synthesizer.Valid, BitNow, LargerSide, LargerNow;
    TopNotFrozen(s, stack, order, hot);
    SameHalves(s, e, zero, one, row);
    SameSides(s, e, row);
  }

  // ---------------------------------------------------------------- leaves

  /** With no qubit left and the control rows cleared, every column is Z on the target. */
  lemma LeafColumns(e: Elem, before: seq<seq<bool>>, after: seq<seq<bool>>, order: seq<nat>, ctrls: seq<nat>)
    requires e.target.Qubit? && ElemOk(e, after, order, e.target) && e.qubits == []
    requires Cleared(before, after, e.rotations, Members(ctrls), |order|)
    requires forall b: nat :: b in ctrls <==> b < |order| && b != e.target.q && SetThroughout(before, e.rotations, b)
    ensures forall k :: k in e.rotations ==> Column(after, k) == Unit(|order|, e.target.q)
  {
    hide Agree;
    var n, t := |order|, e.target.q;
    forall k | k in e.rotations
      ensures Column(after, k) == Unit(n, t)
    {
      forall b: nat | b < n
        ensures Column(after, k)[b] == (b == t)
      {
        if b != t && b !in ctrls {
          var j :| j in e.rotations && !Column(before, j)[b];
          AgreeAtLeaf(Column(after, j), Column(after, k), order);
        }
      }
    }
  }

  /** Without a target the columns of a leaf are empty. */
  lemma BareLeaf(e: Elem, columns: seq<seq<bool>>, order: seq<nat>, hot: Target)
    requires ElemOk(e, columns, order, hot) && e.qubits == [] && e.target.NoTarget?
    ensures forall k :: k in e.rotations ==> Column(columns, k) == Zeros(|order|)
  {
    hide Agree;
    forall k | k in e.rotations
      ensures Column(columns, k) == Zeros(|order|)
    {
      AgreeAtLeaf(Column(columns, k), Zeros(|order|), order);
    }
  }

  lemma MembersGrow(s: seq<nat>, i: nat)
    requires i < |s|
    ensures Members(s[..0]) == {} && Members(s[..|s|]) == Members(s)
    ensures Members(s[..i + 1]) == Members(s[..i]) + {s[i]}
  {
    assert s[..i + 1] == s[..i] + [s[i]] && s[..|s|] == s;
  }

  method EmitAll(s: Synthesizer, ks: seq<nat>, target: Target) returns (ok: bool, ghost picked: seq<nat>)
    requires s.Valid() && Below(ks, |s.rs|) && (target.Qubit? ==> target.q < s.n)
    requires forall i :: 0 <= i < |ks| ==>
               s.columns[ks[i]].p.z == if target.Qubit? then Unit(s.n, target.q) else Zeros(s.n)
    modifies s`frozen, s`circuit, s`emitted
    ensures s.Valid() && (ok ==> s.frozen == old(s.frozen) + Members(ks))
    ensures !ok ==> !NoIdentities(s.rs)
    ensures Below(picked, |s.rs|) && Distinct(picked) && (ok ==> Members(picked) == Members(ks) - old(s.frozen))
    ensures if target.Qubit? then s.circuit == old(s.circuit) + PhaseGates(s.rs, picked, s.n, target.q) else picked == []
  {
    hide NoIdentities, Synthesizer.Valid, PhaseGates, Distinct;
    var i := 0;
    picked := [];
    NothingPicked(s.rs, s.n, target);
    assert Members(ks[..0]) == {};
    while i < |ks|
      invariant i <= |ks| && s.Valid() && s.frozen == old(s.frozen) + Members(ks[..i])
      invariant Below(picked, |s.rs|) && Distinct(picked) && Members(picked) == Members(ks[..i]) - old(s.frozen)
      invariant if target.Qubit? then s.circuit == old(s.circuit) + PhaseGates(s.rs, picked, s.n, target.q) else picked == []
    {
      MembersGrow(ks, i);
      if ks[i] !in s.frozen {
        if target.NoTarget? {
          IdentityFound(s, ks[i]);
          ok := false;
          return;
        }
        s.Emit(ks[i], target.q);
        assert ks[i] !in Members(picked);
        OnePicked(s.rs, s.n, picked, ks[i], target.q);
        picked := picked + [ks[i]];
      }
      i := i + 1;
    }
    assert ks[..i] == ks;
    ok := true;
  }

  lemma NothingPicked(rs: seq<Rotation>, n: nat, target: Target)
    ensures Distinct([]) && Members([]) == {} && (target.Qubit? ==> PhaseGates(rs, [], n, target.q) == [])
  {
  }

  lemma OnePicked(rs: seq<Rotation>, n: nat, picked: seq<nat>, k: nat, targ: nat)
    requires Below(picked, |rs|) && Distinct(picked) && k < |rs| && k !in Members(picked)
    ensures Below(picked + [k], |rs|) && Distinct(picked + [k]) && Members(picked + [k]) == Members(picked) + {k}
    ensures PhaseGates(rs, picked + [k], n, targ) == PhaseGates(rs, picked, n, targ) + [Rotate(ZAt(n, targ), rs[k].phase)]
  {
    DistinctOneMore(picked, k);
  }

  lemma IdentityFound(s: Synthesizer, k: nat)
    requires s.Valid() && k < |s.rs| && k !in s.frozen && s.columns[k].p.z == Zeros(s.n)
    ensures !NoIdentities(s.rs)
  {
    hide IsCircuit, Same;
    CXOnlyWellFormed(s.ks, s.n);
    EmptyColumn(s.columns[k], s.rs[k], s.ks, s.n);
  }

  // ---------------------------------------------------------------- the synthesis

  /** The columns of a leaf are what its phase gates need. */
  ghost predicate LeafReady(s: Synthesizer, e: Elem)
    reads s
  {
    && Below(e.rotations, |s.rs|) && (e.target.Qubit? ==> e.target.q < s.n)
    && |s.columns| == |s.rs|
    && forall i :: 0 <= i < |e.rotations| ==>
         s.columns[e.rotations[i]].p.z == if e.target.Qubit? then Unit(s.n, e.target.q) else Zeros(s.n)
  }

  /** What the stack's invariant says of the element in hand. */
  lemma TopElem(s: Synthesizer, rest: seq<Elem>, e: Elem, order: seq<nat>, hot: Target)
    requires Working(s, rest + [e], order, hot)
    ensures ElemOk(e, ZBits(s.columns), order, hot) && TopColumns(rest + [e]) == e.rotations
    ensures Below(e.rotations, |s.columns|) && Below(e.qubits, s.n) && OnQubits(s.columns, s.n)
    ensures e.target.Qubit? ==> e.target == hot && hot.q < s.n && SetThroughout(ZBits(s.columns), e.rotations, hot.q)
    ensures e.target.NoTarget? ==> rest == []
  {
    hide Synthesizer.Emitted, ReplaysAs, IsCircuit, Same;
    assert (rest + [e])[|rest|] == e;
    assert ElemOk((rest + [e])[|rest|], ZBits(s.columns), order, hot);
    assert forall i :: 0 <= i < |e.rotations| ==> e.rotations[i] in e.rotations;
    assert forall i :: 0 <= i < |e.qubits| ==> e.qubits[i] in e.qubits;
  }

  lemma SetRows(ctrls: seq<nat>, columns: seq<seq<bool>>, ks: seq<nat>, targ: nat, n: nat)
    requires forall b: nat :: b in ctrls <==> b < n && b != targ && SetThroughout(columns, ks, b)
    ensures targ !in ctrls && Below(ctrls, n) && forall i :: 0 <= i < |ctrls| ==> SetThroughout(columns, ks, ctrls[i])
  {
    forall i | 0 <= i < |ctrls|
      ensures ctrls[i] < n && SetThroughout(columns, ks, ctrls[i])
    {
      assert ctrls[i] in ctrls;
    }
  }

  /** Clears the control rows of the element in hand, if it has a target. */
  method GatherOnTarget(s: Synthesizer, e: Elem, mode: Mode, order: seq<nat>, ghost rest: seq<Elem>, ghost hot: Target)
    returns (ghost moved: seq<Op>)
    requires Working(s, rest + [e], order, hot)
    modifies s, s.final
    ensures Working(s, rest + [e], order, hot) && s.frozen == old(s.frozen)
    ensures e.qubits == [] ==> LeafReady(s, e)
    ensures s.circuit == old(s.circuit) + Gates(moved) && s.ks == old(s.ks) + moved
    ensures GatheredBy(mode, order, s.rs, s.n, e, old(s.ks), moved)
  {
    hide Working, SetThroughout, Cleared, AllNow, ShapedAs;
    moved := [];
    TopElem(s, rest, e, order, hot);
    WorkingState(s, rest + [e], order, hot);
    if e.target.Qubit? {
      var ctrls := ControlRows(s.columns, e.rotations, e.target.q, s.n);
      SetRows(ctrls, ZBits(s.columns), e.rotations, e.target.q, s.n);
      SameControls(s, rest + [e], order, hot, e, ctrls);
      moved := ApplyCXs(s, ctrls, e.target.q, mode, order, rest + [e]);
      TopElem(s, rest, e, order, hot);
      WorkingState(s, rest + [e], order, hot);
      if e.qubits == [] {
        LeafColumns(e, old(ZBits(s.columns)), ZBits(s.columns), order, ctrls);
        ReadyLeaf(s, e);
      }
    } else if e.qubits == [] {
      BareLeaf(e, ZBits(s.columns), order, hot);
      ReadyLeaf(s, e);
    }
  }

  lemma WorkingState(s: Synthesizer, stack: seq<Elem>, order: seq<nat>, hot: Target)
    requires Working(s, stack, order, hot)
    ensures |s.columns| == |s.rs| && |order| == s.n
  {
  }

  lemma ReadyLeaf(s: Synthesizer, e: Elem)
    requires |s.columns| == |s.rs| && Below(e.rotations, |s.rs|) && (e.target.Qubit? ==> e.target.q < s.n)
    requires forall k :: k in e.rotations && k < |s.columns| ==>
               Column(ZBits(s.columns), k) == if e.target.Qubit? then Unit(s.n, e.target.q) else Zeros(s.n)
    ensures LeafReady(s, e)
  {
    forall i | 0 <= i < |e.rotations|
      ensures s.columns[e.rotations[i]].p.z == if e.target.Qubit? then Unit(s.n, e.target.q) else Zeros(s.n)
    {
      assert e.rotations[i] in e.rotations;
      assert Column(ZBits(s.columns), e.rotations[i]) == s.columns[e.rotations[i]].p.z;
    }
  }

  /** The halves of an element on its cofactor row. */
  method Split(s: Synthesizer, e: Elem) returns (zero: Elem, one: Elem, ghost row: nat)
    requires ColumnsSized(ZBits(s.columns), s.n) && OnQubits(s.columns, s.n) && Below(e.rotations, |s.columns|)
    requires e.qubits != [] && Below(e.qubits, s.n)
    ensures Halves(e, zero, one, ZBits(s.columns), row, s.n)
    ensures |zero.qubits| < |e.qubits| && |one.qubits| < |e.qubits|
    ensures forall i :: 0 <= i < |e.qubits| ==> LargerSide(s.columns, e.rotations, e.qubits[i], s.n) <= LargerSide(s.columns, e.rotations, row, s.n)
  {
    var r := CofactorRow(s.columns, e.rotations, e.qubits, s.n);
    var zeros := WithBit(s.columns, e.rotations, r, false, s.n);
    var ones := WithBit(s.columns, e.rotations, r, true, s.n);
    var left := FilterOut(e.qubits, r);
    zero := Elem(zeros, left, e.target);
    one := Elem(ones, left, if e.target.NoTarget? then Qubit(r) else e.target);
    row := r;
  }

  /** On every basis state: the bits come back, and the phase is the sum of phase times parity. */
  ghost predicate AddsPhases(circuit: seq<Item>, rs: seq<Rotation>, n: nat) {
    && OnBasis(circuit, n) && TermsSized(TermsOf(rs), n)
    && forall bits: seq<bool> :: |bits| == n ==> AddsAt(circuit, rs, bits)
  }

  ghost predicate AddsAt(circuit: seq<Item>, rs: seq<Rotation>, bits: seq<bool>)
    requires TermsSized(TermsOf(rs), |bits|)
  {
    BitsAfter(circuit, bits) == bits && PhaseAfter(circuit, bits) == PhaseOn(TermsOf(rs), bits)
  }

  /** The closing CX gates bring the bits back. */
  lemma CloseReplay(circuit: seq<Item>, rs: seq<Rotation>, emitted: seq<nat>, ks: seq<Op>, us: seq<Op>, n: nat)
    requires ProperList(rs, n) && Enumerates(emitted, |rs|) && ReplaysAs(circuit, Reordered(rs, emitted), ks, n)
    requires CXOnly(ks, n) && CXOnly(us, n) && WellFormedAll(AdjointAll(ks), n) && TableauOf(us, n) == TableauOf(AdjointAll(ks), n)
    ensures AddsPhases(circuit + Gates(us), rs, n)
  {
    hide BitsAfter, PhaseAfter, PhaseOn, TableauOf, Distinct;
    TermsFit(rs, n);
    forall bits: seq<bool> | |bits| == n
      ensures AddsAt(circuit + Gates(us), rs, bits)
    {
      assert ReplayAt(circuit, Reordered(rs, emitted), ks, bits);
      GatesAfter(circuit, us, bits);
      BitsComeBack(ks, us, bits);
      PhaseInAnyOrder(rs, emitted, n, bits);
    }
  }

  lemma AdjointIsCX(ks: seq<Op>, n: nat)
    requires CXOnly(ks, n)
    ensures CXOnly(AdjointAll(ks), n)
  {
  }

  lemma TermsFit(rs: seq<Rotation>, n: nat)
    requires ProperList(rs, n)
    ensures TermsSized(TermsOf(rs), n)
  {
  }

  /** The tableau of a string of CX gates is linear. */
  lemma {:induction false} CXTableau(ops: seq<Op>, n: nat)
    requires CXOnly(ops, n)
    ensures Shaped(TableauOf(ops, n), n) && Linear(TableauOf(ops, n), n)
    decreases |ops|
  {
    hide MapOps, Linear;
    if ops == [] {
      IdentityLinear(n);
    } else {
      var m := |ops| - 1;
      var before, op := ops[..m], ops[m];
      assert ops == before + [op];
      CXTableau(before, n);
      MapOpsAppend(before, [op], IdentityRows(n), n);
      OneCX(TableauOf(before, n), op, n);
      LinearAfterCX(TableauOf(before, n), MapOps([op], TableauOf(before, n)), n, op.q0, op.q1);
    }
  }

  lemma IdentityLinear(n: nat)
    ensures MapOps([], IdentityRows(n)) == IdentityRows(n) && Linear(IdentityRows(n), n)
  {
    assert MapOps([], IdentityRows(n)) == IdentityRows(n);
    forall i | 0 <= i < n
      ensures LinearAt(IdentityRows(n), n, i)
    {
      assert IdentityRows(n)[i] == BasisRow(i, n) && IdentityRows(n)[i + n] == BasisRow(i + n, n);
      BasisRowSet(i, n);
    }
  }

  lemma OneCX(rows: seq<Pauli>, op: Op, n: nat)
    requires Shaped(rows, n) && op.kind.OpCX? && WellFormed(op, n)
    ensures Shaped(MapOps([op], rows), n) && forall i :: 0 <= i < 2 * n ==> MapOps([op], rows)[i] == Conj(CX(op.q0, op.q1), rows[i])
  {
    hide Conj;
    forall i | 0 <= i < 2 * n
      ensures MapOps([op], rows)[i] == Conj(CX(op.q0, op.q1), rows[i])
    {
      ApplyAllOne(op, rows[i]);
      Run1(CX(op.q0, op.q1), rows[i]);
    }
  }

  /** Each rotation's phase occurs exactly once, in some order. */
  ghost predicate EmitsOnce(circuit: seq<Item>, rs: seq<Rotation>) {
    exists picked :: Enumerates(picked, |rs|) && Phases(circuit) == PhasesOf(Reordered(rs, picked))
  }

  /** The closing Clifford undoes the CX gates. */
  lemma CloseCircuit(n: nat, circuit: seq<Item>, rs: seq<Rotation>, emitted: seq<nat>, ks: seq<Op>, us: seq<Op>)
    requires ProperList(rs, n) && AllDiagonal(rs) && Enumerates(emitted, |rs|)
    requires WellFormedAll(ks, n) && WellFormedAll(us, n) && TableauOf(us, n) == TableauOf(AdjointAll(ks), n)
    requires IsCircuit(circuit, n) && Same(n, circuit, Items(Reordered(rs, emitted)) + Gates(ks))
    ensures IsCircuit(circuit + Gates(us), n) && Same(n, Items(rs), circuit + Gates(us))
  {
    hide Same, TableauOf;
    var done, table := Items(Reordered(rs, emitted)), [Table(TableauOf(us, n))];
    AdjointAllWellFormed(ks, n);
    GatesOk(ks, n);
    GatesOk(us, n);
    AnyOrder(n, rs, emitted);
    SameOk(n, done, Items(rs));
    StringIsTable(n, us);
    StringIsTable(n, AdjointAll(ks));
    SameSym(n, Gates(AdjointAll(ks)), table);
    SameTrans(n, Gates(us), table, Gates(AdjointAll(ks)));
    SameBefore(n, Gates(ks), Gates(us), Gates(AdjointAll(ks)));
    StringCancels(n, ks);
    SameTrans(n, Gates(ks) + Gates(us), Gates(ks) + Gates(AdjointAll(ks)), []);
    SameBefore(n, done, Gates(ks) + Gates(us), []);
    SameAfter(n, circuit, done + Gates(ks), Gates(us));
    assert done + [] == done && done + (Gates(ks) + Gates(us)) == done + Gates(ks) + Gates(us);
    SameTrans(n, circuit + Gates(us), done + Gates(ks) + Gates(us), done);
    SameTrans(n, circuit + Gates(us), done, Items(rs));
    SameSym(n, circuit + Gates(us), Items(rs));
  }

  /** Without qubits there is nothing to rotate. */
  lemma {:induction false} NoQubits(rs: seq<Rotation>)
    requires ProperList(rs, 0)
    ensures Same(0, Items(rs), []) && IsCircuit([], 0)
    decreases |rs|
  {
    hide Same;
    EmptyCircuit(0);
    if rs == [] {
      SameRefl(0, []);
    } else {
      DropIdentityRotation(0, rs[0].p, rs[0].phase);
      NoQubits(rs[1..]);
      ItemsOk(rs[1..], 0);
      SameAfter(0, [Item1(rs[0])], [], Items(rs[1..]));
      assert Items(rs) == [Item1(rs[0])] + Items(rs[1..]);
      assert [] + Items(rs[1..]) == Items(rs[1..]);
      SameTrans(0, Items(rs), Items(rs[1..]), []);
    }
  }

  method AreDiagonal(rs: seq<Rotation>) returns (all: bool)
    ensures all <==> AllDiagonal(rs)
  {
    var i := 0;
    while i < |rs|
      invariant i <= |rs| && forall j :: 0 <= j < i ==> rs[j].p.IsDiagonal()
    {
      if !rs[i].p.IsDiagonal() {
        return false;
      }
      i := i + 1;
    }
    return true;
  }

  lemma {:induction false} StartOk(rs: seq<Rotation>, n: nat, order: seq<nat>, ks: seq<nat>, qs: seq<nat>)
    requires ProperList(rs, n) && |order| == n && ks == Iota(|rs|) && qs == Iota(n)
    ensures StackOk([Elem(ks, qs, NoTarget)], ZBits(rs), {}, order, NoTarget)
  {
    var e := Elem(ks, qs, NoTarget);
    IotaMembers(n);
    IotaMembers(|rs|);
    forall j, k | j in ks && k in ks
      ensures Agree(ZBits(rs)[j], ZBits(rs)[k], qs, order)
    {
      AgreeAtRoot(ZBits(rs)[j], ZBits(rs)[k], qs, order);
    }
    forall k | k in ks
      ensures Agree(ZBits(rs)[k], Zeros(n), qs, order)
    {
      AgreeAtRoot(ZBits(rs)[k], Zeros(n), qs, order);
    }
    assert ElemOk(e, ZBits(rs), order, NoTarget);
    SoleElement(e, ZBits(rs), order, NoTarget);
  }

  lemma {:induction false} SoleElement(e: Elem, columns: seq<seq<bool>>, order: seq<nat>, hot: Target)
    requires ElemOk(e, columns, order, hot) && forall k: nat :: k < |columns| ==> k in e.rotations
    ensures StackOk([e], columns, {}, order, hot)
  {
    hide ElemOk;
    assert [e][0] == e;
    assert forall k: nat :: k in e.rotations ==> k in [e][0].rotations;
  }

  lemma AllFrozen(s: Synthesizer, order: seq<nat>, hot: Target)
    requires s.Valid() && StackOk([], ZBits(s.columns), s.frozen, order, hot)
    ensures Enumerates(s.emitted, |s.rs|) && NoIdentities(s.rs)
  {
    hide IsCircuit, Same, ReplaysAs;
    forall k: nat | k < |s.rs|
      ensures k in s.emitted
    {
      assert k < |ZBits(s.columns)|;
    }
    forall k: nat | k < |s.rs|
      ensures !s.rs[k].p.IsIdentity()
    {
      assert k in s.emitted;
      var i :| 0 <= i < |s.emitted| && s.emitted[i] == k;
    }
  }

  /** A circuit for the rotations, for any order of the qubits: made exactly when all of them are
      diagonal and none is the identity. */
  method Synthesize(rs: seq<Rotation>, n: nat, mode: Mode, order: seq<nat>) returns (r: Result)
    requires rs != [] && ProperList(rs, n) && |order| == n && Distinct(order)
    ensures r.Circuit? ==> IsCircuit(r.gates, n) && Same(n, Items(rs), r.gates)
    ensures n == 0 ==> r == Circuit([])
    ensures n > 0 ==> (r.NotDiagonal? <==> !AllDiagonal(rs)) && (r.Circuit? <==> AllDiagonal(rs) && NoIdentities(rs))
    ensures n > 0 && r.Circuit? ==> EmitsOnce(r.gates, rs) && AddsPhases(r.gates, rs, n) && BySteps(mode, order, rs, n, r.gates)
  {
    hide Stepped, NextStage, AddsPhases, Same, IsCircuit, AllDiagonal, NoIdentities, EmitsOnce, Synthesizer.Valid, ElemOk, LeafReady;
    if n == 0 {
      NoQubits(rs);
      return Circuit([]);
    }
    var diagonal := AreDiagonal(rs);
    if !diagonal {
      return NotDiagonal;
    }
    var s := new Synthesizer(rs, n);
    var stack := [Elem(Iota(|rs|), Iota(n), NoTarget)];
    ghost var hot := NoTarget;
    ghost var stages := [Stage(stack, [], [])];
    FirstStage(mode, order, rs, n);
    StartOk(rs, n, order, Iota(|rs|), Iota(n));
    while stack != []
      invariant s.Valid() && s.rs == rs && s.n == n && fresh(s) && fresh(s.final)
      invariant StackOk(stack, ZBits(s.columns), s.frozen, order, hot)
      invariant Stepped(mode, order, rs, n, stages) && stages != [] && stages[|stages| - 1] == Stage(stack, s.ks, s.circuit)
      decreases TotalWork(stack)
    {
      var e, rest := stack[|stack| - 1], stack[..|stack| - 1];
      assert stack == rest + [e];
      var ok;
      ok, stack, hot := Step(s, e, rest, mode, order, hot);
      if !ok {
        return Aborted;
      }
      SteppedMore(mode, order, rs, n, stages, Stage(stack, s.ks, s.circuit));
      stages := stages + [Stage(stack, s.ks, s.circuit)];
    }
    AllFrozen(s, order, hot);
    var circuit; ghost var us;
    circuit, us := Finish(s);
    r := Circuit(circuit);
    assert BySteps(mode, order, rs, n, circuit);
  }

  lemma FirstStage(mode: Mode, order: seq<nat>, rs: seq<Rotation>, n: nat)
    ensures Stepped(mode, order, rs, n, [Stage([Elem(Iota(|rs|), Iota(n), NoTarget)], [], [])])
  {
  }

  /** Appends the Clifford that undoes the CX gates. */
  method Finish(s: Synthesizer) returns (circuit: seq<Item>, ghost us: seq<Op>)
    requires s.Valid() && Enumerates(s.emitted, |s.rs|) && AllDiagonal(s.rs)
    modifies s.final
    ensures IsCircuit(circuit, s.n) && Same(s.n, Items(s.rs), circuit) && EmitsOnce(circuit, s.rs)
    ensures AddsPhases(circuit, s.rs, s.n) && CXOnly(us, s.n) && circuit == s.circuit + Gates(us)
  {
    hide Same, IsCircuit, TableauOf, Tracks, Linear, ReplaysAs, AddsPhases;
    CXOnlyWellFormed(s.ks, s.n);
    AdjointAllWellFormed(s.ks, s.n);
    TableauOfIsSymplectic(AdjointAll(s.ks), s.n);
    AdjointIsCX(s.ks, s.n);
    CXTableau(AdjointAll(s.ks), s.n);
    var closing := AG.Synthesize(s.final);
    us := closing;
    CloseReplay(s.circuit, s.rs, s.emitted, s.ks, us, s.n);
    CloseCircuit(s.n, s.circuit, s.rs, s.emitted, s.ks, us);
    PhasesGates(s.circuit, us);
    circuit := s.circuit + Gates(closing);
  }

  /** Takes the element in hand apart: nothing for an empty one, its phase gates for a leaf,
      two smaller elements otherwise. */
  method Step(s: Synthesizer, e: Elem, rest: seq<Elem>, mode: Mode, order: seq<nat>, ghost hot: Target)
    returns (ok: bool, stack: seq<Elem>, ghost hot': Target)
    requires Working(s, rest + [e], order, hot)
    modifies s, s.final
    ensures ok ==> s.Valid() && StackOk(stack, ZBits(s.columns), s.frozen, order, hot') && TotalWork(stack) < TotalWork(rest + [e])
    ensures !ok ==> !NoIdentities(s.rs)
    ensures ok ==> NextStage(mode, order, s.rs, s.n, Stage(rest + [e], old(s.ks), old(s.circuit)), Stage(stack, s.ks, s.circuit))
  {
    hide Working, Synthesizer.Valid, Synthesizer.Emitted, LeafReady, Halves, StackOk, ElemOk, NoIdentities, SetThroughout, IsCircuit, Same, ReplaysAs,
         GatheredBy, Branches, LargerSide, AfterGathering, NextStage, OnQubits, ColumnsSized, TotalWork, Below;
    ok, stack, hot' := true, rest, hot;
    WorkingStack(s, rest + [e], order, hot);
    if e.rotations == [] {
      EmptyStage(mode, order, s.rs, s.n, rest, e, s.ks, s.circuit);
      StackPop(rest, e, ZBits(s.columns), s.frozen, s.frozen, order, hot);
      return;
    }
    ghost var moved := GatherOnTarget(s, e, mode, order, rest, hot);
    WorkingStack(s, rest + [e], order, hot);
    TopElem(s, rest, e, order, hot);
    if e.qubits == [] {
      ok := EmitLeaf(s, e, rest, mode, order, hot, old(s.ks), old(s.circuit), moved);
      return;
    }
    var zero, one; ghost var row;
    zero, one, row := Split(s, e);
    StackSplit(rest, e, zero, one, ZBits(s.columns), s.frozen, order, hot, row);
    SplitWork(rest, e, zero, one);
    SplitBranches(s, rest + [e], order, hot, e, zero, one, row);
    stack := rest + [zero] + [one];
    BranchStage(mode, order, s.rs, s.n, rest, e, zero, one, row, old(s.ks), old(s.circuit), moved);
    hot' := if e.target.NoTarget? then Qubit(row) else hot;
  }

  /** The phase gates of a leaf whose controls have been gathered. */
  method EmitLeaf(s: Synthesizer, e: Elem, ghost rest: seq<Elem>, ghost mode: Mode, ghost order: seq<nat>, ghost hot: Target, ghost ks: seq<Op>,
                  ghost circuit: seq<Item>, ghost moved: seq<Op>)
    returns (ok: bool)
    requires Working(s, rest + [e], order, hot) && e.rotations != [] && e.qubits == [] && LeafReady(s, e)
    requires GatheredBy(mode, order, s.rs, s.n, e, ks, moved) && s.ks == ks + moved && s.circuit == circuit + Gates(moved)
    modifies s
    ensures ok ==> s.Valid() && StackOk(rest, ZBits(s.columns), s.frozen, order, hot) && TotalWork(rest) < TotalWork(rest + [e])
    ensures !ok ==> !NoIdentities(s.rs)
    ensures ok ==> NextStage(mode, order, s.rs, s.n, Stage(rest + [e], ks, circuit), Stage(rest, s.ks, s.circuit))
  {
    hide Working, Synthesizer.Valid, Synthesizer.Emitted, StackOk, ElemOk, NoIdentities, SetThroughout, IsCircuit, Same, ReplaysAs,
         GatheredBy, PhaseGates, NextStage, LeafReady;
    WorkingStack(s, rest + [e], order, hot);
    TopElem(s, rest, e, order, hot);
    LeafFacts(s, e);
    TopNotFrozen(s, rest + [e], order, hot);
    ghost var picked;
    ok, picked := EmitAll(s, e.rotations, e.target);
    if ok {
      LeafStage(mode, order, s.rs, s.n, rest, e, ks, circuit, moved, picked, old(s.frozen), s.ks, s.circuit);
      StackPop(rest, e, ZBits(s.columns), old(s.frozen), s.frozen, order, hot);
    }
  }

  lemma EmptyStage(mode: Mode, order: seq<nat>, rs: seq<Rotation>, n: nat, rest: seq<Elem>, e: Elem, ks: seq<Op>, circuit: seq<Item>)
    requires e.rotations == []
    ensures NextStage(mode, order, rs, n, Stage(rest + [e], ks, circuit), Stage(rest, ks, circuit))
  {
  }

  lemma LeafStage(mode: Mode, order: seq<nat>, rs: seq<Rotation>, n: nat, rest: seq<Elem>, e: Elem, ks: seq<Op>, circuit: seq<Item>, moved: seq<Op>,
                  picked: seq<nat>, frozen: set<nat>, ks': seq<Op>, circuit': seq<Item>)
    requires e.rotations != [] && e.qubits == [] && GatheredBy(mode, order, rs, n, e, ks, moved) && ks' == ks + moved
    requires Below(picked, |rs|) && Distinct(picked) && Members(picked) == Members(e.rotations) - frozen && forall k :: k in e.rotations ==> k !in frozen
    requires if e.target.Qubit? then circuit' == circuit + Gates(moved) + PhaseGates(rs, picked, n, e.target.q) else picked == []
    ensures NextStage(mode, order, rs, n, Stage(rest + [e], ks, circuit), Stage(rest, ks', circuit'))
  {
    hide GatheredBy, PhaseGates;
    var a, b := Stage(rest + [e], ks, circuit), Stage(rest, ks', circuit');
    assert e.rotations[0] in Members(picked);
    assert Members(picked) == Members(e.rotations);
    assert EmittedBy(rs, n, e, PhaseGates(rs, picked, n, e.target.q));
    assert AfterGathering(rs, n, a, b, rest, e, moved);
  }

  lemma BranchStage(mode: Mode, order: seq<nat>, rs: seq<Rotation>, n: nat, rest: seq<Elem>, e: Elem, zero: Elem, one: Elem, row: nat, ks: seq<Op>,
                    circuit: seq<Item>, moved: seq<Op>)
    requires e.rotations != [] && e.qubits != [] && GatheredBy(mode, order, rs, n, e, ks, moved) && Branches(rs, e, ks + moved, zero, one, row)
    ensures NextStage(mode, order, rs, n, Stage(rest + [e], ks, circuit), Stage(rest + [zero] + [one], ks + moved, circuit + Gates(moved)))
  {
    hide GatheredBy, Branches;
    var a, b := Stage(rest + [e], ks, circuit), Stage(rest + [zero] + [one], ks + moved, circuit + Gates(moved));
    assert AfterGathering(rs, n, a, b, rest, e, moved);
  }

  lemma WorkingStack(s: Synthesizer, stack: seq<Elem>, order: seq<nat>, hot: Target)
    requires Working(s, stack, order, hot)
    ensures s.Valid() && |order| == s.n && StackOk(stack, ZBits(s.columns), s.frozen, order, hot)
    ensures ColumnsSized(ZBits(s.columns), s.n)
  {
  }

  lemma LeafFacts(s: Synthesizer, e: Elem)
    requires LeafReady(s, e)
    ensures Below(e.rotations, |s.rs|) && (e.target.Qubit? ==> e.target.q < s.n) && |s.columns| == |s.rs|
    ensures forall i :: 0 <= i < |e.rotations| ==>
              s.columns[e.rotations[i]].p.z == if e.target.Qubit? then Unit(s.n, e.target.q) else Zeros(s.n)
  {
  }
}
