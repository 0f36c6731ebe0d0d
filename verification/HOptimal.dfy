/** GF(2) rank of the stabilizers' X block, and the synthesis that meets it in H gates. */
module HOptimal {
  import opened Paulis
  import opened Operators
  import opened Tableaux
  import opened StabilizerTableaux
  import opened Recording
  import AG = AaronsonGottesman

  // ---------------------------------------------------------------- rank

  /** Parity of the entries in column j of the vectors that c selects among the first k. */
  predicate Parity(c: seq<bool>, B: seq<seq<bool>>, j: nat, k: nat)
    requires k <= |c| && k <= |B| && forall i :: 0 <= i < |B| ==> j < |B[i]|
  {
    k > 0 && (Parity(c, B, j, k - 1) != (c[k - 1] && B[k - 1][j]))
  }

  ghost predicate Matrix(M: seq<seq<bool>>, n: nat) {
    forall i :: 0 <= i < |M| ==> |M[i]| == n
  }

  /** Each row of M is a sum of the rows of B that A selects. */
  ghost predicate Factors(M: seq<seq<bool>>, A: seq<seq<bool>>, B: seq<seq<bool>>, n: nat) {
    && Matrix(M, n) && Matrix(B, n) && Matrix(A, |B|) && |A| == |M|
    && forall i: nat, j: nat :: i < |M| && j < n ==> M[i][j] == Parity(A[i], B, j, |B|)
  }

  /** The rows of M lie in the span of r vectors. The rank is the least such r. */
  ghost predicate RankAtMost(M: seq<seq<bool>>, n: nat, r: nat) {
    exists A, B :: |B| == r && Factors(M, A, B, n)
  }

  ghost predicate Rank(M: seq<seq<bool>>, n: nat, r: nat) {
    RankAtMost(M, n, r) && forall s: nat :: RankAtMost(M, n, s) ==> r <= s
  }

  function XBlock(rows: seq<Pauli>, n: nat): (M: seq<seq<bool>>)
    requires |rows| == 2 * n
    ensures |M| == n && forall i :: 0 <= i < n ==> M[i] == rows[i].x
  {
    seq(n, i requires 0 <= i < n => rows[i].x)
  }

  // ---------------------------------------------------------------- rank under one gate

  /** Column t of B' is column t plus column c of B. */
  lemma {:induction false} ParityAddColumn(a: seq<bool>, B: seq<seq<bool>>, B': seq<seq<bool>>, c: nat, t: nat, j: nat, n: nat, k: nat)
    requires Matrix(B, n) && Matrix(B', n) && |a| == |B| == |B'| && c < n && t < n && j < n && k <= |B|
    requires forall i :: 0 <= i < |B| ==> B'[i] == B[i][t := B[i][t] != B[i][c]]
    ensures Parity(a, B', j, k) == (Parity(a, B, j, k) != (j == t && Parity(a, B, c, k)))
  {
    if k > 0 {
      ParityAddColumn(a, B, B', c, t, j, n, k - 1);
    }
  }

  /** A vector selected or not at the end, with column q of the others cleared. */
  lemma {:induction false} ParityClearColumn(a: seq<bool>, b: bool, B: seq<seq<bool>>, B': seq<seq<bool>>, q: nat, j: nat, n: nat, k: nat)
    requires Matrix(B, n) && Matrix(B', n) && |a| == |B| && |B'| == |B| + 1 && q < n && j < n && k <= |B|
    requires forall i :: 0 <= i < |B| ==> B'[i] == B[i][q := false]
    ensures Parity(a + [b], B', j, k) == (j != q && Parity(a, B, j, k))
  {
    if k > 0 {
      ParityClearColumn(a, b, B, B', q, j, n, k - 1);
    }
  }

  lemma RankAfterCX(M: seq<seq<bool>>, M': seq<seq<bool>>, n: nat, c: nat, t: nat, r: nat)
    requires c < n && t < n && Matrix(M', n) && |M'| == |M| && RankAtMost(M, n, r)
    requires forall i: nat, j: nat :: i < |M| && j < n ==> M'[i][j] == (M[i][j] != (j == t && M[i][c]))
    ensures RankAtMost(M', n, r)
  {
    var A, B :| |B| == r && Factors(M, A, B, n);
    var B' := seq(r, i requires 0 <= i < r => B[i][t := B[i][t] != B[i][c]]);
    forall i: nat, j: nat | i < |M| && j < n
      ensures M'[i][j] == Parity(A[i], B', j, r)
    {
      ParityAddColumn(A[i], B, B', c, t, j, n, r);
    }
    assert Factors(M', A, B', n);
  }

  /** Replacing one column raises the rank by at most one. */
  lemma RankAfterH(M: seq<seq<bool>>, M': seq<seq<bool>>, n: nat, q: nat, r: nat)
    requires q < n && Matrix(M', n) && |M'| == |M| && RankAtMost(M, n, r)
    requires forall i: nat, j: nat :: i < |M| && j < n && j != q ==> M'[i][j] == M[i][j]
    ensures RankAtMost(M', n, r + 1)
  {
    var A, B :| |B| == r && Factors(M, A, B, n);
    var B' := seq(r, i requires 0 <= i < r => B[i][q := false]) + [Unit(n, q)];
    var A' := seq(|M|, i requires 0 <= i < |M| => A[i] + [M'[i][q]]);
    forall i: nat, j: nat | i < |M| && j < n
      ensures M'[i][j] == Parity(A'[i], B', j, r + 1)
    {
      ParityClearColumn(A[i], M'[i][q], B, B', q, j, n, r);
    }
    assert Factors(M', A', B', n);
  }

  lemma ZeroRank(M: seq<seq<bool>>, n: nat)
    requires Matrix(M, n) && forall i: nat, j: nat :: i < |M| && j < n ==> !M[i][j]
    ensures RankAtMost(M, n, 0)
  {
    var A: seq<seq<bool>> := seq(|M|, _ => []);
    assert Factors(M, A, [], n);
  }

  /** One gate raises the rank of the X block only if it is an H, and then by at most one. */
  lemma RankAfterGate(g: Gate, rows: seq<Pauli>, rows': seq<Pauli>, n: nat, r: nat)
    requires Shaped(rows, n) && Shaped(rows', n) && Proper(g, n)
    requires forall i :: 0 <= i < 2 * n ==> rows'[i] == Conj(g, rows[i])
    requires RankAtMost(XBlock(rows, n), n, r)
    ensures RankAtMost(XBlock(rows', n), n, if g.H? then r + 1 else r)
  {
    hide Conj, RankAtMost;
    var M, M' := XBlock(rows, n), XBlock(rows', n);
    forall i | 0 <= i < n
      ensures AG.BitsAfter(g, rows[i], rows'[i])
    {
      AG.ConjBits(g, rows[i]);
    }
    match g
    case H(q) => RankAfterH(M, M', n, q, r);
    case S(q) => assert M' == M;
    case CX(c, t) => RankAfterCX(M, M', n, c, t, r);
  }

  // ---------------------------------------------------------------- rank under an operator string

  /** Operators whose chain leaves every x bit alone. */
  predicate KeepsX(k: OpKind) {
    k.OpS? || k.OpSdg? || k.OpX? || k.OpY? || k.OpZ? || k.OpCZ?
  }

  lemma KeepsXBits(op: Op, p: Pauli)
    requires p.Sized(|p.z|) && WellFormed(op, |p.z|) && KeepsX(op.kind)
    ensures Apply(op, p).x == p.x
  {
    hide Run, Conj;
    var (a, b) := (op.q0, op.q1);
    match op.kind
    case OpS => Run1(S(a), p); AG.ConjBits(S(a), p);
    case OpSdg => SdgBits(a, p); AG.ConjBits(S(a), p);
    case OpX => XFlips(a, p);
    case OpY => YFlips(a, p);
    case OpZ => ZFlips(a, p);
    case OpCZ =>
      Run3(H(b), CX(a, b), H(b), p);
      var p1 := Conj(H(b), p);
      ConjSized(H(b), p, |p.z|);
      ConjSized(CX(a, b), p1, |p.z|);
      var p2 := Conj(CX(a, b), p1);
      AG.ConjBits(H(b), p);
      AG.ConjBits(CX(a, b), p1);
      AG.ConjBits(H(b), p2);
      assert Conj(H(b), p2).x == p.x;
  }

  lemma {:induction false} RankAfterGates(gs: seq<Gate>, rows: seq<Pauli>, n: nat, r: nat)
    requires Shaped(rows, n) && ProperAll(gs, n) && (forall i :: 0 <= i < |gs| ==> !gs[i].H?)
    requires RankAtMost(XBlock(rows, n), n, r)
    ensures RankAtMost(XBlock(MapGates(gs, rows), n), n, r)
  {
    hide Conj, RankAtMost;
    if gs == [] {
      assert MapGates(gs, rows) == rows;
    } else {
      var rows' := seq(2 * n, i requires 0 <= i < 2 * n => Conj(gs[0], rows[i]));
      forall i | 0 <= i < 2 * n
        ensures rows'[i].Sized(n)
      {
        ConjSized(gs[0], rows[i], n);
      }
      RankAfterGate(gs[0], rows, rows', n, r);
      RankAfterGates(gs[1..], rows', n, r);
      assert MapGates(gs, rows) == MapGates(gs[1..], rows');
    }
  }

  lemma MapOneOp(op: Op, rows: seq<Pauli>, n: nat)
    requires Shaped(rows, n)
    ensures MapOps([op], rows) == MapGates(Expand(op), rows)
  {
    hide ApplyAll;
    forall i | 0 <= i < |rows|
      ensures ApplyAll([op], rows[i]) == Run(Expand(op), rows[i])
    {
      ApplyAllOne(op, rows[i]);
    }
  }

  lemma RankAfterOp(op: Op, rows: seq<Pauli>, n: nat, r: nat)
    requires Shaped(rows, n) && WellFormed(op, n) && Plain([op]) && RankAtMost(XBlock(rows, n), n, r)
    ensures RankAtMost(XBlock(MapOps([op], rows), n), n, if op.kind == OpH then r + 1 else r)
  {
    hide Conj, RankAtMost, Run, ApplyAll;
    MapOneOp(op, rows, n);
    assert !op.kind.OpV? && !op.kind.OpVdg? && !op.kind.OpECR? by { assert [op][0] == op; }
    var rows' := MapOps([op], rows);
    if KeepsX(op.kind) {
      forall i | 0 <= i < n
        ensures rows'[i].x == rows[i].x
      {
        KeepsXBits(op, rows[i]);
      }
      assert XBlock(rows', n) == XBlock(rows, n);
    } else if op.kind == OpH {
      forall i | 0 <= i < 2 * n
        ensures rows'[i] == Conj(H(op.q0), rows[i])
      {
        Run1(H(op.q0), rows[i]);
      }
      RankAfterGate(H(op.q0), rows, rows', n, r);
    } else {
      RankAfterGates(Expand(op), rows, n, r);
    }
  }

  lemma {:induction false} RankAfterString(ops: seq<Op>, rows: seq<Pauli>, n: nat, r: nat)
    requires Shaped(rows, n) && WellFormedAll(ops, n) && Plain(ops) && RankAtMost(XBlock(rows, n), n, r)
    ensures RankAtMost(XBlock(MapOps(ops, rows), n), n, r + HCount(ops))
    decreases |ops|
  {
    hide RankAtMost, ApplyAll;
    if ops == [] {
      assert MapOps(ops, rows) == rows by { MapNothing(rows, n); }
    } else {
      RankAfterOp(ops[0], rows, n, r);
      RankAfterString(ops[1..], MapOps([ops[0]], rows), n, if ops[0].kind == OpH then r + 1 else r);
      assert [ops[0]] + ops[1..] == ops;
      MapOpsAppend([ops[0]], ops[1..], rows, n);
    }
  }

  lemma MapNothing(rows: seq<Pauli>, n: nat)
    requires Shaped(rows, n)
    ensures MapOps([], rows) == rows
  {
  }

  /** A plain string uses at least as many H as the rank of the X block it builds. */
  lemma HCountBoundsRank(ops: seq<Op>, n: nat)
    requires WellFormedAll(ops, n) && Plain(ops)
    ensures RankAtMost(XBlock(TableauOf(ops, n), n), n, HCount(ops))
  {
    ZeroRank(XBlock(IdentityRows(n), n), n);
    RankAfterString(ops, IdentityRows(n), n, 0);
  }

  // ---------------------------------------------------------------- rank under one elimination

  /** Sums of rows: the selections a and b together select the sum of their sums. */
  lemma {:induction false} ParityXor(a: seq<bool>, b: seq<bool>, B: seq<seq<bool>>, j: nat, n: nat, k: nat)
    requires Matrix(B, n) && |a| == |b| == |B| && j < n && k <= |B|
    ensures Parity(Xor(a, b), B, j, k) == (Parity(a, B, j, k) != Parity(b, B, j, k))
  {
    if k > 0 {
      ParityXor(a, b, B, j, n, k - 1);
    }
  }

  function Drop<T>(s: seq<T>, i: nat): (r: seq<T>)
    requires i < |s|
    ensures |r| == |s| - 1
  {
    s[..i] + s[i + 1..]
  }

  /** An unselected vector can be left out. */
  lemma {:induction false} ParityDrop(a: seq<bool>, B: seq<seq<bool>>, i: nat, j: nat, n: nat, k: nat)
    requires Matrix(B, n) && |a| == |B| && i < |B| && !a[i] && j < n && k <= |B|
    ensures Matrix(Drop(B, i), n)
    ensures Parity(a, B, j, k) == Parity(Drop(a, i), Drop(B, i), j, if k > i then k - 1 else k)
  {
    if k > 0 {
      ParityDrop(a, B, i, j, n, k - 1);
    }
  }

  /** Parity of the positions where z and v are both set, among the first m. */
  predicate Dot(z: seq<bool>, v: seq<bool>, m: nat)
    requires m <= |z| && m <= |v|
  {
    m > 0 && (Dot(z, v, m - 1) != (z[m - 1] && v[m - 1]))
  }

  /** Summing over columns and over vectors commute. */
  lemma {:induction false} DotOfParity(z: seq<bool>, v: seq<bool>, a: seq<bool>, B: seq<seq<bool>>, n: nat, k: nat, m: nat)
    requires Matrix(B, n) && |a| == |B| && |z| == |v| == n && k <= |B| && m <= n
    requires forall j: nat :: j < m && z[j] ==> v[j] == Parity(a, B, j, k)
    ensures Dot(z, v, m) == DotSum(z, a, B, n, k, m)
  {
    if m > 0 {
      DotOfParity(z, v, a, B, n, k, m - 1);
      DotSumColumn(z, a, B, n, k, m);
    } else {
      DotSumNone(z, a, B, n, k);
    }
  }

  /** Parity of the vectors selected by a whose Dot with z is set. */
  predicate DotSum(z: seq<bool>, a: seq<bool>, B: seq<seq<bool>>, n: nat, k: nat, m: nat)
    requires Matrix(B, n) && |a| == |B| && |z| == n && k <= |B| && m <= n
  {
    k > 0 && (DotSum(z, a, B, n, k - 1, m) != (a[k - 1] && Dot(z, B[k - 1], m)))
  }

  lemma {:induction false} DotSumNone(z: seq<bool>, a: seq<bool>, B: seq<seq<bool>>, n: nat, k: nat)
    requires Matrix(B, n) && |a| == |B| && |z| == n && k <= |B|
    ensures !DotSum(z, a, B, n, k, 0)
  {
    if k > 0 {
      DotSumNone(z, a, B, n, k - 1);
    }
  }

  lemma {:induction false} DotSumColumn(z: seq<bool>, a: seq<bool>, B: seq<seq<bool>>, n: nat, k: nat, m: nat)
    requires Matrix(B, n) && |a| == |B| && |z| == n && k <= |B| && 0 < m <= n
    ensures DotSum(z, a, B, n, k, m) == (DotSum(z, a, B, n, k, m - 1) != (z[m - 1] && Parity(a, B, m - 1, k)))
  {
    if k > 0 {
      DotSumColumn(z, a, B, n, k - 1, m);
    }
  }

  /** Column q of B' holds the Dot of z with each row of B. */
  lemma {:induction false} ParityOfDots(z: seq<bool>, a: seq<bool>, B: seq<seq<bool>>, B': seq<seq<bool>>, q: nat, n: nat, j: nat, k: nat)
    requires Matrix(B, n) && Matrix(B', n) && |a| == |B| == |B'| && |z| == n && q < n && j < n && k <= |B|
    requires forall i :: 0 <= i < |B| ==> B'[i] == B[i][q := Dot(z, B[i], n)]
    ensures Parity(a, B', j, k) == if j == q then DotSum(z, a, B, n, k, n) else Parity(a, B, j, k)
  {
    if k > 0 {
      ParityOfDots(z, a, B, B', q, n, j, k - 1);
    }
  }

  /** Row i of M is the unit vector of column q; the vector it uses can be traded away. */
  lemma TradeVector(M: seq<seq<bool>>, n: nat, i: nat, q: nat, r: nat)
    returns (A: seq<seq<bool>>, B: seq<seq<bool>>)
    requires i < |M| && q < n && RankAtMost(M, n, r) && M[i] == Unit(n, q)
    ensures r > 0 && |B| == r - 1 && Matrix(B, n) && Matrix(A, |B|) && |A| == |M|
    ensures forall k: nat, j: nat :: k < |M| && j < n && j != q ==> M[k][j] == Parity(A[k], B, j, |B|)
  {
    var A0, B0 :| |B0| == r && Factors(M, A0, B0, n);
    var v := SelectedVector(A0[i], B0, q, n, r);
    A := seq(|M|, k requires 0 <= k < |M| => Drop(if A0[k][v] then Xor(A0[k], A0[i]) else A0[k], v));
    B := Drop(B0, v);
    forall k: nat, j: nat | k < |M| && j < n && j != q
      ensures M[k][j] == Parity(A[k], B, j, |B|)
    {
      ParityXor(A0[k], A0[i], B0, j, n, r);
      assert M[i][j] == Parity(A0[i], B0, j, r);
      ParityDrop(if A0[k][v] then Xor(A0[k], A0[i]) else A0[k], B0, v, j, n, r);
    }
  }

  lemma {:induction false} SelectedVector(a: seq<bool>, B: seq<seq<bool>>, j: nat, n: nat, k: nat) returns (v: nat)
    requires Matrix(B, n) && |a| == |B| && j < n && k <= |B| && Parity(a, B, j, k)
    ensures v < k && a[v]
  {
    if a[k - 1] && B[k - 1][j] {
      v := k - 1;
    } else {
      v := SelectedVector(a, B, j, n, k - 1);
    }
  }

  /** Row i is the unit vector of q, and the new column q is the Dot of z with each row:
      the rank falls by one. */
  lemma RankFalls(M: seq<seq<bool>>, M': seq<seq<bool>>, n: nat, i: nat, q: nat, z: seq<bool>, r: nat)
    requires i < |M| && q < n && RankAtMost(M, n, r) && Matrix(M, n) && M[i] == Unit(n, q)
    requires |z| == n && !z[q] && Matrix(M', n) && |M'| == |M|
    requires forall k: nat, j: nat :: k < |M| && j < n && j != q ==> M'[k][j] == M[k][j]
    requires forall k: nat :: k < |M| && k != i ==> M'[k][q] == Dot(z, M[k], n)
    requires !M'[i][q]
    ensures r > 0 && RankAtMost(M', n, r - 1)
  {
    var A, B := TradeVector(M, n, i, q, r);
    var B' := seq(r - 1, k requires 0 <= k < r - 1 => B[k][q := Dot(z, B[k], n)]);
    var A' := A[i := Zeros(r - 1)];
    forall k: nat, j: nat | k < |M| && j < n
      ensures M'[k][j] == Parity(A'[k], B', j, r - 1)
    {
      if k == i {
        NothingSelected(r - 1, B', j, n, r - 1);
      } else {
        ParityOfDots(z, A[k], B, B', q, n, j, r - 1);
        DotOfParity(z, M[k], A[k], B, n, r - 1, n);
      }
    }
    assert Factors(M', A', B', n);
  }

  lemma {:induction false} NothingSelected(r: nat, B: seq<seq<bool>>, j: nat, n: nat, k: nat)
    requires Matrix(B, n) && r == |B| && j < n && k <= r
    ensures !Parity(Zeros(r), B, j, k)
  {
    if k > 0 {
      NothingSelected(r, B, j, n, k - 1);
    }
  }

  // ---------------------------------------------------------------- diagonalising the stabilizers

  datatype Mode = Star | Staircase

  /** h gates H have brought the rank of M0 down by h on the way to M. */
  ghost predicate RankSpent(M0: seq<seq<bool>>, M: seq<seq<bool>>, n: nat, h: nat) {
    forall s: nat :: RankAtMost(M0, n, s) ==> h <= s && RankAtMost(M, n, s - h)
  }

  /** The first i stabilizers are diagonal. */
  ghost predicate DiagonalUpTo(rows: seq<Pauli>, n: nat, i: nat)
    requires Shaped(rows, n)
  {
    i <= n && forall k :: 0 <= k < i ==> rows[k].IsDiagonal()
  }

  /** Row i has x bits exactly at the given qubits. */
  ghost predicate XAtExactly(p: Pauli, qs: seq<nat>) {
    && (forall t :: 0 <= t < |p.x| ==> (p.x[t] <==> t in qs))
    && (forall k :: 0 <= k < |qs| ==> qs[k] < |p.x|)
    && (forall j, k :: 0 <= j < k < |qs| ==> qs[j] != qs[k])
  }

  ghost predicate Rising(qs: seq<nat>) {
    forall j, k :: 0 <= j < k < |qs| ==> qs[j] < qs[k]
  }

  /** The qubits where stabilizer i has an x bit, in order. */
  method QubitsWithXSet(p: Pauli) returns (qs: seq<nat>)
    ensures XAtExactly(p, qs) && Rising(qs)
  {
    qs := [];
    for t := 0 to |p.x|
      invariant forall u :: 0 <= u < t ==> (p.x[u] <==> u in qs)
      invariant forall k :: 0 <= k < |qs| ==> qs[k] < t
      invariant Rising(qs)
    {
      if p.x[t] {
        qs := qs + [t];
      }
    }
  }

  lemma ClearLast(p: Pauli, p': Pauli, qs: seq<nat>, c: nat)
    requires |qs| > 1 && XAtExactly(p, qs) && c in qs[..|qs| - 1] && AG.BitsAfter(CX(c, qs[|qs| - 1]), p, p')
    ensures XAtExactly(p', qs[..|qs| - 1])
  {
  }

  lemma ClearSecond(p: Pauli, p': Pauli, qs: seq<nat>)
    requires |qs| > 1 && XAtExactly(p, qs) && AG.BitsAfter(CX(qs[0], qs[1]), p, p')
    ensures XAtExactly(p', [qs[0]] + qs[2..])
  {
    var rest := [qs[0]] + qs[2..];
    forall t | 0 <= t < |p'.x|
      ensures p'.x[t] <==> t in rest
    {
      if t in qs && t != qs[1] {
        var k :| 0 <= k < |qs| && qs[k] == t;
        assert k == 0 || rest[k - 1] == t;
      }
    }
  }

  /** Adds a CX or S: diagonal rows stay diagonal and the rank does not rise. */
  method AddQuiet(r: Recorder, g: Gate, i: nat, ghost M0: seq<seq<bool>>, ghost h: nat)
    requires r.Valid() && Proper(g, r.tab.n) && !g.H? && i < r.tab.n
    requires DiagonalUpTo(r.tab.rows, r.tab.n, i) && RankSpent(M0, XBlock(r.tab.rows, r.tab.n), r.tab.n, h)
    modifies r, r.tab
    ensures r.Valid() && HCount(r.ops) == old(HCount(r.ops))
    ensures DiagonalUpTo(r.tab.rows, r.tab.n, i) && RankSpent(M0, XBlock(r.tab.rows, r.tab.n), r.tab.n, h)
    ensures AG.BitsAfter(g, old(r.tab.rows)[i], r.tab.rows[i]) && r.ops == old(r.ops) + [OpFor(g)]
  {
    hide RankAtMost, Symplectic, Conj;
    ghost var rows, n := r.tab.rows, r.tab.n;
    r.AddGate(g);
    AG.ConjBits(g, rows[i]);
    forall k | 0 <= k < i
      ensures r.tab.rows[k].IsDiagonal()
    {
      ConjKeepsDiagonal(g, rows[k]);
    }
    forall s: nat | RankAtMost(M0, n, s)
      ensures h <= s && RankAtMost(XBlock(r.tab.rows, n), n, s - h)
    {
      RankAfterGate(g, rows, r.tab.rows, n, s - h);
    }
  }

  /** All CX start at the first x bit. */
  method ClearAsStar(r: Recorder, i: nat, qs: seq<nat>, ghost M0: seq<seq<bool>>, ghost h: nat) returns (ghost more: seq<Op>)
    requires r.Valid() && i < r.tab.n && qs != [] && XAtExactly(r.tab.rows[i], qs)
    requires DiagonalUpTo(r.tab.rows, r.tab.n, i) && RankSpent(M0, XBlock(r.tab.rows, r.tab.n), r.tab.n, h)
    modifies r, r.tab
    ensures r.Valid() && HCount(r.ops) == old(HCount(r.ops))
    ensures DiagonalUpTo(r.tab.rows, r.tab.n, i) && RankSpent(M0, XBlock(r.tab.rows, r.tab.n), r.tab.n, h)
    ensures XAtExactly(r.tab.rows[i], [qs[0]])
    ensures r.ops == old(r.ops) + more && CXFrom(more, qs[0], qs[1..])
  {
    hide RankSpent, Symplectic, DiagonalUpTo, AG.BitsAfter, XAtExactly, CXFrom, XBlock, MapOps, HCount, Plain;
    var n := r.tab.n;
    ghost var left := qs;
    more := [];
    var k := 1;
    NoCX(qs);
    while k < |qs|
      invariant 1 <= k <= |qs| && r.Valid() && HCount(r.ops) == old(HCount(r.ops))
      invariant DiagonalUpTo(r.tab.rows, n, i) && RankSpent(M0, XBlock(r.tab.rows, n), n, h)
      invariant left == [qs[0]] + qs[k..] && XAtExactly(r.tab.rows[i], left)
      invariant r.ops == old(r.ops) + more && CXFrom(more, qs[0], qs[1..k])
    {
      ghost var p := r.tab.rows[i];
      ExactQubits(p, left, 0, 1);
      AddQuiet(r, CX(qs[0], qs[k]), i, M0, h);
      ClearSecond(p, r.tab.rows[i], left);
      OneMoreFrom(more, qs, k);
      left, more := [left[0]] + left[2..], more + [Op(OpCX, qs[0], qs[k])];
      k := k + 1;
    }
    assert left == [qs[0]] && qs[1..k] == qs[1..];
  }

  lemma NoCX(qs: seq<nat>)
    requires qs != []
    ensures CXFrom([], qs[0], qs[1..1]) && CXBackAlong([], qs[|qs| - 1..])
  {
  }

  lemma OneMoreFrom(ops: seq<Op>, qs: seq<nat>, k: nat)
    requires 1 <= k < |qs| && CXFrom(ops, qs[0], qs[1..k])
    ensures CXFrom(ops + [Op(OpCX, qs[0], qs[k])], qs[0], qs[1..k + 1])
  {
  }

  lemma OneMoreBack(ops: seq<Op>, qs: seq<nat>, k: nat)
    requires 1 <= k < |qs| && CXBackAlong(ops, qs[k..])
    ensures CXBackAlong(ops + [Op(OpCX, qs[k - 1], qs[k])], qs[k - 1..])
  {
    assert qs[k - 1..] == [qs[k - 1]] + qs[k..];
  }

  /** Each CX starts at the x bit in front of the one it clears, from the last one on. */
  method ClearAsStaircase(r: Recorder, i: nat, qs: seq<nat>, ghost M0: seq<seq<bool>>, ghost h: nat) returns (ghost more: seq<Op>)
    requires r.Valid() && i < r.tab.n && qs != [] && XAtExactly(r.tab.rows[i], qs)
    requires DiagonalUpTo(r.tab.rows, r.tab.n, i) && RankSpent(M0, XBlock(r.tab.rows, r.tab.n), r.tab.n, h)
    modifies r, r.tab
    ensures r.Valid() && HCount(r.ops) == old(HCount(r.ops))
    ensures DiagonalUpTo(r.tab.rows, r.tab.n, i) && RankSpent(M0, XBlock(r.tab.rows, r.tab.n), r.tab.n, h)
    ensures XAtExactly(r.tab.rows[i], [qs[0]])
    ensures r.ops == old(r.ops) + more && CXBackAlong(more, qs)
  {
    hide RankSpent, Symplectic, DiagonalUpTo, AG.BitsAfter, XAtExactly, CXBackAlong, XBlock, MapOps, HCount, Plain, Conj, WellFormedAll;
    var n := r.tab.n;
    more := [];
    var k := |qs| - 1;
    NoCX(qs);
    assert qs[..k + 1] == qs;
    while k > 0
      invariant 0 <= k < |qs| && r.Valid() && HCount(r.ops) == old(HCount(r.ops))
      invariant DiagonalUpTo(r.tab.rows, n, i) && RankSpent(M0, XBlock(r.tab.rows, n), n, h)
      invariant XAtExactly(r.tab.rows[i], qs[..k + 1])
      invariant r.ops == old(r.ops) + more && CXBackAlong(more, qs[k..])
    {
      ghost var p := r.tab.rows[i];
      StairQubits(p, qs, k);
      AddQuiet(r, CX(qs[k - 1], qs[k]), i, M0, h);
      StairStep(p, r.tab.rows[i], qs, k);
      OneMoreBack(more, qs, k);
      more := more + [Op(OpCX, qs[k - 1], qs[k])];
      k := k - 1;
    }
    assert qs[..1] == [qs[0]] && qs[k..] == qs;
  }

  lemma StairQubits(p: Pauli, qs: seq<nat>, k: nat)
    requires 0 < k < |qs| && XAtExactly(p, qs[..k + 1])
    ensures qs[k - 1] < |p.x| && qs[k] < |p.x| && qs[k - 1] != qs[k]
  {
    ExactQubits(p, qs[..k + 1], k - 1, k);
  }

  lemma StairStep(p: Pauli, p': Pauli, qs: seq<nat>, k: nat)
    requires 0 < k < |qs| && XAtExactly(p, qs[..k + 1]) && AG.BitsAfter(CX(qs[k - 1], qs[k]), p, p')
    ensures XAtExactly(p', qs[..k])
  {
    hide XAtExactly, AG.BitsAfter;
    var left := qs[..k + 1];
    assert left[..|left| - 1] == qs[..k] && qs[..k][k - 1] == qs[k - 1];
    ClearLast(p, p', left, qs[k - 1]);
  }

  /** Leaves stabilizer i with a single x bit, at its first one: as a star, all CX start there; as a staircase, each
      starts where the next one ends. */
  method ClearToFirst(r: Recorder, i: nat, qs: seq<nat>, mode: Mode, ghost M0: seq<seq<bool>>, ghost h: nat) returns (ghost more: seq<Op>)
    requires r.Valid() && i < r.tab.n && qs != [] && XAtExactly(r.tab.rows[i], qs)
    requires DiagonalUpTo(r.tab.rows, r.tab.n, i) && RankSpent(M0, XBlock(r.tab.rows, r.tab.n), r.tab.n, h)
    modifies r, r.tab
    ensures r.Valid() && HCount(r.ops) == old(HCount(r.ops))
    ensures DiagonalUpTo(r.tab.rows, r.tab.n, i) && RankSpent(M0, XBlock(r.tab.rows, r.tab.n), r.tab.n, h)
    ensures XAtExactly(r.tab.rows[i], [qs[0]])
    ensures r.ops == old(r.ops) + more && if mode.Star? then CXFrom(more, qs[0], qs[1..]) else CXBackAlong(more, qs)
  {
    hide RankSpent, Symplectic, DiagonalUpTo, XAtExactly, CXFrom, CXBackAlong;
    match mode {
      case Star => more := ClearAsStar(r, i, qs, M0, h);
      case Staircase => more := ClearAsStaircase(r, i, qs, M0, h);
    }
  }

  lemma ExactQubits(p: Pauli, qs: seq<nat>, j: nat, k: nat)
    requires XAtExactly(p, qs) && j < k < |qs|
    ensures qs[j] < |p.x| && qs[k] < |p.x| && qs[j] != qs[k]
  {
  }

  lemma {:induction false} OddIsTwoDots(a: Pauli, b: Pauli, m: nat)
    requires a.Sized(|a.z|) && b.Sized(|a.z|) && m <= |a.z|
    ensures OddUpTo(a, b, m) == (Dot(a.z, b.x, m) != Dot(a.x, b.z, m))
  {
    if m > 0 {
      OddIsTwoDots(a, b, m - 1);
    }
  }

  lemma {:induction false} DotUnit(u: seq<bool>, q: nat, v: seq<bool>, m: nat)
    requires q < |u| == |v| && m <= |u| && forall i :: 0 <= i < |u| ==> u[i] == (i == q)
    ensures Dot(u, v, m) == (q < m && v[q])
  {
    if m > 0 {
      DotUnit(u, q, v, m - 1);
    }
  }

  lemma {:induction false} DotZero(z: seq<bool>, v: seq<bool>, m: nat)
    requires m <= |z| && m <= |v| && forall i :: 0 <= i < |v| ==> !v[i]
    ensures !Dot(z, v, m)
  {
    if m > 0 {
      DotZero(z, v, m - 1);
    }
  }

  /** A row with a single x bit at q fixes the z bits at q of the rows it commutes with. */
  lemma ZBitFromX(a: Pauli, b: Pauli, q: nat)
    requires a.Sized(|a.z|) && b.Sized(|a.z|) && XAtExactly(a, [q]) && Commute(a, b)
    ensures q < |a.z| && b.z[q] == Dot(a.z, b.x, |a.z|)
  {
    FirstQubit(a, q);
    OddIsTwoDots(a, b, |a.z|);
    DotUnit(a.x, q, b.z, |a.z|);
  }

  /** The H at the remaining x bit makes stabilizer i diagonal, keeps the earlier ones
      diagonal and takes one off the rank. */
  method AddLastH(r: Recorder, i: nat, q: nat, ghost M0: seq<seq<bool>>, ghost h: nat)
    requires r.Valid() && i < r.tab.n && XAtExactly(r.tab.rows[i], [q]) && q < r.tab.n && !r.tab.rows[i].z[q]
    requires DiagonalUpTo(r.tab.rows, r.tab.n, i) && RankSpent(M0, XBlock(r.tab.rows, r.tab.n), r.tab.n, h)
    modifies r, r.tab
    ensures r.Valid() && HCount(r.ops) == old(HCount(r.ops)) + 1
    ensures DiagonalUpTo(r.tab.rows, r.tab.n, i + 1) && r.ops == old(r.ops) + [Op(OpH, q, 0)]
    ensures RankSpent(M0, XBlock(r.tab.rows, r.tab.n), r.tab.n, h + 1)
  {
    hide RankAtMost, XAtExactly, DiagonalUpTo;
    ghost var rows, n := r.tab.rows, r.tab.n;
    forall k | 0 <= k < n && k != i
      ensures rows[k].z[q] == Dot(rows[i].z, rows[k].x, n)
    {
      assert Commute(rows[i], rows[k]);
      ZBitFromX(rows[i], rows[k], q);
    }
    hide Symplectic;
    r.AddGate(H(q));
    AfterLastH(rows, r.tab.rows, n, i, q);
    RankAfterLastH(rows, r.tab.rows, n, i, q, M0, h);
  }

  lemma AfterLastH(rows: seq<Pauli>, rows': seq<Pauli>, n: nat, i: nat, q: nat)
    requires Shaped(rows, n) && Shaped(rows', n) && i < n && q < n && DiagonalUpTo(rows, n, i)
    requires XAtExactly(rows[i], [q]) && !rows[i].z[q]
    requires forall k :: 0 <= k < n && k != i ==> rows[k].z[q] == Dot(rows[i].z, rows[k].x, n)
    requires forall k :: 0 <= k < 2 * n ==> rows'[k] == Conj(H(q), rows[k])
    ensures DiagonalUpTo(rows', n, i + 1)
  {
    forall k | 0 <= k < i + 1
      ensures rows'[k].IsDiagonal()
    {
      AG.ConjBits(H(q), rows[k]);
      if k < i {
        DotZero(rows[i].z, rows[k].x, n);
      }
    }
  }

  lemma RankAfterLastH(rows: seq<Pauli>, rows': seq<Pauli>, n: nat, i: nat, q: nat, M0: seq<seq<bool>>, h: nat)
    requires Shaped(rows, n) && Shaped(rows', n) && i < n && q < n
    requires XAtExactly(rows[i], [q]) && !rows[i].z[q]
    requires forall k :: 0 <= k < n && k != i ==> rows[k].z[q] == Dot(rows[i].z, rows[k].x, n)
    requires forall k :: 0 <= k < 2 * n ==> rows'[k] == Conj(H(q), rows[k])
    requires RankSpent(M0, XBlock(rows, n), n, h)
    ensures RankSpent(M0, XBlock(rows', n), n, h + 1)
  {
    hide RankAtMost, Conj;
    var M, M' := XBlock(rows, n), XBlock(rows', n);
    forall k | 0 <= k < n
      ensures AG.BitsAfter(H(q), rows[k], rows'[k])
    {
      AG.ConjBits(H(q), rows[k]);
    }
    assert M[i] == Unit(n, q);
    forall s: nat | RankAtMost(M0, n, s)
      ensures h + 1 <= s && RankAtMost(M', n, s - (h + 1))
    {
      RankFalls(M, M', n, i, q, rows[i].z, s - h);
    }
  }

  /** The operators that make one stabilizer diagonal: CX gates among its qubits with an x bit, in the shape of the mode,
      an S if a z bit is left at the first of them, and an H there. */
  ghost predicate ClearsRow(mode: Mode, p: Pauli, ops: seq<Op>)
    requires p.Sized(|p.z|)
  {
    exists qs, moved :: ClearsQubits(mode, p, qs, moved, ops)
  }

  ghost predicate ClearsQubits(mode: Mode, p: Pauli, qs: seq<nat>, moved: seq<Op>, ops: seq<Op>)
    requires p.Sized(|p.z|)
  {
    && XAtExactly(p, qs) && Rising(qs)
    && if qs == [] then ops == []
       else
         && (if mode.Star? then CXFrom(moved, qs[0], qs[1..]) else CXBackAlong(moved, qs)) && qs[0] < |p.z|
         && ops == moved + (if ApplyAll(moved, p).z[qs[0]] then [Op(OpS, qs[0], 0)] else []) + [Op(OpH, qs[0], 0)]
  }

  function Joined(chunks: seq<seq<Op>>): seq<Op> {
    if chunks == [] then [] else Joined(chunks[..|chunks| - 1]) + chunks[|chunks| - 1]
  }

  /** One stabilizer after the other. */
  ghost predicate RowByRow(mode: Mode, start: seq<Pauli>, n: nat, chunks: seq<seq<Op>>)
    requires Shaped(start, n)
  {
    |chunks| <= n && forall i :: 0 <= i < |chunks| ==> ClearsRow(mode, ApplyAll(Joined(chunks[..i]), start[i]), chunks[i])
  }

  lemma RowByRowMore(mode: Mode, start: seq<Pauli>, n: nat, chunks: seq<seq<Op>>, chunk: seq<Op>)
    requires Shaped(start, n) && RowByRow(mode, start, n, chunks) && |chunks| < n
    requires ClearsRow(mode, ApplyAll(Joined(chunks), start[|chunks|]), chunk)
    ensures RowByRow(mode, start, n, chunks + [chunk]) && Joined(chunks + [chunk]) == Joined(chunks) + chunk
  {
    hide ClearsRow, ApplyAll;
    var all := chunks + [chunk];
    assert all[..|all| - 1] == chunks;
    forall i | 0 <= i < |all|
      ensures ClearsRow(mode, ApplyAll(Joined(all[..i]), start[i]), all[i])
    {
      assert all[..i] == chunks[..i];
      assert i == |chunks| ==> chunks[..i] == chunks;
    }
  }

  ghost predicate Diagonalizes(mode: Mode, start: seq<Pauli>, n: nat, ops: seq<Op>)
    requires Shaped(start, n)
  {
    exists chunks :: |chunks| == n && RowByRow(mode, start, n, chunks) && ops == Joined(chunks)
  }

  /** Makes every stabilizer diagonal, with as many H gates as the X block has rank. */
  method Diagonalize(r: Recorder, mode: Mode)
    requires r.Valid() && r.ops == []
    modifies r, r.tab
    ensures r.Valid() && DiagonalStabilizers(r.tab.rows, r.tab.n)
    ensures forall s: nat :: RankAtMost(XBlock(r.start, r.tab.n), r.tab.n, s) ==> HCount(r.ops) <= s
    ensures Diagonalizes(mode, r.start, r.tab.n, r.ops)
  {
    hide Symplectic, XAtExactly, MapOps, ClearsRow, RowByRow;
    var n, i := r.tab.n, 0;
    ghost var M0 := XBlock(r.tab.rows, n);
    ghost var chunks: seq<seq<Op>> := [];
    assert r.tab.rows == r.start by { MapNothing(r.start, n); }
    NoRow(mode, r.start, n);
    while i < n
      invariant i <= n && r.Valid() && DiagonalUpTo(r.tab.rows, n, i)
      invariant RankSpent(M0, XBlock(r.tab.rows, n), n, HCount(r.ops))
      invariant |chunks| == i && RowByRow(mode, r.start, n, chunks) && r.ops == Joined(chunks)
    {
      RowIs(r, i);
      ghost var chunk := DiagonalizeOne(r, i, mode, M0);
      RowByRowMore(mode, r.start, n, chunks, chunk);
      chunks := chunks + [chunk];
      i := i + 1;
    }
  }

  lemma NoRow(mode: Mode, start: seq<Pauli>, n: nat)
    requires Shaped(start, n)
    ensures RowByRow(mode, start, n, []) && Joined([]) == []
  {
  }

  lemma RowIs(r: Recorder, i: nat)
    requires r.Valid() && i < r.tab.n
    ensures r.tab.rows[i] == ApplyAll(r.ops, r.start[i]) && r.start[i].Sized(|r.start[i].z|)
  {
    hide ApplyAll, Symplectic;
  }

  method DiagonalizeOne(r: Recorder, i: nat, mode: Mode, ghost M0: seq<seq<bool>>) returns (ghost chunk: seq<Op>)
    requires r.Valid() && i < r.tab.n && DiagonalUpTo(r.tab.rows, r.tab.n, i)
    requires RankSpent(M0, XBlock(r.tab.rows, r.tab.n), r.tab.n, HCount(r.ops))
    modifies r, r.tab
    ensures r.Valid() && DiagonalUpTo(r.tab.rows, r.tab.n, i + 1)
    ensures RankSpent(M0, XBlock(r.tab.rows, r.tab.n), r.tab.n, HCount(r.ops))
    ensures r.ops == old(r.ops) + chunk && ClearsRow(mode, old(r.tab.rows)[i], chunk)
  {
    hide RankSpent, Symplectic, XAtExactly, MapOps, AG.BitsAfter, DiagonalUpTo, XBlock, HCount, CXFrom, CXBackAlong, Conj, Plain, WellFormedAll, Rising,
         ClearsQubits, ApplyAll;
    ghost var h, row := HCount(r.ops), r.tab.rows[i];
    RowIs(r, i);
    chunk := [];
    var qs := QubitsWithXSet(r.tab.rows[i]);
    if qs == [] {
      NoXIsDiagonal(r.tab.rows, r.tab.n, i);
      NoXCleared(mode, row);
      return;
    }
    ghost var moved := ClearToFirst(r, i, qs, mode, M0, h);
    RowIs(r, i);
    ApplyAllAppend(old(r.ops), moved, r.start[i]);
    FirstQubit(r.tab.rows[i], qs[0]);
    chunk := moved;
    if r.tab.rows[i].z[qs[0]] {
      ghost var p := r.tab.rows[i];
      AddQuiet(r, S(qs[0]), i, M0, h);
      ClearZ(p, r.tab.rows[i], qs[0]);
      chunk := chunk + [Op(OpS, qs[0], 0)];
    }
    AddLastH(r, i, qs[0], M0, h);
    chunk := chunk + [Op(OpH, qs[0], 0)];
    RowCleared(mode, row, qs, moved, chunk);
  }

  lemma NoXCleared(mode: Mode, p: Pauli)
    requires p.Sized(|p.z|) && XAtExactly(p, [])
    ensures ClearsRow(mode, p, [])
  {
    assert ClearsQubits(mode, p, [], [], []);
  }

  lemma RowCleared(mode: Mode, p: Pauli, qs: seq<nat>, moved: seq<Op>, ops: seq<Op>)
    requires p.Sized(|p.z|) && XAtExactly(p, qs) && Rising(qs) && qs != [] && qs[0] < |p.z|
    requires if mode.Star? then CXFrom(moved, qs[0], qs[1..]) else CXBackAlong(moved, qs)
    requires ops == (if ApplyAll(moved, p).z[qs[0]] then moved + [Op(OpS, qs[0], 0)] else moved) + [Op(OpH, qs[0], 0)]
    ensures ClearsRow(mode, p, ops)
  {
    hide CXFrom, CXBackAlong, ApplyAll;
    assert moved + [] == moved;
    assert ClearsQubits(mode, p, qs, moved, ops);
  }

  lemma NoXIsDiagonal(rows: seq<Pauli>, n: nat, i: nat)
    requires Shaped(rows, n) && i < n && DiagonalUpTo(rows, n, i) && XAtExactly(rows[i], [])
    ensures DiagonalUpTo(rows, n, i + 1)
  {
    assert rows[i].IsDiagonal();
  }

  lemma FirstQubit(p: Pauli, q: nat)
    requires XAtExactly(p, [q])
    ensures q < |p.x|
  {
    assert [q][0] < |p.x|;
  }

  lemma ClearZ(p: Pauli, p': Pauli, q: nat)
    requires XAtExactly(p, [q]) && AG.BitsAfter(S(q), p, p') && p.z[q]
    ensures XAtExactly(p', [q]) && !p'.z[q]
  {
  }

  /** Building the diagonal tableau and then undoing the diagonalization. */
  lemma {:induction false} BackToStart(n: nat, start: seq<Pauli>, diagonalizing: seq<Op>, tail: seq<Op>)
    requires Shaped(start, n) && WellFormedAll(diagonalizing, n) && Plain(diagonalizing) && WellFormedAll(tail, n) && Plain(tail)
    requires TableauOf(tail, n) == MapOps(diagonalizing, start)
    ensures var ops := tail + AdjointAll(diagonalizing);
            && WellFormedAll(ops, n) && Plain(ops) && TableauOf(ops, n) == start
            && HCount(ops) == HCount(tail) + HCount(diagonalizing)
  {
    hide MapOps, ApplyAll, HCount, Symplectic;
    HCountAppend(tail, AdjointAll(diagonalizing));
    HCountAdjoint(diagonalizing);
    AdjointAllWellFormed(diagonalizing, n);
    MapOpsAppend(tail, AdjointAll(diagonalizing), IdentityRows(n), n);
    MapOpsAdjoint(diagonalizing, start, n);
  }

  /** Operators that build exactly the given tableau. The number of H among them is the rank
      of the stabilizers' X block, and no plain string that builds the tableau has fewer. */
  method Synthesize(copy: StabilizerTableau, mode: Mode) returns (ops: seq<Op>)
    requires copy.Valid() && Symplectic(copy.rows, copy.n)
    modifies copy
    ensures WellFormedAll(ops, copy.n) && Plain(ops) && TableauOf(ops, copy.n) == old(copy.rows)
    ensures Rank(XBlock(old(copy.rows), copy.n), copy.n, HCount(ops))
    ensures forall other :: WellFormedAll(other, copy.n) && Plain(other) && TableauOf(other, copy.n) == old(copy.rows) ==>
              HCount(ops) <= HCount(other)
    ensures exists tail, diagonalizing :: ops == tail + AdjointAll(diagonalizing) && Diagonalizes(mode, old(copy.rows), copy.n, diagonalizing)
  {
    hide Diagonalizes, Symplectic, RankAtMost, DiagonalStabilizers, ApplyAll, XBlock, Plain, HCount, TableauOf, MapOps;
    var n := copy.n;
    var r := new Recorder(copy);
    Diagonalize(r, mode);
    var tail := AG.Synthesize(copy);
    ops := tail + AdjointAll(r.ops);
    BackToStart(n, r.start, r.ops, tail);
    HCountBoundsRank(ops, n);
    forall other | WellFormedAll(other, n) && Plain(other) && TableauOf(other, n) == old(copy.rows)
      ensures HCount(ops) <= HCount(other)
    {
      HCountBoundsRank(other, n);
    }
  }
}
