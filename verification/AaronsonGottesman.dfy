/** Synthesis of an operator string from a tableau, one qubit at a time. */
module AaronsonGottesman {
  import opened Paulis
  import opened Operators
  import opened Tableaux
  import opened StabilizerTableaux
  import opened Recording

  // ---------------------------------------------------------------- finished rows

  /** p is Z_q up to sign. */
  ghost predicate IsZ(p: Pauli, q: nat) {
    && |p.x| == |p.z|
    && (forall i :: 0 <= i < |p.z| ==> p.z[i] == (i == q))
    && (forall i :: 0 <= i < |p.z| ==> !p.x[i])
  }

  /** p is X_q up to sign. */
  ghost predicate IsX(p: Pauli, q: nat) {
    && |p.x| == |p.z|
    && (forall i :: 0 <= i < |p.z| ==> !p.z[i])
    && (forall i :: 0 <= i < |p.z| ==> p.x[i] == (i == q))
  }

  /** The rows of the first q qubits are +-Z and +-X of their own qubit. */
  ghost predicate Finished(rows: seq<Pauli>, n: nat, q: nat)
    requires Shaped(rows, n)
  {
    q <= n && forall i {:trigger IsZ(rows[i], i)} :: 0 <= i < q ==> IsZ(rows[i], i) && IsX(rows[i + n], i)
  }

  /** p has nothing on the first q qubits. */
  ghost predicate CleanBelow(p: Pauli, q: nat) {
    |p.x| == |p.z| && q <= |p.z| && forall i :: 0 <= i < q ==> !p.z[i] && !p.x[i]
  }

  ghost predicate OnTail(g: Gate, q: nat, n: nat) {
    Proper(g, n) && match g
    case H(a) => q <= a
    case S(a) => q <= a
    case CX(c, t) => q <= c && q <= t
  }

  lemma FinishedKept(g: Gate, rows: seq<Pauli>, rows': seq<Pauli>, n: nat, q: nat)
    requires Shaped(rows, n) && Shaped(rows', n) && Finished(rows, n, q) && OnTail(g, q, n)
    requires forall i :: 0 <= i < 2 * n ==> rows'[i] == Conj(g, rows[i])
    ensures Finished(rows', n, q)
  {
    hide Conj;
    forall i | 0 <= i < q
      ensures IsZ(rows'[i], i) && IsX(rows'[i + n], i)
    {
      assert IsZ(rows[i], i) && IsX(rows[i + n], i);
      ConjBits(g, rows[i]);
      ConjBits(g, rows[i + n]);
    }
  }

  /** The bits of p' are those of p after g. */
  ghost predicate BitsAfter(g: Gate, p: Pauli, p': Pauli) {
    && |p.x| == |p.z| == |p'.x| == |p'.z|
    && Proper(g, |p.z|)
    && match g
       case H(q) =>
         && (forall i :: 0 <= i < |p.z| ==> p'.z[i] == if i == q then p.x[q] else p.z[i])
         && (forall i :: 0 <= i < |p.z| ==> p'.x[i] == if i == q then p.z[q] else p.x[i])
       case S(q) =>
         && (forall i :: 0 <= i < |p.z| ==> p'.z[i] == (p.z[i] != (i == q && p.x[q])))
         && p'.x == p.x
       case CX(c, t) =>
         && (forall i :: 0 <= i < |p.z| ==> p'.z[i] == (p.z[i] != (i == c && p.z[t])))
         && (forall i :: 0 <= i < |p.z| ==> p'.x[i] == (p.x[i] != (i == t && p.x[c])))
  }

  ghost predicate NoX(p: Pauli, q: nat, k: nat) {
    k <= |p.x| && forall t :: q < t < k ==> !p.x[t]
  }

  ghost predicate NoZ(p: Pauli, q: nat, k: nat) {
    k <= |p.z| && forall t :: q < t < k ==> !p.z[t]
  }

  lemma IntoTarget(p: Pauli, p': Pauli, c: nat, q: nat)
    requires BitsAfter(CX(c, q), p, p') && c != q
    ensures IsX(p, q) ==> IsX(p', q)
    ensures !p.x[c] ==> p'.x[q] == p.x[q]
    ensures p'.z[q] == p.z[q]
    ensures p.z[q] ==> p'.z[c] == !p.z[c]
    ensures q < c && NoX(p, q, |p.x|) ==> NoX(p', q, |p.x|)
    ensures NoZ(p, q, c) ==> NoZ(p', q, c)
  {
  }

  lemma FromControl(p: Pauli, p': Pauli, q: nat, t: nat)
    requires BitsAfter(CX(q, t), p, p') && t != q
    ensures IsZ(p, q) ==> IsZ(p', q)
    ensures p'.x[q] == p.x[q]
    ensures p.x[q] ==> p'.x[t] == !p.x[t]
    ensures q < t && NoZ(p, q, |p.z|) ==> NoZ(p', q, |p.z|)
    ensures NoX(p, q, t) ==> NoX(p', q, t)
  {
  }

  lemma UnderH(p: Pauli, p': Pauli, q: nat)
    requires BitsAfter(H(q), p, p')
    ensures IsX(p, q) ==> IsZ(p', q)
    ensures IsZ(p, q) ==> IsX(p', q)
    ensures p'.z[q] == p.x[q] && p'.x[q] == p.z[q]
    ensures NoX(p, q, |p.x|) ==> NoX(p', q, |p.x|)
    ensures NoZ(p, q, |p.z|) ==> NoZ(p', q, |p.z|)
  {
  }

  lemma UnderS(p: Pauli, p': Pauli, q: nat)
    requires BitsAfter(S(q), p, p')
    ensures IsZ(p, q) ==> IsZ(p', q)
    ensures p'.x[q] == p.x[q] && p'.z[q] == (p.z[q] != p.x[q])
    ensures NoX(p, q, |p.x|) ==> NoX(p', q, |p.x|)
    ensures NoZ(p, q, |p.z|) ==> NoZ(p', q, |p.z|)
  {
  }

  lemma ConjBits(g: Gate, p: Pauli)
    requires p.Sized(|p.z|) && Proper(g, |p.z|)
    ensures BitsAfter(g, p, Conj(g, p))
  {
  }

  /** Rows that are not finished have nothing on the finished qubits. */
  lemma UnfinishedIsClean(rows: seq<Pauli>, n: nat, q: nat, j: nat)
    requires Symplectic(rows, n) && Finished(rows, n, q) && j < 2 * n
    requires q <= (if j < n then j else j - n)
    ensures CleanBelow(rows[j], q)
  {
    forall i | 0 <= i < q
      ensures !rows[j].z[i] && !rows[j].x[i]
    {
      assert IsZ(rows[i], i) && IsX(rows[i + n], i);
      assert Commute(rows[i], rows[j]) && Commute(rows[i + n], rows[j]);
      OnlyPowerAt(rows[i], rows[j], i, n);
      OnlyPowerAt(rows[i + n], rows[j], i, n);
    }
  }

  /** The destabilizer d of the current qubit has a bit on the tail; an x bit if its stabilizer is diagonal. */
  lemma TailBit(rows: seq<Pauli>, n: nat, q: nat, d: Pauli)
    requires Symplectic(rows, n) && Finished(rows, n, q) && q < n && d == rows[q + n]
    ensures exists t :: q <= t < n && (d.z[t] || d.x[t])
    ensures rows[q].IsDiagonal() ==> exists t :: q <= t < n && d.x[t]
  {
    UnfinishedIsClean(rows, n, q, q + n);
    assert !Commute(rows[q], d);
    if forall t :: q <= t < n ==> !(d.z[t] || d.x[t]) {
      NoOdd(rows[q], d, n);
    }
    if rows[q].IsDiagonal() && forall t :: q <= t < n ==> !d.x[t] {
      NoOdd(rows[q], d, n);
    }
  }

  // ---------------------------------------------------------------- one qubit

  /** Adds a gate on the qubits from q on: the finished rows stay as they are. */
  method AddOnTail(r: Recorder, g: Gate, q: nat)
    requires r.Valid() && q < r.tab.n && Finished(r.tab.rows, r.tab.n, q) && OnTail(g, q, r.tab.n)
    modifies r, r.tab
    ensures r.Valid() && Finished(r.tab.rows, r.tab.n, q)
    ensures BitsAfter(g, old(r.tab.rows)[q], r.tab.rows[q])
    ensures BitsAfter(g, old(r.tab.rows)[q + r.tab.n], r.tab.rows[q + r.tab.n])
    ensures HCount(r.ops) == old(HCount(r.ops)) + (if g.H? then 1 else 0)
    ensures !g.H? && old(DiagonalStabilizers(r.tab.rows, r.tab.n)) ==> DiagonalStabilizers(r.tab.rows, r.tab.n)
    ensures g.CX? && old(r.OnlyCX()) ==> r.OnlyCX()
  {
    ghost var rows, n := r.tab.rows, r.tab.n;
    r.AddGate(g);
    FinishedKept(g, rows, r.tab.rows, n, q);
    ConjBits(g, rows[q]);
    ConjBits(g, rows[q + n]);
  }

  /** The first set bit from position k on, or the length. */
  method FirstBit(bits: seq<bool>, k: nat) returns (t: nat)
    requires k <= |bits|
    ensures k <= t <= |bits| && (t < |bits| ==> bits[t])
    ensures forall i :: k <= i < t ==> !bits[i]
  {
    t := k;
    while t < |bits| && !bits[t]
      invariant k <= t <= |bits|
      invariant forall i :: k <= i < t ==> !bits[i]
    {
      t := t + 1;
    }
  }

  /** Gives the destabilizer of q an x bit at q. */
  method MakeDestabXMainDiag(r: Recorder, q: nat)
    requires r.Valid() && q < r.tab.n && Finished(r.tab.rows, r.tab.n, q)
    modifies r, r.tab
    ensures r.Valid() && Finished(r.tab.rows, r.tab.n, q)
    ensures r.tab.rows[q + r.tab.n].x[q]
    ensures old(DiagonalStabilizers(r.tab.rows, r.tab.n)) ==>
              DiagonalStabilizers(r.tab.rows, r.tab.n) && HCount(r.ops) == old(HCount(r.ops))
    ensures old(r.OnlyCX()) ==> r.OnlyCX()
  {
    hide Recorder.OnlyCX, Symplectic, Finished, BitsAfter, HCount, DiagonalStabilizers, MapOps, WellFormedAll, Plain;
    var n, d := r.tab.n, q + r.tab.n;
    if r.tab.rows[d].x[q] {
      return;
    }
    ghost var p := r.tab.rows[d];
    var ctrl := FirstBit(r.tab.rows[d].x, q + 1);
    if ctrl < n {
      AddOnTail(r, CX(ctrl, q), q);
      XIntoTarget(p, r.tab.rows[d], ctrl, q);
    } else {
      NoTailX(r.tab.rows, n, q, p);
      if r.OnlyCX() {
        PureRows(r, q);
      }
      GiveXFromZ(r, q);
    }
  }

  /** Without an x bit on the tail there is a z bit, and some stabilizer is not diagonal. */
  lemma NoTailX(rows: seq<Pauli>, n: nat, q: nat, d: Pauli)
    requires Symplectic(rows, n) && Finished(rows, n, q) && q < n && d == rows[q + n]
    requires forall t :: q <= t < n ==> !d.x[t]
    ensures exists t :: q <= t < n && d.z[t]
    ensures !DiagonalStabilizers(rows, n)
  {
    TailBit(rows, n, q, d);
    if DiagonalStabilizers(rows, n) {
      DiagonalRow(rows, n, q);
    }
  }

  lemma PureRows(r: Recorder, q: nat)
    requires r.tab.Valid() && q < r.tab.n && r.OnlyCX()
    ensures PureZ(r.tab.rows[q]) && PureX(r.tab.rows[q + r.tab.n])
  {
    assert LinearAt(r.tab.rows, r.tab.n, q);
  }

  method GiveXFromZ(r: Recorder, q: nat)
    requires r.Valid() && q < r.tab.n && Finished(r.tab.rows, r.tab.n, q)
    requires !r.tab.rows[q + r.tab.n].x[q]
    requires var d := r.tab.rows[q + r.tab.n]; exists t :: q <= t < r.tab.n && d.z[t]
    modifies r, r.tab
    ensures r.Valid() && Finished(r.tab.rows, r.tab.n, q)
    ensures r.tab.rows[q + r.tab.n].x[q]
  {
    hide Symplectic, Finished, BitsAfter, HCount, DiagonalStabilizers, MapOps, WellFormedAll, Plain;
    var n, d := r.tab.n, q + r.tab.n;
    ghost var p := r.tab.rows[d];
    var ctrl := FirstBit(r.tab.rows[d].z, q);
    AddOnTail(r, H(ctrl), q);
    ghost var p1 := r.tab.rows[d];
    XFromH(p, p1, ctrl, q);
    if ctrl != q {
      AddOnTail(r, CX(ctrl, q), q);
      XIntoTarget(p1, r.tab.rows[d], ctrl, q);
    }
  }

  lemma DiagonalRow(rows: seq<Pauli>, n: nat, q: nat)
    requires Shaped(rows, n) && q < n && DiagonalStabilizers(rows, n)
    ensures rows[q].IsDiagonal()
  {
  }

  lemma XIntoTarget(p: Pauli, p': Pauli, c: nat, q: nat)
    requires BitsAfter(CX(c, q), p, p') && c != q && p.x[c] && !p.x[q]
    ensures p'.x[q]
  {
  }

  lemma XFromH(p: Pauli, p': Pauli, c: nat, q: nat)
    requires BitsAfter(H(c), p, p') && q < |p.x| && p.z[c]
    ensures p'.x[c] && (c != q ==> p'.x[q] == p.x[q])
  {
  }

  /** Clears the destabilizer of q down to +-X_q. */
  method MakeDestabXOffDiag(r: Recorder, q: nat)
    requires r.Valid() && q < r.tab.n && Finished(r.tab.rows, r.tab.n, q)
    requires r.tab.rows[q + r.tab.n].x[q]
    modifies r, r.tab
    ensures r.Valid() && Finished(r.tab.rows, r.tab.n, q)
    ensures IsX(r.tab.rows[q + r.tab.n], q)
    ensures HCount(r.ops) == old(HCount(r.ops))
    ensures old(DiagonalStabilizers(r.tab.rows, r.tab.n)) ==> DiagonalStabilizers(r.tab.rows, r.tab.n)
    ensures old(r.OnlyCX()) ==> r.OnlyCX()
  {
    hide Recorder.OnlyCX, Symplectic, Finished, BitsAfter, HCount, DiagonalStabilizers, MapOps, WellFormedAll, Plain, IsX, CleanBelow, NoX, NoZ;
    var n, d := r.tab.n, q + r.tab.n;
    ClearDestabX(r, q);
    var someZ := SomeBit(r.tab.rows[d].z, q);
    if r.OnlyCX() {
      PureRows(r, q);
    }
    if someZ {
      ClearDestabZs(r, q);
    } else {
      AllClear(r.tab.rows[d], q);
    }
    UnfinishedIsClean(r.tab.rows, n, q, d);
    OnlyX(r.tab.rows[d], q, n);
  }

  /** Clears the z bits of a destabilizer whose x bit at q is the only one left. */
  method ClearDestabZs(r: Recorder, q: nat)
    requires r.Valid() && q < r.tab.n && Finished(r.tab.rows, r.tab.n, q)
    requires r.tab.rows[q + r.tab.n].x[q] && NoX(r.tab.rows[q + r.tab.n], q, r.tab.n)
    modifies r, r.tab
    ensures r.Valid() && Finished(r.tab.rows, r.tab.n, q)
    ensures var p := r.tab.rows[q + r.tab.n]; p.x[q] && !p.z[q] && NoX(p, q, r.tab.n) && NoZ(p, q, r.tab.n)
    ensures HCount(r.ops) == old(HCount(r.ops))
    ensures old(DiagonalStabilizers(r.tab.rows, r.tab.n)) ==> DiagonalStabilizers(r.tab.rows, r.tab.n)
  {
    hide Recorder.OnlyCX, Symplectic, Finished, BitsAfter, HCount, DiagonalStabilizers, MapOps, WellFormedAll, Plain;
    var d := q + r.tab.n;
    if !r.tab.rows[d].z[q] {
      ghost var p := r.tab.rows[d];
      AddOnTail(r, S(q), q);
      UnderS(p, r.tab.rows[d], q);
    }
    assert NoZ(r.tab.rows[d], q, q + 1);
    ClearDestabZ(r, q);
    ghost var p := r.tab.rows[d];
    AddOnTail(r, S(q), q);
    UnderS(p, r.tab.rows[d], q);
  }

  lemma AllClear(p: Pauli, q: nat)
    requires q < |p.z| && forall t :: q <= t < |p.z| ==> !p.z[t]
    ensures NoZ(p, q, |p.z|) && !p.z[q]
  {
  }

  lemma OnlyX(p: Pauli, q: nat, n: nat)
    requires p.Sized(n) && q < n && CleanBelow(p, q) && NoX(p, q, n) && NoZ(p, q, n) && p.x[q] && !p.z[q]
    ensures IsX(p, q)
  {
  }

  lemma OnlyZ(p: Pauli, q: nat, n: nat)
    requires p.Sized(n) && q < n && CleanBelow(p, q) && NoX(p, q, n) && NoZ(p, q, n) && p.z[q] && !p.x[q]
    ensures IsZ(p, q)
  {
  }

  /** Whether a bit is set from q on. */
  method SomeBit(bits: seq<bool>, q: nat) returns (found: bool)
    requires q < |bits|
    ensures found == exists t :: q <= t < |bits| && bits[t]
  {
    found := false;
    for t := q to |bits|
      invariant found == exists k :: q <= k < t && bits[k]
    {
      found := found || bits[t];
    }
  }

  lemma ClearingXStep(p: Pauli, p': Pauli, q: nat, t: nat)
    requires q < t < |p.x| && |p.z| == |p.x| && p.x[q] && NoX(p, q, t)
    requires if p.x[t] then BitsAfter(CX(q, t), p, p') else p' == p
    ensures |p'.x| == |p.x| && p'.x[q] && NoX(p', q, t + 1)
    ensures NoZ(p, q, |p.z|) ==> NoZ(p', q, |p.z|)
    ensures IsZ(p, q) ==> IsZ(p', q)
  {
    if p.x[t] {
      FromControl(p, p', q, t);
    }
  }

  method ClearDestabX(r: Recorder, q: nat)
    requires r.Valid() && q < r.tab.n && Finished(r.tab.rows, r.tab.n, q)
    requires r.tab.rows[q + r.tab.n].x[q]
    modifies r, r.tab
    ensures r.Valid() && Finished(r.tab.rows, r.tab.n, q)
    ensures r.tab.rows[q + r.tab.n].x[q] && NoX(r.tab.rows[q + r.tab.n], q, r.tab.n)
    ensures HCount(r.ops) == old(HCount(r.ops))
    ensures old(DiagonalStabilizers(r.tab.rows, r.tab.n)) ==> DiagonalStabilizers(r.tab.rows, r.tab.n)
    ensures old(r.OnlyCX()) ==> r.OnlyCX()
  {
    var n, d := r.tab.n, q + r.tab.n;
    var targ := q + 1;
    assert NoX(r.tab.rows[d], q, targ);
    hide Recorder.OnlyCX, Symplectic, Finished, BitsAfter, HCount, DiagonalStabilizers, MapOps, WellFormedAll, Plain, NoX, NoZ;
    while targ < n
      invariant q < targ <= n && r.Valid() && Finished(r.tab.rows, n, q)
      invariant r.tab.rows[d].x[q] && NoX(r.tab.rows[d], q, targ)
      invariant HCount(r.ops) == old(HCount(r.ops))
      invariant old(DiagonalStabilizers(r.tab.rows, r.tab.n)) ==> DiagonalStabilizers(r.tab.rows, n)
      invariant old(r.OnlyCX()) ==> r.OnlyCX()
    {
      ghost var p := r.tab.rows[d];
      if r.tab.rows[d].x[targ] {
        AddOnTail(r, CX(q, targ), q);
      }
      ClearingXStep(p, r.tab.rows[d], q, targ);
      targ := targ + 1;
    }
  }

  /** p has Y at q, no other x from q on, and no z between q and k. */
  ghost predicate ClearingZ(p: Pauli, q: nat, k: nat) {
    |p.x| == |p.z| && q < k <= |p.z| && p.z[q] && p.x[q] && NoX(p, q, |p.x|) && NoZ(p, q, k)
  }

  lemma ClearingZStep(p: Pauli, p': Pauli, q: nat, c: nat)
    requires ClearingZ(p, q, c) && c < |p.z|
    requires if p.z[c] then BitsAfter(CX(c, q), p, p') else p' == p
    ensures ClearingZ(p', q, c + 1)
  {
    if p.z[c] {
      IntoTarget(p, p', c, q);
    }
  }

  method ClearDestabZ(r: Recorder, q: nat)
    requires r.Valid() && q < r.tab.n && Finished(r.tab.rows, r.tab.n, q)
    requires ClearingZ(r.tab.rows[q + r.tab.n], q, q + 1)
    modifies r, r.tab
    ensures r.Valid() && Finished(r.tab.rows, r.tab.n, q)
    ensures ClearingZ(r.tab.rows[q + r.tab.n], q, r.tab.n)
    ensures HCount(r.ops) == old(HCount(r.ops))
    ensures old(DiagonalStabilizers(r.tab.rows, r.tab.n)) ==> DiagonalStabilizers(r.tab.rows, r.tab.n)
  {
    hide Recorder.OnlyCX, Symplectic, Finished, BitsAfter, HCount, DiagonalStabilizers, MapOps, WellFormedAll, Plain, NoX, NoZ, ClearingZ;
    var n, d := r.tab.n, q + r.tab.n;
    var ctrl := q + 1;
    while ctrl < n
      invariant q < ctrl <= n && r.Valid() && Finished(r.tab.rows, n, q)
      invariant ClearingZ(r.tab.rows[d], q, ctrl)
      invariant HCount(r.ops) == old(HCount(r.ops))
      invariant old(DiagonalStabilizers(r.tab.rows, r.tab.n)) ==> DiagonalStabilizers(r.tab.rows, n)
    {
      ghost var p := r.tab.rows[d];
      if r.tab.rows[d].z[ctrl] {
        AddOnTail(r, CX(ctrl, q), q);
      }
      ClearingZStep(p, r.tab.rows[d], q, ctrl);
      ctrl := ctrl + 1;
    }
  }

  /** The stabilizer s anticommutes with +-X_q, so it has a z bit at q. */
  lemma MainZBit(s: Pauli, d: Pauli, q: nat)
    requires s.Sized(|s.z|) && d.Sized(|s.z|) && q < |s.z| && IsX(d, q) && !Commute(s, d)
    ensures s.z[q]
  {
    OnlyPowerAt(s, d, q, |s.z|);
  }

  /** Clears the stabilizer of q down to +-Z_q, keeping the destabilizer at +-X_q. */
  method MakeStabZOffDiag(r: Recorder, q: nat)
    requires r.Valid() && q < r.tab.n && Finished(r.tab.rows, r.tab.n, q)
    requires IsX(r.tab.rows[q + r.tab.n], q)
    modifies r, r.tab
    ensures r.Valid() && Finished(r.tab.rows, r.tab.n, q + 1)
    ensures old(DiagonalStabilizers(r.tab.rows, r.tab.n)) ==>
              DiagonalStabilizers(r.tab.rows, r.tab.n) && HCount(r.ops) == old(HCount(r.ops))
    ensures old(r.OnlyCX()) ==> r.OnlyCX()
  {
    hide Recorder.OnlyCX, Symplectic, Finished, BitsAfter, IsX, IsZ, HCount, DiagonalStabilizers, MapOps, WellFormedAll, Plain;
    var n, d := r.tab.n, q + r.tab.n;
    StabilizerMeetsDestabilizer(r.tab.rows, n, q);
    ClearStabZ(r, q);
    if DiagonalStabilizers(r.tab.rows, n) {
      DiagonalRow(r.tab.rows, n, q);
    }
    var someX := SomeBit(r.tab.rows[q].x, q);
    if r.OnlyCX() {
      PureRows(r, q);
    }
    if !someX {
      NoneSet(r.tab.rows[q], q);
    } else {
      RotateStabX(r, q);
    }
    UnfinishedIsClean(r.tab.rows, n, q, q);
    OnlyZ(r.tab.rows[q], q, n);
    FinishedOneMore(r.tab.rows, n, q);
  }

  lemma NoneSet(p: Pauli, q: nat)
    requires q < |p.x| && forall t :: q <= t < |p.x| ==> !p.x[t]
    ensures NoX(p, q, |p.x|) && !p.x[q]
  {
  }

  /** H at q: the destabilizer turns between X and Z, the stabilizer swaps its bits at q. */
  method AddTurn(r: Recorder, q: nat)
    requires r.Valid() && q < r.tab.n && Finished(r.tab.rows, r.tab.n, q)
    requires NoZ(r.tab.rows[q], q, r.tab.n)
    modifies r, r.tab
    ensures r.Valid() && Finished(r.tab.rows, r.tab.n, q)
    ensures NoZ(r.tab.rows[q], q, r.tab.n)
    ensures r.tab.rows[q].z[q] == old(r.tab.rows)[q].x[q] && r.tab.rows[q].x[q] == old(r.tab.rows)[q].z[q]
    ensures NoX(old(r.tab.rows)[q], q, r.tab.n) ==> NoX(r.tab.rows[q], q, r.tab.n)
    ensures old(IsX(r.tab.rows[q + r.tab.n], q)) ==> IsZ(r.tab.rows[q + r.tab.n], q)
    ensures old(IsZ(r.tab.rows[q + r.tab.n], q)) ==> IsX(r.tab.rows[q + r.tab.n], q)
  {
    hide Symplectic, Finished, BitsAfter, IsX, IsZ, HCount, DiagonalStabilizers, MapOps, WellFormedAll, Plain, NoX, NoZ;
    ghost var p, s := r.tab.rows[q + r.tab.n], r.tab.rows[q];
    AddOnTail(r, H(q), q);
    UnderH(p, r.tab.rows[q + r.tab.n], q);
    UnderH(s, r.tab.rows[q], q);
  }

  /** Turns the stabilizer's z bit into an x bit, clears the other x bits from it and turns it back. */
  method RotateStabX(r: Recorder, q: nat)
    requires r.Valid() && q < r.tab.n && Finished(r.tab.rows, r.tab.n, q)
    requires IsX(r.tab.rows[q + r.tab.n], q) && r.tab.rows[q].z[q] && NoZ(r.tab.rows[q], q, r.tab.n)
    modifies r, r.tab
    ensures r.Valid() && Finished(r.tab.rows, r.tab.n, q)
    ensures IsX(r.tab.rows[q + r.tab.n], q) && r.tab.rows[q].z[q] && !r.tab.rows[q].x[q]
    ensures NoZ(r.tab.rows[q], q, r.tab.n) && NoX(r.tab.rows[q], q, r.tab.n)
  {
    hide Symplectic, Finished, BitsAfter, IsX, IsZ, HCount, DiagonalStabilizers, MapOps, WellFormedAll, Plain, NoX, NoZ;
    AddTurn(r, q);
    ClearStabX(r, q);
    if r.tab.rows[q].z[q] {
      ghost var p, s := r.tab.rows[q + r.tab.n], r.tab.rows[q];
      AddOnTail(r, S(q), q);
      UnderS(p, r.tab.rows[q + r.tab.n], q);
      UnderS(s, r.tab.rows[q], q);
    }
    AddTurn(r, q);
  }

  lemma StabilizerMeetsDestabilizer(rows: seq<Pauli>, n: nat, q: nat)
    requires Symplectic(rows, n) && q < n && IsX(rows[q + n], q)
    ensures rows[q].z[q]
  {
    assert !Commute(rows[q], rows[q + n]);
    MainZBit(rows[q], rows[q + n], q);
  }

  lemma FinishedOneMore(rows: seq<Pauli>, n: nat, q: nat)
    requires Shaped(rows, n) && q < n && Finished(rows, n, q) && IsZ(rows[q], q) && IsX(rows[q + n], q)
    ensures Finished(rows, n, q + 1)
  {
    forall i | 0 <= i < q + 1
      ensures IsZ(rows[i], i) && IsX(rows[i + n], i)
    {
      if i < q {
        assert IsZ(rows[i], i);
      }
    }
  }

  lemma ClearingStabStep(s: Pauli, s': Pauli, d: Pauli, d': Pauli, q: nat, c: nat)
    requires q < c < |s.z| && |s.x| == |s.z| && s.z[q] && NoZ(s, q, c) && IsX(d, q) && |d.z| == |s.z|
    requires if s.z[c] then BitsAfter(CX(c, q), s, s') && BitsAfter(CX(c, q), d, d') else s' == s && d' == d
    ensures |s'.z| == |s.z| && s'.z[q] && NoZ(s', q, c + 1) && IsX(d', q)
  {
    if s.z[c] {
      IntoTarget(s, s', c, q);
      IntoTarget(d, d', c, q);
    }
  }

  method ClearStabZ(r: Recorder, q: nat)
    requires r.Valid() && q < r.tab.n && Finished(r.tab.rows, r.tab.n, q)
    requires IsX(r.tab.rows[q + r.tab.n], q) && r.tab.rows[q].z[q]
    modifies r, r.tab
    ensures r.Valid() && Finished(r.tab.rows, r.tab.n, q)
    ensures IsX(r.tab.rows[q + r.tab.n], q) && r.tab.rows[q].z[q] && NoZ(r.tab.rows[q], q, r.tab.n)
    ensures HCount(r.ops) == old(HCount(r.ops))
    ensures old(DiagonalStabilizers(r.tab.rows, r.tab.n)) ==> DiagonalStabilizers(r.tab.rows, r.tab.n)
    ensures old(r.OnlyCX()) ==> r.OnlyCX()
  {
    var n, d := r.tab.n, q + r.tab.n;
    var ctrl := q + 1;
    assert NoZ(r.tab.rows[q], q, ctrl);
    hide Recorder.OnlyCX, Symplectic, Finished, BitsAfter, IsX, HCount, DiagonalStabilizers, MapOps, WellFormedAll, Plain, NoX, NoZ;
    while ctrl < n
      invariant q < ctrl <= n && r.Valid() && Finished(r.tab.rows, n, q)
      invariant IsX(r.tab.rows[d], q) && r.tab.rows[q].z[q] && NoZ(r.tab.rows[q], q, ctrl)
      invariant HCount(r.ops) == old(HCount(r.ops))
      invariant old(DiagonalStabilizers(r.tab.rows, r.tab.n)) ==> DiagonalStabilizers(r.tab.rows, n)
      invariant old(r.OnlyCX()) ==> r.OnlyCX()
    {
      ghost var p, s := r.tab.rows[d], r.tab.rows[q];
      if r.tab.rows[q].z[ctrl] {
        AddOnTail(r, CX(ctrl, q), q);
      }
      ClearingStabStep(s, r.tab.rows[q], p, r.tab.rows[d], q, ctrl);
      ctrl := ctrl + 1;
    }
  }

  lemma ClearingRotatedStep(s: Pauli, s': Pauli, d: Pauli, d': Pauli, q: nat, t: nat)
    requires q < t < |s.x| && |s.x| == |s.z| && s.x[q] && NoX(s, q, t) && NoZ(s, q, |s.z|) && IsZ(d, q) && |d.z| == |s.z|
    requires if s.x[t] then BitsAfter(CX(q, t), s, s') && BitsAfter(CX(q, t), d, d') else s' == s && d' == d
    ensures |s'.x| == |s.x| && s'.x[q] && NoX(s', q, t + 1) && NoZ(s', q, |s.z|) && IsZ(d', q)
  {
    ClearingXStep(s, s', q, t);
    if s.x[t] {
      FromControl(d, d', q, t);
    }
  }

  method ClearStabX(r: Recorder, q: nat)
    requires r.Valid() && q < r.tab.n && Finished(r.tab.rows, r.tab.n, q)
    requires IsZ(r.tab.rows[q + r.tab.n], q) && r.tab.rows[q].x[q] && NoZ(r.tab.rows[q], q, r.tab.n)
    modifies r, r.tab
    ensures r.Valid() && Finished(r.tab.rows, r.tab.n, q)
    ensures IsZ(r.tab.rows[q + r.tab.n], q) && r.tab.rows[q].x[q]
    ensures NoZ(r.tab.rows[q], q, r.tab.n) && NoX(r.tab.rows[q], q, r.tab.n)
  {
    var n, d := r.tab.n, q + r.tab.n;
    var targ := q + 1;
    assert NoX(r.tab.rows[q], q, targ);
    hide Symplectic, Finished, BitsAfter, IsZ, HCount, DiagonalStabilizers, MapOps, WellFormedAll, Plain, NoX, NoZ;
    while targ < n
      invariant q < targ <= n && r.Valid() && Finished(r.tab.rows, n, q)
      invariant IsZ(r.tab.rows[d], q) && r.tab.rows[q].x[q]
      invariant NoZ(r.tab.rows[q], q, n) && NoX(r.tab.rows[q], q, targ)
    {
      ghost var p, s := r.tab.rows[d], r.tab.rows[q];
      if r.tab.rows[q].x[targ] {
        AddOnTail(r, CX(q, targ), q);
      }
      ClearingRotatedStep(s, r.tab.rows[q], p, r.tab.rows[d], q, targ);
      targ := targ + 1;
    }
  }

  // ---------------------------------------------------------------- signs

  /** X and Z at q flip exactly the rows with a z bit, or an x bit, at q. */
  lemma SignFlip(op: Op, p: Pauli)
    requires p.Sized(|p.z|) && op.q0 < |p.z| && (op.kind.OpX? || op.kind.OpZ?)
    ensures ApplyAll([op], p) == Flip(p, if op.kind.OpX? then p.z[op.q0] else p.x[op.q0])
  {
    hide Run, Conj;
    ApplyAllOne(op, p);
    if op.kind.OpX? {
      XFlips(op.q0, p);
    } else {
      ZFlips(op.q0, p);
    }
  }

  /** All rows are finished and those of the first q qubits are positive. */
  ghost predicate Signed(rows: seq<Pauli>, n: nat, q: nat)
    requires Shaped(rows, n)
  {
    && q <= n && Finished(rows, n, n)
    && forall i: nat :: i < q ==> Positive(rows, n, i)
  }

  ghost predicate Positive(rows: seq<Pauli>, n: nat, i: nat)
    requires |rows| == 2 * n && i < n
  {
    !rows[i].neg && !rows[i + n].neg
  }

  /** Flips the sign of one row of qubit q; all other rows keep theirs. */
  method AddSign(r: Recorder, kind: OpKind, q: nat)
    requires r.Valid() && q < r.tab.n && Finished(r.tab.rows, r.tab.n, r.tab.n) && (kind.OpX? || kind.OpZ?)
    modifies r, r.tab
    ensures r.Valid() && HCount(r.ops) == old(HCount(r.ops))
    ensures forall i :: 0 <= i < 2 * r.tab.n ==>
              r.tab.rows[i] == Flip(old(r.tab.rows)[i], i == if kind.OpX? then q else q + r.tab.n)
  {
    hide Symplectic, Finished, ApplyAll;
    ghost var rows, n := r.tab.rows, r.tab.n;
    var op := Op(kind, q, 0);
    r.Add(op);
    forall i: nat | i < 2 * n
      ensures r.tab.rows[i] == Flip(rows[i], i == if kind.OpX? then q else q + n)
    {
      SignOfRow(op, rows, n, i);
    }
  }

  lemma SignOfRow(op: Op, rows: seq<Pauli>, n: nat, i: nat)
    requires Shaped(rows, n) && Finished(rows, n, n) && op.q0 < n && (op.kind.OpX? || op.kind.OpZ?) && i < 2 * n
    ensures ApplyAll([op], rows[i]) == Flip(rows[i], i == if op.kind.OpX? then op.q0 else op.q0 + n)
  {
    hide ApplyAll;
    SignFlip(op, rows[i]);
    if i < n {
      assert IsZ(rows[i], i);
    } else {
      assert IsZ(rows[i - n], i - n) && IsX(rows[i - n + n], i - n);
    }
  }

  lemma FlippedIsFinished(rows: seq<Pauli>, rows': seq<Pauli>, n: nat)
    requires Shaped(rows, n) && Shaped(rows', n) && Finished(rows, n, n)
    requires forall i :: 0 <= i < 2 * n ==> rows'[i].z == rows[i].z && rows'[i].x == rows[i].x
    ensures Finished(rows', n, n)
  {
    forall i | 0 <= i < n
      ensures IsZ(rows'[i], i) && IsX(rows'[i + n], i)
    {
      assert IsZ(rows[i], i);
    }
  }

  method FixSigns(r: Recorder)
    requires r.Valid() && Finished(r.tab.rows, r.tab.n, r.tab.n)
    modifies r, r.tab
    ensures r.Valid() && r.tab.rows == IdentityRows(r.tab.n)
    ensures HCount(r.ops) == old(HCount(r.ops))
    ensures old(r.OnlyCX()) ==> r.OnlyCX()
  {
    hide Recorder.OnlyCX, Symplectic, Finished;
    var n, q := r.tab.n, 0;
    while q < n
      invariant q <= n && r.Valid() && Signed(r.tab.rows, n, q) && HCount(r.ops) == old(HCount(r.ops))
      invariant old(r.OnlyCX()) ==> r.OnlyCX()
    {
      if r.OnlyCX() {
        PureRows(r, q);
      }
      ghost var rows := r.tab.rows;
      if r.tab.rows[q].neg {
        AddSign(r, OpX, q);
        FlippedIsFinished(rows, r.tab.rows, n);
      }
      if r.tab.rows[q + n].neg {
        ghost var rows1 := r.tab.rows;
        AddSign(r, OpZ, q);
        FlippedIsFinished(rows1, r.tab.rows, n);
      }
      SignedOneMore(rows, r.tab.rows, n, q);
      q := q + 1;
    }
    SignedIsIdentity(r.tab.rows, n);
  }

  lemma SignedOneMore(rows: seq<Pauli>, rows': seq<Pauli>, n: nat, q: nat)
    requires Shaped(rows, n) && Shaped(rows', n) && q < n && Signed(rows, n, q) && Finished(rows', n, n)
    requires forall i :: 0 <= i < 2 * n && i != q && i != q + n ==> rows'[i].neg == rows[i].neg
    requires !rows'[q].neg && !rows'[q + n].neg
    ensures Signed(rows', n, q + 1)
  {
    forall i: nat | i < q + 1
      ensures Positive(rows', n, i)
    {
      if i < q {
        assert Positive(rows, n, i);
      }
    }
  }

  lemma SignedIsIdentity(rows: seq<Pauli>, n: nat)
    requires Shaped(rows, n) && Signed(rows, n, n)
    ensures rows == IdentityRows(n)
  {
    forall i | 0 <= i < 2 * n
      ensures rows[i] == BasisRow(i, n)
    {
      var j := if i < n then i else i - n;
      assert IsZ(rows[j], j) && IsX(rows[j + n], j) && Positive(rows, n, j);
      assert rows[j].z == Unit(n, j) && rows[j].x == Zeros(n);
      assert rows[j + n].z == Zeros(n) && rows[j + n].x == Unit(n, j);
    }
  }

  // ---------------------------------------------------------------- the synthesis

  lemma NothingFinished(rows: seq<Pauli>, n: nat)
    requires Shaped(rows, n)
    ensures Finished(rows, n, 0)
  {
  }

  /** Operators that build exactly the given tableau, signs included. A diagonal
      stabilizer block needs no H. */
  method Synthesize(copy: StabilizerTableau) returns (ops: seq<Op>)
    requires copy.Valid() && Symplectic(copy.rows, copy.n)
    modifies copy
    ensures WellFormedAll(ops, copy.n) && Plain(ops) && TableauOf(ops, copy.n) == old(copy.rows)
    ensures old(DiagonalStabilizers(copy.rows, copy.n)) ==> HCount(ops) == 0
    ensures old(Linear(copy.rows, copy.n)) ==> CXOnly(ops, copy.n)
  {
    hide Recorder.OnlyCX, Linear, Symplectic, Finished, DiagonalStabilizers, MapOps, ApplyAll;
    var r := new Recorder(copy);
    NothingFinished(copy.rows, copy.n);
    NothingRecorded(r);
    var n, q := copy.n, 0;
    while q < n
      invariant q <= n && r.tab == copy && r.start == old(copy.rows) && fresh(r)
      invariant r.Valid() && Finished(copy.rows, n, q)
      invariant old(DiagonalStabilizers(copy.rows, copy.n)) ==>
                  DiagonalStabilizers(copy.rows, n) && HCount(r.ops) == 0
      invariant old(Linear(copy.rows, copy.n)) ==> r.OnlyCX()
    {
      MakeDestabXMainDiag(r, q);
      MakeDestabXOffDiag(r, q);
      MakeStabZOffDiag(r, q);
      q := q + 1;
    }
    FixSigns(r);
    ops := AdjointAll(r.ops);
    AdjointAllWellFormed(r.ops, n);
    HCountAdjoint(r.ops);
    MapOpsAdjoint(r.ops, r.start, n);
    if r.OnlyCX() {
      CXAdjoint(r);
    }
  }

  lemma NothingRecorded(r: Recorder)
    requires r.Valid() && r.ops == []
    ensures Linear(r.tab.rows, r.tab.n) ==> r.OnlyCX()
  {
  }

  lemma CXAdjoint(r: Recorder)
    requires r.OnlyCX()
    ensures CXOnly(AdjointAll(r.ops), r.tab.n)
  {
  }
}
