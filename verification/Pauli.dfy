/** Signed Pauli products: n pairs of bits and a sign, with the product that drops a
    factor i, and conjugation by H, S and CX. */
module Paulis {

  // ---------------------------------------------------------------- values

  datatype PauliType = I | X | Y | Z

  datatype Pauli = Pauli(z: seq<bool>, x: seq<bool>, neg: bool) {

    ghost predicate Sized(n: nat) {
      |z| == n && |x| == n
    }

    function Type(i: nat): PauliType
      requires i < |z| && i < |x|
    {
      if z[i] then (if x[i] then Y else Z) else (if x[i] then X else I)
    }

    function Negate(): Pauli {
      this.(neg := !neg)
    }

    predicate IsIdentity() {
      (forall i :: 0 <= i < |z| ==> !z[i]) && (forall i :: 0 <= i < |x| ==> !x[i])
    }

    predicate IsDiagonal() {
      forall i :: 0 <= i < |x| ==> !x[i]
    }
  }

  function Zeros(n: nat): (s: seq<bool>)
    ensures |s| == n && forall i :: 0 <= i < n ==> !s[i]
  {
    seq(n, _ => false)
  }

  function Unit(n: nat, q: nat): (s: seq<bool>)
    ensures |s| == n && forall i :: 0 <= i < n ==> s[i] == (i == q)
  {
    seq(n, i => i == q)
  }

  function Identity(n: nat): Pauli {
    Pauli(Zeros(n), Zeros(n), false)
  }

  function ZAt(n: nat, q: nat): Pauli {
    Pauli(Unit(n, q), Zeros(n), false)
  }

  function XAt(n: nat, q: nat): Pauli {
    Pauli(Zeros(n), Unit(n, q), false)
  }

  function Xor(a: seq<bool>, b: seq<bool>): (s: seq<bool>)
    requires |a| == |b|
    ensures |s| == |a| && forall i :: 0 <= i < |a| ==> s[i] == (a[i] != b[i])
  {
    seq(|a|, i requires 0 <= i < |a| => a[i] != b[i])
  }

  // ---------------------------------------------------------------- product

  /** The exponent k with a * b == i^k * (a xor b), for single Paulis. */
  function PowerOfI(a: PauliType, b: PauliType): nat {
    match a
    case I => 0
    case X => if b == Y then 1 else if b == Z then 3 else 0
    case Y => if b == Z then 1 else if b == X then 3 else 0
    case Z => if b == X then 1 else if b == Y then 3 else 0
  }

  /** Both a and b have qubit j. */
  ghost predicate Has(a: Pauli, b: Pauli, j: nat) {
    j < |a.z| && j < |a.x| && j < |b.z| && j < |b.x|
  }

  /** Whether a and b anticommute at qubit j: the low bit of the exponent there. */
  predicate OddAt(a: Pauli, b: Pauli, j: nat)
    requires Has(a, b, j)
  {
    (a.z[j] && b.x[j]) != (a.x[j] && b.z[j])
  }

  /** The high bit of the exponent at qubit j: set for XZ, ZY and YX. */
  predicate HalfAt(a: Pauli, b: Pauli, j: nat)
    requires Has(a, b, j)
  {
    || (!a.z[j] && a.x[j] && b.z[j] && !b.x[j])
    || (a.z[j] && !a.x[j] && b.z[j] && b.x[j])
    || (a.z[j] && a.x[j] && !b.z[j] && b.x[j])
  }

  /** Parity of the exponents over the first k qubits. */
  predicate OddUpTo(a: Pauli, b: Pauli, k: nat)
    requires k > 0 ==> Has(a, b, k - 1)
  {
    k > 0 && (OddUpTo(a, b, k - 1) != OddAt(a, b, k - 1))
  }

  /** High bit of the sum of the exponents over the first k qubits, modulo 4. */
  predicate HalfUpTo(a: Pauli, b: Pauli, k: nat)
    requires k > 0 ==> Has(a, b, k - 1)
  {
    k > 0 && ((HalfUpTo(a, b, k - 1) != HalfAt(a, b, k - 1)) != (OddUpTo(a, b, k - 1) && OddAt(a, b, k - 1)))
  }

  function Commute(a: Pauli, b: Pauli): bool
    requires a.Sized(|a.z|) && b.Sized(|a.z|)
  {
    !OddUpTo(a, b, |a.z|)
  }

  /** Product with a factor i dropped when a and b anticommute. */
  function Mul(a: Pauli, b: Pauli): Pauli
    requires a.Sized(|a.z|) && b.Sized(|a.z|)
  {
    Pauli(Xor(a.z, b.z), Xor(a.x, b.x), (a.neg != b.neg) != HalfUpTo(a, b, |a.z|))
  }

  lemma MulSized(a: Pauli, b: Pauli, n: nat)
    requires a.Sized(n) && b.Sized(n)
    ensures Mul(a, b).Sized(n)
  {
  }

  // ---------------------------------------------------------------- conjugation

  datatype Gate = H(q: nat) | S(q: nat) | CX(c: nat, t: nat)

  /** A gate that acts: its qubits exist, and a CX has two different ones. */
  ghost predicate Proper(g: Gate, n: nat) {
    match g
    case H(q) => q < n
    case S(q) => q < n
    case CX(c, t) => c < n && t < n && c != t
  }

  /** Conjugation of p by g. A gate on a missing qubit does nothing. */
  function Conj(g: Gate, p: Pauli): Pauli
    requires p.Sized(|p.z|)
  {
    var n := |p.z|;
    match g
    case H(q) =>
      if q >= n then p
      else Pauli(p.z[q := p.x[q]], p.x[q := p.z[q]], p.neg != (p.z[q] && p.x[q]))
    case S(q) =>
      if q >= n then p
      else Pauli(p.z[q := p.z[q] != p.x[q]], p.x, p.neg != (p.z[q] && p.x[q]))
    case CX(c, t) =>
      if c >= n || t >= n then p
      else Pauli(p.z[c := p.z[c] != p.z[t]], p.x[t := p.x[t] != p.x[c]],
                 p.neg != (p.x[c] && p.z[t] && p.x[t] == p.z[c]))
  }

  lemma ConjSized(g: Gate, p: Pauli, n: nat)
    requires p.Sized(n)
    ensures Conj(g, p).Sized(n)
  {
  }

  // ---------------------------------------------------------------- product lemmas

  /** The two bits are the exponent the table lists. */
  lemma PowerOfIBits(a: Pauli, b: Pauli, j: nat)
    requires Has(a, b, j)
    ensures PowerOfI(a.Type(j), b.Type(j)) == (if HalfAt(a, b, j) then 2 else 0) + (if OddAt(a, b, j) then 1 else 0)
  {
  }

  ghost predicate SameExcept(a: seq<bool>, b: seq<bool>, q: nat) {
    |a| == |b| && forall i {:trigger a[i]} {:trigger b[i]} :: 0 <= i < |a| && i != q ==> a[i] == b[i]
  }

  /** Changing the factors at one qubit changes the exponent by the change there. */
  lemma {:induction false} PowerFrame(a: Pauli, b: Pauli, a': Pauli, b': Pauli, k: nat, q: nat)
    requires a.Sized(|a.z|) && b.Sized(|a.z|) && a'.Sized(|a.z|) && b'.Sized(|a.z|) && k <= |a.z|
    requires SameExcept(a.z, a'.z, q) && SameExcept(a.x, a'.x, q)
    requires SameExcept(b.z, b'.z, q) && SameExcept(b.x, b'.x, q)
    ensures q >= k ==> OddUpTo(a', b', k) == OddUpTo(a, b, k) && HalfUpTo(a', b', k) == HalfUpTo(a, b, k)
    ensures q < k ==> (OddUpTo(a', b', k) != OddAt(a, b, q)) == (OddUpTo(a, b, k) != OddAt(a', b', q))
    ensures q < k ==> ((HalfUpTo(a', b', k) != HalfAt(a, b, q)) != (OddUpTo(a', b', k) && OddAt(a, b, q))) ==
                      ((HalfUpTo(a, b, k) != HalfAt(a', b', q)) != (OddUpTo(a, b, k) && OddAt(a', b', q)))
  {
    if k > 0 {
      PowerFrame(a, b, a', b', k - 1, q);
      if q != k - 1 {
        assert OddAt(a, b, k - 1) == OddAt(a', b', k - 1);
        assert HalfAt(a, b, k - 1) == HalfAt(a', b', k - 1);
      }
    }
  }

  /** Exponents of (ab)c and a(bc) agree. */
  lemma {:induction false} PowerCocycle(a: Pauli, b: Pauli, c: Pauli, ab: Pauli, bc: Pauli, k: nat)
    requires a.Sized(|a.z|) && b.Sized(|a.z|) && c.Sized(|a.z|) && k <= |a.z|
    requires ab.z == Xor(a.z, b.z) && ab.x == Xor(a.x, b.x) && bc.z == Xor(b.z, c.z) && bc.x == Xor(b.x, c.x)
    ensures (OddUpTo(a, b, k) != OddUpTo(ab, c, k)) == (OddUpTo(b, c, k) != OddUpTo(a, bc, k))
    ensures ((HalfUpTo(a, b, k) != HalfUpTo(ab, c, k)) != (OddUpTo(a, b, k) && OddUpTo(ab, c, k))) ==
            ((HalfUpTo(b, c, k) != HalfUpTo(a, bc, k)) != (OddUpTo(b, c, k) && OddUpTo(a, bc, k)))
  {
    if k > 0 {
      PowerCocycle(a, b, c, ab, bc, k - 1);
      CocycleAt(a, b, c, ab, bc, k - 1);
    }
  }

  lemma CocycleAt(a: Pauli, b: Pauli, c: Pauli, ab: Pauli, bc: Pauli, j: nat)
    requires a.Sized(|a.z|) && b.Sized(|a.z|) && c.Sized(|a.z|) && j < |a.z|
    requires ab.z == Xor(a.z, b.z) && ab.x == Xor(a.x, b.x) && bc.z == Xor(b.z, c.z) && bc.x == Xor(b.x, c.x)
    ensures (OddAt(a, b, j) != OddAt(ab, c, j)) == (OddAt(b, c, j) != OddAt(a, bc, j))
    ensures ((HalfAt(a, b, j) != HalfAt(ab, c, j)) != (OddAt(a, b, j) && OddAt(ab, c, j))) ==
            ((HalfAt(b, c, j) != HalfAt(a, bc, j)) != (OddAt(b, c, j) && OddAt(a, bc, j)))
  {
  }

  /** Swapping the factors negates the exponent. */
  lemma {:induction false} PowerSwap(a: Pauli, b: Pauli, k: nat)
    requires a.Sized(|a.z|) && b.Sized(|a.z|) && k <= |a.z|
    ensures OddUpTo(a, b, k) == OddUpTo(b, a, k)
    ensures HalfUpTo(b, a, k) == (HalfUpTo(a, b, k) != OddUpTo(a, b, k))
  {
    if k > 0 {
      PowerSwap(a, b, k - 1);
    }
  }

  lemma CommuteSymmetric(a: Pauli, b: Pauli)
    requires a.Sized(|a.z|) && b.Sized(|a.z|)
    ensures Commute(a, b) == Commute(b, a)
  {
    PowerSwap(a, b, |a.z|);
  }

  /** Commuting factors give the same product in either order; anticommuting ones opposite products. */
  lemma MulSwap(a: Pauli, b: Pauli)
    requires a.Sized(|a.z|) && b.Sized(|a.z|)
    ensures Mul(a, b) == if Commute(a, b) then Mul(b, a) else Mul(b, a).Negate()
  {
    PowerSwap(a, b, |a.z|);
    assert Xor(a.z, b.z) == Xor(b.z, a.z) && Xor(a.x, b.x) == Xor(b.x, a.x);
  }

  /** Commuting with a product is commuting with both or neither factor. */
  lemma {:induction false} OddOfXor(a: Pauli, b: Pauli, c: Pauli, bc: Pauli, k: nat)
    requires a.Sized(|a.z|) && b.Sized(|a.z|) && c.Sized(|a.z|) && k <= |a.z|
    requires bc.z == Xor(b.z, c.z) && bc.x == Xor(b.x, c.x)
    ensures OddUpTo(a, bc, k) == (OddUpTo(a, b, k) != OddUpTo(a, c, k))
  {
    if k > 0 {
      OddOfXor(a, b, c, bc, k - 1);
    }
  }

  lemma CommuteMul(a: Pauli, b: Pauli, c: Pauli)
    requires a.Sized(|a.z|) && b.Sized(|a.z|) && c.Sized(|a.z|)
    ensures Commute(a, Mul(b, c)) == (Commute(a, b) == Commute(a, c))
  {
    OddOfXor(a, b, c, Mul(b, c), |a.z|);
  }

  // ---------------------------------------------------------------- conjugation lemmas

  ghost predicate Flips(g: Gate, p: Pauli)
    requires p.Sized(|p.z|)
  {
    Conj(g, p).neg != p.neg
  }

  /** What conjugation by one gate does to the exponent of a product. */
  ghost predicate PowerMoves(g: Gate, a: Pauli, b: Pauli)
    requires a.Sized(|a.z|) && b.Sized(|a.z|)
  {
    var n, a', b' := |a.z|, Conj(g, a), Conj(g, b);
    && OddUpTo(a', b', n) == OddUpTo(a, b, n)
    && HalfUpTo(a', b', n) == (HalfUpTo(a, b, n) != ((Flips(g, a) != Flips(g, b)) != Flips(g, Mul(a, b))))
  }

  lemma ConjPowerH(q: nat, a: Pauli, b: Pauli)
    requires a.Sized(|a.z|) && b.Sized(|a.z|) && q < |a.z|
    ensures PowerMoves(H(q), a, b)
  {
    PowerFrame(a, b, Conj(H(q), a), Conj(H(q), b), |a.z|, q);
  }

  lemma ConjPowerS(q: nat, a: Pauli, b: Pauli)
    requires a.Sized(|a.z|) && b.Sized(|a.z|) && q < |a.z|
    ensures PowerMoves(S(q), a, b)
  {
    PowerFrame(a, b, Conj(S(q), a), Conj(S(q), b), |a.z|, q);
  }

  predicate FlipsCX(p: Pauli, c: nat, t: nat)
    requires Has(p, p, c) && Has(p, p, t)
  {
    p.x[c] && p.z[t] && p.x[t] == p.z[c]
  }

  /** The exponents at the two qubits of a CX, before and after. */
  lemma CXAt(c: nat, t: nat, a: Pauli, b: Pauli, m: Pauli, a1: Pauli, b1: Pauli, a2: Pauli, b2: Pauli)
    requires Has(a, b, c) && Has(a, b, t) && Has(a1, b1, c) && Has(a1, b1, t) && Has(a2, b2, t) && Has(m, m, c) && Has(m, m, t)
    requires a1.z[c] == (a.z[c] != a.z[t]) && b1.z[c] == (b.z[c] != b.z[t])
    requires a1.x[c] == a.x[c] && b1.x[c] == b.x[c]
    requires a1.z[t] == a.z[t] && a1.x[t] == a.x[t] && b1.z[t] == b.z[t] && b1.x[t] == b.x[t]
    requires a2.z[t] == a.z[t] && b2.z[t] == b.z[t]
    requires a2.x[t] == (a.x[t] != a.x[c]) && b2.x[t] == (b.x[t] != b.x[c])
    requires m.z[c] == (a.z[c] != b.z[c]) && m.z[t] == (a.z[t] != b.z[t])
    requires m.x[c] == (a.x[c] != b.x[c]) && m.x[t] == (a.x[t] != b.x[t])
    ensures (OddAt(a1, b1, c) != OddAt(a2, b2, t)) == (OddAt(a, b, c) != OddAt(a1, b1, t))
    ensures ((HalfAt(a1, b1, c) != HalfAt(a2, b2, t)) != (OddAt(a1, b1, c) && OddAt(a2, b2, t))) ==
            (((HalfAt(a, b, c) != HalfAt(a1, b1, t)) != (OddAt(a, b, c) && OddAt(a1, b1, t)))
             != ((FlipsCX(a, c, t) != FlipsCX(b, c, t)) != FlipsCX(m, c, t)))
  {
  }

  /** Changing qubit c and then qubit t, with a known change of the exponent. */
  lemma PowerFrameTwo(a: Pauli, b: Pauli, a1: Pauli, b1: Pauli, a2: Pauli, b2: Pauli, c: nat, t: nat, flip: bool)
    requires a.Sized(|a.z|) && b.Sized(|a.z|) && a1.Sized(|a.z|) && b1.Sized(|a.z|) && a2.Sized(|a.z|) && b2.Sized(|a.z|)
    requires c < |a.z| && t < |a.z|
    requires SameExcept(a.z, a1.z, c) && SameExcept(a.x, a1.x, c) && SameExcept(b.z, b1.z, c) && SameExcept(b.x, b1.x, c)
    requires SameExcept(a1.z, a2.z, t) && SameExcept(a1.x, a2.x, t) && SameExcept(b1.z, b2.z, t) && SameExcept(b1.x, b2.x, t)
    requires (OddAt(a1, b1, c) != OddAt(a2, b2, t)) == (OddAt(a, b, c) != OddAt(a1, b1, t))
    requires ((HalfAt(a1, b1, c) != HalfAt(a2, b2, t)) != (OddAt(a1, b1, c) && OddAt(a2, b2, t))) ==
             (((HalfAt(a, b, c) != HalfAt(a1, b1, t)) != (OddAt(a, b, c) && OddAt(a1, b1, t))) != flip)
    ensures OddUpTo(a2, b2, |a.z|) == OddUpTo(a, b, |a.z|)
    ensures HalfUpTo(a2, b2, |a.z|) == (HalfUpTo(a, b, |a.z|) != flip)
  {
    PowerFrame(a, b, a1, b1, |a.z|, c);
    PowerFrame(a1, b1, a2, b2, |a.z|, t);
  }

  lemma ConjCXBits(p: Pauli, p1: Pauli, c: nat, t: nat)
    requires p.Sized(|p.z|) && c < |p.z| && t < |p.z| && c != t
    requires p1 == Pauli(p.z[c := p.z[c] != p.z[t]], p.x, false)
    ensures var p2 := Conj(CX(c, t), p);
            && p2.Sized(|p.z|)
            && SameExcept(p.z, p1.z, c) && SameExcept(p.x, p1.x, c) && SameExcept(p1.z, p2.z, t) && SameExcept(p1.x, p2.x, t)
            && p1.z[c] == (p.z[c] != p.z[t]) && p1.x[c] == p.x[c] && p1.z[t] == p.z[t] && p1.x[t] == p.x[t]
            && p2.z[t] == p.z[t] && p2.x[t] == (p.x[t] != p.x[c])
            && Flips(CX(c, t), p) == FlipsCX(p, c, t)
  {
  }

  lemma ConjPowerCX(c: nat, t: nat, a: Pauli, b: Pauli)
    requires a.Sized(|a.z|) && b.Sized(|a.z|) && c < |a.z| && t < |a.z| && c != t
    ensures PowerMoves(CX(c, t), a, b)
  {
    var m := Mul(a, b);
    var a1, b1 := Pauli(a.z[c := a.z[c] != a.z[t]], a.x, false), Pauli(b.z[c := b.z[c] != b.z[t]], b.x, false);
    ConjCXBits(a, a1, c, t);
    ConjCXBits(b, b1, c, t);
    ConjCXBits(m, Pauli(m.z[c := m.z[c] != m.z[t]], m.x, false), c, t);
    var a2, b2 := Conj(CX(c, t), a), Conj(CX(c, t), b);
    CXAt(c, t, a, b, m, a1, b1, a2, b2);
    PowerFrameTwo(a, b, a1, b1, a2, b2, c, t, (FlipsCX(a, c, t) != FlipsCX(b, c, t)) != FlipsCX(m, c, t));
  }

  lemma ConjPower(g: Gate, a: Pauli, b: Pauli)
    requires a.Sized(|a.z|) && b.Sized(|a.z|) && Proper(g, |a.z|)
    ensures PowerMoves(g, a, b)
  {
    match g
    case H(q) => ConjPowerH(q, a, b);
    case S(q) => ConjPowerS(q, a, b);
    case CX(c, t) => ConjPowerCX(c, t, a, b);
  }

  /** The bits after a gate, one index at a time. */
  lemma ConjZAt(g: Gate, p: Pauli, i: nat)
    requires p.Sized(|p.z|) && Proper(g, |p.z|) && i < |p.z|
    ensures Conj(g, p).z[i] == match g
                               case H(q) => if i == q then p.x[q] else p.z[i]
                               case S(q) => p.z[i] != (i == q && p.x[q])
                               case CX(c, t) => p.z[i] != (i == c && p.z[t])
  {
  }

  lemma ConjXAt(g: Gate, p: Pauli, i: nat)
    requires p.Sized(|p.z|) && Proper(g, |p.z|) && i < |p.z|
    ensures Conj(g, p).x[i] == match g
                               case H(q) => if i == q then p.z[q] else p.x[i]
                               case S(q) => p.x[i]
                               case CX(c, t) => p.x[i] != (i == t && p.x[c])
  {
  }

  lemma {:induction false} ConjXorAt(g: Gate, a: Pauli, b: Pauli, i: nat)
    requires a.Sized(|a.z|) && b.Sized(|a.z|) && Proper(g, |a.z|) && i < |a.z|
    ensures Mul(a, b).Sized(|a.z|) && Conj(g, Mul(a, b)).Sized(|a.z|) && Conj(g, a).Sized(|a.z|) && Conj(g, b).Sized(|a.z|)
    ensures Conj(g, Mul(a, b)).z[i] == (Conj(g, a).z[i] != Conj(g, b).z[i])
    ensures Conj(g, Mul(a, b)).x[i] == (Conj(g, a).x[i] != Conj(g, b).x[i])
  {
    var m := Mul(a, b);
    hide Conj, HalfUpTo;
    ConjSized(g, m, |a.z|); ConjSized(g, a, |a.z|); ConjSized(g, b, |a.z|);
    ConjZAt(g, m, i); ConjZAt(g, a, i); ConjZAt(g, b, i);
    ConjXAt(g, m, i); ConjXAt(g, a, i); ConjXAt(g, b, i);
  }

  lemma {:induction false} ConjXor(g: Gate, a: Pauli, b: Pauli)
    requires a.Sized(|a.z|) && b.Sized(|a.z|) && Proper(g, |a.z|)
    ensures Conj(g, Mul(a, b)).z == Xor(Conj(g, a).z, Conj(g, b).z)
    ensures Conj(g, Mul(a, b)).x == Xor(Conj(g, a).x, Conj(g, b).x)
  {
    hide Conj, Mul;
    var m := Mul(a, b);
    MulSized(a, b, |a.z|);
    var l, ca, cb := Conj(g, m), Conj(g, a), Conj(g, b);
    ConjSized(g, m, |a.z|); ConjSized(g, a, |a.z|); ConjSized(g, b, |a.z|);
    forall i | 0 <= i < |a.z|
      ensures l.z[i] == (ca.z[i] != cb.z[i]) && l.x[i] == (ca.x[i] != cb.x[i])
    {
      ConjXorAt(g, a, b, i);
    }
  }

  /** Conjugation is multiplicative, signs included, even where a factor i is dropped. */
  lemma ConjMul(g: Gate, a: Pauli, b: Pauli)
    requires a.Sized(|a.z|) && b.Sized(|a.z|) && Proper(g, |a.z|)
    ensures Conj(g, Mul(a, b)) == Mul(Conj(g, a), Conj(g, b))
  {
    ConjPower(g, a, b);
    ConjXor(g, a, b);
  }

  lemma ConjCommute(g: Gate, a: Pauli, b: Pauli)
    requires a.Sized(|a.z|) && b.Sized(|a.z|) && Proper(g, |a.z|)
    ensures Commute(Conj(g, a), Conj(g, b)) == Commute(a, b)
  {
    ConjPower(g, a, b);
  }
}
