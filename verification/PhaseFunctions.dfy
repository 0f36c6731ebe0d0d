/** Diagonal rotations as functions from basis states to phases: the sum of phase times parity, up to
    whole turns. The function determines the meaning. */
module PhaseFunctions {
  import opened Paulis
  import opened Tableaux
  import opened Meaning
  import opened MeaningLaws
  import opened Rotations

  // ---------------------------------------------------------------- values

  /** The parity of the bits selected by z. */
  function Parity(z: seq<bool>, bits: seq<bool>): bool
    requires |z| == |bits|
  {
    if z == [] then false
    else
      var m := |z| - 1;
      Parity(z[..m], bits[..m]) != (z[m] && bits[m])
  }

  /** A rotation about the product of Z on the selected qubits. */
  datatype Term = Term(z: seq<bool>, phase: Phase)

  ghost predicate TermsSized(ts: seq<Term>, n: nat) {
    forall i :: 0 <= i < |ts| ==> |ts[i].z| == n
  }

  /** The phase a basis state picks up. */
  function PhaseOn(ts: seq<Term>, bits: seq<bool>): Phase
    requires TermsSized(ts, |bits|)
  {
    if ts == [] then 0.0
    else (if Parity(ts[0].z, bits) then ts[0].phase else 0.0) + PhaseOn(ts[1..], bits)
  }

  lemma PhaseOnCons(t: Term, ts: seq<Term>, bits: seq<bool>)
    requires |t.z| == |bits| && TermsSized(ts, |bits|)
    ensures TermsSized([t] + ts, |bits|)
    ensures PhaseOn([t] + ts, bits) == (if Parity(t.z, bits) then t.phase else 0.0) + PhaseOn(ts, bits)
  {
    assert ([t] + ts)[1..] == ts;
  }

  lemma {:induction false} PhaseAppend(ts: seq<Term>, more: seq<Term>, bits: seq<bool>)
    requires TermsSized(ts, |bits|) && TermsSized(more, |bits|)
    ensures PhaseOn(ts + more, bits) == PhaseOn(ts, bits) + PhaseOn(more, bits)
  {
    if ts == [] {
      assert ts + more == more;
    } else {
      PhaseAppend(ts[1..], more, bits);
      assert ts + more == [ts[0]] + (ts[1..] + more);
      PhaseOnCons(ts[0], ts[1..] + more, bits);
    }
  }

  lemma PhaseOnLast(ts: seq<Term>, t: Term, bits: seq<bool>)
    requires TermsSized(ts, |bits|) && |t.z| == |bits|
    ensures TermsSized(ts + [t], |bits|)
    ensures PhaseOn(ts + [t], bits) == PhaseOn(ts, bits) + if Parity(t.z, bits) then t.phase else 0.0
  {
    PhaseAppend(ts, [t], bits);
    assert [t][1..] == [];
  }

  /** The same phase, up to whole turns. */
  ghost predicate SameTurn(a: Phase, b: Phase) {
    exists k: int :: a == Turn(b, k)
  }

  lemma NoTurn(a: Phase)
    ensures SameTurn(a, a)
  {
    assert a == Turn(a, 0);
  }

  lemma TurnsThrough(a: Phase, b: Phase, c: Phase)
    requires SameTurn(a, c) && SameTurn(b, c)
    ensures SameTurn(a, b)
  {
    var k: int :| a == Turn(c, k);
    var l: int :| b == Turn(c, l);
    assert a == Turn(b, k - l);
  }

  /** Every basis state picks up the same phase from both. */
  ghost predicate SamePhases(ts: seq<Term>, us: seq<Term>, n: nat) {
    && TermsSized(ts, n) && TermsSized(us, n)
    && forall bits: seq<bool> :: |bits| == n ==> SameTurn(PhaseOn(ts, bits), PhaseOn(us, bits))
  }

  lemma {:induction false} ParityOfXor(z: seq<bool>, a: seq<bool>, b: seq<bool>)
    requires |z| == |a| == |b|
    ensures Parity(z, Xor(a, b)) == (Parity(z, a) != Parity(z, b))
  {
    if z != [] {
      var m := |z| - 1;
      ParityOfXor(z[..m], a[..m], b[..m]);
      assert Xor(a, b)[..m] == Xor(a[..m], b[..m]);
    }
  }

  lemma {:induction false} ParityOfZeros(z: seq<bool>, bits: seq<bool>)
    requires |z| == |bits| && forall i :: 0 <= i < |bits| ==> !bits[i]
    ensures !Parity(z, bits)
  {
    if z != [] {
      ParityOfZeros(z[..|z| - 1], bits[..|z| - 1]);
    }
  }

  // ---------------------------------------------------------------- terms as rotations

  function ItemOf(t: Term): Item {
    Rotate(Pauli(t.z, Zeros(|t.z|), false), t.phase)
  }

  function TermItems(ts: seq<Term>): (w: seq<Item>)
    ensures |w| == |ts| && forall i :: 0 <= i < |ts| ==> w[i] == ItemOf(ts[i])
  {
    seq(|ts|, i requires 0 <= i < |ts| => ItemOf(ts[i]))
  }

  lemma TermItemsOk(ts: seq<Term>, n: nat)
    requires TermsSized(ts, n)
    ensures Ok(TermItems(ts), n)
  {
  }

  lemma NothingIsSame(n: nat)
    ensures Same(n, [], [])
  {
  }

  // ---------------------------------------------------------------- products of Z on selected qubits

  function Diagonal(z: seq<bool>): Pauli {
    Pauli(z, Zeros(|z|), false)
  }

  lemma {:induction false} OddIsParity(z: seq<bool>, r: Pauli, k: nat)
    requires r.Sized(|z|) && k <= |z|
    ensures OddUpTo(Diagonal(z), r, k) == Parity(z[..k], r.x[..k])
  {
    if k > 0 {
      OddIsParity(z, r, k - 1);
      assert z[..k][..k - 1] == z[..k - 1] && r.x[..k][..k - 1] == r.x[..k - 1];
    }
  }

  lemma DiagonalCommutes(z: seq<bool>, r: Pauli)
    requires r.Sized(|z|)
    ensures Commute(Diagonal(z), r) == !Parity(z, r.x)
  {
    OddIsParity(z, r, |z|);
    assert z[..|z|] == z && r.x[..|z|] == r.x;
  }

  lemma {:induction false} NoHalf(a: Pauli, b: Pauli, k: nat)
    requires a.Sized(|a.z|) && b.Sized(|a.z|) && a.IsDiagonal() && b.IsDiagonal() && k <= |a.z|
    ensures !OddUpTo(a, b, k) && !HalfUpTo(a, b, k)
  {
    if k > 0 {
      NoHalf(a, b, k - 1);
    }
  }

  /** The product of Z on the selected qubits and r, a factor i dropped. */
  function Onto(z: seq<bool>, r: Pauli): (q: Pauli)
    requires r.Sized(|z|)
    ensures q.Sized(|z|) && q.x == r.x
  {
    assert Xor(Zeros(|z|), r.x) == r.x;
    Mul(Diagonal(z), r)
  }

  /** Two such products in a row are one, with a sign when both anticommute with what they are applied to. */
  lemma DiagonalTwice(y: seq<bool>, z: seq<bool>, r: Pauli)
    requires r.Sized(|z|) && |y| == |z|
    ensures Onto(y, Onto(z, r)) == if Parity(y, r.x) && Parity(z, r.x) then Onto(Xor(y, z), r).Negate() else Onto(Xor(y, z), r)
  {
    var a, b, n := Diagonal(y), Diagonal(z), |z|;
    var ab, bc := Diagonal(Xor(y, z)), Onto(z, r);
    TwiceBits(y, z, r);
    hide Xor, Parity, Diagonal, Mul, OddUpTo, HalfUpTo;
    DiagonalCommutes(y, r);
    DiagonalCommutes(z, r);
    DiagonalCommutes(y, bc);
    DiagonalCommutes(Xor(y, z), r);
    ParityXorLeft(y, z, r.x);
    TwiceSigns(y, z, r);
  }

  lemma TwiceBits(y: seq<bool>, z: seq<bool>, r: Pauli)
    requires r.Sized(|z|) && |y| == |z|
    ensures Onto(y, Onto(z, r)).z == Onto(Xor(y, z), r).z && Onto(y, Onto(z, r)).x == Onto(Xor(y, z), r).x
  {
  }

  lemma TwiceSigns(y: seq<bool>, z: seq<bool>, r: Pauli)
    requires r.Sized(|z|) && |y| == |z|
    ensures Onto(y, Onto(z, r)).neg == (Onto(Xor(y, z), r).neg != (!Commute(Diagonal(z), r) && !Commute(Diagonal(y), Onto(z, r))))
  {
    var a, b, n := Diagonal(y), Diagonal(z), |z|;
    var ab, bc := Diagonal(Xor(y, z)), Mul(b, r);
    NoHalf(a, b, n);
    assert Xor(a.x, b.x) == ab.x;
    hide HalfUpTo, OddUpTo;
    PowerCocycle(a, b, r, ab, bc, n);
  }

  lemma DiagonalNothing(r: Pauli)
    requires r.Sized(|r.z|)
    ensures Onto(Zeros(|r.z|), r) == r
  {
    NoPower(Diagonal(Zeros(|r.z|)), r, |r.z|);
    assert Xor(Zeros(|r.z|), r.z) == r.z && Xor(Zeros(|r.z|), r.x) == r.x;
  }

  // ---------------------------------------------------------------- states with a definite basis bit

  /** A product that commutes with everything of the given x bits, if p is among them: Z on j, and on p to make it even. */
  function Generator(x: seq<bool>, p: nat, j: nat): (z: seq<bool>)
    requires j < |x|
    ensures |z| == |x|
  {
    seq(|x|, i requires 0 <= i < |x| => i == j || (x[j] && i == p))
  }

  function Sign(b: bool, a: real): real {
    if b then -a else a
  }

  /** On products with these x bits, the generator of j acts as the sign of bit j. */
  ghost predicate DefiniteAt(e: Pauli -> real, x: seq<bool>, p: nat, j: nat, bit: bool)
    requires j < |x|
  {
    forall r: Pauli {:trigger e(r)} :: r.Sized(|x|) && r.x == x ==> e(Onto(Generator(x, p, j), r)) == Sign(bit, e(r))
  }

  /** The same for all of the first k qubits but p. */
  ghost predicate Definite(e: Pauli -> real, x: seq<bool>, p: nat, bits: seq<bool>, k: nat)
    requires |bits| == |x| && k <= |x|
  {
    forall j: nat :: j < k && j != p ==> DefiniteAt(e, x, p, j, bits[j])
  }

  lemma {:induction false} ParityOfUnit(z: seq<bool>, q: nat, k: nat)
    requires q < |z| && k <= |z|
    ensures Parity(Unit(|z|, q)[..k], z[..k]) == (q < k && z[q])
  {
    if k > 0 {
      ParityOfUnit(z, q, k - 1);
      assert Unit(|z|, q)[..k][..k - 1] == Unit(|z|, q)[..k - 1] && z[..k][..k - 1] == z[..k - 1];
    }
  }

  lemma {:induction false} ParityXorLeft(y: seq<bool>, z: seq<bool>, bits: seq<bool>)
    requires |y| == |z| == |bits|
    ensures Parity(Xor(y, z), bits) == (Parity(y, bits) != Parity(z, bits))
  {
    if z != [] {
      var m := |z| - 1;
      ParityXorLeft(y[..m], z[..m], bits[..m]);
      assert Xor(y, z)[..m] == Xor(y[..m], z[..m]);
    }
  }

  lemma GeneratorIsEven(x: seq<bool>, p: nat, j: nat)
    requires p < |x| && x[p] && j < |x| && j != p
    ensures !Parity(Generator(x, p, j), x)
  {
    var n := |x|;
    ParityOfUnit(x, j, n);
    ParityOfUnit(x, p, n);
    assert Unit(n, j)[..n] == Unit(n, j) && Unit(n, p)[..n] == Unit(n, p) && x[..n] == x;
    if x[j] {
      ParityXorLeft(Unit(n, j), Unit(n, p), x);
      assert Generator(x, p, j) == Xor(Unit(n, j), Unit(n, p));
    } else {
      assert Generator(x, p, j) == Unit(n, j);
    }
  }

  /** The generators of the qubits below k that z selects. */
  function EvenPart(z: seq<bool>, x: seq<bool>, p: nat, k: nat): (w: seq<bool>)
    requires |z| == |x| && k <= |z|
    ensures |w| == |z|
  {
    if k == 0 then Zeros(|z|)
    else if z[k - 1] && k - 1 != p then Xor(Generator(x, p, k - 1), EvenPart(z, x, p, k - 1))
    else EvenPart(z, x, p, k - 1)
  }

  lemma {:induction false} EvenPartBits(z: seq<bool>, x: seq<bool>, p: nat, k: nat)
    requires |z| == |x| && k <= |z| && p < |x| && x[p]
    ensures !Parity(EvenPart(z, x, p, k), x)
    ensures forall i :: 0 <= i < |z| && i != p ==> EvenPart(z, x, p, k)[i] == (i < k && z[i])
  {
    hide Parity;
    if k == 0 {
      ParityOfNone(Zeros(|z|), x);
    } else {
      var j, w := k - 1, EvenPart(z, x, p, k - 1);
      EvenPartBits(z, x, p, j);
      if z[j] && j != p {
        GeneratorIsEven(x, p, j);
        ParityXorLeft(Generator(x, p, j), w, x);
      }
    }
  }

  /** They act as the sign of the parity. */
  lemma {:induction false} EvenPartActs(e: Pauli -> real, z: seq<bool>, x: seq<bool>, p: nat, bits: seq<bool>, k: nat, r: Pauli)
    requires |z| == |x| == |bits| && k <= |z| && p < |x| && x[p] && !bits[p] && Definite(e, x, p, bits, |x|) && r.Sized(|x|) && r.x == x
    ensures e(Onto(EvenPart(z, x, p, k), r)) == Sign(Parity(z[..k], bits[..k]), e(r))
  {
    hide Onto, Generator, DefiniteAt;
    if k == 0 {
      DiagonalNothing(r);
    } else {
      var j, w := k - 1, EvenPart(z, x, p, k - 1);
      EvenPartActs(e, z, x, p, bits, j, r);
      assert z[..k][..j] == z[..j] && bits[..k][..j] == bits[..j];
      if z[j] && j != p {
        EvenPartBits(z, x, p, j);
        GeneratorIsEven(x, p, j);
        DiagonalTwice(Generator(x, p, j), w, r);
        ActsAt(e, x, p, j, bits[j], Onto(w, r));
      }
    }
  }

  lemma ActsAt(e: Pauli -> real, x: seq<bool>, p: nat, j: nat, bit: bool, r: Pauli)
    requires j < |x| && DefiniteAt(e, x, p, j, bit) && r.Sized(|x|) && r.x == x
    ensures e(Onto(Generator(x, p, j), r)) == Sign(bit, e(r))
  {
  }

  lemma {:induction false} ParityOfNone(z: seq<bool>, bits: seq<bool>)
    requires |z| == |bits| && forall i :: 0 <= i < |z| ==> !z[i]
    ensures !Parity(z, bits)
  {
    if z != [] {
      ParityOfNone(z[..|z| - 1], bits[..|z| - 1]);
    }
  }

  lemma OddBits(z: seq<bool>, x: seq<bool>, p: nat)
    requires |z| == |x| && p < |x| && x[p] && Parity(z, x)
    ensures var w := EvenPart(z, x, p, |x|);
            && Xor(Unit(|x|, p), w) == z && Xor(Unit(|x|, p), z) == w && Xor(w, Unit(|x|, p)) == z
            && !Parity(w, x) && Parity(Unit(|x|, p), x)
  {
    hide EvenPart, Parity;
    var n := |x|;
    var u, w := Unit(n, p), EvenPart(z, x, p, n);
    EvenPartBits(z, x, p, n);
    ParityXorLeft(w, z, x);
    ParityOfUnit(x, p, n);
    assert u[..n] == u && x[..n] == x;
    if w[p] == z[p] {
      ParityOfNone(Xor(w, z), x);
      assert false;
    }
  }

  /** What an odd selection does to such a state, alone and with the pivot. */
  lemma OddActs(e: Pauli -> real, z: seq<bool>, x: seq<bool>, p: nat, bits: seq<bool>, r: Pauli)
    requires |z| == |x| == |bits| && p < |x| && x[p] && !bits[p] && Definite(e, x, p, bits, |x|) && r.Sized(|x|) && r.x == x
    requires Parity(z, x) && State(e)
    ensures Onto(z, r).Sized(|x|) && Onto(z, r).x == x
    ensures e(Onto(z, r)) == Sign(Parity(z, bits), e(Onto(Unit(|x|, p), r)))
    ensures e(Onto(Unit(|x|, p), Onto(z, r))) == -Sign(Parity(z, bits), e(r))
  {
    hide Parity, Onto, EvenPart, Definite;
    var n := |x|;
    var u, w := Unit(n, p), EvenPart(z, x, p, n);
    OddBits(z, x, p);
    EvenPartActs(e, z, x, p, bits, n, r);
    EvenPartActs(e, z, x, p, bits, n, Onto(u, r));
    assert z[..n] == z && bits[..n] == bits;
    DiagonalTwice(w, u, r);
    DiagonalTwice(u, z, r);
    assert Opposite(e, Onto(w, r));
  }

  lemma XorSwap(a: seq<bool>, b: seq<bool>)
    requires |a| == |b|
    ensures Xor(a, b) == Xor(b, a)
  {
  }

  // ---------------------------------------------------------------- the expectation in such a state

  lemma LastTerm(t: Trig, e: Pauli -> real, ts: seq<Term>, u: Term, r: Pauli)
    requires r.Sized(|r.z|) && TermsSized(ts, |r.z|) && |u.z| == |r.z|
    ensures TermsSized(ts + [u], |r.z|) && Ok(TermItems(ts), |r.z|) && Ok(TermItems(ts + [u]), |r.z|) && Onto(u.z, r).Sized(|r.z|)
    ensures Expect(t, e, TermItems(ts + [u]), r) ==
            if Parity(u.z, r.x) then t.c(u.phase) * Expect(t, e, TermItems(ts), r) - t.s(u.phase) * Expect(t, e, TermItems(ts), Onto(u.z, r))
            else Expect(t, e, TermItems(ts), r)
  {
    hide Expect, Parity, Mul, Commute, Ok;
    TermItemsOk(ts, |r.z|);
    TermItemsOk(ts + [u], |r.z|);
    DiagonalCommutes(u.z, r);
    assert TermItems(ts + [u]) == TermItems(ts) + [ItemOf(u)];
    ExpectLast(t, e, TermItems(ts + [u]), TermItems(ts), ItemOf(u), r);
  }

  /** The phase that the terms turn by between a basis state and the one with the x bits flipped. */
  function Angle(ts: seq<Term>, x: seq<bool>, bits: seq<bool>): Phase
    requires |x| == |bits| && TermsSized(ts, |bits|)
  {
    PhaseOn(ts, Xor(bits, x)) - PhaseOn(ts, bits)
  }

  lemma AngleLast(ts: seq<Term>, u: Term, x: seq<bool>, bits: seq<bool>)
    requires |x| == |bits| == |u.z| && TermsSized(ts, |bits|)
    ensures TermsSized(ts + [u], |bits|)
    ensures Angle(ts + [u], x, bits) == Angle(ts, x, bits) + if Parity(u.z, x) then Sign(Parity(u.z, bits), u.phase) else 0.0
  {
    hide PhaseOn, Parity;
    PhaseOnLast(ts, u, bits);
    PhaseOnLast(ts, u, Xor(bits, x));
    ParityOfXor(u.z, bits, x);
  }

  lemma TurnMore(t: Trig, g: Phase, a: Phase, b: bool, x: real, y: real)
    requires IsTrig(t)
    ensures t.c(a) * (t.c(g) * x - t.s(g) * y) - t.s(a) * (t.c(g) * Sign(b, y) - t.s(g) * -Sign(b, x))
            == t.c(g + Sign(b, a)) * x - t.s(g + Sign(b, a)) * y
  {
    assert AddLaw(t, g, a) && AddLaw(t, g, -a) && MirrorLaw(t, a);
    if b {
      assert g + Sign(b, a) == g + -a;
      assert t.c(g + -a) == t.c(g) * t.c(a) + t.s(g) * t.s(a) && t.s(g + -a) == t.s(g) * t.c(a) - t.c(g) * t.s(a);
      TurnBack(t.c(a), t.s(a), t.c(g), t.s(g), x, y);
    } else {
      TurnOn(t.c(a), t.s(a), t.c(g), t.s(g), x, y);
    }
  }

  lemma TurnBack(ca: real, sa: real, cg: real, sg: real, x: real, y: real)
    ensures ca * (cg * x - sg * y) - sa * (cg * -y - sg * -(-x)) == (cg * ca + sg * sa) * x - (sg * ca - cg * sa) * y
  {
  }

  lemma TurnOn(ca: real, sa: real, cg: real, sg: real, x: real, y: real)
    ensures ca * (cg * x - sg * y) - sa * (cg * y - sg * -x) == (cg * ca - sg * sa) * x - (sg * ca + cg * sa) * y
  {
  }

  /** The terms turn by that angle, in the plane of a product and the product with the pivot. */
  lemma {:induction false} ExpectTerms(t: Trig, e: Pauli -> real, ts: seq<Term>, x: seq<bool>, p: nat, bits: seq<bool>, r: Pauli)
    requires IsTrig(t) && State(e) && |x| == |bits| && TermsSized(ts, |x|) && p < |x| && x[p] && !bits[p]
    requires Definite(e, x, p, bits, |x|) && r.Sized(|x|) && r.x == x
    ensures Ok(TermItems(ts), |x|) && Onto(Unit(|x|, p), r).Sized(|x|)
    ensures Expect(t, e, TermItems(ts), r)
            == t.c(Angle(ts, x, bits)) * e(r) - t.s(Angle(ts, x, bits)) * e(Onto(Unit(|x|, p), r))
    decreases |ts|
  {
    hide Parity, Onto, EvenPart, Definite, PhaseOn, Angle, Expect, State;
    TermItemsOk(ts, |x|);
    if ts == [] {
      NoAngle(x, bits);
      ExpectNone(t, e, r);
    } else {
      var m := |ts| - 1;
      var before, u := ts[..m], ts[m];
      assert ts == before + [u];
      LastTerm(t, e, before, u, r);
      AngleLast(before, u, x, bits);
      ExpectTerms(t, e, before, x, p, bits, r);
      if Parity(u.z, x) {
        OddActs(e, u.z, x, p, bits, r);
        ExpectTerms(t, e, before, x, p, bits, Onto(u.z, r));
        TurnMore(t, Angle(before, x, bits), u.phase, Parity(u.z, bits), e(r), e(Onto(Unit(|x|, p), r)));
      }
    }
  }

  lemma NoAngle(x: seq<bool>, bits: seq<bool>)
    requires |x| == |bits|
    ensures Angle([], x, bits) == 0.0 && TermItems([]) == []
  {
  }

  lemma TurnsKeep(t: Trig, a: Phase, k: int)
    requires IsTrig(t)
    ensures t.c(Turn(a, k)) == t.c(a) && t.s(Turn(a, k)) == t.s(a)
  {
    if k >= 0 {
      WholeTurns(t, a, k);
    } else {
      WholeTurns(t, Turn(a, k), -k);
      assert Turn(Turn(a, k), -k) == a;
    }
  }

  lemma SameAngles(t: Trig, ts: seq<Term>, us: seq<Term>, x: seq<bool>, bits: seq<bool>)
    requires IsTrig(t) && |x| == |bits| && SamePhases(ts, us, |x|)
    ensures t.c(Angle(ts, x, bits)) == t.c(Angle(us, x, bits)) && t.s(Angle(ts, x, bits)) == t.s(Angle(us, x, bits))
  {
    hide PhaseOn;
    assert SameTurn(PhaseOn(ts, Xor(bits, x)), PhaseOn(us, Xor(bits, x))) && SameTurn(PhaseOn(ts, bits), PhaseOn(us, bits));
    var k: int :| PhaseOn(ts, Xor(bits, x)) == Turn(PhaseOn(us, Xor(bits, x)), k);
    var l: int :| PhaseOn(ts, bits) == Turn(PhaseOn(us, bits), l);
    assert Angle(ts, x, bits) == Turn(Angle(us, x, bits), k - l);
    TurnsKeep(t, Angle(us, x, bits), k - l);
  }

  // ---------------------------------------------------------------- splitting a state

  /** The part of a state in which the generator of j acts as the sign of the bit. */
  ghost function PartOf(e: Pauli -> real, x: seq<bool>, p: nat, j: nat, bit: bool): Pauli -> real
    requires j < |x|
  {
    (r: Pauli) => if r.Sized(|x|) && r.x == x then (e(r) + Sign(bit, e(Onto(Generator(x, p, j), r)))) / 2.0 else e(r)
  }

  lemma PartIsState(e: Pauli -> real, x: seq<bool>, p: nat, j: nat, bit: bool)
    requires State(e) && j < |x|
    ensures State(PartOf(e, x, p, j, bit))
  {
    forall r: Pauli
      ensures Opposite(PartOf(e, x, p, j, bit), r)
    {
      PartOpposite(e, x, p, j, bit, r);
    }
  }

  lemma PartOpposite(e: Pauli -> real, x: seq<bool>, p: nat, j: nat, bit: bool, r: Pauli)
    requires State(e) && j < |x|
    ensures Opposite(PartOf(e, x, p, j, bit), r)
  {
    hide Onto;
    assert Opposite(e, r);
    var part, m := PartOf(e, x, p, j, bit), r.Negate();
    assert m.x == r.x && (m.Sized(|x|) <==> r.Sized(|x|));
    if r.Sized(|x|) && r.x == x {
      var g := Generator(x, p, j);
      OntoNegated(g, r);
      assert Opposite(e, Onto(g, r));
      assert part(m) == (e(m) + Sign(bit, e(Onto(g, m)))) / 2.0;
      assert part(r) == (e(r) + Sign(bit, e(Onto(g, r)))) / 2.0;
      HalfOfOpposites(e(r), Sign(bit, e(Onto(g, r))));
    }
  }

  lemma OntoNegated(z: seq<bool>, r: Pauli)
    requires r.Sized(|z|)
    ensures Onto(z, r.Negate()) == Onto(z, r).Negate()
  {
    NegatedFactor(Diagonal(z), r);
  }

  lemma HalfOfOpposites(a: real, b: real)
    ensures (-a + -b) / 2.0 == -((a + b) / 2.0)
  {
  }

  lemma PartIsDefinite(e: Pauli -> real, x: seq<bool>, p: nat, bits: seq<bool>, j: nat, bit: bool)
    requires |bits| == |x| && j < |x| && p < |x| && x[p] && j != p && Definite(e, x, p, bits, j)
    ensures Definite(PartOf(e, x, p, j, bit), x, p, bits[j := bit], j + 1)
  {
    var f := PartOf(e, x, p, j, bit);
    hide PartOf, Onto, DefiniteAt;
    var bits' := bits[j := bit];
    forall i: nat | i < j + 1 && i != p
      ensures DefiniteAt(f, x, p, i, bits'[i])
    {
      if i < j {
        assert DefiniteAt(e, x, p, i, bits[i]);
        PartKeepsAt(e, x, p, i, bits[i], j, bit);
      } else {
        PartActsAt(e, x, p, j, bit);
      }
    }
  }

  lemma PartActsAt(e: Pauli -> real, x: seq<bool>, p: nat, j: nat, bit: bool)
    requires j < |x| && p < |x| && x[p] && j != p
    ensures DefiniteAt(PartOf(e, x, p, j, bit), x, p, j, bit)
  {
    hide PartOf, Onto, Sign;
    forall r: Pauli | r.Sized(|x|) && r.x == x
      ensures PartOf(e, x, p, j, bit)(Onto(Generator(x, p, j), r)) == Sign(bit, PartOf(e, x, p, j, bit)(r))
    {
      PartActs(e, x, p, j, bit, r);
    }
  }

  lemma PartKeepsAt(e: Pauli -> real, x: seq<bool>, p: nat, i: nat, b: bool, j: nat, bit: bool)
    requires i < |x| && j < |x| && p < |x| && x[p] && j != p && i != p && DefiniteAt(e, x, p, i, b)
    ensures DefiniteAt(PartOf(e, x, p, j, bit), x, p, i, b)
  {
    hide PartOf, Onto, Sign;
    forall r: Pauli | r.Sized(|x|) && r.x == x
      ensures PartOf(e, x, p, j, bit)(Onto(Generator(x, p, i), r)) == Sign(b, PartOf(e, x, p, j, bit)(r))
    {
      PartKeeps(e, x, p, i, b, j, bit, r);
    }
  }

  lemma PartActs(e: Pauli -> real, x: seq<bool>, p: nat, j: nat, bit: bool, r: Pauli)
    requires j < |x| && p < |x| && x[p] && j != p && r.Sized(|x|) && r.x == x
    ensures PartOf(e, x, p, j, bit)(Onto(Generator(x, p, j), r)) == Sign(bit, PartOf(e, x, p, j, bit)(r))
  {
    hide Onto, Generator, Parity;
    var g := Generator(x, p, j);
    GeneratorIsEven(x, p, j);
    DiagonalTwice(g, g, r);
    assert Xor(g, g) == Zeros(|x|);
    DiagonalNothing(r);
  }

  lemma PartKeeps(e: Pauli -> real, x: seq<bool>, p: nat, i: nat, b: bool, j: nat, bit: bool, r: Pauli)
    requires i < |x| && j < |x| && p < |x| && x[p] && j != p && i != p && DefiniteAt(e, x, p, i, b) && r.Sized(|x|) && r.x == x
    ensures PartOf(e, x, p, j, bit)(Onto(Generator(x, p, i), r)) == Sign(b, PartOf(e, x, p, j, bit)(r))
  {
    hide Onto, Generator, Parity;
    var g, h := Generator(x, p, j), Generator(x, p, i);
    GeneratorIsEven(x, p, j);
    GeneratorIsEven(x, p, i);
    DiagonalTwice(g, h, r);
    DiagonalTwice(h, g, r);
    XorSwap(g, h);
    ActsAt(e, x, p, i, b, r);
    ActsAt(e, x, p, i, b, Onto(g, r));
  }

  /** The expectation after diagonal terms is that of both parts. */
  lemma {:induction false} ExpectParts(t: Trig, e: Pauli -> real, f: Pauli -> real, g: Pauli -> real, ts: seq<Term>, r: Pauli)
    requires r.Sized(|r.z|) && TermsSized(ts, |r.z|)
    requires forall q: Pauli {:trigger e(q)} :: q.Sized(|r.z|) && q.x == r.x ==> e(q) == f(q) + g(q)
    ensures Ok(TermItems(ts), |r.z|)
    ensures Expect(t, e, TermItems(ts), r) == Expect(t, f, TermItems(ts), r) + Expect(t, g, TermItems(ts), r)
    decreases |ts|
  {
    hide Parity, Onto, Expect;
    TermItemsOk(ts, |r.z|);
    if ts == [] {
      NoAngle(r.x, r.x);
      ExpectNone(t, e, r);
      ExpectNone(t, f, r);
      ExpectNone(t, g, r);
      assert e(r) == f(r) + g(r);
    } else {
      var m := |ts| - 1;
      var before, u := ts[..m], ts[m];
      assert ts == before + [u];
      LastTerm(t, e, before, u, r);
      LastTerm(t, f, before, u, r);
      LastTerm(t, g, before, u, r);
      ExpectParts(t, e, f, g, before, r);
      var q := Onto(u.z, r);
      ExpectParts(t, e, f, g, before, q);
      SumsTurn(t.c(u.phase), t.s(u.phase), Expect(t, f, TermItems(before), r), Expect(t, g, TermItems(before), r),
               Expect(t, f, TermItems(before), q), Expect(t, g, TermItems(before), q));
    }
  }

  lemma SumsTurn(c: real, s: real, a: real, b: real, x: real, y: real)
    ensures c * (a + b) - s * (x + y) == (c * a - s * x) + (c * b - s * y)
  {
  }

  lemma PartsAddUp(e: Pauli -> real, x: seq<bool>, p: nat, j: nat, q: Pauli)
    requires j < |x| && q.Sized(|x|) && q.x == x
    ensures e(q) == PartOf(e, x, p, j, false)(q) + PartOf(e, x, p, j, true)(q)
  {
    var y := e(Onto(Generator(x, p, j), q));
    assert PartOf(e, x, p, j, false)(q) == (e(q) + y) / 2.0;
    assert PartOf(e, x, p, j, true)(q) == (e(q) + -y) / 2.0;
  }

  /** Split qubit by qubit into states with definite bits, every state gives both the same expectation. */
  lemma {:induction false} SameExpectations(t: Trig, e: Pauli -> real, ts: seq<Term>, us: seq<Term>, x: seq<bool>, p: nat, bits: seq<bool>, k: nat,
                                            r: Pauli)
    requires IsTrig(t) && State(e) && |x| == |bits| && SamePhases(ts, us, |x|) && p < |x| && x[p] && !bits[p] && k <= |x|
    requires Definite(e, x, p, bits, k) && r.Sized(|x|) && r.x == x
    ensures Ok(TermItems(ts), |x|) && Ok(TermItems(us), |x|) && Expect(t, e, TermItems(ts), r) == Expect(t, e, TermItems(us), r)
    decreases |x| - k
  {
    hide Expect, PhaseOn, Angle, Onto, State, DefiniteAt, PartOf;
    TermItemsOk(ts, |x|);
    TermItemsOk(us, |x|);
    if k == |x| {
      ExpectTerms(t, e, ts, x, p, bits, r);
      ExpectTerms(t, e, us, x, p, bits, r);
      SameAngles(t, ts, us, x, bits);
    } else if k == p {
      SameExpectations(t, e, ts, us, x, p, bits, k + 1, r);
    } else {
      var f, g := PartOf(e, x, p, k, false), PartOf(e, x, p, k, true);
      PartIsState(e, x, p, k, false);
      PartIsState(e, x, p, k, true);
      PartIsDefinite(e, x, p, bits, k, false);
      PartIsDefinite(e, x, p, bits, k, true);
      SameExpectations(t, f, ts, us, x, p, bits[k := false], k + 1, r);
      SameExpectations(t, g, ts, us, x, p, bits[k := true], k + 1, r);
      forall q: Pauli {:trigger e(q)} | q.Sized(|r.z|) && q.x == r.x
        ensures e(q) == f(q) + g(q)
      {
        PartsAddUp(e, x, p, k, q);
      }
      ExpectParts(t, e, f, g, ts, r);
      ExpectParts(t, e, f, g, us, r);
    }
  }

  /** Diagonal terms leave a diagonal product alone. */
  lemma {:induction false} DiagonalKept(t: Trig, e: Pauli -> real, ts: seq<Term>, r: Pauli)
    requires r.Sized(|r.z|) && TermsSized(ts, |r.z|) && r.IsDiagonal()
    ensures Ok(TermItems(ts), |r.z|) && Expect(t, e, TermItems(ts), r) == e(r)
    decreases |ts|
  {
    hide Parity, Onto, Expect;
    TermItemsOk(ts, |r.z|);
    if ts == [] {
      NoAngle(r.x, r.x);
      ExpectNone(t, e, r);
    } else {
      var m := |ts| - 1;
      assert ts == ts[..m] + [ts[m]];
      LastTerm(t, e, ts[..m], ts[m], r);
      ParityOfZeros(ts[m].z, r.x);
      DiagonalKept(t, e, ts[..m], r);
    }
  }

  // ---------------------------------------------------------------- the theorem

  /** Diagonal programs that give every basis state the same phase, up to whole turns, mean the same. */
  lemma SamePhasesSameMeaning(n: nat, ts: seq<Term>, us: seq<Term>)
    requires SamePhases(ts, us, n)
    ensures Same(n, TermItems(ts), TermItems(us))
  {
    hide Expect, IsTrig, State, PhaseOn;
    TermItemsOk(ts, n);
    TermItemsOk(us, n);
    forall t: Trig, e: Pauli -> real, r: Pauli | IsTrig(t) && State(e) && r.Sized(n)
      ensures Expect(t, e, TermItems(ts), r) == Expect(t, e, TermItems(us), r)
    {
      if p :| 0 <= p < n && r.x[p] {
        SameExpectations(t, e, ts, us, r.x, p, Zeros(n), 0, r);
      } else {
        DiagonalKept(t, e, ts, r);
        DiagonalKept(t, e, us, r);
      }
    }
  }

  // ---------------------------------------------------------------- rotations as terms

  ghost predicate AllDiagonal(rs: seq<Rotation>) {
    forall i :: 0 <= i < |rs| ==> rs[i].p.IsDiagonal()
  }

  function TermsOf(rs: seq<Rotation>): (ts: seq<Term>)
    ensures |ts| == |rs| && forall i :: 0 <= i < |rs| ==> ts[i] == Term(rs[i].p.z, rs[i].phase)
  {
    seq(|rs|, i requires 0 <= i < |rs| => Term(rs[i].p.z, rs[i].phase))
  }

  lemma ItemsOfTerms(rs: seq<Rotation>, n: nat)
    requires ProperList(rs, n) && AllDiagonal(rs)
    ensures TermsSized(TermsOf(rs), n) && TermItems(TermsOf(rs)) == Items(rs)
  {
    forall i | 0 <= i < |rs|
      ensures TermItems(TermsOf(rs))[i] == Items(rs)[i]
    {
      assert rs[i].p.IsDiagonal() && Proper1(rs[i], n);
      assert rs[i].p.x == Zeros(n);
    }
  }

  /** Diagonal rotations that give every basis state the same phase mean the same. */
  lemma SamePhaseRotations(n: nat, rs: seq<Rotation>, rs': seq<Rotation>)
    requires ProperList(rs, n) && AllDiagonal(rs) && ProperList(rs', n) && AllDiagonal(rs')
    requires SamePhases(TermsOf(rs), TermsOf(rs'), n)
    ensures Same(n, Items(rs), Items(rs'))
  {
    hide Same, PhaseOn;
    ItemsOfTerms(rs, n);
    ItemsOfTerms(rs', n);
    SamePhasesSameMeaning(n, TermsOf(rs), TermsOf(rs'));
  }
}
