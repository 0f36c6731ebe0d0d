/** Pauli products and rotations as they are stored: one array of bits, updated in place. */
module BitProducts {
  import opened Paulis
  import opened MeaningLaws
  import opened Meaning
  import opened Rotations

  /** What k says modulo 4 about the low and the high bit of the exponent. */
  ghost predicate IsPower(k: nat, odd: bool, half: bool) {
    k % 4 == (if odd then 1 else 0) + (if half then 2 else 0)
  }

  /** The exponents are summed in one byte; the wrap-around does not touch the value modulo 4. */
  lemma OneMorePower(k: nat, a: Pauli, b: Pauli, j: nat)
    requires Has(a, b, j) && IsPower(k, OddUpTo(a, b, j), HalfUpTo(a, b, j))
    ensures IsPower((k + PowerOfI(a.Type(j), b.Type(j))) % 256, OddUpTo(a, b, j + 1), HalfUpTo(a, b, j + 1))
  {
    PowerOfIBits(a, b, j);
  }

  /** The product stored in 2n + 1 bits. */
  function Stored(s: seq<bool>, n: nat): (p: Pauli)
    requires |s| == 2 * n + 1
    ensures p.Sized(n)
  {
    Pauli(s[..n], s[n..2 * n], s[2 * n])
  }

  lemma XorStored(l: seq<bool>, r: seq<bool>, n: nat)
    requires |l| == |r| == 2 * n + 1
    ensures Stored(Xor(l, r), n) ==
            Pauli(Xor(Stored(l, n).z, Stored(r, n).z), Xor(Stored(l, n).x, Stored(r, n).x), l[2 * n] != r[2 * n])
  {
    var s := Xor(l, r);
    assert s[..n] == Xor(l[..n], r[..n]) && s[n..2 * n] == Xor(l[n..2 * n], r[n..2 * n]);
  }

  /** Index 0 to n - 1: the z bits, n to 2n - 1: the x bits, 2n: the sign. */
  class BitProduct {
    const n: nat
    const bits: array<bool>

    ghost predicate Valid()
      reads this
    {
      bits.Length == 2 * n + 1
    }

    ghost function Value(): (p: Pauli)
      requires Valid()
      reads this, bits
      ensures p.Sized(n)
    {
      Stored(bits[..], n)
    }

    function TypeAt(i: nat): (t: PauliType)
      requires Valid() && i < n
      reads this, bits
      ensures t == Value().Type(i)
    {
      if bits[i] then (if bits[i + n] then Y else Z) else (if bits[i + n] then X else I)
    }

    constructor (types: seq<PauliType>, neg: bool)
      ensures Valid() && n == |types| && fresh(bits)
      ensures Value().neg == neg && forall i :: 0 <= i < n ==> Value().Type(i) == types[i]
    {
      n := |types|;
      bits := new bool[2 * |types| + 1](_ => false);
      new;
      bits[2 * n] := neg;
      var i := 0;
      while i < n
        invariant i <= n && bits[2 * n] == neg
        invariant forall j :: 0 <= j < n ==> TypeAt(j) == if j < i then types[j] else I
      {
        SetType(i, types[i]);
        i := i + 1;
      }
    }

    method SetType(i: nat, t: PauliType)
      requires Valid() && i < n
      modifies bits
      ensures bits[2 * n] == old(bits[2 * n])
      ensures forall j :: 0 <= j < n ==> TypeAt(j) == if j == i then t else old(TypeAt(j))
    {
      bits[i], bits[i + n] := t == Y || t == Z, t == X || t == Y;
    }

    method Negate()
      requires Valid()
      modifies bits
      ensures Value() == old(Value()).Negate()
    {
      bits[2 * n] := !bits[2 * n];
    }

    /** Two bits exchanged by three exclusive ors. */
    method SwapTwo(i: nat, j: nat)
      requires i < bits.Length && j < bits.Length && i != j
      modifies bits
      ensures bits[..] == old(bits[..])[i := old(bits[j])][j := old(bits[i])]
    {
      bits[i] := bits[i] != bits[j];
      bits[j] := bits[j] != bits[i];
      bits[i] := bits[i] != bits[j];
    }

    method ApplyH(q: nat)
      requires Valid()
      modifies bits
      ensures Value() == Conj(H(q), old(Value()))
    {
      if q >= n {
        return;
      }
      if TypeAt(q) == Y {
        bits[2 * n] := !bits[2 * n];
      }
      SwapTwo(q, q + n);
      assert bits[..] == old(bits[..])[2 * n := bits[2 * n]][q := old(bits[q + n])][q + n := old(bits[q])];
      assert Value().z == Conj(H(q), old(Value())).z && Value().x == Conj(H(q), old(Value())).x;
    }

    method ApplyS(q: nat)
      requires Valid()
      modifies bits
      ensures Value() == Conj(S(q), old(Value()))
    {
      if q >= n {
        return;
      }
      if TypeAt(q) == Y {
        bits[2 * n] := !bits[2 * n];
      }
      bits[q] := bits[q] != bits[q + n];
      assert Value().z == Conj(S(q), old(Value())).z && Value().x == Conj(S(q), old(Value())).x;
    }

    method ApplyCX(c: nat, t: nat)
      requires Valid()
      modifies bits
      ensures Value() == Conj(CX(c, t), old(Value()))
    {
      if c >= n || t >= n {
        return;
      }
      if bits[c + n] && bits[t] && bits[t + n] == bits[c] {
        bits[2 * n] := !bits[2 * n];
      }
      bits[t + n] := bits[t + n] != bits[c + n];
      bits[c] := bits[c] != bits[t];
      assert Value().z == Conj(CX(c, t), old(Value())).z && Value().x == Conj(CX(c, t), old(Value())).x;
    }

    /** The exponent of i in the product. */
    method SumPowers(rhs: BitProduct) returns (power: nat)
      requires Valid() && rhs.Valid() && rhs.n == n
      ensures IsPower(power, OddUpTo(Value(), rhs.Value(), n), HalfUpTo(Value(), rhs.Value(), n))
    {
      ghost var a, b := Value(), rhs.Value();
      var i := 0;
      power := 0;
      while i < n
        invariant i <= n && IsPower(power, OddUpTo(a, b, i), HalfUpTo(a, b, i))
      {
        assert TypeAt(i) == a.Type(i) && rhs.TypeAt(i) == b.Type(i);
        OneMorePower(power, a, b, i);
        power := (power + PowerOfI(TypeAt(i), rhs.TypeAt(i))) % 256;
        i := i + 1;
      }
    }

    /** The product, whichever object the right factor is, this one included. */
    method MultiplyBy(rhs: BitProduct)
      requires Valid() && rhs.Valid() && rhs.n == n
      modifies bits
      ensures Value() == Mul(old(Value()), old(rhs.Value()))
    {
      hide OddUpTo, HalfUpTo;
      ghost var a, b := Value(), rhs.Value();
      var power := SumPowers(rhs);
      var half := (power % 4) / 2 == 1;
      assert half == HalfUpTo(a, b, n);
      if rhs.bits == bits {
        SelfPower(a, n);
      }
      if half {
        bits[2 * n] := !bits[2 * n];
      }
      ghost var l, r := bits[..], rhs.bits[..];
      assert l[..n] == a.z && l[n..2 * n] == a.x && r[..n] == b.z && r[n..2 * n] == b.x;
      XorWith(rhs);
      XorStored(l, r, n);
    }

    method XorWith(rhs: BitProduct)
      requires Valid() && rhs.Valid() && rhs.n == n
      modifies bits
      ensures bits[..] == Xor(old(bits[..]), old(rhs.bits[..]))
    {
      var i := 0;
      while i < bits.Length
        invariant i <= bits.Length
        invariant forall j :: 0 <= j < i ==> bits[j] == (old(bits[j]) != old(rhs.bits[j]))
        invariant forall j :: i <= j < bits.Length ==> bits[j] == old(bits[j]) && rhs.bits[j] == old(rhs.bits[j])
      {
        bits[i] := bits[i] != rhs.bits[i];
        i := i + 1;
      }
    }

    method IsCommutative(rhs: BitProduct) returns (commute: bool)
      requires Valid() && rhs.Valid() && rhs.n == n
      ensures commute == Commute(Value(), rhs.Value())
    {
      commute := true;
      var i := 0;
      while i < n
        invariant i <= n && commute == !OddUpTo(Value(), rhs.Value(), i)
      {
        commute := commute != ((bits[i] && rhs.bits[i + n]) != (bits[i + n] && rhs.bits[i]));
        i := i + 1;
      }
    }
  }

  /** A rotation keeps its product positive: a sign that appears moves into the phase. */
  class BitRotation {
    const product: BitProduct
    var phase: Phase

    ghost predicate Valid()
      reads this, product, product.bits
    {
      product.Valid() && Proper1(Value(), product.n)
    }

    ghost function Value(): Rotation
      requires product.Valid()
      reads this, product, product.bits
    {
      Rotation(product.Value(), phase)
    }

    constructor (product: BitProduct, phase: Phase)
      requires product.Valid() && -1.0 < phase <= 1.0
      modifies product.bits
      ensures Valid() && this.product == product && Value() == MakeRotation(old(product.Value()), phase)
    {
      this.product, this.phase := product, phase;
      new;
      MoveSign();
    }

    method MoveSign()
      requires product.Valid() && -1.0 < phase <= 1.0
      modifies this, product.bits
      ensures Valid() && Value() == MakeRotation(old(product.Value()), old(phase))
    {
      if product.bits[2 * product.n] {
        product.Negate();
        phase := Normalize(-phase);
      }
    }

    method ApplyGate(g: Gate)
      requires Valid()
      modifies this, product.bits
      ensures Valid() && Value() == ConjRotation(g, old(Value()))
    {
      match g {
        case H(q) => product.ApplyH(q);
        case S(q) => product.ApplyS(q);
        case CX(c, t) => product.ApplyCX(c, t);
      }
      MoveSign();
    }
  }
}
