/** The multi-controlled phase as diagonal rotations: all non-empty subsets, sign by size. */
module ControlledPhases {
  import opened Collections
  import opened Paulis
  import opened Tableaux
  import opened Meaning
  import opened Rotations
  import opened PhaseFunctions
  import opened Diagonalization
  import opened GrayState
  import GraySynth

  // ---------------------------------------------------------------- subsets

  function Prefixed(q: nat, cs: seq<seq<nat>>): (r: seq<seq<nat>>)
    ensures |r| == |cs| && forall i :: 0 <= i < |cs| ==> r[i] == [q] + cs[i]
  {
    seq(|cs|, i requires 0 <= i < |cs| => [q] + cs[i])
  }

  /** The subsets of s with k elements, in lexicographic order. */
  function Combinations(s: seq<nat>, k: nat): seq<seq<nat>> {
    if k == 0 then [[]]
    else if s == [] then []
    else Prefixed(s[0], Combinations(s[1..], k - 1)) + Combinations(s[1..], k)
  }

  ghost predicate ChosenFrom(c: seq<nat>, s: seq<nat>, k: nat) {
    |c| == k && Distinct(c) && forall x :: x in c ==> x in s
  }

  lemma {:induction false} CombinationsChosen(s: seq<nat>, k: nat)
    requires Distinct(s)
    ensures forall i :: 0 <= i < |Combinations(s, k)| ==> ChosenFrom(Combinations(s, k)[i], s, k)
    decreases |s|
  {
    if k > 0 && s != [] {
      var a, b := Combinations(s[1..], k - 1), Combinations(s[1..], k);
      CombinationsChosen(s[1..], k - 1);
      CombinationsChosen(s[1..], k);
      forall i | 0 <= i < |Combinations(s, k)|
        ensures ChosenFrom(Combinations(s, k)[i], s, k)
      {
        if i < |a| {
          assert Combinations(s, k)[i] == [s[0]] + a[i];
          ChosenWithFirst(a[i], s, k - 1);
        } else {
          assert Combinations(s, k)[i] == b[i - |a|];
          assert ChosenFrom(b[i - |a|], s[1..], k);
        }
      }
    }
  }

  lemma ChosenWithFirst(c: seq<nat>, s: seq<nat>, k: nat)
    requires s != [] && Distinct(s) && ChosenFrom(c, s[1..], k)
    ensures ChosenFrom([s[0]] + c, s, k + 1)
  {
    forall i | 0 <= i < |c|
      ensures c[i] != s[0] && c[i] in s
    {
      assert c[i] in c;
      var j :| 0 <= j < |s[1..]| && s[1..][j] == c[i];
      assert s[j + 1] == c[i];
    }
  }

  // ---------------------------------------------------------------- parities

  /** The parity of the bits of the chosen qubits. */
  function Odd(c: seq<nat>, bits: seq<bool>): bool
    requires Below(c, |bits|)
  {
    c != [] && bits[c[0]] != Odd(c[1..], bits)
  }

  lemma {:induction false} ParityToggle(z: seq<bool>, bits: seq<bool>, q: nat)
    requires |z| == |bits| && q < |z| && !z[q]
    ensures Parity(z[q := true], bits) == (Parity(z, bits) != bits[q])
    decreases |z|
  {
    var m := |z| - 1;
    if q < m {
      ParityToggle(z[..m], bits[..m], q);
      assert z[q := true][..m] == z[..m][q := true];
    } else {
      assert z[q := true][..m] == z[..m];
    }
  }

  /** The parity selected by Z on the chosen qubits. */
  lemma {:induction false} ParityOfChoice(c: seq<nat>, bits: seq<bool>)
    requires Distinct(c) && Below(c, |bits|)
    ensures Parity(ZOn(|bits|, c).z, bits) == Odd(c, bits)
  {
    var n := |bits|;
    if c == [] {
      NoParity(ZOn(n, c).z, bits);
    } else {
      assert c == [c[0]] + c[1..];
      ParityOfChoice(c[1..], bits);
      ParityToggle(ZOn(n, c[1..]).z, bits, c[0]);
      assert ZOn(n, c).z == ZOn(n, c[1..]).z[c[0] := true];
    }
  }

  lemma {:induction false} NoParity(z: seq<bool>, bits: seq<bool>)
    requires |z| == |bits| && forall i :: 0 <= i < |z| ==> !z[i]
    ensures !Parity(z, bits)
  {
    if z != [] {
      NoParity(z[..|z| - 1], bits[..|z| - 1]);
    }
  }

  // ---------------------------------------------------------------- the alternating sums

  ghost predicate Within(cs: seq<seq<nat>>, n: nat) {
    forall i :: 0 <= i < |cs| ==> Below(cs[i], n)
  }

  /** How many of the subsets have odd parity. */
  function OddCount(cs: seq<seq<nat>>, bits: seq<bool>): int
    requires Within(cs, |bits|)
  {
    if cs == [] then 0
    else (if Odd(cs[0], bits) then 1 else 0) + OddCount(cs[1..], bits)
  }

  lemma {:induction false} OddCountAppend(a: seq<seq<nat>>, b: seq<seq<nat>>, bits: seq<bool>)
    requires Within(a, |bits|) && Within(b, |bits|)
    ensures Within(a + b, |bits|) && OddCount(a + b, bits) == OddCount(a, bits) + OddCount(b, bits)
  {
    if a == [] {
      assert a + b == b;
    } else {
      assert Within(a[1..], |bits|);
      OddCountAppend(a[1..], b, bits);
      assert (a + b)[1..] == a[1..] + b;
    }
  }

  /** One more qubit in every subset flips the parities if its bit is set. */
  lemma {:induction false} OddCountPrefixed(q: nat, cs: seq<seq<nat>>, bits: seq<bool>)
    requires Within(cs, |bits|) && q < |bits|
    ensures Within(Prefixed(q, cs), |bits|)
    ensures OddCount(Prefixed(q, cs), bits) == if bits[q] then |cs| - OddCount(cs, bits) else OddCount(cs, bits)
  {
    if cs != [] {
      assert Within(cs[1..], |bits|);
      OddCountPrefixed(q, cs[1..], bits);
      assert Prefixed(q, cs)[1..] == Prefixed(q, cs[1..]);
      assert ([q] + cs[0])[1..] == cs[0];
    }
  }

  lemma {:induction false} CombinationsWithin(s: seq<nat>, k: nat, n: nat)
    requires Below(s, n)
    ensures Within(Combinations(s, k), n)
    decreases |s|
  {
    if k > 0 && s != [] {
      CombinationsWithin(s[1..], k - 1, n);
      CombinationsWithin(s[1..], k, n);
    }
  }

  function OddSubsets(s: seq<nat>, bits: seq<bool>, k: nat): int
    requires Below(s, |bits|)
  {
    CombinationsWithin(s, k, |bits|);
    OddCount(Combinations(s, k), bits)
  }

  function Signed(k: nat, x: int): int {
    if k % 2 == 0 then x else -x
  }

  /** The subsets of at most k elements, counted with alternating signs. */
  function Alternating(s: seq<nat>, k: nat): int {
    Signed(k, |Combinations(s, k)|) + if k == 0 then 0 else Alternating(s, k - 1)
  }

  /** Those of odd parity. */
  function AlternatingOdd(s: seq<nat>, bits: seq<bool>, k: nat): int
    requires Below(s, |bits|)
  {
    Signed(k, OddSubsets(s, bits, k)) + if k == 0 then 0 else AlternatingOdd(s, bits, k - 1)
  }

  lemma {:induction false} AlternatingStep(s: seq<nat>, k: nat)
    requires s != [] && k > 0
    ensures Alternating(s, k) == Alternating(s[1..], k) - Alternating(s[1..], k - 1)
  {
    SubsetsStep(s, k);
    OneEmptySubset(s);
    OneEmptySubset(s[1..]);
    hide Combinations;
    var t := s[1..];
    assert Alternating(s, k) == Signed(k, |Combinations(s, k)|) + Alternating(s, k - 1);
    assert Alternating(t, k) == Signed(k, |Combinations(t, k)|) + Alternating(t, k - 1);
    if k > 1 {
      assert Alternating(t, k - 1) == Signed(k - 1, |Combinations(t, k - 1)|) + Alternating(t, k - 2);
      hide Alternating;
      AlternatingStep(s, k - 1);
    }
  }

  lemma SubsetsStep(s: seq<nat>, k: nat)
    requires s != [] && k > 0
    ensures |Combinations(s, k)| == |Combinations(s[1..], k - 1)| + |Combinations(s[1..], k)|
  {
  }

  lemma OddSubsetsStep(s: seq<nat>, bits: seq<bool>, k: nat)
    requires Below(s, |bits|) && s != [] && k > 0
    ensures OddSubsets(s, bits, k) == OddSubsets(s[1..], bits, k) +
              if bits[s[0]] then |Combinations(s[1..], k - 1)| - OddSubsets(s[1..], bits, k - 1)
              else OddSubsets(s[1..], bits, k - 1)
  {
    var a, b := Combinations(s[1..], k - 1), Combinations(s[1..], k);
    CombinationsWithin(s[1..], k - 1, |bits|);
    CombinationsWithin(s[1..], k, |bits|);
    OddCountPrefixed(s[0], a, bits);
    OddCountAppend(Prefixed(s[0], a), b, bits);
  }

  lemma {:induction false} AlternatingOddStep(s: seq<nat>, bits: seq<bool>, k: nat)
    requires Below(s, |bits|) && s != [] && k > 0
    ensures AlternatingOdd(s, bits, k) == AlternatingOdd(s[1..], bits, k) -
              if bits[s[0]] then Alternating(s[1..], k - 1) - AlternatingOdd(s[1..], bits, k - 1)
              else AlternatingOdd(s[1..], bits, k - 1)
  {
    hide OddSubsets, Combinations;
    OddSubsetsStep(s, bits, k);
    NoOddEmptySubset(s, bits);
    NoOddEmptySubset(s[1..], bits);
    if k > 1 {
      AlternatingOddStep(s, bits, k - 1);
    }
  }

  lemma NoOddEmptySubset(s: seq<nat>, bits: seq<bool>)
    requires Below(s, |bits|)
    ensures OddSubsets(s, bits, 0) == 0
  {
    OneEmptySubset(s);
    var cs := Combinations(s, 0);
    assert cs[1..] == [] && !Odd(cs[0], bits);
    CombinationsWithin(s, 0, |bits|);
    assert OddCount(cs, bits) == OddCount(cs[1..], bits) == 0;
  }

  lemma {:induction false} TooManyToChoose(s: seq<nat>, k: nat)
    requires k > |s|
    ensures Combinations(s, k) == []
    decreases |s|
  {
    if s != [] {
      TooManyToChoose(s[1..], k - 1);
      TooManyToChoose(s[1..], k);
    }
  }

  lemma {:induction false} AlternatingWhole(s: seq<nat>)
    ensures Alternating(s, |s|) == if s == [] then 1 else 0
  {
    hide Combinations;
    if s == [] {
      assert |Combinations(s, 0)| == 1 by { OneEmptySubset(s); }
    } else {
      AlternatingStep(s, |s|);
      TooManyToChoose(s[1..], |s|);
    }
  }

  lemma OneEmptySubset(s: seq<nat>)
    ensures Combinations(s, 0) == [[]]
  {
  }

  function Pow2(k: nat): (r: int)
    ensures r > 0
  {
    if k == 0 then 1 else 2 * Pow2(k - 1)
  }

  ghost predicate AllOn(s: seq<nat>, bits: seq<bool>)
    requires Below(s, |bits|)
  {
    forall i :: 0 <= i < |s| ==> bits[s[i]]
  }

  /** Over all subsets the alternating sum of parities is, up to sign and scale, the conjunction of the bits. */
  lemma {:induction false} AlternatingOddWhole(s: seq<nat>, bits: seq<bool>)
    requires Below(s, |bits|) && s != []
    ensures AlternatingOdd(s, bits, |s|) == if AllOn(s, bits) then -Pow2(|s| - 1) else 0
  {
    hide OddSubsets, Combinations;
    var rest, m := s[1..], |s|;
    AlternatingOddStep(s, bits, m);
    TooManyToChoose(rest, m);
    assert OddSubsets(rest, bits, m) == 0 by { NothingIsOdd(rest, bits, m); }
    AlternatingWhole(rest);
    assert AllOn(s, bits) <==> bits[s[0]] && AllOn(rest, bits);
    if m > 1 {
      AlternatingOddWhole(rest, bits);
    } else {
      NoOddEmptySubset(rest, bits);
    }
  }

  lemma NothingIsOdd(s: seq<nat>, bits: seq<bool>, k: nat)
    requires Below(s, |bits|) && Combinations(s, k) == []
    ensures OddSubsets(s, bits, k) == 0
  {
  }

  // ---------------------------------------------------------------- the terms

  /** The rotations give every basis state the phase exactly when all qubits are set. */
  ghost predicate IsControlledPhase(rs: seq<Rotation>, qubits: seq<nat>, phase: Phase, n: nat) {
    && ProperList(rs, n) && AllDiagonal(rs) && Below(qubits, n) && TermsSized(TermsOf(rs), n)
    && forall bits: seq<bool> :: |bits| == n ==> PhaseOn(TermsOf(rs), bits) == if AllOn(qubits, bits) then phase else 0.0
  }

  /** The rotations give every basis state this multiple of the phase. */
  ghost predicate AddsUp(rs: seq<Rotation>, phase: Phase, n: nat, sum: seq<bool> -> int) {
    && ProperList(rs, n) && AllDiagonal(rs) && TermsSized(TermsOf(rs), n)
    && forall bits: seq<bool> :: |bits| == n ==> PhaseOn(TermsOf(rs), bits) == phase * sum(bits) as real
  }

  /** One more rotation, about Z on the chosen qubits. */
  lemma OneMoreTerm(rs: seq<Rotation>, c: seq<nat>, a: Phase, phase: Phase, n: nat, sum: seq<bool> -> int, sum': seq<bool> -> int,
                    minus: bool)
    requires AddsUp(rs, phase, n, sum) && Distinct(c) && Below(c, n) && -1.0 < a <= 1.0 && a == if minus then -phase else phase
    requires forall bits: seq<bool> :: |bits| == n ==>
               sum'(bits) == sum(bits) + if Odd(c, bits) then (if minus then -1 else 1) else 0
    ensures AddsUp(rs + [Rotation(ZOn(n, c), a)], phase, n, sum')
  {
    hide PhaseOn, Odd;
    var r := Rotation(ZOn(n, c), a);
    assert Proper1(r, n) && r.p.IsDiagonal();
    assert TermsOf(rs + [r]) == TermsOf(rs) + [Term(r.p.z, a)];
    forall bits: seq<bool> | |bits| == n
      ensures PhaseOn(TermsOf(rs + [r]), bits) == phase * sum'(bits) as real
    {
      PhaseAppend(TermsOf(rs), [Term(r.p.z, a)], bits);
      PhaseOfOne(Term(r.p.z, a), bits);
      ParityOfChoice(c, bits);
    }
  }

  lemma PhaseOfOne(t: Term, bits: seq<bool>)
    requires |t.z| == |bits|
    ensures PhaseOn([t], bits) == if Parity(t.z, bits) then t.phase else 0.0
  {
    assert [t][1..] == [];
  }

  ghost function SumOf(s: seq<nat>, k: nat, n: nat): seq<bool> -> int
    requires Below(s, n)
  {
    (bits: seq<bool>) => if |bits| == n then -AlternatingOdd(s, bits, k) else 0
  }

  /** All subsets of fewer than k elements and the first i of those with k. */
  ghost function PartialSum(s: seq<nat>, k: nat, i: nat, n: nat): seq<bool> -> int
    requires Below(s, n) && 0 < k && i <= |Combinations(s, k)|
  {
    (bits: seq<bool>) => if |bits| == n then -AlternatingOdd(s, bits, k - 1) - Signed(k, OddUpTo(s, bits, k, i)) else 0
  }

  function OddUpTo(s: seq<nat>, bits: seq<bool>, k: nat, i: nat): int
    requires Below(s, |bits|) && i <= |Combinations(s, k)|
  {
    CombinationsWithin(s, k, |bits|);
    OddCount(Combinations(s, k)[..i], bits)
  }

  lemma OddUpToNext(s: seq<nat>, bits: seq<bool>, k: nat, i: nat)
    requires Below(s, |bits|) && i < |Combinations(s, k)|
    ensures Below(Combinations(s, k)[i], |bits|)
    ensures OddUpTo(s, bits, k, i + 1) == OddUpTo(s, bits, k, i) + if Odd(Combinations(s, k)[i], bits) then 1 else 0
  {
    var cs := Combinations(s, k);
    CombinationsWithin(s, k, |bits|);
    assert cs[..i + 1] == cs[..i] + [cs[i]];
    OddCountAppend(cs[..i], [cs[i]], bits);
    OddCountOne(cs[i], bits);
  }

  lemma OddCountOne(c: seq<nat>, bits: seq<bool>)
    requires Below(c, |bits|)
    ensures Within([c], |bits|) && OddCount([c], bits) == if Odd(c, bits) then 1 else 0
  {
    var cs := [c];
    assert cs == [c] + cs[1..] && |cs[1..]| == 0;
    assert OddCount(cs[1..], bits) == 0;
  }

  lemma {:induction false} AddsUpTo(rs: seq<Rotation>, phase: Phase, n: nat, sum: seq<bool> -> int, sum': seq<bool> -> int)
    requires AddsUp(rs, phase, n, sum) && forall bits: seq<bool> :: |bits| == n ==> sum'(bits) == sum(bits)
    ensures AddsUp(rs, phase, n, sum')
  {
    hide ProperList, AllDiagonal, TermsSized, PhaseOn, TermsOf;
  }

  /** The rotations for all subsets of one size. */
  method AddSize(rs: seq<Rotation>, sorted: seq<nat>, size: nat, phase: Phase, n: nat) returns (more: seq<Rotation>)
    requires Distinct(sorted) && Below(sorted, n) && 0 < size && -1.0 < phase <= 1.0 && (size % 2 == 0 ==> phase < 1.0)
    requires AddsUp(rs, phase, n, SumOf(sorted, size - 1, n))
    ensures AddsUp(more, phase, n, SumOf(sorted, size, n))
  {
    hide AddsUp, Combinations, OddCount, AlternatingOdd, Normalize;
    var minus, cs := size % 2 == 0, Combinations(sorted, size);
    more := rs;
    AddsUpTo(more, phase, n, SumOf(sorted, size - 1, n), PartialSum(sorted, size, 0, n)) by { NothingUpTo(sorted, size, n); }
    CombinationsChosen(sorted, size);
    var i := 0;
    while i < |cs|
      invariant i <= |cs| && AddsUp(more, phase, n, PartialSum(sorted, size, i, n))
    {
      assert ChosenFrom(cs[i], sorted, size);
      ChosenBelow(cs[i], sorted, size, n);
      forall bits: seq<bool> | |bits| == n
        ensures PartialSum(sorted, size, i + 1, n)(bits)
                == PartialSum(sorted, size, i, n)(bits) + if Odd(cs[i], bits) then (if minus then -1 else 1) else 0
      {
        OddUpToNext(sorted, bits, size, i);
      }
      if minus {
        NormalizeFixes(-phase);
      }
      var a := if minus then Normalize(-phase) else phase;
      OneMoreTerm(more, cs[i], a, phase, n, PartialSum(sorted, size, i, n), PartialSum(sorted, size, i + 1, n), minus);
      more := more + [Rotation(ZOn(n, cs[i]), a)];
      i := i + 1;
    }
    AddsUpTo(more, phase, n, PartialSum(sorted, size, |cs|, n), SumOf(sorted, size, n)) by { AllUpTo(sorted, size, n); }
  }

  lemma NothingUpTo(s: seq<nat>, k: nat, n: nat)
    requires Below(s, n) && 0 < k
    ensures forall bits: seq<bool> :: |bits| == n ==> PartialSum(s, k, 0, n)(bits) == SumOf(s, k - 1, n)(bits)
  {
  }

  lemma AllUpTo(s: seq<nat>, k: nat, n: nat)
    requires Below(s, n) && 0 < k
    ensures forall bits: seq<bool> :: |bits| == n ==> SumOf(s, k, n)(bits) == PartialSum(s, k, |Combinations(s, k)|, n)(bits)
  {
    var cs := Combinations(s, k);
    assert cs[..|cs|] == cs;
  }

  lemma ChosenBelow(c: seq<nat>, s: seq<nat>, k: nat, n: nat)
    requires ChosenFrom(c, s, k) && Below(s, n)
    ensures Below(c, n) && Distinct(c)
  {
    forall i | 0 <= i < |c|
      ensures c[i] < n
    {
      assert c[i] in c;
    }
  }

  lemma DividedPhase(ph: Phase, k: nat)
    requires -1.0 < ph <= 1.0
    ensures var phase := ph / Pow2(k) as real;
            -1.0 < phase <= 1.0 && Normalize(phase) == phase && (k > 0 ==> phase < 1.0) && phase * Pow2(k) as real == ph
  {
    var d := Pow2(k) as real;
    var phase := ph / d;
    assert phase * d == ph;
    assert d >= 1.0 && (k > 0 ==> d >= 2.0);
    assert -1.0 < phase <= 1.0 && (k > 0 ==> phase < 1.0) by { QuotientBounds(ph, d, phase); }
    NormalizeFixes(phase);
  }

  lemma QuotientBounds(ph: real, d: real, phase: real)
    requires -1.0 < ph <= 1.0 && d >= 1.0 && phase * d == ph
    ensures -1.0 < phase <= 1.0 && (d >= 2.0 ==> phase < 1.0)
  {
    if phase <= -1.0 || phase > 1.0 || (d >= 2.0 && phase == 1.0) {
      assert false;
    }
  }

  /** The largest int of 32 bits. */
  const MAX_INT: int := 0x7FFF_FFFF

  lemma {:induction false} Pow2Grows(j: nat, k: nat)
    requires j <= k
    ensures Pow2(j) <= Pow2(k)
    decreases k
  {
    if j < k {
      Pow2Grows(j, k - 1);
    }
  }

  /** The program holds the divisor in an int: it fits exactly below 32 qubits. */
  lemma DivisorFits(qubits: nat)
    requires qubits > 0
    ensures Pow2(qubits - 1) <= MAX_INT <==> qubits < 32
  {
    assert Pow2(10) == 1024;
    assert Pow2(20) == 0x10_0000;
    assert Pow2(30) == 0x4000_0000;
    assert Pow2(31) == 0x8000_0000;
    if qubits < 32 {
      Pow2Grows(qubits - 1, 30);
    } else {
      Pow2Grows(31, qubits - 1);
    }
  }

  /** The multi-controlled phase: the terms sum to the phase times the conjunction of the bits. The divisor
      is unbounded here; the program's fits an int below 32 qubits (DivisorFits), and its terms are these
      there. */
  method ControlledPhaseTerms(qubits: seq<nat>, ph: Phase, n: nat) returns (rs: seq<Rotation>)
    requires qubits != [] && Distinct(qubits) && Below(qubits, n) && -1.0 < ph <= 1.0
    ensures IsControlledPhase(rs, qubits, ph, n)
  {
    hide AddsUp, Normalize, Distinct, IsControlledPhase;
    var m := |qubits|;
    DividedPhase(ph, m - 1);
    var phase := Normalize(ph / Pow2(m - 1) as real);
    IotaDistinct(n);
    var sorted := GraySynth.SortByOrder(qubits, Iota(n));
    SortedDistinct(qubits, sorted, n);
    rs := [];
    NoTerms(phase, n, sorted);
    var size := 1;
    while size <= m
      invariant 1 <= size <= m + 1 && AddsUp(rs, phase, n, SumOf(sorted, size - 1, n))
    {
      rs := AddSize(rs, sorted, size, phase, n);
      size := size + 1;
    }
    WholeSum(rs, qubits, sorted, phase, ph, n);
  }

  lemma IotaDistinct(n: nat)
    ensures Distinct(Iota(n))
  {
  }

  lemma SortedDistinct(s: seq<nat>, sorted: seq<nat>, n: nat)
    requires |sorted| == |s| && Below(sorted, n) && GraySynth.Ascending(sorted, Iota(n))
    ensures Distinct(sorted)
  {
    GraySynth.AscendingIsDistinct(sorted, Iota(n));
  }

  lemma NoTerms(phase: Phase, n: nat, sorted: seq<nat>)
    requires Below(sorted, n)
    ensures AddsUp([], phase, n, SumOf(sorted, 0, n))
  {
    forall bits: seq<bool> | |bits| == n
      ensures PhaseOn(TermsOf([]), bits) == phase * SumOf(sorted, 0, n)(bits) as real
    {
      NoOddEmptySubset(sorted, bits);
    }
  }

  lemma WholeSum(rs: seq<Rotation>, qubits: seq<nat>, sorted: seq<nat>, phase: Phase, ph: Phase, n: nat)
    requires qubits != [] && |sorted| == |qubits| && Below(qubits, n) && Below(sorted, n)
    requires forall x :: x in sorted <==> x in qubits
    requires phase * Pow2(|qubits| - 1) as real == ph && AddsUp(rs, phase, n, SumOf(sorted, |qubits|, n))
    ensures IsControlledPhase(rs, qubits, ph, n)
  {
    hide PhaseOn, AlternatingOdd;
    forall bits: seq<bool> | |bits| == n
      ensures PhaseOn(TermsOf(rs), bits) == if AllOn(qubits, bits) then ph else 0.0
    {
      AlternatingOddWhole(sorted, bits);
      SameConjunction(qubits, sorted, bits);
    }
  }

  lemma SameConjunction(s: seq<nat>, t: seq<nat>, bits: seq<bool>)
    requires Below(s, |bits|) && Below(t, |bits|) && forall x :: x in t <==> x in s
    ensures AllOn(s, bits) <==> AllOn(t, bits)
  {
    forall i | 0 <= i < |s|
      ensures exists j :: 0 <= j < |t| && t[j] == s[i]
    {
      assert s[i] in t;
    }
    forall i | 0 <= i < |t|
      ensures exists j :: 0 <= j < |s| && s[j] == t[i]
    {
      assert t[i] in s;
    }
  }
}
