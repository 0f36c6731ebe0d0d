/** Options and lists of numbers, as several modules use them. */
module Collections {
  datatype Option<T> = None | Some(value: T)

  function Max(a: nat, b: nat): nat {
    if a >= b then a else b
  }

  ghost predicate Distinct(s: seq<nat>) {
    forall i, j :: 0 <= i < j < |s| ==> s[i] != s[j]
  }

  ghost predicate Below(s: seq<nat>, m: nat) {
    forall i :: 0 <= i < |s| ==> s[i] < m
  }

  /** Every number below m once, in some order. */
  ghost predicate Enumerates(order: seq<nat>, m: nat) {
    && Distinct(order) && (forall i :: 0 <= i < |order| ==> order[i] < m)
    && forall k: nat :: k < m ==> k in order
  }

  function Reversed<T>(s: seq<T>): (r: seq<T>)
    ensures |r| == |s| && forall i :: 0 <= i < |s| ==> r[i] == s[|s| - 1 - i]
  {
    seq(|s|, i requires 0 <= i < |s| => s[|s| - 1 - i])
  }

  /** The numbers below m in order. */
  function Iota(m: nat): (s: seq<nat>)
    ensures |s| == m && forall i :: 0 <= i < m ==> s[i] == i
  {
    seq(m, i => i)
  }

  /** Where an element first is. */
  function IndexOf(s: seq<nat>, x: nat): (i: nat)
    requires x in s
    ensures i < |s| && s[i] == x
  {
    if s[0] == x then 0 else IndexOf(s[1..], x) + 1
  }

  /** The set of the elements. */
  ghost function Members(s: seq<nat>): set<nat> {
    set x | x in s
  }

  lemma SomeMember(s: seq<nat>)
    ensures s != [] ==> exists x: nat :: x in s
  {
    assert s != [] ==> s[0] in s;
  }

  lemma {:induction false} IotaMembers(m: nat)
    ensures forall q: nat :: q in Iota(m) <==> q < m
  {
    forall q: nat | q < m
      ensures q in Iota(m)
    {
      assert Iota(m)[q] == q;
    }
  }
}
