/** Dropping and merging rotations in place, without changing what the list means. */
module Merging {
  import opened Paulis
  import opened Operators
  import opened Tableaux
  import opened Meaning
  import opened MeaningLaws
  import opened Rotations

  // ---------------------------------------------------------------- dropping

  predicate Idle(r: Rotation) {
    r.phase == 0.0 || r.p.IsIdentity()
  }

  /** The rotations that do something, in order. */
  function Kept(rs: seq<Rotation>): (r: seq<Rotation>)
    ensures |r| <= |rs|
    ensures forall i :: 0 <= i < |r| ==> !Idle(r[i]) && r[i] in rs
    ensures |r| == |rs| ==> r == rs
    ensures (exists i :: 0 <= i < |rs| && Idle(rs[i])) ==> |r| < |rs|
  {
    if rs == [] then []
    else
      var m := |rs| - 1;
      assert rs == rs[..m] + [rs[m]];
      if Idle(rs[m]) then Kept(rs[..m]) else Kept(rs[..m]) + [rs[m]]
  }

  lemma IdleSame(n: nat, r: Rotation)
    requires Proper1(r, n) && Idle(r)
    ensures Same(n, [Item1(r)], [])
  {
    hide Same;
    if r.phase == 0.0 {
      DropZeroRotation(n, r.p);
    } else {
      DropIdentityRotation(n, r.p, r.phase);
    }
  }

  /** Dropping idle rotations keeps the meaning. */
  lemma {:induction false} KeptSame(n: nat, rs: seq<Rotation>)
    requires ProperList(rs, n)
    ensures ProperList(Kept(rs), n) && Same(n, Items(rs), Items(Kept(rs)))
    decreases |rs|
  {
    hide Same, Idle;
    if rs == [] {
      ItemsOk(rs, n);
      SameRefl(n, Items(rs));
    } else {
      var m := |rs| - 1;
      var init, last := rs[..m], rs[m];
      assert rs == init + [last];
      ItemsAppend(init, [last]);
      assert Items([last]) == [Item1(last)];
      ItemsOk(init, n);
      ItemsOk([last], n);
      KeptSame(n, init);
      if Idle(last) {
        IdleSame(n, last);
        SameBefore(n, Items(init), [Item1(last)], []);
        assert Items(init) + [] == Items(init);
        SameTrans(n, Items(rs), Items(init), Items(Kept(rs)));
      } else {
        SameAfter(n, Items(init), Items(Kept(init)), [Item1(last)]);
        ItemsAppend(Kept(init), [last]);
      }
    }
  }

  // ---------------------------------------------------------------- merging

  /** p commutes with rotations from..to of the list. */
  ghost predicate CommutesBetween(p: Pauli, rs: seq<Rotation>, from: nat, to: nat)
    requires to <= |rs| && p.Sized(|p.z|) && ProperList(rs, |p.z|)
  {
    forall k :: from <= k < to ==> Commute(p, rs[k].p)
  }

  /** A rotation moves left past rotations that commute with it. */
  lemma {:induction false} MovePast(n: nat, p: Pauli, a: Phase, rs: seq<Rotation>)
    requires p.Sized(n) && ProperList(rs, n) && CommutesBetween(p, rs, 0, |rs|)
    ensures Same(n, Items(rs) + [Rotate(p, a)], [Rotate(p, a)] + Items(rs))
    decreases |rs|
  {
    hide Same, Commute;
    var i := Rotate(p, a);
    TwoOk(i, i, n);
    if rs == [] {
      assert Items(rs) + [i] == [i] && [i] + Items(rs) == [i];
      SameRefl(n, [i]);
    } else {
      var m := |rs| - 1;
      var init, last := rs[..m], rs[m];
      var j := Item1(last);
      assert rs == init + [last];
      ItemsAppend(init, [last]);
      assert Items([last]) == [j];
      CommuteSymmetric(p, last.p);
      SwapRotations(n, last.p, last.phase, p, a);
      ItemsOk(init, n);
      SameBefore(n, Items(init), [j, i], [i, j]);
      assert Items(init) + [j, i] == Items(rs) + [i];
      assert CommutesBetween(p, rs, 0, m) && CommutesBetween(p, init, 0, m);
      MovePast(n, p, a, init);
      ItemsOk([last], n);
      SameAfter(n, Items(init) + [i], [i] + Items(init), [j]);
      assert Items(init) + [i, j] == Items(init) + [i] + [j];
      assert [i] + Items(init) + [j] == [i] + Items(rs);
      SameTrans(n, Items(rs) + [i], Items(init) + [i] + [j], [i] + Items(rs));
    }
  }

  function Merged(rs: seq<Rotation>, i: nat, j: nat): seq<Rotation>
    requires i < j < |rs|
  {
    rs[i := Rotation(rs[i].p, Normalize(rs[i].phase + rs[j].phase))][j := Rotation(rs[j].p, 0.0)]
  }

  lemma MergedProper(n: nat, rs: seq<Rotation>, i: nat, j: nat)
    requires i < j < |rs| && ProperList(rs, n)
    ensures ProperList(Merged(rs, i, j), n)
  {
  }

  /** [a, B, b] with equal Paulis at both ends and B commuting means [a + b, B, 0]. */
  lemma MergeAcross(n: nat, p: Pauli, a: Phase, b: Phase, mid: seq<Rotation>)
    requires p.Sized(n) && ProperList(mid, n) && CommutesBetween(p, mid, 0, |mid|)
    ensures Same(n, [Rotate(p, a)] + Items(mid) + [Rotate(p, b)],
                 [Rotate(p, Normalize(a + b))] + Items(mid) + [Rotate(p, 0.0)])
  {
    hide Same, Commute, CommutesBetween, Normalize;
    var i, j, k, z := Rotate(p, a), Rotate(p, b), Rotate(p, Normalize(a + b)), Rotate(p, 0.0);
    var B := Items(mid);
    ItemsOk(mid, n);
    TwoOk(i, j, n);
    TwoOk(k, z, n);
    MovePast(n, p, b, mid);
    SameBefore(n, [i], B + [j], [j] + B);
    assert [i] + (B + [j]) == [i] + B + [j] && [i] + ([j] + B) == [i, j] + B;
    MergeRotations(n, p, a, b);
    SameAfter(n, [i, j], [k], B);
    SameTrans(n, [i] + B + [j], [i, j] + B, [k] + B);
    DropZeroRotation(n, p);
    SameSym(n, [z], []);
    OkAppend([k], B, n);
    SameBefore(n, [k] + B, [], [z]);
    assert [k] + B + [] == [k] + B;
    SameTrans(n, [i] + B + [j], [k] + B, [k] + B + [z]);
  }

  /** Merging j into i keeps the meaning when everything between commutes with i. */
  lemma {:induction false} MergeStep(n: nat, rs: seq<Rotation>, i: nat, j: nat)
    requires ProperList(rs, n) && i < j < |rs| && rs[i].p == rs[j].p && CommutesBetween(rs[i].p, rs, i + 1, j)
    ensures Same(n, Items(rs), Items(Merged(rs, i, j)))
  {
    hide Same, Commute, Normalize, Ok;
    var p, mid := rs[i].p, rs[i + 1..j];
    MergeAcross(n, p, rs[i].phase, rs[j].phase, mid);
    ItemsOk(rs[..i], n);
    ItemsOk(rs[j + 1..], n);
    hide *;
    ItemsAround(rs, i, j);
    ItemsAroundMerged(rs, i, j);
    SameInContext(n, Items(rs[..i]), [Rotate(p, rs[i].phase)] + Items(mid) + [Rotate(p, rs[j].phase)],
                  [Rotate(p, Normalize(rs[i].phase + rs[j].phase))] + Items(mid) + [Rotate(p, 0.0)], Items(rs[j + 1..]));
  }

  lemma {:induction false} ItemsAround(rs: seq<Rotation>, i: nat, j: nat)
    requires i < j < |rs|
    ensures Items(rs) == Items(rs[..i]) + ([Rotate(rs[i].p, rs[i].phase)] + Items(rs[i + 1..j]) + [Rotate(rs[j].p, rs[j].phase)])
                         + Items(rs[j + 1..])
  {
    var a, m, b := Items(rs[..i]), Items(rs[i + 1..j]), Items(rs[j + 1..]);
    assert Items(rs) == a + ([Rotate(rs[i].p, rs[i].phase)] + m + [Rotate(rs[j].p, rs[j].phase)]) + b;
  }

  lemma {:induction false} ItemsAroundMerged(rs: seq<Rotation>, i: nat, j: nat)
    requires i < j < |rs|
    ensures Items(Merged(rs, i, j)) ==
            Items(rs[..i]) + ([Rotate(rs[i].p, Normalize(rs[i].phase + rs[j].phase))] + Items(rs[i + 1..j]) + [Rotate(rs[j].p, 0.0)])
            + Items(rs[j + 1..])
  {
    hide Items, Normalize;
    var m := Merged(rs, i, j);
    ItemsAround(m, i, j);
    assert m[..i] == rs[..i] && m[i + 1..j] == rs[i + 1..j] && m[j + 1..] == rs[j + 1..];
  }

  /** No two equal Paulis with only commuting rotations between them. */
  ghost predicate Unmergeable(rs: seq<Rotation>, n: nat)
    requires ProperList(rs, n)
  {
    forall i: nat :: i < |rs| ==> UnmergeableFrom(rs, n, i)
  }

  ghost predicate UnmergeableFrom(rs: seq<Rotation>, n: nat, i: nat)
    requires ProperList(rs, n) && i < |rs|
  {
    forall j: nat :: i < j < |rs| && CommutesBetween(rs[i].p, rs, i + 1, j) ==> rs[j].p != rs[i].p
  }

  ghost predicate SamePaulis(rs: seq<Rotation>, rs': seq<Rotation>) {
    |rs| == |rs'| && forall i :: 0 <= i < |rs| ==> rs[i].p == rs'[i].p
  }

  ghost predicate HasZero(rs: seq<Rotation>) {
    exists i :: 0 <= i < |rs| && rs[i].phase == 0.0
  }

  lemma {:induction false} MergeOnce(n: nat, start: seq<Rotation>, rs: seq<Rotation>, i: nat, j: nat)
    requires ProperList(rs, n) && i < j < |rs| && rs[i].p == rs[j].p && CommutesBetween(rs[i].p, rs, i + 1, j)
    requires Same(n, Items(start), Items(rs))
    ensures ProperList(Merged(rs, i, j), n) && Same(n, Items(start), Items(Merged(rs, i, j)))
  {
    hide *;
    MergeStep(n, rs, i, j);
    MergedProper(n, rs, i, j);
    SameTrans(n, Items(start), Items(rs), Items(Merged(rs, i, j)));
  }

  /** Merging into i stops at the first rotation that does not commute with it. */
  lemma {:induction false} NothingToMerge(rs: seq<Rotation>, n: nat, i: nat, j: nat)
    requires ProperList(rs, n) && i < j <= |rs| && forall k :: i < k < j ==> rs[k].p != rs[i].p
    requires j < |rs| ==> !Commute(rs[i].p, rs[j].p)
    ensures UnmergeableFrom(rs, n, i)
  {
    hide Commute;
    forall k: nat | i < k < |rs| && CommutesBetween(rs[i].p, rs, i + 1, k)
      ensures rs[k].p != rs[i].p
    {
      if k == j {
        CommuteSelf(rs[i].p);
      } else if k > j {
        assert false;
      }
    }
  }

  class RotationList {
    const n: nat
    var list: seq<Rotation>

    ghost predicate Valid()
      reads this
    {
      ProperList(list, n)
    }

    constructor (list: seq<Rotation>, n: nat)
      requires ProperList(list, n)
      ensures Valid() && this.n == n && this.list == list
    {
      this.n := n;
      this.list := list;
    }

    method RemoveIdentities()
      requires Valid()
      modifies this
      ensures Valid() && list == Kept(old(list)) && Same(n, Items(old(list)), Items(list))
    {
      var kept, i := [], 0;
      assert list[..0] == [];
      while i < |list|
        invariant i <= |list| && kept == Kept(list[..i])
      {
        assert list[..i + 1][..i] == list[..i];
        if !Idle(list[i]) {
          kept := kept + [list[i]];
        }
        i := i + 1;
      }
      assert list[..i] == list;
      KeptSame(n, list);
      list := kept;
    }

    /** Merges later rotations into i until one does not commute with it. */
    method MergeInto(i: nat)
      requires Valid() && i < |list|
      modifies this
      ensures Valid() && SamePaulis(old(list), list) && Same(n, Items(old(list)), Items(list))
      ensures HasZero(list) || list == old(list)
      ensures list == old(list) ==> HasZero(list) || UnmergeableFrom(list, n, i)
    {
      hide Same, Commute, Normalize;
      ItemsOk(list, n);
      SameRefl(n, Items(list));
      var j := i + 1;
      while j < |list| && Commute(list[i].p, list[j].p)
        invariant i < j <= |list| && Valid() && SamePaulis(old(list), list)
        invariant Same(n, Items(old(list)), Items(list))
        invariant CommutesBetween(list[i].p, list, i + 1, j)
        invariant HasZero(list) || (list == old(list) && forall k :: i < k < j ==> list[k].p != list[i].p)
      {
        if list[i].p == list[j].p {
          MergeOnce(n, old(list), list, i, j);
          ghost var before := list;
          list := list[i := Rotation(list[i].p, Normalize(list[i].phase + list[j].phase))];
          list := list[j := Rotation(list[j].p, 0.0)];
          assert list == Merged(before, i, j);
          assert list[j].phase == 0.0;
        }
        j := j + 1;
      }
      if list == old(list) && !HasZero(list) {
        NothingToMerge(list, n, i, j);
      }
    }

    /** Merges every mergeable pair and drops what is idle. */
    method Merge()
      requires Valid()
      modifies this
      ensures Valid() && Same(n, Items(old(list)), Items(list)) && |list| <= |old(list)|
      ensures forall i :: 0 <= i < |list| ==> !Idle(list[i])
      ensures |list| == |old(list)| ==> list == old(list) && Unmergeable(list, n)
    {
      hide Same, CommutesBetween;
      ItemsOk(list, n);
      SameRefl(n, Items(list));
      var i := 0;
      while i < |list|
        invariant i <= |list| && Valid() && SamePaulis(old(list), list)
        invariant Same(n, Items(old(list)), Items(list))
        invariant HasZero(list) || (list == old(list) && forall k: nat :: k < i ==> UnmergeableFrom(list, n, k))
      {
        ghost var before := list;
        MergeInto(i);
        SameTrans(n, Items(old(list)), Items(before), Items(list));
        i := i + 1;
      }
      ghost var before := list;
      RemoveIdentities();
      SameTrans(n, Items(old(list)), Items(before), Items(list));
      if HasZero(before) {
        var k :| 0 <= k < |before| && before[k].phase == 0.0;
        assert Idle(before[k]);
      }
    }
  }
}
