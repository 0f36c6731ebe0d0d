/** Sorting operations by start time, whatever becomes of equal times. */
module Sorts {
  import opened Collections
  import opened Schedules

  /** A sort: its result depends on the list alone, and is the same operations by start time. */
  type Sorting = f: seq<Operation> -> seq<Operation> | Sorts(f) ghost witness InsertionSort

  ghost predicate Sorts(f: seq<Operation> -> seq<Operation>) {
    forall ops :: SortedByStart(f(ops)) && Permutation(ops, f(ops))
  }

  lemma Sorted(sort: Sorting, list: seq<Operation>)
    ensures SortedByStart(sort(list)) && Permutation(list, sort(list))
  {
    assert Sorts(sort);
  }

  lemma {:induction false} CountAppend(ops: seq<Operation>, more: seq<Operation>, x: Operation)
    ensures Count(ops + more, x) == Count(ops, x) + Count(more, x)
  {
    if ops == [] {
      assert ops + more == more;
    } else {
      assert (ops + more)[1..] == ops[1..] + more;
      CountAppend(ops[1..], more, x);
    }
  }

  function WithOperation(s: seq<Operation>, x: Operation): (r: seq<Operation>)
    ensures |r| == |s| + 1
  {
    if s == [] || x.start <= s[0].start then [x] + s else [s[0]] + WithOperation(s[1..], x)
  }

  /** One of the sorts. */
  function InsertionSort(ops: seq<Operation>): (r: seq<Operation>)
    ensures SortedByStart(r) && Permutation(ops, r)
  {
    if ops == [] then []
    else
      var m := |ops| - 1;
      InsertedIsSorted(InsertionSort(ops[..m]), ops[m]);
      InsertedIsPermutation(ops[..m], InsertionSort(ops[..m]), ops[m]);
      assert ops == ops[..m] + [ops[m]];
      WithOperation(InsertionSort(ops[..m]), ops[m])
  }

  lemma {:induction false} InsertedIsSorted(s: seq<Operation>, x: Operation)
    requires SortedByStart(s)
    ensures SortedByStart(WithOperation(s, x)) && forall y :: y in WithOperation(s, x) ==> y == x || y in s
  {
    if s != [] && x.start > s[0].start {
      InsertedIsSorted(s[1..], x);
      var r := WithOperation(s[1..], x);
      forall i, j | 0 <= i < j < |[s[0]] + r|
        ensures ([s[0]] + r)[i].start <= ([s[0]] + r)[j].start
      {
        assert r[j - 1] in r;
      }
    }
  }

  lemma {:induction false} InsertedCount(s: seq<Operation>, x: Operation, y: Operation)
    ensures Count(WithOperation(s, x), y) == Count(s + [x], y)
  {
    CountAppend(s, [x], y);
    if s == [] || x.start <= s[0].start {
      CountAppend([x], s, y);
    } else {
      InsertedCount(s[1..], x, y);
      CountAppend(s[1..], [x], y);
      assert ([s[0]] + WithOperation(s[1..], x))[1..] == WithOperation(s[1..], x);
    }
  }

  lemma InsertedIsPermutation(ops: seq<Operation>, s: seq<Operation>, x: Operation)
    requires Permutation(ops, s)
    ensures Permutation(ops + [x], WithOperation(s, x))
  {
    forall y
      ensures Count(ops + [x], y) == Count(WithOperation(s, x), y)
    {
      CountAppend(ops, [x], y);
      CountAppend(s, [x], y);
      InsertedCount(s, x, y);
      assert Count(ops, y) == Count(s, y);
    }
  }
}
