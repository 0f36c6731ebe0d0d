/** The invariant behind GraySynth: what the columns of one work-stack element have in common. */
module GrayInvariant {
  import opened Paulis
  import opened Operators
  import opened Rotations

  datatype Target = NoTarget | Qubit(q: nat)

  /** A set of rotations still to be told apart on the given qubits, to be gathered on the target. */
  datatype Elem = Elem(rotations: seq<nat>, qubits: seq<nat>, target: Target)

  /** For each qubit b already handled: if u and v agree on every unhandled qubit that comes
      later than b in the order, they agree on b. */
  ghost predicate Agree(u: seq<bool>, v: seq<bool>, qubits: seq<nat>, order: seq<nat>) {
    && |u| == |v| == |order|
    && forall b: nat :: b < |u| && b !in qubits && AgreeAfter(u, v, qubits, order, b) ==> u[b] == v[b]
  }

  ghost predicate AgreeAfter(u: seq<bool>, v: seq<bool>, qubits: seq<nat>, order: seq<nat>, b: nat)
    requires |u| == |v| == |order| && b < |u|
  {
    forall q: nat :: q < |u| && q in qubits && order[q] > order[b] ==> u[q] == v[q]
  }

  function AddBit(z: seq<bool>, c: nat, t: nat): seq<bool>
    requires c < |z| && t < |z|
  {
    z[c := z[c] != z[t]]
  }

  /** A CX keeps agreement when its target comes later than its control, or is a bit on which
      the two columns agree. */
  lemma AgreeKept(u: seq<bool>, v: seq<bool>, qubits: seq<nat>, order: seq<nat>, c: nat, t: nat)
    requires Agree(u, v, qubits, order) && c < |u| && t < |u| && c != t
    requires order[c] < order[t] || u[t] == v[t]
    ensures Agree(AddBit(u, c, t), AddBit(v, c, t), qubits, order)
  {
    var u', v' := AddBit(u, c, t), AddBit(v, c, t);
    forall b: nat | b < |u| && b !in qubits && AgreeAfter(u', v', qubits, order, b)
      ensures u'[b] == v'[b]
    {
      if b == c || (c in qubits && order[c] > order[b]) {
        TargetAgrees(u, v, qubits, order, c, t, b);
      }
      AgreeAfterBack(u, v, qubits, order, c, t, b);
    }
  }

  /** Under the hypothesis of agreement after the CX, the columns agree on its target. */
  lemma TargetAgrees(u: seq<bool>, v: seq<bool>, qubits: seq<nat>, order: seq<nat>, c: nat, t: nat, b: nat)
    requires Agree(u, v, qubits, order) && c < |u| && t < |u| && c != t && b < |u|
    requires order[c] < order[t] || u[t] == v[t]
    requires order[b] <= order[c]
    requires AgreeAfter(AddBit(u, c, t), AddBit(v, c, t), qubits, order, b)
    ensures u[t] == v[t]
  {
    if order[c] < order[t] {
      var u', v' := AddBit(u, c, t), AddBit(v, c, t);
      if t in qubits {
        assert u'[t] == v'[t];
      } else {
        forall q: nat | q < |u| && q in qubits && order[q] > order[t]
          ensures u[q] == v[q]
        {
          assert u'[q] == v'[q];
        }
        assert AgreeAfter(u, v, qubits, order, t);
      }
    }
  }

  lemma AgreeAfterBack(u: seq<bool>, v: seq<bool>, qubits: seq<nat>, order: seq<nat>, c: nat, t: nat, b: nat)
    requires |u| == |v| == |order| && c < |u| && t < |u| && c != t && b < |u|
    requires c in qubits && order[c] > order[b] ==> u[t] == v[t]
    requires AgreeAfter(AddBit(u, c, t), AddBit(v, c, t), qubits, order, b)
    ensures AgreeAfter(u, v, qubits, order, b)
  {
    var u', v' := AddBit(u, c, t), AddBit(v, c, t);
    forall q: nat | q < |u| && q in qubits && order[q] > order[b]
      ensures u[q] == v[q]
    {
      assert u'[q] == v'[q];
    }
  }

  /** Columns that agree on a newly handled qubit keep agreeing. */
  lemma AgreeSplit(u: seq<bool>, v: seq<bool>, qubits: seq<nat>, rest: seq<nat>, order: seq<nat>, r: nat)
    requires Agree(u, v, qubits, order) && r < |u| && u[r] == v[r]
    requires forall q :: q in rest <==> q in qubits && q != r
    ensures Agree(u, v, rest, order)
  {
    forall b: nat | b < |u| && b !in rest && AgreeAfter(u, v, rest, order, b)
      ensures u[b] == v[b]
    {
      if b != r {
        assert AgreeAfter(u, v, qubits, order, b);
      }
    }
  }

  lemma AgreeAtLeaf(u: seq<bool>, v: seq<bool>, order: seq<nat>)
    requires Agree(u, v, [], order)
    ensures u == v
  {
    forall b: nat | b < |u|
      ensures u[b] == v[b]
    {
      assert AgreeAfter(u, v, [], order, b);
    }
  }

  lemma AgreeAtRoot(u: seq<bool>, v: seq<bool>, qubits: seq<nat>, order: seq<nat>)
    requires |u| == |v| == |order| && forall q: nat :: q < |u| ==> q in qubits
    ensures Agree(u, v, qubits, order)
  {
  }

  // ---------------------------------------------------------------- one element

  /** The z bits of column k. */
  function Column(columns: seq<seq<bool>>, k: nat): seq<bool>
    requires k < |columns|
  {
    columns[k]
  }

  ghost predicate ColumnsSized(columns: seq<seq<bool>>, n: nat) {
    forall k: nat :: k < |columns| ==> |Column(columns, k)| == n
  }

  /** The element's columns agree in pairs; with a target they are set there, without one they
      agree with the zero column too. */
  ghost predicate ElemOk(e: Elem, columns: seq<seq<bool>>, order: seq<nat>, hot: Target) {
    var n := |order|;
    && ColumnsSized(columns, n)
    && (forall k :: k in e.rotations ==> k < |columns|)
    && (forall q :: q in e.qubits ==> q < n)
    && (forall j, k :: j in e.rotations && k in e.rotations ==>
          Agree(Column(columns, j), Column(columns, k), e.qubits, order))
    && (e.target.NoTarget? ==> forall k :: k in e.rotations ==> Agree(Column(columns, k), Zeros(n), e.qubits, order))
    && (hot.Qubit? ==> hot.q < n && hot.q !in e.qubits
                       && forall k :: k in e.rotations ==> Column(columns, k)[hot.q] == e.target.Qubit?)
    && (e.target.Qubit? ==> e.target == hot)
  }

  /** Adding row t to row c in every column that is not frozen. */
  ghost predicate CXOnColumns(columns: seq<seq<bool>>, columns': seq<seq<bool>>, frozen: set<nat>, c: nat, t: nat, n: nat) {
    && |columns'| == |columns| && ColumnsSized(columns, n) && ColumnsSized(columns', n) && c < n && t < n
    && forall k: nat :: k < |columns| ==>
         Column(columns', k) == if k in frozen then Column(columns, k) else AddBit(Column(columns, k), c, t)
  }

  /** A CX onto the hot qubit, or onto a later qubit, keeps the element's invariant. */
  lemma ElemKept(e: Elem, columns: seq<seq<bool>>, columns': seq<seq<bool>>, frozen: set<nat>, order: seq<nat>,
                 hot: Target, c: nat, t: nat)
    requires ElemOk(e, columns, order, hot) && CXOnColumns(columns, columns', frozen, c, t, |order|)
    requires forall k :: k in e.rotations ==> k !in frozen
    requires hot.Qubit? && c != hot.q && c != t && (t == hot.q || order[c] < order[t])
    ensures ElemOk(e, columns', order, hot)
  {
    hide Agree;
    forall j, k | j in e.rotations && k in e.rotations
      ensures Agree(Column(columns', j), Column(columns', k), e.qubits, order)
    {
      AgreeKept(Column(columns, j), Column(columns, k), e.qubits, order, c, t);
    }
    if e.target.NoTarget? {
      forall k | k in e.rotations
        ensures Agree(Column(columns', k), Zeros(|order|), e.qubits, order)
      {
        AgreeKept(Column(columns, k), Zeros(|order|), e.qubits, order, c, t);
        assert AddBit(Zeros(|order|), c, t) == Zeros(|order|);
      }
    }
  }

  /** Splitting on qubit r: the columns clear at r keep the target, those set there take r as
      target if there was none. */
  lemma ElemSplit(e: Elem, e': Elem, columns: seq<seq<bool>>, order: seq<nat>, hot: Target, r: nat, bit: bool)
    requires ElemOk(e, columns, order, hot) && r in e.qubits
    requires forall k :: k in e'.rotations ==> k in e.rotations && Column(columns, k)[r] == bit
    requires forall q :: q in e'.qubits <==> q in e.qubits && q != r
    requires e'.target == if bit && e.target.NoTarget? then Qubit(r) else e.target
    ensures ElemOk(e', columns, order, if e.target.NoTarget? then Qubit(r) else hot)
  {
    hide Agree;
    forall j, k | j in e'.rotations && k in e'.rotations
      ensures Agree(Column(columns, j), Column(columns, k), e'.qubits, order)
    {
      AgreeSplit(Column(columns, j), Column(columns, k), e.qubits, e'.qubits, order, r);
    }
    if e'.target.NoTarget? {
      forall k | k in e'.rotations
        ensures Agree(Column(columns, k), Zeros(|order|), e'.qubits, order)
      {
        AgreeSplit(Column(columns, k), Zeros(|order|), e.qubits, e'.qubits, order, r);
      }
    }
  }

  // ---------------------------------------------------------------- the stack

  /** Every rotation is frozen or in exactly one element; an element without target lies at the
      bottom. */
  ghost predicate StackOk(stack: seq<Elem>, columns: seq<seq<bool>>, frozen: set<nat>, order: seq<nat>, hot: Target) {
    && (forall i :: 0 <= i < |stack| ==> ElemOk(stack[i], columns, order, hot))
    && (forall i, k :: 0 <= i < |stack| && k in stack[i].rotations ==> k !in frozen)
    && (forall i, j, k :: 0 <= i < j < |stack| && k in stack[i].rotations ==> k !in stack[j].rotations)
    && (forall k: nat :: k < |columns| ==> k in frozen || exists i :: 0 <= i < |stack| && k in stack[i].rotations)
    && (forall i :: 0 < i < |stack| ==> stack[i].target.Qubit?)
  }

  function Work(q: nat): nat {
    if q == 0 then 1 else 1 + 2 * Work(q - 1)
  }

  /** The number of elements the stack can still produce. */
  function TotalWork(stack: seq<Elem>): nat {
    if stack == [] then 0 else TotalWork(stack[..|stack| - 1]) + Work(|stack[|stack| - 1].qubits|)
  }

  lemma TotalWorkPush(stack: seq<Elem>, e: Elem)
    ensures TotalWork(stack + [e]) == TotalWork(stack) + Work(|e.qubits|)
  {
    assert (stack + [e])[..|stack|] == stack;
  }

  lemma {:induction false} WorkGrows(p: nat, q: nat)
    requires p <= q
    ensures Work(p) <= Work(q)
  {
    if p < q {
      WorkGrows(p, q - 1);
    }
  }

  lemma SplitWork(stack: seq<Elem>, e: Elem, zero: Elem, one: Elem)
    requires |zero.qubits| < |e.qubits| && |one.qubits| < |e.qubits|
    ensures TotalWork(stack + [zero] + [one]) < TotalWork(stack + [e])
  {
    TotalWorkPush(stack, e);
    TotalWorkPush(stack, zero);
    TotalWorkPush(stack + [zero], one);
    WorkGrows(|zero.qubits|, |e.qubits| - 1);
    WorkGrows(|one.qubits|, |e.qubits| - 1);
  }

  /** An element whose rotations are frozen leaves the stack. */
  lemma StackPop(rest: seq<Elem>, e: Elem, columns: seq<seq<bool>>, frozen: set<nat>, frozen': set<nat>, order: seq<nat>,
                 hot: Target)
    requires StackOk(rest + [e], columns, frozen, order, hot)
    requires forall k :: k in frozen' <==> k in frozen || k in e.rotations
    ensures StackOk(rest, columns, frozen', order, hot)
    ensures TotalWork(rest) < TotalWork(rest + [e])
  {
    hide ElemOk;
    var stack := rest + [e];
    TotalWorkPush(rest, e);
    forall i | 0 <= i < |rest|
      ensures ElemOk(rest[i], columns, order, hot) && rest[i] == stack[i]
    {
      assert ElemOk(stack[i], columns, order, hot);
    }
    assert stack[|rest|] == e;
    forall k: nat | k < |columns|
      ensures k in frozen' || exists i :: 0 <= i < |rest| && k in rest[i].rotations
    {
      if k !in frozen' {
        var i :| 0 <= i < |stack| && k in stack[i].rotations;
        assert k in rest[i].rotations;
      }
    }
  }

  /** The halves of an element: the columns clear at r and the columns set there. */
  ghost predicate Halves(e: Elem, zero: Elem, one: Elem, columns: seq<seq<bool>>, r: nat, n: nat) {
    && ColumnsSized(columns, n) && r in e.qubits && r < n
    && (forall k :: k in zero.rotations <==> k in e.rotations && k < |columns| && !Column(columns, k)[r])
    && (forall k :: k in one.rotations <==> k in e.rotations && k < |columns| && Column(columns, k)[r])
    && (forall q :: q in zero.qubits <==> q in e.qubits && q != r)
    && one.qubits == zero.qubits && zero.target == e.target
    && one.target == if e.target.NoTarget? then Qubit(r) else e.target
  }

  /** The halves take the place of the element. */
  lemma StackSplit(rest: seq<Elem>, e: Elem, zero: Elem, one: Elem, columns: seq<seq<bool>>, frozen: set<nat>,
                   order: seq<nat>, hot: Target, r: nat)
    requires StackOk(rest + [e], columns, frozen, order, hot) && Halves(e, zero, one, columns, r, |order|)
    ensures StackOk(rest + [zero] + [one], columns, frozen, order, if e.target.NoTarget? then Qubit(r) else hot)
  {
    hide ElemOk;
    var stack, stack' := rest + [e], rest + [zero] + [one];
    var hot' := if e.target.NoTarget? then Qubit(r) else hot;
    assert stack[|rest|] == e && stack'[|rest|] == zero && stack'[|rest| + 1] == one;
    assert forall i :: 0 <= i < |rest| ==> stack'[i] == stack[i] == rest[i];
    ElemSplit(e, zero, columns, order, hot, r, false);
    ElemSplit(e, one, columns, order, hot, r, true);
    forall i | 0 <= i < |stack'|
      ensures ElemOk(stack'[i], columns, order, hot')
    {
      if i < |rest| {
        assert ElemOk(stack[i], columns, order, hot);
      }
    }
    forall i, j, k | 0 <= i < j < |stack'| && k in stack'[i].rotations
      ensures k !in stack'[j].rotations
    {
      if i < |rest| <= j {
        assert k in stack[i].rotations && k !in stack[|rest|].rotations;
      }
    }
    SplitCovers(rest, e, zero, one, columns, frozen, order, hot, r);
  }

  lemma SplitCovers(rest: seq<Elem>, e: Elem, zero: Elem, one: Elem, columns: seq<seq<bool>>, frozen: set<nat>,
                    order: seq<nat>, hot: Target, r: nat)
    requires StackOk(rest + [e], columns, frozen, order, hot) && Halves(e, zero, one, columns, r, |order|)
    ensures forall k: nat :: k < |columns| ==>
              k in frozen || exists i :: 0 <= i < |rest| + 2 && k in (rest + [zero] + [one])[i].rotations
  {
    hide ElemOk;
    var stack, stack' := rest + [e], rest + [zero] + [one];
    assert stack[|rest|] == e && stack'[|rest|] == zero && stack'[|rest| + 1] == one;
    forall k: nat | k < |columns| && k !in frozen
      ensures exists i :: 0 <= i < |rest| + 2 && k in stack'[i].rotations
    {
      var i :| 0 <= i < |stack| && k in stack[i].rotations;
      var i' := if i < |rest| then i else if Column(columns, k)[r] then |rest| + 1 else |rest|;
      assert k in stack'[i'].rotations;
    }
  }
}
