/** Passes over a whole tableau: adjoint, collapse, merge-and-absorb, identity removal, properize. */
module TableauPasses {
  import opened Paulis
  import opened Operators
  import opened Tableaux
  import opened StabilizerTableaux
  import opened Meaning
  import opened MeaningLaws
  import opened Rotations
  import opened Diagonalization
  import opened Merging
  import opened Absorbing
  import opened Properizing
  import opened MixedTableaux

  // ---------------------------------------------------------------- adjoint

  /** The inverse of one sub-tableau. */
  method AdjointSub(s: Sub, n: nat) returns (r: Sub)
    requires SubOk(s, n)
    ensures SubOk(r, n) && r.Clifford? == s.Clifford? && Inverse(n, SubItems(s), SubItems(r))
    ensures s.Rotations? ==> r == Rotations(AdjointRotations(s.list))
  {
    hide Same, Normalize, Built;
    if s.Clifford? {
      var rows := AdjointTableau(s.rows, n);
      r := Clifford(rows);
      assert [Table(s.rows)] + [Table(rows)] == [Table(s.rows), Table(rows)];
      assert [Table(rows)] + [Table(s.rows)] == [Table(rows), Table(s.rows)];
    } else {
      var list, i := [], |s.list|;
      while i > 0
        invariant 0 <= i <= |s.list| && |list| == |s.list| - i
        invariant forall k :: 0 <= k < |list| ==> list[k] == AdjointRotation(s.list[|s.list| - 1 - k])
      {
        i := i - 1;
        list := list + [Rotation(s.list[i].p, Normalize(-s.list[i].phase))];
      }
      AdjointRotationsInverse(n, s.list);
      assert list == AdjointRotations(s.list);
      r := Rotations(list);
    }
  }

  /** Turns the tableau into that of the inverse program. */
  method AdjointInPlace(t: Tableau)
    requires t.Valid()
    modifies t
    ensures t.Valid() && |t.subs| == |old(t.subs)| && Inverse(t.n, AllItems(old(t.subs)), AllItems(t.subs))
  {
    hide Same, SubOk, AllItems, SubItems, Ok, Inverse;
    var n, i := t.n, 0;
    var subs := [];
    AllItemsNone();
    InverseNothing(n);
    while i < |t.subs|
      invariant i <= |t.subs| && |subs| == i && SubsOk(subs, n) && t.Valid() && t.subs == old(t.subs)
      invariant Inverse(n, AllItems(t.subs[..i]), AllItems(subs))
    {
      var s := AdjointSub(t.subs[i], n);
      assert t.subs[..i + 1] == t.subs[..i] + [t.subs[i]];
      AllItemsBack(t.subs[..i], t.subs[i]);
      AllItemsFront(s, subs);
      AllItemsOk(t.subs[..i], n);
      AllItemsOk(subs, n);
      SubItemsOk(t.subs[i], n);
      SubItemsOk(s, n);
      InverseAppend(n, AllItems(t.subs[..i]), AllItems(subs), SubItems(t.subs[i]), SubItems(s));
      subs := [s] + subs;
      i := i + 1;
    }
    assert t.subs[..i] == t.subs;
    t.subs := subs;
  }

  lemma InverseNothing(n: nat)
    ensures Inverse(n, [], [])
  {
    NothingOk(n);
    SameRefl(n, []);
    var w: seq<Item> := [];
    assert w + w == w;
  }

  /** Inverses are unique up to meaning: the adjoint of the adjoint is the original. */
  lemma InverseTwice(n: nat, v: seq<Item>, w: seq<Item>, x: seq<Item>)
    requires Ok(v, n) && Ok(w, n) && Ok(x, n) && Inverse(n, v, w) && Inverse(n, w, x)
    ensures Same(n, v, x)
  {
    hide Same;
    SameBefore(n, v, w + x, []);
    SameAfter(n, v + w, [], x);
    assert v + (w + x) == (v + w) + x && v + [] == v && [] + x == x;
    SameSym(n, v + (w + x), v);
    SameTrans(n, v, (v + w) + x, x);
  }

  // ---------------------------------------------------------------- collapse

  /** All rotations of a list of sub-tableaux, in order. */
  function RotationsOf(subs: seq<Sub>): seq<Rotation> {
    if subs == [] then []
    else (if subs[0].Rotations? then subs[0].list else []) + RotationsOf(subs[1..])
  }

  lemma {:induction false} RotationsOfAppend(subs: seq<Sub>, more: seq<Sub>)
    ensures RotationsOf(subs + more) == RotationsOf(subs) + RotationsOf(more)
  {
    if subs == [] {
      assert subs + more == more;
    } else {
      assert (subs + more)[1..] == subs[1..] + more;
      RotationsOfAppend(subs[1..], more);
    }
  }

  lemma {:induction false} RotationsOfProper(subs: seq<Sub>, n: nat)
    requires SubsOk(subs, n)
    ensures ProperList(RotationsOf(subs), n)
  {
    if subs != [] {
      RotationsOfProper(subs[1..], n);
    }
  }

  lemma ReplaceMiddle(n: nat, w: seq<Item>, a: seq<Item>, l: seq<Item>, l': seq<Item>, b: seq<Item>)
    requires Ok(a, n) && Ok(b, n) && Same(n, w, a + l + b) && Same(n, l, l')
    ensures Same(n, w, a + l' + b)
  {
    hide Same;
    SameInContext(n, a, l, l', b);
    SameTrans(n, w, a + l + b, a + l' + b);
  }

  method StringOnRows(rows: seq<Pauli>, ops: seq<Op>, n: nat) returns (r: seq<Pauli>)
    requires Shaped(rows, n)
    ensures r == MapOps(ops, rows)
  {
    var st := new StabilizerTableau.Copy(rows, n);
    st.ApplyString(ops);
    r := st.rows;
  }

  /** One round of collapse on a Clifford: it takes up the operators behind it and hands its own on. */
  method CollapseClifford(n: nat, rows: seq<Pauli>, ops: seq<Op>) returns (rows': seq<Pauli>, ops': seq<Op>)
    requires Built(rows, n) && WellFormedAll(ops, n)
    ensures Built(rows', n) && WellFormedAll(ops', n)
    ensures Same(n, [Table(rows)] + Gates(ops), Gates(ops')) && Same(n, Gates(ops'), [Table(rows')])
  {
    hide Same, TableauOf, Built;
    BuiltShaped(rows, n);
    BuiltMore(rows, ops, n);
    rows' := StringOnRows(rows, ops, n);
    ops' := ExtractFromTableau(rows', n);
    SameTrans(n, [Table(rows)] + Gates(ops), [Table(rows')], Gates(ops'));
  }

  /** What collapse has established once it has handled the sub-tableaux from j on. */
  ghost predicate Collapsing(n: nat, start: seq<Sub>, subs: seq<Sub>, j: nat, ops: seq<Op>) {
    && |subs| == |start| && j <= |subs| && SubsOk(subs, n) && SubsOk(start, n) && WellFormedAll(ops, n)
    && subs[..j] == start[..j]
    && (forall k :: 0 <= k < |subs| ==> subs[k].Clifford? == start[k].Clifford?)
    && (j < |subs| && subs[j].Clifford? ==> Same(n, Gates(ops), [Table(subs[j].rows)]))
    && Same(n, AllItems(start), AllItems(start[..j]) + Gates(ops) + Items(RotationsOf(subs[j..])))
  }

  lemma CollapsingStart(n: nat, start: seq<Sub>)
    requires SubsOk(start, n)
    ensures Collapsing(n, start, start, |start|, [])
  {
    hide Same, SubOk, AllItems;
    AllItemsOk(start, n);
    SameRefl(n, AllItems(start));
    assert start[..|start|] == start && start[|start|..] == [];
    assert AllItems(start) + Gates([]) + Items(RotationsOf([])) == AllItems(start);
  }

  lemma CollapseOverClifford(n: nat, start: seq<Sub>, subs: seq<Sub>, j: nat, ops: seq<Op>, rows': seq<Pauli>, ops': seq<Op>)
    requires Collapsing(n, start, subs, j + 1, ops) && start[j].Clifford? && Built(rows', n) && WellFormedAll(ops', n)
    requires Same(n, [Table(start[j].rows)] + Gates(ops), Gates(ops')) && Same(n, Gates(ops'), [Table(rows')])
    ensures Collapsing(n, start, subs[j := Clifford(rows')], j, ops')
  {
    hide Same, AllItems;
    var subs' := subs[j := Clifford(rows')];
    var a, b := AllItems(start[..j]), Items(RotationsOf(subs[j + 1..]));
    assert start[..j + 1] == start[..j] + [start[j]];
    AllItemsBack(start[..j], start[j]);
    AllItemsOk(start[..j], n);
    RotationsOfProper(subs[j + 1..], n);
    ItemsOk(RotationsOf(subs[j + 1..]), n);
    assert a + [Table(start[j].rows)] + Gates(ops) + b == a + ([Table(start[j].rows)] + Gates(ops)) + b;
    ReplaceMiddle(n, AllItems(start), a, [Table(start[j].rows)] + Gates(ops), Gates(ops'), b);
    assert subs'[j..] == [Clifford(rows')] + subs[j + 1..];
    NoListOf(Clifford(rows'), subs[j + 1..]);
  }

  lemma CollapseOverRotations(n: nat, start: seq<Sub>, subs: seq<Sub>, j: nat, ops: seq<Op>)
    requires Collapsing(n, start, subs, j + 1, ops) && start[j].Rotations?
    ensures ProperList(start[j].list, n)
    ensures Collapsing(n, start, subs[j := Rotations(ApplyRotations(ops, start[j].list))], j, ops)
  {
    hide Same, AllItems, ApplyRotation, Built;
    var list := start[j].list;
    ListProper(start[j], n);
    var s' := Rotations(ApplyRotations(ops, list));
    var subs' := subs[j := s'];
    var a, b := AllItems(start[..j]), Items(RotationsOf(subs[j + 1..]));
    ApplyRotationsProper(ops, list, n);
    assert start[..j + 1] == start[..j] + [start[j]];
    AllItemsBack(start[..j], start[j]);
    AllItemsOk(start[..j], n);
    RotationsOfProper(subs[j + 1..], n);
    ItemsOk(RotationsOf(subs[j + 1..]), n);
    PassStringAll(n, list, ops);
    assert a + Items(list) + Gates(ops) + b == a + (Items(list) + Gates(ops)) + b;
    ReplaceMiddle(n, AllItems(start), a, Items(list) + Gates(ops), Gates(ops) + Items(s'.list), b);
    assert subs'[j..] == [s'] + subs[j + 1..];
    OneListOf(s', subs[j + 1..]);
    assert a + (Gates(ops) + Items(s'.list)) + b == a + Gates(ops) + Items(RotationsOf(subs'[j..]));
  }

  lemma NoListOf(s: Sub, more: seq<Sub>)
    requires s.Clifford?
    ensures RotationsOf([s] + more) == RotationsOf(more)
  {
    assert ([s] + more)[1..] == more;
  }

  lemma OneListOf(s: Sub, more: seq<Sub>)
    requires s.Rotations?
    ensures RotationsOf([s] + more) == s.list + RotationsOf(more)
    ensures Items(RotationsOf([s] + more)) == Items(s.list) + Items(RotationsOf(more))
  {
    assert ([s] + more)[1..] == more;
    ItemsAppend(s.list, RotationsOf(more));
  }

  /** The rotation lists among the sub-tableaux. */
  method OnlyRotations(subs: seq<Sub>) returns (lists: seq<Sub>)
    ensures forall k :: 0 <= k < |lists| ==> lists[k].Rotations?
    ensures RotationsOf(lists) == RotationsOf(subs)
  {
    lists := [];
    assert subs[..0] == [];
    for i := 0 to |subs|
      invariant forall k :: 0 <= k < |lists| ==> lists[k].Rotations?
      invariant RotationsOf(lists) == RotationsOf(subs[..i])
    {
      assert subs[..i + 1] == subs[..i] + [subs[i]];
      RotationsOfAppend(subs[..i], [subs[i]]);
      RotationsOfAppend(lists, [subs[i]]);
      if subs[i].Rotations? {
        lists := lists + [subs[i]];
      }
    }
    assert subs[..|subs|] == subs;
  }

  /** Appends the lists behind the first one to it. */
  method Concatenate(lists: seq<Sub>) returns (list: seq<Rotation>)
    requires lists != [] && forall k :: 0 <= k < |lists| ==> lists[k].Rotations?
    ensures list == RotationsOf(lists)
  {
    list := lists[0].list;
    assert lists[..1] == [lists[0]];
    RotationsOfAppend([lists[0]], []);
    assert RotationsOf(lists[..1]) == list;
    for i := 1 to |lists|
      invariant list == RotationsOf(lists[..i])
    {
      assert lists[..i + 1] == lists[..i] + [lists[i]];
      RotationsOfAppend(lists[..i], [lists[i]]);
      list := list + lists[i].list;
    }
    assert lists[..|lists|] == lists;
  }

  /** One Clifford in front and at most one rotation list behind it. */
  ghost predicate IsCollapsed(subs: seq<Sub>) {
    1 <= |subs| <= 2 && subs[0].Clifford? && (|subs| == 2 ==> subs[1].Rotations?)
  }

  /** Puts the identity in front when the tableau does not start with a Clifford. */
  method LeadWithClifford(t: Tableau)
    requires t.Valid() && t.subs != []
    modifies t
    ensures t.Valid() && t.subs != [] && t.subs[0].Clifford?
    ensures Same(t.n, AllItems(old(t.subs)), AllItems(t.subs))
  {
    hide Same, SubOk, AllItems;
    AllItemsOk(t.subs, t.n);
    SameRefl(t.n, AllItems(t.subs));
    if t.subs[0].Rotations? {
      var id := Clifford(IdentityRows(t.n));
      IdentityTable(t.n);
      AllItemsFront(id, t.subs);
      SameSym(t.n, [Table(IdentityRows(t.n))], []);
      SameAfter(t.n, [], [Table(IdentityRows(t.n))], AllItems(t.subs));
      assert [] + AllItems(t.subs) == AllItems(t.subs);
      t.subs := [id] + t.subs;
    }
  }

  lemma IdentityTable(n: nat)
    ensures SubOk(Clifford(IdentityRows(n)), n) && Same(n, [Table(IdentityRows(n))], [])
  {
    hide Same;
    assert TableauOf([], n) == IdentityRows(n);
    assert WellFormedAll([], n);
    StringIsTable(n, []);
    assert Gates([]) == [];
    SameSym(n, [], [Table(IdentityRows(n))]);
  }

  /** Pushes all Clifford operators to the front and joins the rotations. */
  method Collapse(t: Tableau)
    requires t.Valid()
    modifies t
    ensures t.Valid() && Same(t.n, AllItems(old(t.subs)), AllItems(t.subs))
    ensures if old(t.subs) == [] then t.subs == [] else IsCollapsed(t.subs)
  {
    hide Same, SubOk, AllItems, Collapsing, TableauOf, Built;
    var n := t.n;
    if t.subs == [] {
      AllItemsOk(t.subs, n);
      SameRefl(n, AllItems(t.subs));
      return;
    }
    LeadWithClifford(t);
    if |t.subs| <= 1 {
      return;
    }
    ghost var w0, start := AllItems(old(t.subs)), t.subs;
    var ops := PushCliffords(t);
    var first := t.subs[0];
    var lists := OnlyRotations(t.subs[1..]);
    CollapsedMeaning(n, start, t.subs, ops);
    SameTrans(n, w0, AllItems(start), SubItems(first) + Items(RotationsOf(t.subs[1..])));
    if lists == [] {
      AllItemsOne(first);
      assert RotationsOf(lists) == [] && SubItems(first) + Items([]) == SubItems(first);
      t.subs := [first];
    } else {
      RotationsOfProper(t.subs[1..], n);
      var list := Concatenate(lists);
      AllItemsFront(first, [Rotations(list)]);
      AllItemsOne(Rotations(list));
      ListOk(list, n);
      t.subs := [first] + [Rotations(list)];
    }
  }

  lemma ListOk(list: seq<Rotation>, n: nat)
    requires ProperList(list, n)
    ensures SubOk(Rotations(list), n) && SubItems(Rotations(list)) == Items(list)
  {
  }

  lemma CollapsedMeaning(n: nat, start: seq<Sub>, subs: seq<Sub>, ops: seq<Op>)
    requires start != [] && start[0].Clifford? && Collapsing(n, start, subs, 0, ops)
    ensures subs != [] && subs[0].Clifford? && SubsOk(subs, n)
    ensures Same(n, AllItems(start), SubItems(subs[0]) + Items(RotationsOf(subs[1..])))
  {
    hide Same, AllItems, SubOk, RotationsOf, Items, Gates;
    AllItemsNone();
    assert start[..0] == [] && subs[0..] == [subs[0]] + subs[1..];
    NoListOf(subs[0], subs[1..]);
    var r := Items(RotationsOf(subs[1..]));
    assert [] + Gates(ops) + r == Gates(ops) + r;
    RotationsOfProper(subs[1..], n);
    ItemsOk(RotationsOf(subs[1..]), n);
    SameAfter(n, Gates(ops), [Table(subs[0].rows)], r);
    SameTrans(n, AllItems(start), Gates(ops) + r, [Table(subs[0].rows)] + r);
  }

  /** Walks from the back to the front, moving every Clifford past what precedes it. */
  method PushCliffords(t: Tableau) returns (ops: seq<Op>)
    requires t.Valid() && t.subs != [] && t.subs[0].Clifford?
    modifies t
    ensures t.Valid() && t.subs != [] && t.subs[0].Clifford?
    ensures Collapsing(t.n, old(t.subs), t.subs, 0, ops)
  {
    hide Same, SubOk, AllItems, TableauOf, Built;
    var n := t.n;
    var j: nat := |t.subs|;
    ops := [];
    CollapsingStart(n, t.subs);
    hide Collapsing;
    while j > 0
      invariant j <= |t.subs| == |old(t.subs)| && t.Valid() && t.subs[0].Clifford?
      invariant t.subs[..j] == old(t.subs)[..j]
      invariant Collapsing(n, old(t.subs), t.subs, j, ops) && WellFormedAll(ops, n)
    {
      j := j - 1;
      var s := t.subs[j];
      assert s == t.subs[..j + 1][j] == old(t.subs)[j];
      if s.Clifford? {
        RowsBuilt(s, n);
        var rows', ops' := CollapseClifford(n, s.rows, ops);
        CollapseOverClifford(n, old(t.subs), t.subs, j, ops, rows', ops');
        NewCliffordOk(rows', n);
        t.subs := t.subs[j := Clifford(rows')];
        ops := ops';
      } else {
        CollapseOverRotations(n, old(t.subs), t.subs, j, ops);
        var list' := ConjugateAll(s.list, ops, n);
        ApplyRotationsProper(ops, s.list, n);
        ListOk(list', n);
        t.subs := t.subs[j := Rotations(list')];
      }
    }
  }

  method ConjugateAll(list: seq<Rotation>, ops: seq<Op>, n: nat) returns (r: seq<Rotation>)
    requires ProperList(list, n)
    ensures r == ApplyRotations(ops, list)
  {
    hide ApplyRotation;
    r := [];
    for i := 0 to |list|
      invariant |r| == i && forall k :: 0 <= k < i ==> r[k] == ApplyRotation(ops, list[k])
    {
      ApplyRotationIsRun(ops, list[i], n);
      r := r + [RunRotation(ExpandAll(ops), list[i])];
    }
  }

  // ---------------------------------------------------------------- merge and absorb

  /** No rotation can be absorbed, dropped or merged. */
  ghost predicate Settled(list: seq<Rotation>, n: nat) {
    && ProperList(list, n) && Unmergeable(list, n)
    && forall k :: 0 <= k < |list| ==> !CliffordPhase(list[k].phase) && !Idle(list[k])
  }

  /** Merges and absorbs until nothing is left to do. */
  method MergeAndAbsorb(clifford: StabilizerTableau, rotations: RotationList)
    requires clifford.Valid() && rotations.Valid() && clifford.n == rotations.n && Built(clifford.rows, clifford.n)
    modifies clifford, rotations
    ensures clifford.Valid() && rotations.Valid() && Built(clifford.rows, clifford.n)
    ensures Same(clifford.n, Program(old(clifford.rows), old(rotations.list)), Program(clifford.rows, rotations.list))
    ensures Settled(rotations.list, clifford.n) && |rotations.list| <= |old(rotations.list)|
  {
    hide Same, Built, Program, Unmergeable;
    var n := clifford.n;
    ghost var w0 := Program(clifford.rows, rotations.list);
    ProgramOk(clifford.rows, rotations.list, n);
    SameRefl(n, w0);
    var before := |rotations.list| + 1;
    while |rotations.list| < before
      invariant clifford.Valid() && rotations.Valid() && Built(clifford.rows, n)
      invariant Same(n, w0, Program(clifford.rows, rotations.list))
      invariant |rotations.list| <= before && |rotations.list| <= |old(rotations.list)|
      invariant |rotations.list| == before ==> Settled(rotations.list, n)
      decreases before
    {
      before := |rotations.list|;
      ghost var rs := rotations.list;
      rotations.Merge();
      SameLists(n, clifford.rows, rs, rotations.list);
      SameTrans(n, w0, Program(clifford.rows, rs), Program(clifford.rows, rotations.list));
      ghost var rows, rs1 := clifford.rows, rotations.list;
      AbsorbCliffordRotations(clifford, rotations);
      SameTrans(n, w0, Program(rows, rs1), Program(clifford.rows, rotations.list));
    }
  }

  /** Collapses the tableau and settles its rotations. */
  method MergeRotations(t: Tableau)
    requires t.Valid()
    modifies t
    ensures t.Valid() && Same(t.n, AllItems(old(t.subs)), AllItems(t.subs))
    ensures if old(t.subs) == [] then t.subs == [] else IsCollapsed(t.subs)
    ensures |t.subs| == 2 ==> Settled(t.subs[1].list, t.n)
  {
    hide Same, SubOk, AllItems, Built, Settled;
    Collapse(t);
    if |t.subs| <= 1 {
      return;
    }
    ghost var subs := t.subs;
    RowsBuilt(t.subs[0], t.n);
    ListProper(t.subs[1], t.n);
    TwoSubs(t.subs);
    var clifford := new StabilizerTableau.Copy(t.subs[0].rows, t.n);
    var rotations := new RotationList(t.subs[1].list, t.n);
    MergeAndAbsorb(clifford, rotations);
    NewCliffordOk(clifford.rows, t.n);
    ListOk(rotations.list, t.n);
    t.subs := [Clifford(clifford.rows), Rotations(rotations.list)];
    TwoSubs(t.subs);
    SameTrans(t.n, AllItems(old(t.subs)), AllItems(subs), AllItems(t.subs));
  }

  lemma TwoSubs(subs: seq<Sub>)
    requires |subs| == 2 && subs[0].Clifford? && subs[1].Rotations?
    ensures AllItems(subs) == Program(subs[0].rows, subs[1].list)
  {
    assert subs == [subs[0]] + [subs[1]];
    AllItemsFront(subs[0], [subs[1]]);
    AllItemsOne(subs[1]);
  }

  // ---------------------------------------------------------------- identity removal

  predicate IdleSub(s: Sub, n: nat) {
    match s
    case Clifford(rows) => rows == IdentityRows(n)
    case Rotations(list) => list == []
  }

  lemma IdleSubSame(s: Sub, n: nat)
    requires SubOk(s, n) && IdleSub(s, n)
    ensures Same(n, SubItems(s), [])
  {
    hide Same;
    if s.Clifford? {
      IdentityTable(n);
    } else {
      assert Items(s.list) == [];
      NothingOk(n);
      SameRefl(n, []);
    }
  }

  /** The sub-tableaux that do something. */
  function Busy(subs: seq<Sub>, n: nat): seq<Sub> {
    if subs == [] then []
    else Busy(subs[..|subs| - 1], n) + if IdleSub(subs[|subs| - 1], n) then [] else [subs[|subs| - 1]]
  }

  lemma {:induction false} BusyAre(subs: seq<Sub>, n: nat)
    ensures forall s :: s in Busy(subs, n) <==> s in subs && !IdleSub(s, n)
  {
    hide IdleSub;
    if subs != [] {
      BusyAre(subs[..|subs| - 1], n);
      assert subs == subs[..|subs| - 1] + [subs[|subs| - 1]];
    }
  }

  /** Erases the sub-tableaux that do nothing. */
  method EraseIdle(t: Tableau)
    requires t.Valid()
    modifies t
    ensures t.Valid() && Same(t.n, AllItems(old(t.subs)), AllItems(t.subs)) && t.subs == Busy(old(t.subs), t.n)
    ensures forall k :: 0 <= k < |t.subs| ==> !IdleSub(t.subs[k], t.n) && t.subs[k] in old(t.subs)
  {
    hide Same, SubOk, AllItems, SubItems, IdleSub;
    var kept, i, n := [], 0, t.n;
    NothingOk(n);
    SameRefl(n, []);
    AllItemsNone();
    while i < |t.subs|
      invariant i <= |t.subs| && t.Valid() && t.subs == old(t.subs) && SubsOk(kept, n)
      invariant Same(n, AllItems(t.subs[..i]), AllItems(kept))
      invariant kept == Busy(t.subs[..i], n)
    {
      var s := t.subs[i];
      assert t.subs[..i + 1][..i] == t.subs[..i];
      assert t.subs[..i + 1] == t.subs[..i] + [s];
      AllItemsBack(t.subs[..i], s);
      SubItemsOk(s, n);
      SameAfter(n, AllItems(t.subs[..i]), AllItems(kept), SubItems(s));
      if IdleSub(s, n) {
        AllItemsOk(kept, n);
        IdleSubSame(s, n);
        SameBefore(n, AllItems(kept), SubItems(s), []);
        assert AllItems(kept) + [] == AllItems(kept);
        SameTrans(n, AllItems(t.subs[..i + 1]), AllItems(kept) + SubItems(s), AllItems(kept));
      } else {
        AllItemsBack(kept, s);
        kept := kept + [s];
      }
      i := i + 1;
    }
    assert t.subs[..i] == t.subs;
    BusyAre(t.subs, n);
    t.subs := kept;
  }

  /** Every list without its idle rotations. */
  function Cleaned(subs: seq<Sub>): (r: seq<Sub>)
    ensures |r| == |subs|
    ensures forall k :: 0 <= k < |r| ==> r[k] == if subs[k].Rotations? then Rotations(Kept(subs[k].list)) else subs[k]
  {
    seq(|subs|, k requires 0 <= k < |subs| => if subs[k].Rotations? then Rotations(Kept(subs[k].list)) else subs[k])
  }

  /** Drops idle rotations from every list. */
  method CleanLists(t: Tableau)
    requires t.Valid()
    modifies t
    ensures t.Valid() && Same(t.n, AllItems(old(t.subs)), AllItems(t.subs)) && t.subs == Cleaned(old(t.subs))
  {
    hide Same, SubOk, AllItems, SubItems, Kept;
    var i, n := 0, t.n;
    AllItemsOk(t.subs, n);
    SameRefl(n, AllItems(t.subs));
    while i < |t.subs|
      invariant i <= |t.subs| == |old(t.subs)| && t.Valid() && Same(n, AllItems(old(t.subs)), AllItems(t.subs))
      invariant forall k :: 0 <= k < |t.subs| ==>
                  t.subs[k] == if k < i && old(t.subs)[k].Rotations? then Rotations(Kept(old(t.subs)[k].list)) else old(t.subs)[k]
    {
      if t.subs[i].Rotations? {
        ghost var before := t.subs;
        ListProper(t.subs[i], n);
        var rotations := new RotationList(t.subs[i].list, n);
        rotations.RemoveIdentities();
        ListOk(rotations.list, n);
        SubItemsOfRotations(t.subs[i]);
        ReplaceSub(n, t.subs, i, Rotations(rotations.list));
        t.subs := t.subs[i := Rotations(rotations.list)];
        SameTrans(n, AllItems(old(t.subs)), AllItems(before), AllItems(t.subs));
      }
      i := i + 1;
    }
  }

  /** Two adjacent Cliffords become their composition and the identity. */
  lemma JoinCliffords(n: nat, subs: seq<Sub>, i: nat, rows: seq<Pauli>)
    requires SubsOk(subs, n) && i + 1 < |subs| && subs[i].Clifford? && subs[i + 1].Clifford? && Built(rows, n)
    requires Same(n, [Table(subs[i].rows), Table(subs[i + 1].rows)], [Table(rows)])
    ensures var subs' := subs[i := Clifford(rows)][i + 1 := Clifford(IdentityRows(n))];
            SubsOk(subs', n) && Same(n, AllItems(subs), AllItems(subs'))
  {
    hide Same, AllItems, Built;
    var id := Clifford(IdentityRows(n));
    var s, t := subs[i], subs[i + 1];
    var subs' := subs[i := Clifford(rows)][i + 1 := id];
    var a, b := subs[..i], subs[i + 2..];
    IdentityTable(n);
    AllItemsOk(a, n);
    AllItemsOk(b, n);
    PairInside(a, s, t, b);
    PairInside(a, Clifford(rows), id, b);
    assert subs == a + [s] + [t] + b && subs' == a + [Clifford(rows)] + [id] + b;
    BuiltOk(rows, n);
    SameSym(n, [Table(IdentityRows(n))], []);
    SameBefore(n, [Table(rows)], [], SubItems(id));
    assert [Table(rows)] + [] == [Table(rows)];
    SameTrans(n, [Table(s.rows), Table(t.rows)], [Table(rows)], [Table(rows)] + SubItems(id));
    assert SubItems(s) + SubItems(t) == [Table(s.rows), Table(t.rows)];
    SameInContext(n, AllItems(a), SubItems(s) + SubItems(t), [Table(rows)] + SubItems(id), AllItems(b));
  }

  lemma PairInside(a: seq<Sub>, s: Sub, t: Sub, b: seq<Sub>)
    ensures AllItems(a + [s] + [t] + b) == AllItems(a) + (SubItems(s) + SubItems(t)) + AllItems(b)
  {
    hide AllItems, SubItems;
    AllItemsAppend(a + [s] + [t], b);
    AllItemsBack(a + [s], t);
    AllItemsBack(a, s);
  }

  ghost predicate Follows(subs: seq<Sub>, k: int) {
    0 < k < |subs| && subs[k - 1].Clifford? && subs[k].Clifford?
  }

  /** Every Clifford takes over the one behind it and has given itself to the one in front of it. */
  ghost predicate Composed(subs: seq<Sub>, subs': seq<Sub>, n: nat) {
    |subs'| == |subs| && forall k :: 0 <= k < |subs| ==> ComposedAt(subs, subs'[k], k, n)
  }

  ghost predicate ComposedAt(subs: seq<Sub>, s: Sub, k: int, n: nat)
    requires 0 <= k < |subs|
  {
    && Same(n, SubItems(s), (if Follows(subs, k) then [] else SubItems(subs[k])) + if Follows(subs, k + 1) then SubItems(subs[k + 1]) else [])
    && s.Clifford? == subs[k].Clifford?
    && (!Follows(subs, k + 1) ==> s == if Follows(subs, k) then Clifford(IdentityRows(n)) else subs[k])
  }

  /** The Clifford at hand, which may have been given away, composed with the next one. */
  lemma ComposedNow(n: nat, subs: seq<Sub>, k: nat, now: Sub, rows: seq<Pauli>)
    requires SubsOk(subs, n) && Follows(subs, k + 1) && now == if Follows(subs, k) then Clifford(IdentityRows(n)) else subs[k]
    requires Same(n, [Table(now.rows), Table(subs[k + 1].rows)], [Table(rows)])
    ensures ComposedAt(subs, Clifford(rows), k, n)
  {
    hide Same, SubOk;
    var next := [Table(subs[k + 1].rows)];
    assert SubItems(subs[k + 1]) == next && SubItems(Clifford(rows)) == [Table(rows)];
    SameSym(n, [Table(now.rows), Table(subs[k + 1].rows)], [Table(rows)]);
    assert [Table(now.rows)] + next == [Table(now.rows), Table(subs[k + 1].rows)];
    if Follows(subs, k) {
      IdentityTable(n);
      SubItemsOk(subs[k + 1], n);
      SameAfter(n, [Table(IdentityRows(n))], [], next);
      SameTrans(n, [Table(rows)], [Table(now.rows)] + next, [] + next);
    } else {
      assert SubItems(subs[k]) == [Table(now.rows)];
    }
  }

  lemma ComposedAlone(n: nat, subs: seq<Sub>, k: nat, now: Sub)
    requires SubsOk(subs, n) && k < |subs| && !Follows(subs, k + 1) && now == if Follows(subs, k) then Clifford(IdentityRows(n)) else subs[k]
    ensures ComposedAt(subs, now, k, n)
  {
    hide Same, SubOk;
    if Follows(subs, k) {
      IdentityTable(n);
      var none: seq<Item> := [];
      assert none + none == none && SubItems(now) == [Table(IdentityRows(n))];
    } else {
      SubItemsOk(subs[k], n);
      SameRefl(n, SubItems(subs[k]));
      assert SubItems(subs[k]) + [] == SubItems(subs[k]);
    }
  }

  /** Composes each Clifford with the one behind it. */
  method ComposeNeighbours(t: Tableau)
    requires t.Valid()
    modifies t
    ensures t.Valid() && Same(t.n, AllItems(old(t.subs)), AllItems(t.subs)) && Composed(old(t.subs), t.subs, t.n)
  {
    hide Same, SubOk, AllItems, SubItems, Built, TableauOf, ComposedAt;
    var i, n := 0, t.n;
    AllItemsOk(t.subs, n);
    SameRefl(n, AllItems(t.subs));
    while i + 1 < |t.subs|
      invariant |t.subs| == |old(t.subs)| && t.Valid() && Same(n, AllItems(old(t.subs)), AllItems(t.subs)) && (t.subs != [] ==> i < |t.subs|)
      invariant forall k :: 0 <= k < i < |t.subs| ==> ComposedAt(old(t.subs), t.subs[k], k, n)
      invariant forall k :: i <= k < |t.subs| ==>
                  t.subs[k] == if k == i && Follows(old(t.subs), k) then Clifford(IdentityRows(n)) else old(t.subs)[k]
    {
      if t.subs[i].Clifford? && t.subs[i + 1].Clifford? {
        ghost var before := t.subs;
        RowsBuilt(t.subs[i], n);
        RowsBuilt(t.subs[i + 1], n);
        var rows := Compose(t.subs[i].rows, t.subs[i + 1].rows, n);
        JoinCliffords(n, t.subs, i, rows);
        ComposedNow(n, old(t.subs), i, t.subs[i], rows);
        t.subs := t.subs[i := Clifford(rows)];
        t.subs := t.subs[i + 1 := Clifford(IdentityRows(n))];
        SameTrans(n, AllItems(old(t.subs)), AllItems(before), AllItems(t.subs));
      } else {
        ComposedAlone(n, old(t.subs), i, t.subs[i]);
      }
      i := i + 1;
    }
    if t.subs != [] {
      ComposedAlone(n, old(t.subs), i, t.subs[i]);
    }
  }

  /** The tableau of one Clifford followed by another. */
  method Compose(rows: seq<Pauli>, next: seq<Pauli>, n: nat) returns (r: seq<Pauli>)
    requires Built(rows, n) && Built(next, n)
    ensures Built(r, n) && Same(n, [Table(rows), Table(next)], [Table(r)])
  {
    hide Same, Built, TableauOf;
    BuiltShaped(rows, n);
    var ops := ExtractFromTableau(next, n);
    BuiltMore(rows, ops, n);
    BuiltOk(rows, n);
    r := StringOnRows(rows, ops, n);
    SameBefore(n, [Table(rows)], [Table(next)], Gates(ops));
    assert [Table(rows)] + [Table(next)] == [Table(rows), Table(next)];
    SameTrans(n, [Table(rows), Table(next)], [Table(rows)] + Gates(ops), [Table(r)]);
  }

  /** No identity Clifford, no empty list and no idle rotation is left. */
  ghost predicate Tidy(subs: seq<Sub>, n: nat) {
    forall k :: 0 <= k < |subs| ==>
      !IdleSub(subs[k], n) && (subs[k].Rotations? ==> forall j :: 0 <= j < |subs[k].list| ==> !Idle(subs[k].list[j]))
  }

  /** Removes idle rotations, empty lists and identity Cliffords; what does something is kept in its order, but each
      Clifford is composed with the one behind it. */
  method RemoveIdentities(t: Tableau)
    requires t.Valid()
    modifies t
    ensures t.Valid() && Same(t.n, AllItems(old(t.subs)), AllItems(t.subs)) && Tidy(t.subs, t.n)
    ensures exists composed :: Composed(Busy(Cleaned(old(t.subs)), t.n), composed, t.n) && t.subs == Busy(composed, t.n)
    ensures old(t.subs) == [Clifford(IdentityRows(t.n))] ==> t.subs == []
    ensures forall k :: 0 <= k < |t.subs| && t.subs[k].Rotations? ==>
              exists j :: 0 <= j < |old(t.subs)| && old(t.subs)[j].Rotations? && t.subs[k].list == Kept(old(t.subs)[j].list)
  {
    hide Same, SubOk, AllItems, Kept, ComposedAt, Busy;
    ghost var w0 := AllItems(t.subs);
    CleanLists(t);
    ghost var s1 := t.subs;
    EraseIdle(t);
    ghost var s2 := t.subs;
    assert old(t.subs) == [Clifford(IdentityRows(t.n))] ==> s1 == [Clifford(IdentityRows(t.n))];
    NothingKept(s1, s2, t.n);
    SameTrans(t.n, w0, AllItems(s1), AllItems(s2));
    ComposeNeighbours(t);
    ghost var s3 := t.subs;
    SameTrans(t.n, w0, AllItems(s2), AllItems(s3));
    EraseIdle(t);
    assert t.subs != [] ==> t.subs[0] in s3;
    SameTrans(t.n, w0, AllItems(s3), AllItems(t.subs));
    forall k | 0 <= k < |t.subs| && t.subs[k].Rotations?
      ensures exists j :: 0 <= j < |old(t.subs)| && old(t.subs)[j].Rotations? && t.subs[k].list == Kept(old(t.subs)[j].list)
      ensures forall i :: 0 <= i < |t.subs[k].list| ==> !Idle(t.subs[k].list[i])
    {
      var a :| 0 <= a < |s3| && s3[a] == t.subs[k];
      ListStays(s2, s3, a, t.n);
      var b :| 0 <= b < |s1| && s1[b] == s2[a];
      KeptNotIdle(old(t.subs)[b].list);
    }
  }

  lemma ListStays(subs: seq<Sub>, subs': seq<Sub>, k: nat, n: nat)
    requires Composed(subs, subs', n) && k < |subs'| && subs'[k].Rotations?
    ensures subs'[k] == subs[k]
  {
    hide Same, SubItems;
    assert ComposedAt(subs, subs'[k], k, n);
  }

  lemma NothingKept(subs: seq<Sub>, kept: seq<Sub>, n: nat)
    requires forall k :: 0 <= k < |kept| ==> !IdleSub(kept[k], n) && kept[k] in subs
    ensures subs == [Clifford(IdentityRows(n))] ==> kept == []
  {
    assert IdleSub(Clifford(IdentityRows(n)), n);
    assert kept != [] ==> kept[0] in subs && !IdleSub(kept[0], n);
  }

  lemma KeptNotIdle(rs: seq<Rotation>)
    ensures forall i :: 0 <= i < |Kept(rs)| ==> !Idle(Kept(rs)[i])
  {
  }

  // ---------------------------------------------------------------- properize

  /** Joins consecutive sub-tableaux of a kind behind a leading identity. */
  method JoinKinds(t: Tableau)
    requires t.Valid() && t.subs != [] && t.subs[0].Clifford?
    modifies t
    ensures t.Valid() && Same(t.n, AllItems(old(t.subs)), AllItems(t.subs)) && Alternating(t.subs)
  {
    hide Same, SubOk, AllItems, SubItems, Alternating;
    var n := t.n;
    var id := Clifford(IdentityRows(n));
    var subs := [id] + [t.subs[0]];
    JoinStart(n, id, t.subs);
    var i := 1;
    while i < |t.subs|
      invariant 1 <= i <= |t.subs| && t.Valid() && t.subs == old(t.subs)
      invariant SubsOk(subs, n) && subs != [] && Alternating(subs)
      invariant Same(n, AllItems(t.subs[..i]), AllItems(subs))
    {
      var s := t.subs[i];
      var last := subs[|subs| - 1];
      assert t.subs[..i + 1] == t.subs[..i] + [s];
      if last.Clifford? && s.Clifford? {
        RowsBuilt(last, n);
        RowsBuilt(s, n);
        var rows := Compose(last.rows, s.rows, n);
        NewCliffordOk(rows, n);
        ComposedBack(n, t.subs[..i], subs, s, Clifford(rows));
        subs := subs[|subs| - 1 := Clifford(rows)];
      } else if last.Rotations? && s.Rotations? {
        ListProper(last, n);
        ListProper(s, n);
        ListOk(last.list + s.list, n);
        ItemsAppend(last.list, s.list);
        SubItemsOfRotations(last);
        SubItemsOfRotations(s);
        ItemsOk(last.list + s.list, n);
        SameRefl(n, Items(last.list + s.list));
        ComposedBack(n, t.subs[..i], subs, s, Rotations(last.list + s.list));
        subs := subs[|subs| - 1 := Rotations(last.list + s.list)];
      } else {
        AllItemsBack(t.subs[..i], s);
        AllItemsBack(subs, s);
        SubItemsOk(s, n);
        SameAfter(n, AllItems(t.subs[..i]), AllItems(subs), SubItems(s));
        AlternatingMore(subs, s);
        subs := subs + [s];
      }
      i := i + 1;
    }
    assert t.subs[..i] == t.subs;
    t.subs := subs;
  }

  /** Starts with a Clifford, and every rotation list directly follows a Clifford. */
  ghost predicate Alternating(subs: seq<Sub>) {
    subs != [] && subs[0].Clifford? && forall k :: 0 < k < |subs| && subs[k].Rotations? ==> subs[k - 1].Clifford?
  }

  lemma AlternatingMore(subs: seq<Sub>, s: Sub)
    requires Alternating(subs) && (subs[|subs| - 1].Clifford? || s.Clifford?)
    ensures Alternating(subs + [s])
  {
  }

  lemma JoinStart(n: nat, id: Sub, subs: seq<Sub>)
    requires SubsOk(subs, n) && subs != [] && subs[0].Clifford? && id == Clifford(IdentityRows(n))
    ensures SubsOk([id] + [subs[0]], n) && Alternating([id] + [subs[0]])
    ensures Same(n, AllItems(subs[..1]), AllItems([id] + [subs[0]]))
  {
    hide Same, AllItems;
    IdentityTable(n);
    assert subs[..1] == [subs[0]];
    AllItemsOne(subs[0]);
    AllItemsFront(id, [subs[0]]);
    SameSym(n, [Table(IdentityRows(n))], []);
    SubItemsOk(subs[0], n);
    SameAfter(n, [], [Table(IdentityRows(n))], SubItems(subs[0]));
    assert [] + SubItems(subs[0]) == SubItems(subs[0]);
  }

  /** The last sub-tableau and s become c. */
  lemma ComposedBack(n: nat, done: seq<Sub>, subs: seq<Sub>, s: Sub, c: Sub)
    requires SubsOk(subs, n) && subs != [] && SubOk(s, n) && SubOk(c, n) && Alternating(subs)
    requires c.Clifford? == subs[|subs| - 1].Clifford?
    requires Same(n, AllItems(done), AllItems(subs))
    requires Same(n, SubItems(subs[|subs| - 1]) + SubItems(s), SubItems(c))
             || (subs[|subs| - 1].Clifford? && s.Clifford? && c.Clifford?
                 && Same(n, [Table(subs[|subs| - 1].rows), Table(s.rows)], [Table(c.rows)]))
    ensures SubsOk(subs[|subs| - 1 := c], n) && Alternating(subs[|subs| - 1 := c])
    ensures Same(n, AllItems(done + [s]), AllItems(subs[|subs| - 1 := c]))
  {
    hide Same, AllItems, SubOk;
    var m := |subs| - 1;
    var last, init := subs[m], subs[..m];
    assert subs == init + [last] && subs[m := c] == init + [c];
    AllItemsBack(done, s);
    AllItemsBack(init, last);
    AllItemsBack(init, c);
    SubItemsOk(s, n);
    AllItemsOk(init, n);
    SameAfter(n, AllItems(done), AllItems(subs), SubItems(s));
    if last.Clifford? && s.Clifford? && c.Clifford? {
      assert SubItems(last) + SubItems(s) == [Table(last.rows), Table(s.rows)];
    }
    SameBefore(n, AllItems(init), SubItems(last) + SubItems(s), SubItems(c));
    assert AllItems(init) + (SubItems(last) + SubItems(s)) == AllItems(subs) + SubItems(s);
    SameTrans(n, AllItems(done + [s]), AllItems(subs) + SubItems(s), AllItems(init) + SubItems(c));
  }

  /** A Clifford and the list behind it change together. */
  lemma ReplacePair(n: nat, subs: seq<Sub>, i: nat, rows: seq<Pauli>, list: seq<Rotation>)
    requires SubsOk(subs, n) && 0 < i < |subs| && subs[i - 1].Clifford? && subs[i].Rotations?
    requires Built(rows, n) && ProperList(list, n)
    requires Same(n, Program(subs[i - 1].rows, subs[i].list), Program(rows, list))
    ensures var subs' := subs[i - 1 := Clifford(rows)][i := Rotations(list)];
            SubsOk(subs', n) && Same(n, AllItems(subs), AllItems(subs'))
  {
    hide Same, AllItems, Built;
    var subs' := subs[i - 1 := Clifford(rows)][i := Rotations(list)];
    var a, b := subs[..i - 1], subs[i + 1..];
    AllItemsOk(a, n);
    AllItemsOk(b, n);
    PairInside(a, subs[i - 1], subs[i], b);
    PairInside(a, Clifford(rows), Rotations(list), b);
    assert subs == a + [subs[i - 1]] + [subs[i]] + b && subs' == a + [Clifford(rows)] + [Rotations(list)] + b;
    SameInContext(n, AllItems(a), Program(subs[i - 1].rows, subs[i].list), Program(rows, list), AllItems(b));
  }

  /** Lists before i hold phases in (0, 1/2) only. */
  ghost predicate ProperBefore(subs: seq<Sub>, i: nat) {
    i <= |subs| && forall k :: 0 <= k < i && subs[k].Rotations? ==> ProperSub(subs[k])
  }

  ghost predicate ProperSub(s: Sub)
    requires s.Rotations?
  {
    forall j :: 0 <= j < |s.list| ==> 0.0 < s.list[j].phase < 0.5
  }

  /** Absorbs the improper part of each list into the Clifford in front of it. */
  method ProperizeLists(t: Tableau)
    requires t.Valid() && Alternating(t.subs)
    modifies t
    ensures t.Valid() && Same(t.n, AllItems(old(t.subs)), AllItems(t.subs)) && ProperBefore(t.subs, |t.subs|)
  {
    hide Same, SubOk, AllItems, SubItems, Built, Program;
    var i, n := 1, t.n;
    AllItemsOk(t.subs, n);
    SameRefl(n, AllItems(t.subs));
    while i < |t.subs|
      invariant 1 <= i <= |t.subs| && t.Valid() && Alternating(t.subs)
      invariant Same(n, AllItems(old(t.subs)), AllItems(t.subs)) && ProperBefore(t.subs, i)
    {
      if t.subs[i].Rotations? {
        ghost var before := t.subs;
        RowsBuilt(t.subs[i - 1], n);
        ListProper(t.subs[i], n);
        var clifford := new StabilizerTableau.Copy(t.subs[i - 1].rows, n);
        var rotations := new RotationList(t.subs[i].list, n);
        Properize(clifford, rotations);
        ReplacePair(n, t.subs, i, clifford.rows, rotations.list);
        t.subs := t.subs[i - 1 := Clifford(clifford.rows)];
        t.subs := t.subs[i := Rotations(rotations.list)];
        SameTrans(n, AllItems(old(t.subs)), AllItems(before), AllItems(t.subs));
      }
      i := i + 1;
    }
  }

  /** Brings all phases of the tableau into (0, 1/2). */
  method ProperizeTableau(t: Tableau)
    requires t.Valid()
    modifies t
    ensures t.Valid() && Same(t.n, AllItems(old(t.subs)), AllItems(t.subs))
    ensures ProperBefore(t.subs, |t.subs|) && Tidy(t.subs, t.n)
  {
    hide Same, SubOk, AllItems, Kept, Alternating;
    ghost var w0 := AllItems(t.subs);
    if t.subs == [] {
      AllItemsOk(t.subs, t.n);
      SameRefl(t.n, w0);
      return;
    }
    LeadWithClifford(t);
    ghost var s1 := t.subs;
    JoinKinds(t);
    ghost var s2 := t.subs;
    SameTrans(t.n, w0, AllItems(s1), AllItems(s2));
    ProperizeLists(t);
    ghost var s3 := t.subs;
    SameTrans(t.n, w0, AllItems(s2), AllItems(s3));
    RemoveIdentities(t);
    SameTrans(t.n, w0, AllItems(s3), AllItems(t.subs));
    forall k | 0 <= k < |t.subs| && t.subs[k].Rotations?
      ensures ProperSub(t.subs[k])
    {
      var j :| 0 <= j < |s3| && s3[j].Rotations? && t.subs[k].list == Kept(s3[j].list);
      assert ProperSub(s3[j]);
      KeptFrom(s3[j].list);
      ProperSubKept(s3[j], t.subs[k]);
    }
  }

  lemma ProperSubKept(s: Sub, r: Sub)
    requires s.Rotations? && r.Rotations? && ProperSub(s) && forall i :: 0 <= i < |r.list| ==> r.list[i] in s.list
    ensures ProperSub(r)
  {
    forall i | 0 <= i < |r.list|
      ensures 0.0 < r.list[i].phase < 0.5
    {
      var j :| 0 <= j < |s.list| && s.list[j] == r.list[i];
    }
  }

  lemma KeptFrom(rs: seq<Rotation>)
    ensures forall i :: 0 <= i < |Kept(rs)| ==> Kept(rs)[i] in rs
  {
  }
}
