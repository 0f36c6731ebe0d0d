/** Timed operations on a device: what a run of them keeps, and what sorting by start time may reorder. */
module Schedules {
  import opened Collections
  import opened Topologies

  /** One operation: a swap inserted by a router (no gate) or a gate of the circuit. */
  datatype Operation = Operation(gate: Option<nat>, swap: bool, qubits: seq<nat>, start: nat, end: nat)

  /** Until when each physical qubit is occupied, and which logical qubit it holds. */
  datatype State = State(occupied: seq<nat>, logical: seq<nat>)

  const SWAP_DELAY: nat := 6

  function Delay(swap: bool, qubits: nat): nat {
    if swap then SWAP_DELAY else if qubits == 1 then 1 else if qubits == 2 then 2 else 5
  }

  /** One or two different qubits of the device; two of them are coupled. */
  ghost predicate OnDevice(adj: seq<seq<nat>>, op: Operation) {
    && 1 <= |op.qubits| <= 2 && (forall i :: 0 <= i < |op.qubits| ==> op.qubits[i] < |adj|)
    && (|op.qubits| == 2 ==> op.qubits[0] != op.qubits[1] && Coupled(adj, op.qubits[0], op.qubits[1]))
    && (op.swap ==> |op.qubits| == 2)
  }

  ghost predicate StateOk(s: State, n: nat) {
    && |s.occupied| == |s.logical| == n
    && (forall q :: 0 <= q < n ==> s.logical[q] < n)
    && Distinct(s.logical)
  }

  /** The operation starts when its qubits are free and takes its delay. */
  ghost predicate Fits(adj: seq<seq<nat>>, s: State, op: Operation)
    requires |s.occupied| == |adj|
  {
    && OnDevice(adj, op) && op.end == op.start + Delay(op.swap, |op.qubits|)
    && forall i :: 0 <= i < |op.qubits| ==> s.occupied[op.qubits[i]] <= op.start
  }

  function Exchange(s: seq<nat>, a: nat, b: nat): (r: seq<nat>)
    requires a < |s| && b < |s|
    ensures |r| == |s|
  {
    s[a := s[b]][b := s[a]]
  }

  function Placement(logical: seq<nat>, op: Operation): (r: seq<nat>)
    ensures |r| == |logical|
  {
    if op.swap && |op.qubits| == 2 && op.qubits[0] < |logical| && op.qubits[1] < |logical|
    then Exchange(logical, op.qubits[0], op.qubits[1]) else logical
  }

  function After(s: State, op: Operation): (r: State)
    ensures |r.occupied| == |s.occupied| && |r.logical| == |s.logical|
  {
    State(seq(|s.occupied|, q requires 0 <= q < |s.occupied| => if q in op.qubits then op.end else s.occupied[q]),
          Placement(s.logical, op))
  }

  function AfterAll(s: State, ops: seq<Operation>): (r: State)
    ensures |r.occupied| == |s.occupied| && |r.logical| == |s.logical|
  {
    if ops == [] then s else After(AfterAll(s, ops[..|ops| - 1]), ops[|ops| - 1])
  }

  ghost predicate FitsAll(adj: seq<seq<nat>>, s: State, ops: seq<Operation>)
    requires |s.occupied| == |adj|
  {
    ops == [] || (FitsAll(adj, s, ops[..|ops| - 1]) && Fits(adj, AfterAll(s, ops[..|ops| - 1]), ops[|ops| - 1]))
  }

  lemma {:induction false} AfterAppend(s: State, ops: seq<Operation>, more: seq<Operation>)
    ensures AfterAll(s, ops + more) == AfterAll(AfterAll(s, ops), more)
    decreases |more|
  {
    if more == [] {
      assert ops + more == ops;
    } else {
      var m := |more| - 1;
      assert (ops + more)[..|ops + more| - 1] == ops + more[..m];
      AfterAppend(s, ops, more[..m]);
    }
  }

  lemma {:induction false} FitsAppend(adj: seq<seq<nat>>, s: State, ops: seq<Operation>, more: seq<Operation>)
    requires |s.occupied| == |adj| && FitsAll(adj, s, ops) && FitsAll(adj, AfterAll(s, ops), more)
    ensures FitsAll(adj, s, ops + more)
    decreases |more|
  {
    if more == [] {
      assert ops + more == ops;
    } else {
      var m := |more| - 1;
      assert (ops + more)[..|ops + more| - 1] == ops + more[..m];
      FitsAppend(adj, s, ops, more[..m]);
      AfterAppend(s, ops, more[..m]);
    }
  }

  lemma {:induction false} AfterKeepsState(adj: seq<seq<nat>>, s: State, op: Operation)
    requires StateOk(s, |adj|) && OnDevice(adj, op)
    ensures StateOk(After(s, op), |adj|)
  {
    var l, r := s.logical, After(s, op).logical;
    if op.swap {
      var (a, b) := (op.qubits[0], op.qubits[1]);
      forall p, q | 0 <= p < q < |r|
        ensures r[p] != r[q]
      {
        assert r[p] == l[if p == a then b else if p == b then a else p];
        assert r[q] == l[if q == a then b else if q == b then a else q];
      }
    }
  }

  // ---------------------------------------------------------------- no two operations overlap on a qubit

  lemma {:induction false} OccupiedUntil(adj: seq<seq<nat>>, s: State, ops: seq<Operation>, q: nat)
    requires |s.occupied| == |adj| && FitsAll(adj, s, ops) && q < |adj|
    ensures s.occupied[q] <= AfterAll(s, ops).occupied[q]
    ensures forall i :: 0 <= i < |ops| && q in ops[i].qubits ==> ops[i].end <= AfterAll(s, ops).occupied[q]
  {
    if ops != [] {
      var m := |ops| - 1;
      OccupiedUntil(adj, s, ops[..m], q);
      var before := AfterAll(s, ops[..m]);
      assert AfterAll(s, ops).occupied[q] == if q in ops[m].qubits then ops[m].end else before.occupied[q];
      if q in ops[m].qubits {
        var t :| 0 <= t < |ops[m].qubits| && ops[m].qubits[t] == q;
        assert before.occupied[q] <= ops[m].start <= ops[m].end;
      }
      forall i | 0 <= i < |ops| && q in ops[i].qubits
        ensures ops[i].end <= AfterAll(s, ops).occupied[q]
      {
        if i < m {
          assert ops[..m][i] == ops[i];
        }
      }
    }
  }

  lemma {:induction false} FitsPrefix(adj: seq<seq<nat>>, s: State, ops: seq<Operation>, k: nat)
    requires |s.occupied| == |adj| && FitsAll(adj, s, ops) && k <= |ops|
    ensures FitsAll(adj, s, ops[..k])
    decreases |ops|
  {
    if k < |ops| {
      assert ops[..|ops| - 1][..k] == ops[..k];
      FitsPrefix(adj, s, ops[..|ops| - 1], k);
    } else {
      assert ops[..k] == ops;
    }
  }

  lemma {:induction false} StartsFree(adj: seq<seq<nat>>, s: State, ops: seq<Operation>, i: nat, q: nat)
    requires |s.occupied| == |adj| && FitsAll(adj, s, ops) && i < |ops| && q in ops[i].qubits
    ensures q < |adj| && AfterAll(s, ops[..i]).occupied[q] <= ops[i].start < ops[i].end
  {
    FitsPrefix(adj, s, ops, i + 1);
    assert ops[..i + 1][..i] == ops[..i] && ops[..i + 1][i] == ops[i];
    assert Fits(adj, AfterAll(s, ops[..i]), ops[i]);
    var t :| 0 <= t < |ops[i].qubits| && ops[i].qubits[t] == q;
  }

  /** Of two operations on a qubit, the earlier one has ended when the later one starts. */
  lemma {:induction false} NoOverlap(adj: seq<seq<nat>>, s: State, ops: seq<Operation>, i: nat, j: nat, q: nat)
    requires |s.occupied| == |adj| && FitsAll(adj, s, ops) && i < j < |ops| && q in ops[i].qubits && q in ops[j].qubits
    ensures ops[i].start < ops[i].end <= ops[j].start < ops[j].end
  {
    StartsFree(adj, s, ops, i, q);
    StartsFree(adj, s, ops, j, q);
    FitsPrefix(adj, s, ops, j);
    OccupiedUntil(adj, s, ops[..j], q);
    assert ops[..j][i] == ops[i];
  }

  // ---------------------------------------------------------------- sorting by start time

  /** The operations on one physical qubit, in order. */
  function On(ops: seq<Operation>, q: nat): seq<Operation> {
    if ops == [] then []
    else (if q in ops[0].qubits then [ops[0]] else []) + On(ops[1..], q)
  }

  ghost predicate SortedByStart(ops: seq<Operation>) {
    forall i, j :: 0 <= i < j < |ops| ==> ops[i].start <= ops[j].start
  }

  ghost predicate StrictlySorted(ops: seq<Operation>) {
    forall i, j :: 0 <= i < j < |ops| ==> ops[i].start < ops[j].start
  }

  lemma {:induction false} OnMembers(ops: seq<Operation>, q: nat)
    ensures forall x :: x in On(ops, q) <==> x in ops && q in x.qubits
  {
    if ops != [] {
      OnMembers(ops[1..], q);
      assert ops == [ops[0]] + ops[1..];
    }
  }

  lemma {:induction false} OnKeepsOrder(ops: seq<Operation>, q: nat)
    requires SortedByStart(ops)
    ensures SortedByStart(On(ops, q))
  {
    if ops != [] {
      var rest := On(ops[1..], q);
      OnKeepsOrder(ops[1..], q);
      OnMembers(ops[1..], q);
      if q in ops[0].qubits {
        forall i | 0 <= i < |rest|
          ensures ops[0].start <= rest[i].start
        {
          assert rest[i] in rest;
          var t :| 0 <= t < |ops[1..]| && ops[1..][t] == rest[i];
          assert ops[t + 1] == rest[i];
        }
      } else {
        assert On(ops, q) == rest;
      }
    }
  }

  lemma {:induction false} OnStrict(ops: seq<Operation>, q: nat)
    requires forall i, j :: 0 <= i < j < |ops| && q in ops[i].qubits && q in ops[j].qubits ==> ops[i].start < ops[j].start
    ensures StrictlySorted(On(ops, q))
  {
    if ops != [] {
      var rest := On(ops[1..], q);
      OnStrict(ops[1..], q);
      OnMembers(ops[1..], q);
      if q in ops[0].qubits {
        forall i | 0 <= i < |rest|
          ensures ops[0].start < rest[i].start
        {
          assert rest[i] in rest;
          var t :| 0 <= t < |ops[1..]| && ops[1..][t] == rest[i];
          assert ops[t + 1] == rest[i] && q in ops[t + 1].qubits;
        }
      } else {
        assert On(ops, q) == rest;
      }
    }
  }

  /** How often an operation occurs. */
  function Count(ops: seq<Operation>, x: Operation): nat {
    if ops == [] then 0 else (if ops[0] == x then 1 else 0) + Count(ops[1..], x)
  }

  ghost predicate Permutation(a: seq<Operation>, b: seq<Operation>) {
    forall x :: Count(a, x) == Count(b, x)
  }

  lemma {:induction false} OnCount(ops: seq<Operation>, q: nat, x: Operation)
    ensures Count(On(ops, q), x) == if q in x.qubits then Count(ops, x) else 0
  {
    if ops != [] {
      var rest := On(ops[1..], q);
      OnCount(ops[1..], q, x);
      if q in ops[0].qubits {
        assert ([ops[0]] + rest)[1..] == rest;
      } else {
        assert On(ops, q) == rest;
      }
    }
  }

  lemma {:induction false} CountIn(ops: seq<Operation>, x: Operation)
    ensures Count(ops, x) > 0 <==> x in ops
  {
    if ops != [] {
      CountIn(ops[1..], x);
      assert ops == [ops[0]] + ops[1..];
    }
  }

  lemma SomethingCounted(ops: seq<Operation>)
    requires ops != []
    ensures exists x :: Count(ops, x) > 0
  {
    assert Count(ops, ops[0]) > 0;
  }

  /** A sorted list that is a rearrangement of a strictly sorted one is that list. */
  lemma {:induction false} SortedIsUnique(a: seq<Operation>, b: seq<Operation>)
    requires StrictlySorted(a) && SortedByStart(b) && Permutation(a, b)
    ensures a == b
    decreases |a|
  {
    if a == [] {
      if b != [] {
        SomethingCounted(b);
        assert false;
      }
    } else {
      SameHead(a, b);
      forall x
        ensures Count(a[1..], x) == Count(b[1..], x)
      {
        assert Count(a, x) == Count(b, x);
      }
      SortedIsUnique(a[1..], b[1..]);
      assert a == [a[0]] + a[1..] && b == [b[0]] + b[1..];
    }
  }

  lemma SameHead(a: seq<Operation>, b: seq<Operation>)
    requires a != [] && StrictlySorted(a) && SortedByStart(b) && Permutation(a, b)
    ensures b != [] && a[0] == b[0]
  {
    assert Count(a, a[0]) == Count(b, a[0]);
    CountIn(a, a[0]);
    CountIn(b, a[0]);
    assert Count(a, b[0]) == Count(b, b[0]);
    CountIn(a, b[0]);
    CountIn(b, b[0]);
    var i :| 0 <= i < |a| && a[i] == b[0];
    var j :| 0 <= j < |b| && b[j] == a[0];
    assert b[0].start <= b[j].start;
  }

  /** Sorting a run by start time, in any way, keeps the order on every physical qubit. */
  lemma SortKeepsQubitOrder(adj: seq<seq<nat>>, s: State, ops: seq<Operation>, sorted: seq<Operation>, q: nat)
    requires |s.occupied| == |adj| && FitsAll(adj, s, ops) && SortedByStart(sorted) && Permutation(ops, sorted)
    ensures On(sorted, q) == On(ops, q)
  {
    forall i, j | 0 <= i < j < |ops| && q in ops[i].qubits && q in ops[j].qubits
      ensures ops[i].start < ops[j].start
    {
      NoOverlap(adj, s, ops, i, j, q);
    }
    OnStrict(ops, q);
    OnKeepsOrder(sorted, q);
    forall x
      ensures Count(On(ops, q), x) == Count(On(sorted, q), x)
    {
      OnCount(ops, q, x);
      OnCount(sorted, q, x);
      assert Count(ops, x) == Count(sorted, x);
    }
    SortedIsUnique(On(ops, q), On(sorted, q));
  }

  // ---------------------------------------------------------------- the gates seen from the logical qubits

  /** A gate of the circuit with the logical qubits it meets. */
  datatype Event = Event(gate: nat, qubits: seq<nat>)

  function Operands(logical: seq<nat>, op: Operation): (r: seq<nat>)
    ensures |r| == |op.qubits|
  {
    seq(|op.qubits|, i requires 0 <= i < |op.qubits| => if op.qubits[i] < |logical| then logical[op.qubits[i]] else 0)
  }

  function EventOf(logical: seq<nat>, op: Operation): seq<Event> {
    if op.gate.Some? then [Event(op.gate.value, Operands(logical, op))] else []
  }

  /** The gates in the order of a run, the swaps undone. */
  function Trace(logical: seq<nat>, ops: seq<Operation>): seq<Event>
    decreases |ops|
  {
    if ops == [] then [] else EventOf(logical, ops[0]) + Trace(Placement(logical, ops[0]), ops[1..])
  }

  function Final(logical: seq<nat>, ops: seq<Operation>): (r: seq<nat>)
    ensures |r| == |logical|
    decreases |ops|
  {
    if ops == [] then logical else Final(Placement(logical, ops[0]), ops[1..])
  }

  /** The events on one logical qubit, in order. */
  function EventsOn(es: seq<Event>, l: nat): seq<Event> {
    if es == [] then [] else (if l in es[0].qubits then [es[0]] else []) + EventsOn(es[1..], l)
  }

  lemma {:induction false} EventsOnAppend(es: seq<Event>, more: seq<Event>, l: nat)
    ensures EventsOn(es + more, l) == EventsOn(es, l) + EventsOn(more, l)
  {
    if es == [] {
      assert es + more == more;
    } else {
      assert (es + more)[1..] == es[1..] + more;
      EventsOnAppend(es[1..], more, l);
    }
  }

  ghost predicate Apart(a: Operation, b: Operation) {
    forall q :: q in a.qubits ==> q !in b.qubits
  }

  ghost predicate AllOnDevice(adj: seq<seq<nat>>, ops: seq<Operation>) {
    forall i :: 0 <= i < |ops| ==> OnDevice(adj, ops[i])
  }

  ghost predicate PlacementOk(logical: seq<nat>, n: nat) {
    |logical| == n && Distinct(logical)
  }

  lemma PlacementStaysOk(adj: seq<seq<nat>>, logical: seq<nat>, op: Operation)
    requires PlacementOk(logical, |adj|) && OnDevice(adj, op)
    ensures PlacementOk(Placement(logical, op), |adj|)
  {
    var r := Placement(logical, op);
    if op.swap {
      var (a, b) := (op.qubits[0], op.qubits[1]);
      forall p, q | 0 <= p < q < |r|
        ensures r[p] != r[q]
      {
        assert r[p] == logical[if p == a then b else if p == b then a else p];
        assert r[q] == logical[if q == a then b else if q == b then a else q];
      }
    }
  }

  /** Operations apart from each other do not see each other's swaps, and meet different logical qubits. */
  lemma ApartCommute(adj: seq<seq<nat>>, logical: seq<nat>, a: Operation, b: Operation)
    requires PlacementOk(logical, |adj|) && OnDevice(adj, a) && OnDevice(adj, b) && Apart(a, b)
    ensures Placement(Placement(logical, a), b) == Placement(Placement(logical, b), a)
    ensures Operands(Placement(logical, a), b) == Operands(logical, b) && Operands(Placement(logical, b), a) == Operands(logical, a)
    ensures forall l :: l in Operands(logical, a) ==> l !in Operands(logical, b)
  {
    forall i, j | 0 <= i < |a.qubits| && 0 <= j < |b.qubits|
      ensures a.qubits[i] != b.qubits[j] && Operands(logical, a)[i] != Operands(logical, b)[j]
    {
      assert a.qubits[i] in a.qubits && b.qubits[j] in b.qubits;
    }
    assert Operands(Placement(logical, a), b) == Operands(logical, b);
    assert Operands(Placement(logical, b), a) == Operands(logical, a);
    var l, r := Placement(Placement(logical, a), b), Placement(Placement(logical, b), a);
    assert l == r;
  }

  /** Two neighbours that are apart can be exchanged. */
  lemma ExchangeApart(adj: seq<seq<nat>>, logical: seq<nat>, a: Operation, b: Operation, l: nat)
    requires PlacementOk(logical, |adj|) && OnDevice(adj, a) && OnDevice(adj, b) && Apart(a, b)
    ensures Final(logical, [a, b]) == Final(logical, [b, a])
    ensures EventsOn(Trace(logical, [a, b]), l) == EventsOn(Trace(logical, [b, a]), l)
  {
    hide Placement, Operands, EventOf, Trace, Final, PlacementOk, OnDevice, Apart, EventsOn;
    ApartCommute(adj, logical, a, b);
    EventsApart(adj, logical, a, b, l);
    TraceTwo(logical, a, b);
    TraceTwo(logical, b, a);
    var e, f := EventOf(logical, a), EventOf(logical, b);
    EventsOnAppend(e, f, l);
    EventsOnAppend(f, e, l);
  }

  lemma EventsApart(adj: seq<seq<nat>>, logical: seq<nat>, a: Operation, b: Operation, l: nat)
    requires PlacementOk(logical, |adj|) && OnDevice(adj, a) && OnDevice(adj, b) && Apart(a, b)
    ensures EventOf(Placement(logical, a), b) == EventOf(logical, b) && EventOf(Placement(logical, b), a) == EventOf(logical, a)
    ensures EventsOn(EventOf(logical, a), l) == [] || EventsOn(EventOf(logical, b), l) == []
  {
    hide Placement, Operands;
    ApartCommute(adj, logical, a, b);
    OneEvent(logical, a, l);
    OneEvent(logical, b, l);
  }

  lemma OneEvent(logical: seq<nat>, op: Operation, l: nat)
    ensures l !in Operands(logical, op) ==> EventsOn(EventOf(logical, op), l) == []
  {
    var e := EventOf(logical, op);
    assert e != [] ==> e[1..] == [];
  }

  lemma TraceTwo(logical: seq<nat>, a: Operation, b: Operation)
    ensures Trace(logical, [a, b]) == EventOf(logical, a) + EventOf(Placement(logical, a), b)
    ensures Final(logical, [a, b]) == Placement(Placement(logical, a), b)
  {
    hide Placement, EventOf;
    assert [a, b][1..] == [b] && [b][1..] == [];
    var p := Placement(logical, a);
    assert Trace(p, [b]) == EventOf(p, b) + [];
    assert Final(p, [b]) == Placement(p, b);
  }

  lemma {:induction false} TraceAppend(logical: seq<nat>, ops: seq<Operation>, more: seq<Operation>)
    ensures Trace(logical, ops + more) == Trace(logical, ops) + Trace(Final(logical, ops), more)
    ensures Final(logical, ops + more) == Final(Final(logical, ops), more)
    decreases |ops|
  {
    hide Placement, EventOf;
    if ops == [] {
      assert ops + more == more;
    } else {
      assert (ops + more)[1..] == ops[1..] + more;
      TraceAppend(Placement(logical, ops[0]), ops[1..], more);
    }
  }

  /** Two orders of the same operations that show the same gates, in the same order, to every logical qubit. */
  ghost predicate SameForLogical(logical: seq<nat>, a: seq<Operation>, b: seq<Operation>) {
    && Final(logical, a) == Final(logical, b)
    && forall l: nat :: EventsOn(Trace(logical, a), l) == EventsOn(Trace(logical, b), l)
  }

  lemma SameAround(logical: seq<nat>, u: seq<Operation>, a: seq<Operation>, b: seq<Operation>, v: seq<Operation>)
    requires SameForLogical(Final(logical, u), a, b)
    ensures SameForLogical(logical, u + a + v, u + b + v)
  {
    TraceAppend(logical, u + a, v);
    TraceAppend(logical, u + b, v);
    TraceAppend(logical, u, a);
    TraceAppend(logical, u, b);
    hide Trace, Final;
    var now := Final(logical, u);
    forall l: nat
      ensures EventsOn(Trace(logical, u + a + v), l) == EventsOn(Trace(logical, u + b + v), l)
    {
      var end := Trace(Final(now, a), v);
      EventsOnAppend(Trace(logical, u) + Trace(now, a), end, l);
      EventsOnAppend(Trace(logical, u) + Trace(now, b), end, l);
      EventsOnAppend(Trace(logical, u), Trace(now, a), l);
      EventsOnAppend(Trace(logical, u), Trace(now, b), l);
    }
  }

  lemma SameThrough(logical: seq<nat>, a: seq<Operation>, b: seq<Operation>, c: seq<Operation>)
    requires SameForLogical(logical, a, b) && SameForLogical(logical, b, c)
    ensures SameForLogical(logical, a, c)
  {
    hide Trace, Final;
  }

  /** An operation moves to the front past operations it is apart from. */
  lemma {:induction false} MoveToFront(adj: seq<seq<nat>>, logical: seq<nat>, u: seq<Operation>, x: Operation)
    requires PlacementOk(logical, |adj|) && AllOnDevice(adj, u) && OnDevice(adj, x)
    requires forall i :: 0 <= i < |u| ==> Apart(u[i], x)
    ensures SameForLogical(logical, u + [x], [x] + u)
    decreases |u|
  {
    if u == [] {
      assert u + [x] == [x] + u;
    } else {
      hide Trace, Final, Placement, OnDevice, Apart, PlacementOk, SameForLogical;
      var y, rest := u[0], u[1..];
      PlacementStaysOk(adj, logical, y);
      MoveToFront(adj, Placement(logical, y), rest, x);
      FinalOne(logical, y);
      SameAround(logical, [y], rest + [x], [x] + rest, []);
      assert [y] + (rest + [x]) + [] == u + [x] && [y] + ([x] + rest) + [] == [] + [y, x] + rest;
      PairSame(adj, logical, y, x);
      SameAround(logical, [], [y, x], [x, y], rest);
      assert [] + [x, y] + rest == [x] + u;
      SameThrough(logical, u + [x], [] + [y, x] + rest, [x] + u);
    }
  }

  lemma FinalOne(logical: seq<nat>, y: Operation)
    ensures Final(logical, [y]) == Placement(logical, y)
    ensures Final(logical, []) == logical
  {
    assert [y][1..] == [];
  }

  lemma PairSame(adj: seq<seq<nat>>, logical: seq<nat>, a: Operation, b: Operation)
    requires PlacementOk(logical, |adj|) && OnDevice(adj, a) && OnDevice(adj, b) && Apart(a, b)
    ensures SameForLogical(Final(logical, []), [a, b], [b, a])
  {
    FinalOne(logical, a);
    hide Trace, Final;
    forall l: nat
      ensures EventsOn(Trace(logical, [a, b]), l) == EventsOn(Trace(logical, [b, a]), l)
    {
      ExchangeApart(adj, logical, a, b, l);
    }
    ExchangeApart(adj, logical, a, b, 0);
  }

  // ---------------------------------------------------------------- the order on each qubit decides

  lemma {:induction false} OnAppend(ops: seq<Operation>, more: seq<Operation>, q: nat)
    ensures On(ops + more, q) == On(ops, q) + On(more, q)
  {
    if ops == [] {
      assert ops + more == more;
    } else {
      assert (ops + more)[1..] == ops[1..] + more;
      OnAppend(ops[1..], more, q);
    }
  }

  /** The first operation on a qubit. */
  lemma {:induction false} FirstOn(ops: seq<Operation>, q: nat) returns (i: nat)
    requires On(ops, q) != []
    ensures i < |ops| && ops[i] == On(ops, q)[0] && q in ops[i].qubits
    ensures forall j :: 0 <= j < i ==> q !in ops[j].qubits
  {
    if q in ops[0].qubits {
      i := 0;
    } else {
      i := FirstOn(ops[1..], q);
      i := i + 1;
    }
  }

  ghost predicate SameOnQubits(a: seq<Operation>, b: seq<Operation>) {
    forall q: nat :: On(a, q) == On(b, q)
  }

  /** The head of one order can be brought to the front of the other. */
  lemma FindHead(adj: seq<seq<nat>>, a: seq<Operation>, b: seq<Operation>) returns (i: nat)
    requires AllOnDevice(adj, a) && AllOnDevice(adj, b) && SameOnQubits(a, b) && b != []
    ensures i < |a| && a[i] == b[0] && forall j :: 0 <= j < i ==> Apart(a[j], b[0])
  {
    var x := b[0];
    assert OnDevice(adj, x);
    var q := x.qubits[0];
    assert On(b, q)[0] == x && On(a, q) == On(b, q);
    i := FirstOn(a, q);
    if |x.qubits| == 2 {
      var p := x.qubits[1];
      assert On(b, p)[0] == x && On(a, p) == On(b, p);
      var k := FirstOn(a, p);
      assert p in a[i].qubits && q in a[k].qubits;
      assert i == k;
    }
    forall j | 0 <= j < i
      ensures Apart(a[j], x)
    {
      forall t | t in x.qubits
        ensures t !in a[j].qubits
      {
        assert t == x.qubits[0] || t == x.qubits[|x.qubits| - 1];
      }
    }
  }

  lemma WithoutHead(a: seq<Operation>, b: seq<Operation>, i: nat)
    requires SameOnQubits(a, b) && b != [] && i < |a| && a[i] == b[0] && forall j :: 0 <= j < i ==> Apart(a[j], b[0])
    ensures SameOnQubits(a[..i] + a[i + 1..], b[1..])
  {
    var u, x, v := a[..i], a[i], a[i + 1..];
    forall q: nat
      ensures On(u + v, q) == On(b[1..], q)
    {
      assert a == u + ([x] + v);
      OnAppend(u, [x] + v, q);
      OnAppend(u, v, q);
      assert ([x] + v)[1..] == v;
      assert On(a, q) == On(b, q);
      if q in x.qubits {
        NoneOn(u, q, x);
        assert On(a, q) == [x] + On(v, q) && On(b, q) == [x] + On(b[1..], q);
        assert On(a, q)[1..] == On(v, q) && On(b, q)[1..] == On(b[1..], q);
      } else {
        assert On([x] + v, q) == On(v, q) && On(b, q) == On(b[1..], q);
      }
    }
  }

  lemma {:induction false} NoneOn(u: seq<Operation>, q: nat, x: Operation)
    requires q in x.qubits && forall j :: 0 <= j < |u| ==> Apart(u[j], x)
    ensures On(u, q) == []
  {
    if u != [] {
      NoneOn(u[1..], q, x);
    }
  }

  /** Orders that agree on every physical qubit show every logical qubit the same gates in the same order. */
  lemma {:induction false} QubitOrderDecides(adj: seq<seq<nat>>, logical: seq<nat>, a: seq<Operation>, b: seq<Operation>)
    requires PlacementOk(logical, |adj|) && AllOnDevice(adj, a) && AllOnDevice(adj, b) && SameOnQubits(a, b)
    ensures SameForLogical(logical, a, b)
    decreases |b|
  {
    hide Trace, Final, Placement, SameOnQubits, PlacementOk, On, SameForLogical, OnDevice, Apart;
    if b == [] {
      NoneLeft(adj, a, b);
      assert a == b;
      SameSelf(logical, a);
    } else {
      var i := FindHead(adj, a, b);
      var u, x, v, w := a[..i], a[i], a[i + 1..], b[1..];
      WithoutHead(a, b, i);
      assert a == [] + (u + [x]) + v && b == [x] + w + [];
      FinalOne(logical, x);
      MoveToFront(adj, logical, u, x);
      SameAround(logical, [], u + [x], [x] + u, v);
      PlacementStaysOk(adj, logical, x);
      QubitOrderDecides(adj, Placement(logical, x), u + v, w);
      SameAround(logical, [x], u + v, w, []);
      assert [] + ([x] + u) + v == [x] + (u + v) + [];
      SameThrough(logical, a, [x] + (u + v) + [], b);
    }
  }

  lemma SameSelf(logical: seq<nat>, a: seq<Operation>)
    ensures SameForLogical(logical, a, a)
  {
  }

  lemma NoneLeft(adj: seq<seq<nat>>, a: seq<Operation>, b: seq<Operation>)
    requires AllOnDevice(adj, a) && SameOnQubits(a, b) && b == []
    ensures a == []
  {
    if a != [] {
      SomethingOn(adj, a);
      assert false;
    }
  }

  lemma SomethingOn(adj: seq<seq<nat>>, a: seq<Operation>)
    requires a != [] && AllOnDevice(adj, a)
    ensures exists q: nat :: On(a, q) != []
  {
    assert OnDevice(adj, a[0]);
    assert On(a, a[0].qubits[0]) != [];
  }

  // ---------------------------------------------------------------- a run in another order is as good

  /** On one qubit: each operation ends before the next starts, the first one not before the given time. */
  ghost predicate Chain(from: nat, ops: seq<Operation>)
    decreases |ops|
  {
    ops == [] || (from <= ops[0].start && ops[0].start <= ops[0].end && Chain(ops[0].end, ops[1..]))
  }

  function LastEnd(from: nat, ops: seq<Operation>): nat
    decreases |ops|
  {
    if ops == [] then from else LastEnd(ops[0].end, ops[1..])
  }

  lemma {:induction false} ChainAppend(from: nat, ops: seq<Operation>, more: seq<Operation>)
    ensures Chain(from, ops + more) <==> Chain(from, ops) && Chain(LastEnd(from, ops), more)
    ensures LastEnd(from, ops + more) == LastEnd(LastEnd(from, ops), more)
    decreases |ops|
  {
    if ops == [] {
      assert ops + more == more;
    } else {
      assert (ops + more)[1..] == ops[1..] + more;
      ChainAppend(ops[0].end, ops[1..], more);
    }
  }

  ghost predicate Lasts(adj: seq<seq<nat>>, op: Operation) {
    OnDevice(adj, op) && op.end == op.start + Delay(op.swap, |op.qubits|)
  }

  /** How long a qubit is occupied, and whether its operations fit, shows in its own operations. */
  lemma {:induction false} OccupiedIsLastEnd(s: State, ops: seq<Operation>, q: nat)
    requires q < |s.occupied|
    ensures AfterAll(s, ops).occupied[q] == LastEnd(s.occupied[q], On(ops, q))
    decreases |ops|
  {
    if ops != [] {
      var m := |ops| - 1;
      OccupiedIsLastEnd(s, ops[..m], q);
      assert ops == ops[..m] + [ops[m]];
      OnAppend(ops[..m], [ops[m]], q);
      OnOne(ops[m], q);
      ChainAppend(s.occupied[q], On(ops[..m], q), On([ops[m]], q));
      LastEndOne(AfterAll(s, ops[..m]).occupied[q], ops[m]);
    }
  }

  lemma OnOne(op: Operation, q: nat)
    ensures On([op], q) == if q in op.qubits then [op] else []
  {
    assert [op][1..] == [];
  }

  lemma LastEndOne(from: nat, op: Operation)
    ensures LastEnd(from, [op]) == op.end && LastEnd(from, []) == from
    ensures Chain(from, [op]) <==> from <= op.start <= op.end
  {
    assert [op][1..] == [];
  }

  lemma FitsIsChain(adj: seq<seq<nat>>, s: State, op: Operation)
    requires |s.occupied| == |adj| && Lasts(adj, op)
    ensures Fits(adj, s, op) <==> forall q :: q in op.qubits ==> q < |adj| && s.occupied[q] <= op.start
  {
    assert forall i :: 0 <= i < |op.qubits| ==> op.qubits[i] in op.qubits;
  }

  ghost predicate AllLast(adj: seq<seq<nat>>, ops: seq<Operation>) {
    forall i :: 0 <= i < |ops| ==> Lasts(adj, ops[i])
  }

  /** Every qubit's operations form a chain. */
  ghost predicate Chains(s: State, ops: seq<Operation>) {
    forall q: nat :: q < |s.occupied| ==> Chain(s.occupied[q], On(ops, q))
  }

  lemma ChainsStep(adj: seq<seq<nat>>, s: State, ops: seq<Operation>, op: Operation)
    requires |s.occupied| == |adj| && Lasts(adj, op)
    ensures Chains(s, ops + [op]) <==> Chains(s, ops) && Fits(adj, AfterAll(s, ops), op)
  {
    hide Lasts, Fits, Chain, LastEnd, On;
    FitsIsChain(adj, AfterAll(s, ops), op);
    TakesTime(adj, op);
    forall q: nat | q < |s.occupied|
      ensures Chain(s.occupied[q], On(ops + [op], q))
              <==> Chain(s.occupied[q], On(ops, q)) && (q in op.qubits ==> AfterAll(s, ops).occupied[q] <= op.start)
    {
      OnAppend(ops, [op], q);
      OnOne(op, q);
      ChainAppend(s.occupied[q], On(ops, q), On([op], q));
      OccupiedIsLastEnd(s, ops, q);
      LastEndOne(AfterAll(s, ops).occupied[q], op);
      EmptyChain(AfterAll(s, ops).occupied[q]);
    }
  }

  lemma TakesTime(adj: seq<seq<nat>>, op: Operation)
    requires Lasts(adj, op)
    ensures op.start <= op.end && forall q :: q in op.qubits ==> q < |adj|
  {
  }

  lemma EmptyChain(from: nat)
    ensures Chain(from, [])
  {
  }

  /** A run fits exactly when every qubit's operations do. */
  lemma {:induction false} FitsByQubit(adj: seq<seq<nat>>, s: State, ops: seq<Operation>)
    requires |s.occupied| == |adj|
    ensures FitsAll(adj, s, ops) <==> AllLast(adj, ops) && Chains(s, ops)
    decreases |ops|
  {
    hide Lasts, Fits, Chain;
    if ops == [] {
      NoChains(s);
    } else {
      var m := |ops| - 1;
      assert ops == ops[..m] + [ops[m]];
      FitsByQubit(adj, s, ops[..m]);
      assert AllLast(adj, ops) <==> AllLast(adj, ops[..m]) && Lasts(adj, ops[m]) by { AllLastStep(adj, ops[..m], ops[m]); }
      if Lasts(adj, ops[m]) {
        ChainsStep(adj, s, ops[..m], ops[m]);
      } else {
        FitsLasts(adj, AfterAll(s, ops[..m]), ops[m]);
      }
    }
  }

  lemma NoChains(s: State)
    ensures Chains(s, [])
  {
  }

  lemma AllLastStep(adj: seq<seq<nat>>, ops: seq<Operation>, op: Operation)
    ensures AllLast(adj, ops + [op]) <==> AllLast(adj, ops) && Lasts(adj, op)
  {
    hide Lasts;
    var r := ops + [op];
    assert r[|ops|] == op && forall i :: 0 <= i < |ops| ==> r[i] == ops[i];
  }

  lemma FitsLasts(adj: seq<seq<nat>>, s: State, op: Operation)
    requires |s.occupied| == |adj|
    ensures Fits(adj, s, op) ==> Lasts(adj, op)
  {
  }

  lemma {:induction false} FinalIsAfter(s: State, ops: seq<Operation>)
    ensures Final(s.logical, ops) == AfterAll(s, ops).logical
    decreases |ops|
  {
    if ops != [] {
      var m := |ops| - 1;
      FinalIsAfter(s, ops[..m]);
      assert ops == ops[..m] + [ops[m]];
      TraceAppend(s.logical, ops[..m], [ops[m]]);
      FinalOne(Final(s.logical, ops[..m]), ops[m]);
    }
  }

  /** Any order of a run that is sorted by start time is a run too, with the same result on the device,
      and shows every logical qubit the same gates in the same order. */
  lemma SortedRun(adj: seq<seq<nat>>, s: State, ops: seq<Operation>, sorted: seq<Operation>)
    requires StateOk(s, |adj|) && FitsAll(adj, s, ops) && SortedByStart(sorted) && Permutation(ops, sorted)
    ensures FitsAll(adj, s, sorted) && AfterAll(s, sorted) == AfterAll(s, ops)
    ensures SameForLogical(s.logical, ops, sorted)
  {
    hide FitsAll, Chain, Lasts, AfterAll, On, SameForLogical;
    forall q: nat
      ensures On(ops, q) == On(sorted, q)
    {
      SortKeepsQubitOrder(adj, s, ops, sorted, q);
    }
    FitsByQubit(adj, s, ops);
    PermutedLast(adj, ops, sorted);
    FitsByQubit(adj, s, sorted);
    LastsOnDevice(adj, ops);
    LastsOnDevice(adj, sorted);
    QubitOrderDecides(adj, s.logical, ops, sorted);
    FinalIsAfter(s, ops);
    FinalIsAfter(s, sorted);
    assert AfterAll(s, sorted).logical == AfterAll(s, ops).logical by { SameFinal(s.logical, ops, sorted); }
    forall q: nat | q < |s.occupied|
      ensures AfterAll(s, sorted).occupied[q] == AfterAll(s, ops).occupied[q]
    {
      OccupiedIsLastEnd(s, ops, q);
      OccupiedIsLastEnd(s, sorted, q);
    }
  }

  lemma SameFinal(logical: seq<nat>, a: seq<Operation>, b: seq<Operation>)
    requires SameForLogical(logical, a, b)
    ensures Final(logical, a) == Final(logical, b)
  {
  }

  lemma PermutedLast(adj: seq<seq<nat>>, ops: seq<Operation>, sorted: seq<Operation>)
    requires AllLast(adj, ops) && Permutation(ops, sorted)
    ensures AllLast(adj, sorted)
  {
    forall i | 0 <= i < |sorted|
      ensures Lasts(adj, sorted[i])
    {
      CountIn(sorted, sorted[i]);
      CountIn(ops, sorted[i]);
      assert Count(ops, sorted[i]) == Count(sorted, sorted[i]);
    }
  }

  lemma LastsOnDevice(adj: seq<seq<nat>>, ops: seq<Operation>)
    requires AllLast(adj, ops)
    ensures AllOnDevice(adj, ops)
  {
  }

  // ---------------------------------------------------------------- no time is lost

  /** On qubit q, the operation starts as soon as the one before it has ended. */
  ghost predicate StartsAtOnce(s: State, ops: seq<Operation>, op: Operation, q: nat) {
    q < |s.occupied| && exists i :: 0 <= i < |On(ops, q)| && AtOnceAt(s.occupied[q], On(ops, q), op, i)
  }

  ghost predicate AtOnceAt(from: nat, chain: seq<Operation>, op: Operation, i: int)
    requires 0 <= i < |chain|
  {
    chain[i] == op && op.start == if i == 0 then from else chain[i - 1].end
  }

  ghost predicate AtOnce(s: State, ops: seq<Operation>, op: Operation) {
    exists q :: q in op.qubits && StartsAtOnce(s, ops, op, q)
  }

  /** Every operation starts as soon as the last of its qubits is free. */
  ghost predicate Prompt(s: State, ops: seq<Operation>) {
    forall op :: op in ops ==> AtOnce(s, ops, op)
  }

  lemma NothingLate(s: State)
    ensures Prompt(s, [])
  {
  }

  lemma AtOnceLonger(s: State, ops: seq<Operation>, more: seq<Operation>, op: Operation)
    requires AtOnce(s, ops, op)
    ensures AtOnce(s, ops + more, op)
  {
    var q :| q in op.qubits && StartsAtOnce(s, ops, op, q);
    OnAppend(ops, more, q);
    hide On;
    var i :| 0 <= i < |On(ops, q)| && AtOnceAt(s.occupied[q], On(ops, q), op, i);
    assert AtOnceAt(s.occupied[q], On(ops + more, q), op, i);
  }

  lemma {:induction false} LastEndIsLast(from: nat, ops: seq<Operation>)
    ensures LastEnd(from, ops) == if ops == [] then from else ops[|ops| - 1].end
    decreases |ops|
  {
    if ops != [] {
      LastEndIsLast(ops[0].end, ops[1..]);
    }
  }

  /** What starts at once after a run does so in the longer run. */
  lemma AtOnceAfter(s: State, ops: seq<Operation>, more: seq<Operation>, op: Operation)
    requires AtOnce(AfterAll(s, ops), more, op)
    ensures AtOnce(s, ops + more, op)
  {
    hide On, AfterAll, LastEnd;
    var t := AfterAll(s, ops);
    var q :| q in op.qubits && StartsAtOnce(t, more, op, q);
    var a, b := On(ops, q), On(more, q);
    var i :| 0 <= i < |b| && AtOnceAt(t.occupied[q], b, op, i);
    OnAppend(ops, more, q);
    OccupiedIsLastEnd(s, ops, q);
    LastEndIsLast(s.occupied[q], a);
    assert AtOnceAt(s.occupied[q], a + b, op, |a| + i);
    assert StartsAtOnce(s, ops + more, op, q);
  }

  lemma PromptAppend(s: State, ops: seq<Operation>, more: seq<Operation>)
    requires Prompt(s, ops) && Prompt(AfterAll(s, ops), more)
    ensures Prompt(s, ops + more)
  {
    hide AtOnce;
    forall op | op in ops + more
      ensures AtOnce(s, ops + more, op)
    {
      if op in ops {
        AtOnceLonger(s, ops, more, op);
      } else {
        AtOnceAfter(s, ops, more, op);
      }
    }
  }

  lemma PromptOne(s: State, op: Operation, q: nat)
    requires q in op.qubits && q < |s.occupied| && s.occupied[q] == op.start
    ensures Prompt(s, [op])
  {
    OnOne(op, q);
    assert AtOnceAt(s.occupied[q], On([op], q), op, 0);
    assert StartsAtOnce(s, [op], op, q);
  }

  lemma PromptMore(s: State, ops: seq<Operation>, op: Operation, q: nat)
    requires Prompt(s, ops) && q in op.qubits && q < |s.occupied| && AfterAll(s, ops).occupied[q] == op.start
    ensures Prompt(s, ops + [op])
  {
    hide Prompt, AfterAll;
    PromptOne(AfterAll(s, ops), op, q);
    PromptAppend(s, ops, [op]);
  }

  /** Sorting a run by start time loses no time. */
  lemma SortedPrompt(adj: seq<seq<nat>>, s: State, ops: seq<Operation>, sorted: seq<Operation>)
    requires StateOk(s, |adj|) && FitsAll(adj, s, ops) && Prompt(s, ops) && SortedByStart(sorted) && Permutation(ops, sorted)
    ensures Prompt(s, sorted)
  {
    hide On, FitsAll, SortedByStart;
    forall op | op in sorted
      ensures AtOnce(s, sorted, op)
    {
      CountIn(sorted, op);
      CountIn(ops, op);
      assert Count(ops, op) == Count(sorted, op);
      assert AtOnce(s, ops, op);
      var q :| q in op.qubits && StartsAtOnce(s, ops, op, q);
      SortKeepsQubitOrder(adj, s, ops, sorted, q);
    }
  }
}
