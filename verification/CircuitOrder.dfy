/** The order in which the gates of a circuit are routed, and when it respects the dependencies. */
module CircuitOrders {
  import opened Collections
  import opened Schedules
  import opened Routing
  import opened CircuitTopologies

  function EventOfGate(c: Circuit, g: nat): Event
    requires g < |c.gates|
  {
    Event(g, c.gates[g].qubits)
  }

  function EventsOf(c: Circuit, ids: seq<nat>): seq<Event>
    requires Below(ids, |c.gates|)
  {
    if ids == [] then [] else EventsOf(c, ids[..|ids| - 1]) + [EventOfGate(c, ids[|ids| - 1])]
  }

  /** The routed gates among the first k on logical qubit l, in circuit order. */
  function CircuitOn(c: Circuit, l: nat, done: set<nat>, k: nat): seq<Event>
    requires k <= |c.order|
  {
    if k == 0 then []
    else
      var g := c.order[k - 1];
      CircuitOn(c, l, done, k - 1) + if Uses(c, g, l) && g in done then [EventOfGate(c, g)] else []
  }

  /** The gates among the first k on logical qubit l, in circuit order. */
  function GatesOn(c: Circuit, l: nat, k: nat): seq<Event>
    requires k <= |c.order|
  {
    if k == 0 then []
    else GatesOn(c, l, k - 1) + if Uses(c, c.order[k - 1], l) then [EventOfGate(c, c.order[k - 1])] else []
  }

  /** The numbers below n as a set. */
  function UpTo(n: nat): (s: set<nat>)
    ensures |s| == n && forall g: nat :: g in s <==> g < n
  {
    if n == 0 then {} else UpTo(n - 1) + {n - 1}
  }

  lemma {:induction false} AllGatesOn(c: Circuit, l: nat, k: nat)
    requires k <= |c.order|
    ensures CircuitOn(c, l, UpTo(|c.gates|), k) == GatesOn(c, l, k)
  {
    if k > 0 {
      AllGatesOn(c, l, k - 1);
    }
  }

  /** A gate whose predecessors are routed comes after everything routed on its qubits. */
  lemma {:induction false} OneMoreOn(c: Circuit, l: nat, done: set<nat>, g: nat, k: nat)
    requires Closed(c, done) && Ready(c, g, done) && k <= |c.order|
    ensures CircuitOn(c, l, done + {g}, k) ==
            CircuitOn(c, l, done, k) + if Place(c, g) < k && Uses(c, g, l) then [EventOfGate(c, g)] else []
  {
    hide Closed, PredsIn;
    if k > 0 {
      OneMoreOn(c, l, done, g, k - 1);
      PlaceOf(c, k - 1);
      var h := c.order[k - 1];
      if Place(c, g) < k - 1 && Uses(c, g, l) && Uses(c, h, l) {
        ClosedIsPrefix(c, done, g, h, l);
      } else if Place(c, g) == k - 1 {
        SamePlace(c, g, h);
      }
    }
  }

  lemma PlaceOf(c: Circuit, k: nat)
    requires k < |c.order|
    ensures c.order[k] < |c.gates| && Place(c, c.order[k]) == k
  {
  }

  /** Every logical qubit has seen its routed gates in circuit order. */
  ghost predicate InOrder(c: Circuit, es: seq<Event>, done: set<nat>) {
    forall l: nat :: EventsOn(es, l) == CircuitOn(c, l, done, |c.order|)
  }

  lemma InOrderMore(c: Circuit, es: seq<Event>, done: set<nat>, g: nat)
    requires Closed(c, done) && Ready(c, g, done) && InOrder(c, es, done)
    ensures InOrder(c, es + [EventOfGate(c, g)], done + {g})
  {
    hide CircuitOn, Closed, Ready;
    ReadyNoMore(c, done, g);
    forall l: nat
      ensures EventsOn(es + [EventOfGate(c, g)], l) == CircuitOn(c, l, done + {g}, |c.order|)
    {
      OneMoreOn(c, l, done, g, |c.order|);
      EventsOnAppend(es, [EventOfGate(c, g)], l);
      EventAlone(EventOfGate(c, g), l);
      assert CircuitOn(c, l, done, |c.order|) + [] == CircuitOn(c, l, done, |c.order|);
    }
  }

  lemma EventAlone(e: Event, l: nat)
    ensures EventsOn([e], l) == if l in e.qubits then [e] else []
  {
    assert [e][1..] == [];
  }

  lemma NothingInOrder(c: Circuit)
    ensures InOrder(c, [], {})
  {
    forall l: nat
      ensures CircuitOn(c, l, {}, |c.order|) == []
    {
      NoneOnQubit(c, l, |c.order|);
    }
  }

  lemma {:induction false} NoneOnQubit(c: Circuit, l: nat, k: nat)
    requires k <= |c.order|
    ensures CircuitOn(c, l, {}, k) == []
  {
    if k > 0 {
      NoneOnQubit(c, l, k - 1);
    }
  }

  // ---------------------------------------------------------------- dependency-respecting orders

  /** Routed in this order, every logical qubit meets exactly its gates, in circuit order. */
  ghost predicate Respects(c: Circuit, ids: seq<nat>) {
    Below(ids, |c.gates|) && forall l: nat :: EventsOn(EventsOf(c, ids), l) == GatesOn(c, l, |c.order|)
  }

  /** The gates routed so far, each once and when it was ready, and what the tracker knows of them. */
  ghost predicate Ordered(c: Circuit, t: Progress, ids: seq<nat>) {
    && Below(ids, |c.gates|) && |Members(ids)| == |ids|
    && Reflects(c, t, Members(ids)) && InOrder(c, EventsOf(c, ids), Members(ids)) && ListedByPins(c, t.available, ids)
  }

  lemma OrderedStart(c: Circuit)
    ensures Ordered(c, Start(c), [])
  {
    hide Reflects, InOrder, ListedByPins;
    StartReflects(c);
    ListedAtStart(c);
    NothingInOrder(c);
    assert Members([]) == {};
  }

  /** Routing an available gate keeps the order. */
  lemma OrderedMore(c: Circuit, t: Progress, ids: seq<nat>, g: nat, n: nat)
    requires CircuitOk(c, n) && Ordered(c, t, ids) && g in t.available
    ensures g < |c.gates| && Ordered(c, Update(c, t, g), ids + [g])
  {
    hide InOrder, Closed, PredsIn, Tracked, Update, EventOfGate, CircuitOk, ListedByPins;
    var done := Members(ids);
    assert Ready(c, g, done);
    ListedMore(c, t, ids, g);
    UpdateReflects(c, t, done, g, n);
    InOrderMore(c, EventsOf(c, ids), done, g);
    assert Members(ids + [g]) == done + {g};
    assert (ids + [g])[..|ids|] == ids;
  }

  lemma GateIsOk(c: Circuit, g: nat, n: nat)
    requires CircuitOk(c, n) && g < |c.gates|
    ensures GateOk(c.gates[g], n)
  {
  }

  lemma AvailableExists(c: Circuit, t: Progress, ids: seq<nat>, g: nat)
    requires Ordered(c, t, ids) && g in t.available
    ensures g < |c.gates|
  {
    assert Ready(c, g, Members(ids));
  }

  // ---------------------------------------------------------------- the order of the list

  ghost predicate Upward(at: seq<nat>, n: nat) {
    (forall i, k :: 0 <= i < k < |at| ==> at[i] < at[k]) && forall i :: 0 <= i < |at| ==> at[i] < n
  }

  /** The entries other than g, in their order. */
  ghost predicate Keeps(before: seq<nat>, after: seq<nat>, g: nat, at: seq<nat>) {
    && Upward(at, |before|) && |after| == |at| && (forall i :: 0 <= i < |at| ==> after[i] == before[at[i]] != g)
    && forall k: nat :: k < |before| && before[k] != g ==> k in at
  }

  /** Successors of g, in the order of its pins. */
  ghost predicate ByPins(c: Circuit, g: nat, more: seq<nat>, pins: nat, at: seq<nat>)
    requires g < |c.gates| && pins <= |c.gates[g].qubits|
  {
    Upward(at, pins) && |more| == |at| && forall i :: 0 <= i < |at| ==> at[i] < |c.gates[g].qubits| && Succ(c, g, at[i]) == Some(more[i])
  }

  lemma {:induction false} RemovedKeeps(before: seq<nat>, g: nat) returns (at: seq<nat>)
    ensures Keeps(before, Removed(before, g), g, at)
    decreases |before|
  {
    hide Keeps;
    at := [];
    if before == [] {
      NothingKept(g);
    } else {
      var m := |before| - 1;
      at := RemovedKeeps(before[..m], g);
      assert before == before[..m] + [before[m]];
      OneMoreKept(before[..m], Removed(before[..m], g), g, at, before[m]);
      assert Removed(before[..m], g) + [] == Removed(before[..m], g);
      if before[m] != g {
        at := at + [m];
      }
    }
  }

  lemma NothingKept(g: nat)
    ensures Keeps([], Removed([], g), g, [])
  {
  }

  lemma OneMoreKept(before: seq<nat>, after: seq<nat>, g: nat, at: seq<nat>, x: nat)
    requires Keeps(before, after, g, at)
    ensures if x == g then Keeps(before + [x], after, g, at) else Keeps(before + [x], after + [x], g, at + [|before|])
  {
    var more := before + [x];
    forall k: nat | k < |more| && more[k] != g
      ensures if x == g then k in at else k in at + [|before|]
    {
      assert k < |before| ==> before[k] == more[k];
    }
  }

  lemma {:induction false} AddedByPins(c: Circuit, executed: map<nat, nat>, g: nat, kept: seq<nat>, pins: nat) returns (more: seq<nat>, at: seq<nat>)
    requires g < |c.gates| && pins <= |c.gates[g].qubits|
    ensures Added(c, executed, g, kept, pins) == kept + more && ByPins(c, g, more, pins, at)
    decreases pins
  {
    hide LooksAvailable, Succ;
    more, at := [], [];
    if pins > 0 {
      more, at := AddedByPins(c, executed, g, kept, pins - 1);
      var next := Succ(c, g, pins - 1);
      if next.Some? && LooksAvailable(c, executed, next.value) {
        more, at := more + [next.value], at + [pins - 1];
      }
    }
  }

  /** Routing a gate takes it off the list, leaves the others where they are and lists the gates that become available behind
      them, in the order of the pins that lead to them. */
  lemma UpdateLists(c: Circuit, t: Progress, g: nat) returns (kept: seq<nat>, more: seq<nat>)
    requires g < |c.gates|
    ensures Update(c, t, g).available == kept + more
    ensures (exists at :: Keeps(t.available, kept, g, at)) && exists at :: ByPins(c, g, more, |c.gates[g].qubits|, at)
  {
    hide Keeps, ByPins, Counted, Trimmed;
    kept := Removed(t.available, g);
    var at := RemovedKeeps(t.available, g);
    var at';
    more, at' := AddedByPins(c, t.executed[g := 0], g, kept, |c.gates[g].qubits|);
  }

  // ---------------------------------------------------------------- how often an available gate is listed

  function Times(s: seq<nat>, x: nat): nat {
    if s == [] then 0 else Times(s[..|s| - 1], x) + if s[|s| - 1] == x then 1 else 0
  }

  /** The number of pins that lead to h from the predecessor of h that has been routed last; one if h has none. */
  function PinsFromLast(c: Circuit, ids: seq<nat>, h: nat): nat {
    if ids == [] then 1
    else
      var g := ids[|ids| - 1];
      if g < |c.gates| && SuccHits(c, g, h, |c.gates[g].qubits|) > 0 then SuccHits(c, g, h, |c.gates[g].qubits|)
      else PinsFromLast(c, ids[..|ids| - 1], h)
  }

  /** An available gate is listed once for each of these pins. */
  ghost predicate ListedByPins(c: Circuit, available: seq<nat>, ids: seq<nat>) {
    forall h: nat :: h in available ==> Times(available, h) == PinsFromLast(c, ids, h)
  }

  lemma {:induction false} TimesNone(s: seq<nat>, x: nat)
    ensures Times(s, x) == 0 <==> x !in s
  {
    if s != [] {
      TimesNone(s[..|s| - 1], x);
      assert s == s[..|s| - 1] + [s[|s| - 1]];
    }
  }

  lemma TimesMore(s: seq<nat>, y: nat, x: nat)
    ensures Times(s + [y], x) == Times(s, x) + if y == x then 1 else 0
  {
    assert (s + [y])[..|s|] == s;
  }

  lemma {:induction false} TimesRemoved(available: seq<nat>, g: nat, h: nat)
    requires h != g
    ensures Times(Removed(available, g), h) == Times(available, h)
  {
    if available != [] {
      var m := |available| - 1;
      TimesRemoved(available[..m], g, h);
      TimesMore(Removed(available[..m], g), available[m], h);
      assert Removed(available[..m], g) + [] == Removed(available[..m], g);
    }
  }

  lemma {:induction false} TimesAdded(c: Circuit, executed: map<nat, nat>, g: nat, available: seq<nat>, pins: nat, h: nat)
    requires g < |c.gates| && h < |c.gates| && pins <= |c.gates[g].qubits|
    ensures Times(Added(c, executed, g, available, pins), h)
            == Times(available, h) + if LooksAvailable(c, executed, h) then SuccHits(c, g, h, pins) else 0
  {
    hide LooksAvailable, Succ, Place, Times;
    if pins > 0 {
      TimesAdded(c, executed, g, available, pins - 1, h);
      var before, next := Added(c, executed, g, available, pins - 1), Succ(c, g, pins - 1);
      assert before + [] == before;
      if next.Some? {
        TimesMore(before, next.value, h);
      }
    }
  }

  lemma {:induction false} TimesAtStart(c: Circuit, k: nat, h: nat)
    requires k <= |c.gates|
    ensures Times(AvailableUpTo(c, k), h) <= 1 && (h >= k ==> Times(AvailableUpTo(c, k), h) == 0)
  {
    hide LooksAvailable;
    if k > 0 {
      TimesAtStart(c, k - 1, h);
      TimesMore(AvailableUpTo(c, k - 1), k - 1, h);
      assert AvailableUpTo(c, k - 1) + [] == AvailableUpTo(c, k - 1);
    }
  }

  lemma ListedAtStart(c: Circuit)
    ensures ListedByPins(c, Start(c).available, [])
  {
    hide AvailableUpTo, Times;
    forall h: nat | h in Start(c).available
      ensures Times(Start(c).available, h) == 1
    {
      TimesNone(Start(c).available, h);
      TimesAtStart(c, |c.gates|, h);
    }
  }

  /** A successor of a gate that has not been routed is not ready. */
  lemma {:induction false} SuccessorNotReady(c: Circuit, done: set<nat>, g: nat, h: nat, pins: nat)
    requires g < |c.gates| && g !in done && pins <= |c.gates[g].qubits| && SuccHits(c, g, h, pins) > 0
    ensures !Ready(c, h, done)
  {
    hide Succ, Pred, Place;
    if Succ(c, g, pins - 1) == Some(h) {
      SuccUses(c, g, h, pins - 1);
      var i :| 0 <= i < |c.gates[h].qubits| && c.gates[h].qubits[i] == c.gates[g].qubits[pins - 1];
      PinMatches(c, g, h, i, pins - 1);
    } else {
      SuccessorNotReady(c, done, g, h, pins - 1);
    }
  }

  /** Routing an available gate: a gate that becomes available is listed once for each pin that leads to it. */
  lemma ListedMore(c: Circuit, t: Progress, ids: seq<nat>, g: nat)
    requires Reflects(c, t, Members(ids)) && ListedByPins(c, t.available, ids) && Ready(c, g, Members(ids))
    ensures ListedByPins(c, Update(c, t, g).available, ids + [g])
  {
    hide Added, Removed, SuccHits, Times, LooksAvailable, Trimmed, Counted, ToTrim, Tracked, Closed, PredsIn;
    var executed, pins, kept := t.executed[g := 0], |c.gates[g].qubits|, Removed(t.available, g);
    var after := Added(c, executed, g, kept, pins);
    assert (ids + [g])[..|ids|] == ids;
    forall h: nat | h in after
      ensures Times(after, h) == PinsFromLast(c, ids + [g], h)
    {
      AddedExists(c, executed, g, kept, pins, h, t, Members(ids));
      TimesAdded(c, executed, g, kept, pins, h);
      TimesNone(after, h);
      TimesNone(kept, h);
      TimesNone(t.available, h);
      if h != g {
        TimesRemoved(t.available, g, h);
      }
      if SuccHits(c, g, h, pins) > 0 {
        SuccessorNotReady(c, Members(ids), g, h, pins);
      }
    }
  }

  lemma {:induction false} AddedExists(c: Circuit, executed: map<nat, nat>, g: nat, kept: seq<nat>, pins: nat, h: nat, t: Progress, done: set<nat>)
    requires g < |c.gates| && pins <= |c.gates[g].qubits| && h in Added(c, executed, g, kept, pins)
    requires Reflects(c, t, done) && kept == Removed(t.available, g)
    ensures h < |c.gates|
  {
    hide LooksAvailable, Succ, Place, Removed, Tracked, Closed;
    if pins == 0 {
      assert h in t.available;
    } else if h in Added(c, executed, g, kept, pins - 1) {
      AddedExists(c, executed, g, kept, pins - 1, h, t, done);
    } else {
      assert Succ(c, g, pins - 1) == Some(h);
      SuccUses(c, g, h, pins - 1);
    }
  }

  function SamePair(): Circuit {
    Listing([LogicalGate(false, [0, 1]), LogicalGate(false, [0, 1])], [0, 1])
  }

  /** Two gates on the same two qubits: once the first is routed the second is listed twice. */
  lemma ListedTwice()
    ensures CircuitOk(SamePair(), 2) && Start(SamePair()).available == [0] && Update(SamePair(), Start(SamePair()), 0).available == [1, 1]
  {
    hide Added, AvailableUpTo, Counted, ToTrim, Trimmed;
    TwiceStart();
    TwiceAdded();
    assert [0][..0] == [];
    assert Removed([0], 0) == [];
  }

  lemma TwiceStart()
    ensures AvailableUpTo(SamePair(), 2) == [0]
  {
    hide Pred, Succ, Place;
    var c := SamePair();
    TwiceLinks();
    assert !LooksAvailable(c, map[], 1);
    assert AvailableUpTo(c, 1) == AvailableUpTo(c, 0) + [0];
  }

  lemma TwiceAdded()
    ensures Added(SamePair(), map[0 := 0], 0, [], 2) == [1, 1]
  {
    hide Pred, Succ, Place;
    var c, executed := SamePair(), map[0 := 0];
    TwiceLinks();
    assert Added(c, executed, 0, [], 1) == Added(c, executed, 0, [], 0) + [1];
    assert Added(c, executed, 0, [], 2) == Added(c, executed, 0, [], 1) + [1];
  }

  lemma TwiceLinks()
    ensures var c := SamePair();
            && Pred(c, 0, 0) == None && Pred(c, 0, 1) == None && Pred(c, 1, 0) == Some(0) && Pred(c, 1, 1) == Some(0)
            && Succ(c, 0, 0) == Some(1) && Succ(c, 0, 1) == Some(1)
  {
    assert Place(SamePair(), 0) == 0 && Place(SamePair(), 1) == 1;
  }

  /** Fewer than n of the numbers below n miss one, n of them are all. */
  lemma SomeMissing(done: set<nat>, n: nat)
    requires forall g :: g in done ==> g < n
    ensures |done| <= n
    ensures |done| < n ==> exists g: nat :: g < n && g !in done
    ensures |done| == n ==> done == UpTo(n)
  {
    assert done <= UpTo(n);
    SubsetSize(done, UpTo(n));
    if done != UpTo(n) {
      var g :| g in UpTo(n) && g !in done;
    }
  }

  lemma {:induction false} SubsetSize(a: set<nat>, b: set<nat>)
    requires a <= b
    ensures |a| <= |b| && (|a| == |b| ==> a == b)
  {
    if a != {} {
      var x :| x in a;
      SubsetSize(a - {x}, b - {x});
      assert a == (a - {x}) + {x} && b == (b - {x}) + {x};
    }
  }

  /** While gates are left, one is available. */
  lemma SomethingAvailable(c: Circuit, t: Progress, ids: seq<nat>)
    requires Ordered(c, t, ids)
    ensures |ids| <= |c.gates|
    ensures t.available == [] <==> |ids| == |c.gates|
  {
    hide InOrder, Closed, PredsIn, Tracked;
    var done := Members(ids);
    SomeMissing(done, |c.gates|);
    if |ids| < |c.gates| {
      var g: nat :| g < |c.gates| && g !in done;
      SomethingReady(c, done, g);
      var h: nat :| Ready(c, h, done);
      assert h in t.available;
    } else {
      SomeMember(t.available);
    }
  }

  /** A run that has routed as many gates as there are has routed each once, in an order that respects
      the dependencies. */
  lemma CompleteRun(c: Circuit, t: Progress, ids: seq<nat>)
    requires Ordered(c, t, ids) && |ids| == |c.gates|
    ensures Members(ids) == UpTo(|c.gates|) && Respects(c, ids)
  {
    hide Reflects, CircuitOn, GatesOn, EventsOf, UpTo;
    SomeMissing(Members(ids), |c.gates|);
    forall l: nat
      ensures EventsOn(EventsOf(c, ids), l) == GatesOn(c, l, |c.order|)
    {
      AllGatesOn(c, l, |c.order|);
    }
  }

  // ---------------------------------------------------------------- the order of the ids

  /** The ids grow along every qubit. */
  ghost predicate IdsAscend(c: Circuit) {
    forall g: nat, pin: nat :: g < |c.gates| && pin < |c.gates[g].qubits| && Pred(c, g, pin).Some? ==> Pred(c, g, pin).value < g
  }

  lemma {:induction false} AscendingRun(c: Circuit, k: nat)
    requires IdsAscend(c) && k <= |c.gates|
    ensures InOrder(c, EventsOf(c, Iota(k)), UpTo(k)) && Closed(c, UpTo(k))
  {
    hide InOrder, Pred;
    if k == 0 {
      NothingInOrder(c);
    } else {
      AscendingRun(c, k - 1);
      assert Iota(k)[..k - 1] == Iota(k - 1);
      assert Ready(c, k - 1, UpTo(k - 1));
      InOrderMore(c, EventsOf(c, Iota(k - 1)), UpTo(k - 1), k - 1);
      ClosedMore(c, UpTo(k - 1), k - 1);
    }
  }

  ghost predicate Ascending(es: seq<Event>, k: nat) {
    && (forall i :: 0 <= i < |es| ==> es[i].gate < k)
    && (forall i, j :: 0 <= i < j < |es| ==> es[i].gate < es[j].gate)
  }

  lemma AscendingMore(es: seq<Event>, e: Event, k: nat)
    requires Ascending(es, k) && e.gate == k
    ensures Ascending(es, k + 1) && Ascending(es + [], k + 1) && Ascending(es + [e], k + 1)
  {
    assert es + [] == es;
  }

  lemma {:induction false} EventsAscend(c: Circuit, k: nat, l: nat)
    requires k <= |c.gates|
    ensures Ascending(EventsOn(EventsOf(c, Iota(k)), l), k)
  {
    if k == 0 {
      assert Iota(0) == [];
    } else {
      hide Ascending;
      EventsAscend(c, k - 1, l);
      assert Iota(k)[..k - 1] == Iota(k - 1);
      var before, e := EventsOf(c, Iota(k - 1)), EventOfGate(c, k - 1);
      EventsOnAppend(before, [e], l);
      EventAlone(e, l);
      AscendingMore(EventsOn(before, l), e, k - 1);
    }
  }

  lemma {:induction false} GateAmong(c: Circuit, l: nat, g: nat, k: nat) returns (i: nat)
    requires k <= |c.order| && Uses(c, g, l) && Place(c, g) < k
    ensures i < |GatesOn(c, l, k)| && GatesOn(c, l, k)[i] == EventOfGate(c, g)
  {
    if Place(c, g) == k - 1 {
      i := |GatesOn(c, l, k - 1)|;
    } else {
      i := GateAmong(c, l, g, k - 1);
    }
  }

  lemma {:induction false} GatesInPlace(c: Circuit, l: nat, g: nat, h: nat, k: nat) returns (i: nat, j: nat)
    requires k <= |c.order| && Uses(c, g, l) && Uses(c, h, l) && Place(c, g) < Place(c, h) < k
    ensures i < j < |GatesOn(c, l, k)| && GatesOn(c, l, k)[i] == EventOfGate(c, g) && GatesOn(c, l, k)[j] == EventOfGate(c, h)
  {
    if Place(c, h) == k - 1 {
      i := GateAmong(c, l, g, k - 1);
      j := |GatesOn(c, l, k - 1)|;
    } else {
      i, j := GatesInPlace(c, l, g, h, k - 1);
    }
  }

  /** Routing the gates by id respects the dependencies exactly when the ids grow along every qubit. */
  lemma IdOrderRespects(c: Circuit)
    ensures Respects(c, Iota(|c.gates|)) <==> IdsAscend(c)
  {
    hide CircuitOn, GatesOn, EventsOf, EventsOn, UpTo, Place;
    var n := |c.gates|;
    if IdsAscend(c) {
      AscendingRun(c, n);
      forall l: nat
        ensures EventsOn(EventsOf(c, Iota(n)), l) == GatesOn(c, l, |c.order|)
      {
        AllGatesOn(c, l, |c.order|);
      }
    } else {
      var g: nat, pin: nat :| g < n && pin < |c.gates[g].qubits| && Pred(c, g, pin).Some? && Pred(c, g, pin).value >= g;
      var p, l := Pred(c, g, pin).value, c.gates[g].qubits[pin];
      var i, j := GatesInPlace(c, l, p, g, |c.order|);
      EventsAscend(c, n, l);
      assert GatesOn(c, l, |c.order|)[i].gate == p > g == GatesOn(c, l, |c.order|)[j].gate;
      assert EventsOn(EventsOf(c, Iota(n)), l) != GatesOn(c, l, |c.order|);
    }
  }

  /** Appending a gate and prepending another one on the same qubit. */
  function PrependedGate(): Circuit {
    Listing([LogicalGate(false, [0]), LogicalGate(false, [0])], [1, 0])
  }

  /** The gate put in front has the larger id, so routing by id takes the two in the wrong order. */
  lemma PrependedGateIsLate()
    ensures CircuitOk(PrependedGate(), 1) && Pred(PrependedGate(), 0, 0) == Some(1)
    ensures !Respects(PrependedGate(), Iota(2)) && Respects(PrependedGate(), [1, 0])
  {
    var c := PrependedGate();
    PrependedLinks();
    hide GatesOn, EventsOf, EventsOn, Place;
    IdOrderRespects(c);
    assert Below([1, 0], |c.gates|);
    forall l: nat
      ensures EventsOn(EventsOf(c, [1, 0]), l) == GatesOn(c, l, 2)
    {
      PrependedEvents(c, l);
    }
  }

  lemma PrependedLinks()
    ensures CircuitOk(PrependedGate(), 1) && Pred(PrependedGate(), 0, 0) == Some(1)
  {
    assert Place(PrependedGate(), 1) == 0 && Place(PrependedGate(), 0) == 1;
  }

  lemma PrependedEvents(c: Circuit, l: nat)
    requires c == PrependedGate()
    ensures EventsOn(EventsOf(c, [1, 0]), l) == GatesOn(c, l, 2)
  {
    hide EventsOn, Place;
    var a, b := EventOfGate(c, 1), EventOfGate(c, 0);
    assert [1, 0][..1] == [1] && [1][..0] == [];
    assert EventsOf(c, [1]) == [a] && EventsOf(c, [1, 0]) == [a] + [b];
    EventsOnAppend([a], [b], l);
    EventAlone(a, l);
    EventAlone(b, l);
    assert GatesOn(c, l, 1) == if l == 0 then [a] else [];
  }
}
