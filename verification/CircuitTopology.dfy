/** The gates that may be routed next: those whose predecessors have all been routed. */
module CircuitTopologies {
  import opened Collections
  import opened Routing

  // ---------------------------------------------------------------- the circuit as a dependency graph

  /** The gates by id, and their ids in circuit order. */
  datatype Listing = Listing(gates: seq<LogicalGate>, order: seq<nat>)

  type Circuit = c: Listing | Enumerates(c.order, |c.gates|) witness Listing([], [])

  ghost predicate CircuitOk(c: Circuit, n: nat) {
    forall g :: 0 <= g < |c.gates| ==> GateOk(c.gates[g], n)
  }

  predicate Uses(c: Circuit, g: nat, q: nat) {
    g < |c.gates| && q in c.gates[g].qubits
  }

  /** Where a gate is in circuit order. */
  function Place(c: Circuit, g: nat): (k: nat)
    requires g < |c.gates|
    ensures k < |c.order| && c.order[k] == g
  {
    IndexOf(c.order, g)
  }

  /** The last gate on qubit q among the first k. */
  function LastBelow(c: Circuit, k: nat, q: nat): (r: Option<nat>)
    requires k <= |c.order|
    ensures r.Some? ==> Uses(c, r.value, q) && Place(c, r.value) < k
                        && forall h: nat :: Uses(c, h, q) && Place(c, h) < k ==> Place(c, h) <= Place(c, r.value)
    ensures r.None? ==> forall h: nat :: Uses(c, h, q) ==> Place(c, h) >= k
  {
    if k == 0 then None else if Uses(c, c.order[k - 1], q) then Some(c.order[k - 1]) else LastBelow(c, k - 1, q)
  }

  /** The first gate on qubit q after the first k. */
  function FirstFrom(c: Circuit, k: nat, q: nat): (r: Option<nat>)
    requires k <= |c.order|
    ensures r.Some? ==> Uses(c, r.value, q) && Place(c, r.value) >= k
                        && forall h: nat :: Uses(c, h, q) && Place(c, h) >= k ==> Place(c, h) >= Place(c, r.value)
    ensures r.None? ==> forall h: nat :: Uses(c, h, q) ==> Place(c, h) < k
    decreases |c.order| - k
  {
    if k == |c.order| then None else if Uses(c, c.order[k], q) then Some(c.order[k]) else FirstFrom(c, k + 1, q)
  }

  /** The neighbours of a gate on qubit q. */
  function Previous(c: Circuit, g: nat, q: nat): Option<nat>
    requires g < |c.gates|
  {
    LastBelow(c, Place(c, g), q)
  }

  function Next(c: Circuit, g: nat, q: nat): Option<nat>
    requires g < |c.gates|
  {
    FirstFrom(c, Place(c, g) + 1, q)
  }

  /** Predecessor and successor of a gate, pin by pin. */
  function Pred(c: Circuit, g: nat, pin: nat): (p: Option<nat>)
    requires g < |c.gates| && pin < |c.gates[g].qubits|
    ensures p.Some? ==> Uses(c, p.value, c.gates[g].qubits[pin]) && Place(c, p.value) < Place(c, g)
  {
    Previous(c, g, c.gates[g].qubits[pin])
  }

  function Succ(c: Circuit, g: nat, pin: nat): (s: Option<nat>)
    requires g < |c.gates| && pin < |c.gates[g].qubits|
    ensures s.Some? ==> Uses(c, s.value, c.gates[g].qubits[pin]) && Place(c, s.value) > Place(c, g)
  {
    Next(c, g, c.gates[g].qubits[pin])
  }

  /** Two gates in the same place are one. */
  lemma SamePlace(c: Circuit, g: nat, h: nat)
    requires g < |c.gates| && h < |c.gates| && Place(c, g) == Place(c, h)
    ensures g == h
  {
    assert c.order[Place(c, g)] == c.order[Place(c, h)];
  }

  /** On each qubit the successor of the predecessor is the gate itself. */
  lemma {:induction false} PreviousNext(c: Circuit, g: nat, h: nat, q: nat)
    requires Uses(c, g, q) && Uses(c, h, q)
    ensures Previous(c, h, q) == Some(g) <==> Next(c, g, q) == Some(h)
  {
    hide LastBelow, FirstFrom, Place;
    var p, s := Previous(c, h, q), Next(c, g, q);
    if p == Some(g) && s.Some? && Place(c, s.value) == Place(c, h) {
      SamePlace(c, s.value, h);
    }
    if s == Some(h) && p.Some? && Place(c, p.value) == Place(c, g) {
      SamePlace(c, p.value, g);
    }
  }

  ghost predicate PredsIn(c: Circuit, g: nat, done: set<nat>)
    requires g < |c.gates|
  {
    forall pin: nat :: pin < |c.gates[g].qubits| && Pred(c, g, pin).Some? ==> Pred(c, g, pin).value in done
  }

  ghost predicate SuccsIn(c: Circuit, g: nat, done: set<nat>)
    requires g < |c.gates|
  {
    forall pin: nat :: pin < |c.gates[g].qubits| && Succ(c, g, pin).Some? ==> Succ(c, g, pin).value in done
  }

  /** The routed gates contain all their predecessors. */
  ghost predicate Closed(c: Circuit, done: set<nat>) {
    forall g :: g in done ==> g < |c.gates| && PredsIn(c, g, done)
  }

  ghost predicate Ready(c: Circuit, g: nat, done: set<nat>) {
    g < |c.gates| && g !in done && PredsIn(c, g, done)
  }

  /** How many pins of g lead to a routed gate. */
  function DonePins(c: Circuit, g: nat, done: set<nat>, pins: nat): nat
    requires g < |c.gates| && pins <= |c.gates[g].qubits|
  {
    if pins == 0 then 0
    else DonePins(c, g, done, pins - 1) + if Succ(c, g, pins - 1).Some? && Succ(c, g, pins - 1).value in done then 1 else 0
  }

  function SuccPins(c: Circuit, g: nat, pins: nat): nat
    requires g < |c.gates| && pins <= |c.gates[g].qubits|
  {
    if pins == 0 then 0 else SuccPins(c, g, pins - 1) + if Succ(c, g, pins - 1).Some? then 1 else 0
  }

  /** All pins with a successor are counted exactly when all successors are routed. */
  lemma {:induction false} AllPinsDone(c: Circuit, g: nat, done: set<nat>, pins: nat)
    requires g < |c.gates| && pins <= |c.gates[g].qubits|
    ensures DonePins(c, g, done, pins) <= SuccPins(c, g, pins)
    ensures DonePins(c, g, done, pins) == SuccPins(c, g, pins) <==>
            forall pin: nat :: pin < pins && Succ(c, g, pin).Some? ==> Succ(c, g, pin).value in done
  {
    if pins > 0 {
      AllPinsDone(c, g, done, pins - 1);
    }
  }

  // ---------------------------------------------------------------- progress

  /** While gates are left, the first of them is ready. */
  lemma {:induction false} SomethingReady(c: Circuit, done: set<nat>, g: nat)
    requires g < |c.gates| && g !in done
    ensures exists h :: Ready(c, h, done)
    decreases Place(c, g)
  {
    if !PredsIn(c, g, done) {
      var pin: nat :| pin < |c.gates[g].qubits| && Pred(c, g, pin).Some? && Pred(c, g, pin).value !in done;
      SomethingReady(c, done, Pred(c, g, pin).value);
    } else {
      assert Ready(c, g, done);
    }
  }

  /** On each qubit the routed gates come before the others. */
  lemma {:induction false} ClosedIsPrefix(c: Circuit, done: set<nat>, g: nat, h: nat, q: nat)
    requires Closed(c, done) && Uses(c, g, q) && Uses(c, h, q) && Place(c, g) < Place(c, h) && g !in done
    ensures h !in done
    decreases Place(c, h)
  {
    hide LastBelow, Place;
    var p := Previous(c, h, q);
    assert p.Some? && Place(c, p.value) >= Place(c, g);
    if Place(c, p.value) > Place(c, g) {
      ClosedIsPrefix(c, done, g, p.value, q);
    } else {
      SamePlace(c, p.value, g);
    }
    var pin :| 0 <= pin < |c.gates[h].qubits| && c.gates[h].qubits[pin] == q;
    assert Pred(c, h, pin) == p;
    assert h in done ==> PredsIn(c, h, done);
  }

  // ---------------------------------------------------------------- what is remembered

  /** The available gates, and the routed gates with the number of their pins that lead to routed gates. */
  datatype Progress = Progress(available: seq<nat>, executed: map<nat, nat>)

  /** A gate looks available when its predecessors are remembered. */
  predicate LooksAvailable(c: Circuit, executed: map<nat, nat>, g: nat)
    requires g < |c.gates|
  {
    forall pin: nat :: pin < |c.gates[g].qubits| && Pred(c, g, pin).Some? ==> Pred(c, g, pin).value in executed
  }

  function AvailableUpTo(c: Circuit, k: nat): seq<nat>
    requires k <= |c.gates|
  {
    if k == 0 then [] else AvailableUpTo(c, k - 1) + if LooksAvailable(c, map[], k - 1) then [k - 1] else []
  }

  lemma {:induction false} AvailableMembers(c: Circuit, k: nat)
    requires k <= |c.gates|
    ensures forall g: nat :: g in AvailableUpTo(c, k) <==> g < k && LooksAvailable(c, map[], g)
  {
    hide LooksAvailable;
    if k > 0 {
      AvailableMembers(c, k - 1);
    }
  }

  function Start(c: Circuit): Progress {
    Progress(AvailableUpTo(c, |c.gates|), map[])
  }

  function Removed(available: seq<nat>, g: nat): (r: seq<nat>)
    ensures forall h: nat :: h in r <==> h in available && h != g
  {
    if available == [] then []
    else
      assert available == available[..|available| - 1] + [available[|available| - 1]];
      Removed(available[..|available| - 1], g) + if available[|available| - 1] == g then [] else [available[|available| - 1]]
  }

  /** The successors of g that look available are appended, pin by pin. */
  function Added(c: Circuit, executed: map<nat, nat>, g: nat, available: seq<nat>, pins: nat): seq<nat>
    requires g < |c.gates| && pins <= |c.gates[g].qubits|
  {
    if pins == 0 then available
    else
      var next := Succ(c, g, pins - 1);
      Added(c, executed, g, available, pins - 1) + if next.Some? && LooksAvailable(c, executed, next.value) then [next.value] else []
  }

  function CountOf(executed: map<nat, nat>, p: nat): nat {
    if p in executed then executed[p] else 0
  }

  /** Each pin of g counts for the predecessor it leads to. */
  function Counted(c: Circuit, executed: map<nat, nat>, g: nat, pins: nat): map<nat, nat>
    requires g < |c.gates| && pins <= |c.gates[g].qubits|
  {
    if pins == 0 then executed
    else
      var counts, prev := Counted(c, executed, g, pins - 1), Pred(c, g, pins - 1);
      if prev.Some? then counts[prev.value := CountOf(counts, prev.value) + 1] else counts
  }

  /** The predecessors whose counts have reached the number of their successors. */
  function ToTrim(c: Circuit, executed: map<nat, nat>, g: nat, pins: nat): seq<nat>
    requires g < |c.gates| && pins <= |c.gates[g].qubits|
  {
    if pins == 0 then []
    else
      var prev := Pred(c, g, pins - 1);
      ToTrim(c, executed, g, pins - 1)
      + if prev.Some? && CountOf(Counted(c, executed, g, pins), prev.value) >= SuccPins(c, prev.value, |c.gates[prev.value].qubits|)
        then [prev.value] else []
  }

  function Trimmed(executed: map<nat, nat>, toTrim: seq<nat>): map<nat, nat> {
    if toTrim == [] then executed else Trimmed(executed, toTrim[..|toTrim| - 1]) - {toTrim[|toTrim| - 1]}
  }

  /** Progress after routing g. */
  function Update(c: Circuit, t: Progress, g: nat): Progress
    requires g < |c.gates|
  {
    var executed, pins := t.executed[g := 0], |c.gates[g].qubits|;
    Progress(Added(c, executed, g, Removed(t.available, g), pins),
             Trimmed(Counted(c, executed, g, pins), ToTrim(c, executed, g, pins)))
  }

  /** Remembered gates are routed, with their counts; forgotten ones have all successors routed. */
  ghost predicate Tracked(c: Circuit, executed: map<nat, nat>, done: set<nat>) {
    && (forall p :: p in executed ==> p in done && p < |c.gates| && executed[p] == DonePins(c, p, done, |c.gates[p].qubits|))
    && (forall p :: p in done && p !in executed ==> p < |c.gates| && SuccsIn(c, p, done))
  }

  /** The available gates, as a set, are the ready ones. A routed gate is remembered, with the number
      of its pins that lead to routed gates, until all of them do. */
  ghost predicate Reflects(c: Circuit, t: Progress, done: set<nat>) {
    && Closed(c, done) && Tracked(c, t.executed, done)
    && forall g: nat :: g in t.available <==> Ready(c, g, done)
  }

  /** Of the predecessors of gates not routed, exactly the routed ones are remembered. */
  ghost predicate Remembers(c: Circuit, executed: map<nat, nat>, done: set<nat>) {
    forall h: nat, p: nat :: IsPred(c, p, h) && h !in done ==> (p in executed <==> p in done)
  }

  /** While the pins of g are visited, each count is what it was and the links to g seen so far. */
  ghost predicate Counting(c: Circuit, executed: map<nat, nat>, g: nat, before: set<nat>, pins: nat) {
    && g < |c.gates| && pins <= |c.gates[g].qubits| && g in executed
    && (forall p :: p in executed ==> p in before + {g} && p < |c.gates|
                                      && executed[p] == DonePins(c, p, before, |c.gates[p].qubits|) + Hits(c, g, p, pins))
    && (forall p :: p in before && p !in executed ==> p < |c.gates| && SuccsIn(c, p, before))
  }

  /** The counts of these gates have reached the number of their successors. */
  ghost predicate Full(c: Circuit, executed: map<nat, nat>, ps: seq<nat>) {
    forall i :: 0 <= i < |ps| ==> ps[i] in executed && ps[i] < |c.gates| && executed[ps[i]] >= SuccPins(c, ps[i], |c.gates[ps[i]].qubits|)
  }

  lemma StartReflects(c: Circuit)
    ensures Reflects(c, Start(c), {})
  {
    hide Place;
    AvailableMembers(c, |c.gates|);
  }

  /** Routing a ready gate: the available gates are again exactly the ready ones, although routed gates
      are forgotten. */
  lemma UpdateReflects(c: Circuit, t: Progress, done: set<nat>, g: nat, n: nat)
    requires CircuitOk(c, n) && Reflects(c, t, done) && Ready(c, g, done)
    ensures Reflects(c, Update(c, t, g), done + {g})
  {
    hide Closed, PredsIn, SuccsIn, DonePins, SuccPins, CircuitOk, Hits, Tracked, Added, Counted, ToTrim, Trimmed, Place;
    ReadyNoMore(c, done, g);
    NewEntry(c, t.executed, done, g);
    var executed, pins := t.executed[g := 0], |c.gates[g].qubits|;
    AddedAreReady(c, executed, g, Removed(t.available, g), done);
    CountedKeeps(c, executed, g, done, pins);
    CountsAreDone(c, g, done, n);
    CountedIsTracked(c, Counted(c, executed, g, pins), g, done);
    TrimKeeps(c, Counted(c, executed, g, pins), ToTrim(c, executed, g, pins), done + {g});
    ClosedMore(c, done, g);
  }

  lemma {:induction false} CountedKeeps(c: Circuit, executed: map<nat, nat>, g: nat, before: set<nat>, pins: nat)
    requires Ready(c, g, before) && pins <= |c.gates[g].qubits| && Counting(c, executed, g, before, 0)
    ensures Counting(c, Counted(c, executed, g, pins), g, before, pins)
    ensures Full(c, Counted(c, executed, g, pins), ToTrim(c, executed, g, pins))
    decreases pins
  {
    hide Counting, Full, Pred, SuccPins, Place;
    if pins == 0 {
      NothingFull(c, executed);
    } else {
      var counts := Counted(c, executed, g, pins - 1);
      CountedKeeps(c, executed, g, before, pins - 1);
      CountOneMore(c, counts, g, before, pins - 1, ToTrim(c, executed, g, pins - 1));
      assert ToTrim(c, executed, g, pins - 1) + [] == ToTrim(c, executed, g, pins - 1);
    }
  }

  lemma NothingFull(c: Circuit, executed: map<nat, nat>)
    ensures Full(c, executed, [])
  {
  }

  /** One more pin of g: its predecessor is remembered and counts one more. */
  lemma CountOneMore(c: Circuit, counts: map<nat, nat>, g: nat, before: set<nat>, pin: nat, ps: seq<nat>)
    requires Ready(c, g, before) && pin < |c.gates[g].qubits| && Counting(c, counts, g, before, pin) && Full(c, counts, ps)
    ensures var prev := Pred(c, g, pin);
            if prev.None? then Counting(c, counts, g, before, pin + 1)
            else
              var more := counts[prev.value := CountOf(counts, prev.value) + 1];
              && Counting(c, more, g, before, pin + 1) && Full(c, more, ps)
              && (CountOf(more, prev.value) >= SuccPins(c, prev.value, |c.gates[prev.value].qubits|) ==> Full(c, more, ps + [prev.value]))
  {
    hide DonePins, SuccPins, Hits, Pred, Succ, SuccsIn, PredsIn, Place;
    HitsStep(c, g, pin);
    ReadyNoMore(c, before, g);
    var prev := Pred(c, g, pin);
    if prev.Some? {
      StillRemembered(c, before, g, pin);
    }
  }

  /** Forgets gates all of whose successors are routed. */
  lemma {:induction false} TrimKeeps(c: Circuit, executed: map<nat, nat>, toTrim: seq<nat>, done: set<nat>)
    requires Tracked(c, executed, done) && Full(c, executed, toTrim)
    ensures Tracked(c, Trimmed(executed, toTrim), done)
    ensures forall p :: p in Trimmed(executed, toTrim) ==> p in executed
    decreases |toTrim|
  {
    hide DonePins, SuccPins, SuccsIn;
    if toTrim != [] {
      var m := |toTrim| - 1;
      assert Full(c, executed, toTrim[..m]);
      TrimKeeps(c, executed, toTrim[..m], done);
      FullIsDone(c, toTrim[m], done);
    }
  }

  lemma {:induction false} AddedPins(c: Circuit, executed: map<nat, nat>, g: nat, available: seq<nat>, before: set<nat>, pins: nat)
    requires g < |c.gates| && g !in before && Closed(c, before) && Remembers(c, executed, before + {g}) && pins <= |c.gates[g].qubits|
    requires forall h: nat :: h in available <==> Ready(c, h, before) && h != g
    ensures forall h: nat :: h in Added(c, executed, g, available, pins) <==>
              (Ready(c, h, before) && h != g)
              || (Ready(c, h, before + {g}) && exists i: nat :: i < pins && Succ(c, g, i) == Some(h))
    decreases pins
  {
    hide Closed, Ready, Remembers, Succ, Place, LooksAvailable;
    if pins > 0 {
      AddedPins(c, executed, g, available, before, pins - 1);
      var next := Succ(c, g, pins - 1);
      if next.Some? {
        SuccNotDone(c, before, g, pins - 1);
        AvailableIsReady(c, executed, before + {g}, next.value);
      }
    }
  }

  lemma {:induction false} AddedAreReady(c: Circuit, executed: map<nat, nat>, g: nat, available: seq<nat>, before: set<nat>)
    requires g < |c.gates| && g !in before && Closed(c, before) && Remembers(c, executed, before + {g})
    requires forall h: nat :: h in available <==> Ready(c, h, before) && h != g
    ensures forall h: nat :: h in Added(c, executed, g, available, |c.gates[g].qubits|) <==> Ready(c, h, before + {g})
  {
    hide Closed, Remembers, Added, Succ;
    AddedPins(c, executed, g, available, before, |c.gates[g].qubits|);
    forall h: nat | Ready(c, h, before + {g})
      ensures (Ready(c, h, before) && h != g) || exists i: nat :: i < |c.gates[g].qubits| && Succ(c, g, i) == Some(h)
    {
      NewlyReady(c, before, g, h);
    }
  }

  // ---------------------------------------------------------------- the class

  class CircuitTopology {
    const circuit: Circuit
    var available: seq<nat>
    var executed: map<nat, nat>

    function State(): Progress
      reads this
    {
      Progress(available, executed)
    }

    method IsAvailable(g: nat) returns (ok: bool)
      requires g < |circuit.gates|
      ensures ok <==> LooksAvailable(circuit, executed, g)
    {
      var pin := 0;
      while pin < |circuit.gates[g].qubits|
        invariant pin <= |circuit.gates[g].qubits|
        invariant forall i: nat :: i < pin && Pred(circuit, g, i).Some? ==> Pred(circuit, g, i).value in executed
      {
        var prev := Pred(circuit, g, pin);
        if prev.Some? && prev.value !in executed {
          return false;
        }
        pin := pin + 1;
      }
      return true;
    }

    constructor (circuit: Circuit)
      ensures this.circuit == circuit && State() == Start(circuit)
    {
      hide LooksAvailable, Pred, Place;
      this.circuit := circuit;
      available, executed := [], map[];
      new;
      var i := 0;
      while i < |circuit.gates|
        invariant i <= |circuit.gates| && this.circuit == circuit && executed == map[] && available == AvailableUpTo(circuit, i)
      {
        var ok := IsAvailable(i);
        if ok {
          available := available + [i];
        }
        i := i + 1;
      }
    }

    /** Records a gate as routed: its successors may become available, its predecessors may be forgotten. */
    method UpdateAvailableGates(g: nat)
      requires g < |circuit.gates|
      modifies this
      ensures State() == Update(circuit, old(State()), g)
    {
      RemoveAvailable(g);
      executed := executed[g := 0];
      AddSuccessors(g);
      CountForPredecessors(g);
    }

    method RemoveAvailable(g: nat)
      modifies `available
      ensures available == Removed(old(available), g)
    {
      var rest: seq<nat> := [];
      var i := 0;
      while i < |available|
        invariant i <= |available| && available == old(available) && rest == Removed(available[..i], g)
      {
        assert available[..i + 1][..i] == available[..i];
        if available[i] != g {
          rest := rest + [available[i]];
        }
        i := i + 1;
      }
      assert available[..i] == available;
      available := rest;
    }

    method AddSuccessors(g: nat)
      requires g < |circuit.gates|
      modifies `available
      ensures available == Added(circuit, executed, g, old(available), |circuit.gates[g].qubits|)
    {
      hide Pred, Succ, Place, LooksAvailable;
      var pin := 0;
      while pin < |circuit.gates[g].qubits|
        invariant pin <= |circuit.gates[g].qubits| && available == Added(circuit, executed, g, old(available), pin)
      {
        var next := Succ(circuit, g, pin);
        if next.Some? {
          var ok := IsAvailable(next.value);
          if ok {
            available := available + [next.value];
          }
        }
        pin := pin + 1;
      }
    }

    method CountForPredecessors(g: nat)
      requires g < |circuit.gates|
      modifies `executed
      ensures executed == Trimmed(Counted(circuit, old(executed), g, |circuit.gates[g].qubits|),
                                  ToTrim(circuit, old(executed), g, |circuit.gates[g].qubits|))
    {
      hide Pred, Succ, SuccPins, Place, Trimmed;
      var toTrim: seq<nat> := [];
      var pin := 0;
      while pin < |circuit.gates[g].qubits|
        invariant pin <= |circuit.gates[g].qubits|
        invariant executed == Counted(circuit, old(executed), g, pin) && toTrim == ToTrim(circuit, old(executed), g, pin)
      {
        var prev := Pred(circuit, g, pin);
        if prev.Some? {
          executed := executed[prev.value := CountOf(executed, prev.value) + 1];
          if executed[prev.value] >= SuccPins(circuit, prev.value, |circuit.gates[prev.value].qubits|) {
            toTrim := toTrim + [prev.value];
          }
        }
        pin := pin + 1;
      }
      Trim(toTrim);
    }

    method Trim(toTrim: seq<nat>)
      modifies `executed
      ensures executed == Trimmed(old(executed), toTrim)
    {
      var i := 0;
      while i < |toTrim|
        invariant i <= |toTrim| && executed == Trimmed(old(executed), toTrim[..i])
      {
        assert toTrim[..i + 1][..i] == toTrim[..i];
        executed := executed - {toTrim[i]};
        i := i + 1;
      }
      assert toTrim[..i] == toTrim;
    }
  }

  // ---------------------------------------------------------------- counting routed successors

  /** How many pins of g have p as predecessor. */
  function Hits(c: Circuit, g: nat, p: nat, pins: nat): nat
    requires g < |c.gates| && pins <= |c.gates[g].qubits|
  {
    if pins == 0 then 0 else Hits(c, g, p, pins - 1) + if Pred(c, g, pins - 1) == Some(p) then 1 else 0
  }

  /** How many pins of p have g as successor. */
  function SuccHits(c: Circuit, p: nat, g: nat, pins: nat): nat
    requires p < |c.gates| && pins <= |c.gates[p].qubits|
  {
    if pins == 0 then 0 else SuccHits(c, p, g, pins - 1) + if Succ(c, p, pins - 1) == Some(g) then 1 else 0
  }

  lemma {:induction false} DonePinsMore(c: Circuit, p: nat, before: set<nat>, g: nat, pins: nat)
    requires p < |c.gates| && pins <= |c.gates[p].qubits| && g !in before
    ensures DonePins(c, p, before + {g}, pins) == DonePins(c, p, before, pins) + SuccHits(c, p, g, pins)
  {
    if pins > 0 {
      DonePinsMore(c, p, before, g, pins - 1);
    }
  }

  lemma PinMatches(c: Circuit, p: nat, g: nat, i: nat, j: nat)
    requires p < |c.gates| && g < |c.gates| && i < |c.gates[g].qubits| && j < |c.gates[p].qubits| && c.gates[g].qubits[i] == c.gates[p].qubits[j]
    ensures Pred(c, g, i) == Some(p) <==> Succ(c, p, j) == Some(g)
  {
    PreviousNext(c, p, g, c.gates[g].qubits[i]);
  }

  lemma PredUses(c: Circuit, p: nat, g: nat, i: nat)
    requires g < |c.gates| && i < |c.gates[g].qubits| && Pred(c, g, i) == Some(p)
    ensures p < |c.gates| && c.gates[g].qubits[i] in c.gates[p].qubits
  {
  }

  lemma SuccUses(c: Circuit, p: nat, g: nat, j: nat)
    requires p < |c.gates| && j < |c.gates[p].qubits| && Succ(c, p, j) == Some(g)
    ensures g < |c.gates| && c.gates[p].qubits[j] in c.gates[g].qubits
  {
  }

  /** Counted from either side, two gates share the same number of links. */
  lemma {:induction false} HitsMatch(c: Circuit, p: nat, g: nat, n: nat)
    requires CircuitOk(c, n) && p < |c.gates| && g < |c.gates|
    ensures SuccHits(c, p, g, |c.gates[p].qubits|) == Hits(c, g, p, |c.gates[g].qubits|)
  {
    GatePins(c, p, n);
    GatePins(c, g, n);
    hide *;
    HitsOfPins(c, g, p);
    SuccHitsOfPins(c, p, g);
    var a, b := c.gates[g].qubits, c.gates[p].qubits;
    var (two, two') := (|a| == 2, |b| == 2);
    PinLinked(c, p, g, 0);
    if two {
      PinLinked(c, p, g, 1);
    }
    PinLinkedBack(c, p, g, 0);
    if two' {
      PinLinkedBack(c, p, g, 1);
    }
    CountPairs(Pred(c, g, 0) == Some(p), two && Pred(c, g, 1) == Some(p), Succ(c, p, 0) == Some(g), two' && Succ(c, p, 1) == Some(g),
               a[0] == b[0], two' && a[0] == b[1], two && a[1] == b[0], two && two' && a[1] == b[1]);
  }

  /** A matching: each link has a partner on the other side, and no two share one. */
  lemma CountPairs(a0: bool, a1: bool, b0: bool, b1: bool, e00: bool, e01: bool, e10: bool, e11: bool)
    requires (a0 ==> (e00 && b0) || (e01 && b1)) && (a1 ==> (e10 && b0) || (e11 && b1))
    requires (b0 ==> (e00 && a0) || (e10 && a1)) && (b1 ==> (e01 && a0) || (e11 && a1))
    requires !(e00 && e01) && !(e10 && e11) && !(e00 && e10) && !(e01 && e11)
    ensures (if b0 then 1 else 0) + (if b1 then 1 else 0) == (if a0 then 1 else 0) + (if a1 then 1 else 0)
  {
  }

  lemma PinLinked(c: Circuit, p: nat, g: nat, i: nat)
    requires p < |c.gates| && g < |c.gates| && i < |c.gates[g].qubits| && 1 <= |c.gates[p].qubits| <= 2
    ensures Pred(c, g, i) == Some(p) ==>
              || (c.gates[g].qubits[i] == c.gates[p].qubits[0] && Succ(c, p, 0) == Some(g))
              || (|c.gates[p].qubits| == 2 && c.gates[g].qubits[i] == c.gates[p].qubits[1] && Succ(c, p, 1) == Some(g))
  {
    if Pred(c, g, i) == Some(p) {
      PredUses(c, p, g, i);
      var j :| 0 <= j < |c.gates[p].qubits| && c.gates[p].qubits[j] == c.gates[g].qubits[i];
      PinMatches(c, p, g, i, j);
    }
  }

  lemma PinLinkedBack(c: Circuit, p: nat, g: nat, j: nat)
    requires p < |c.gates| && g < |c.gates| && j < |c.gates[p].qubits| && 1 <= |c.gates[g].qubits| <= 2
    ensures Succ(c, p, j) == Some(g) ==>
              || (c.gates[g].qubits[0] == c.gates[p].qubits[j] && Pred(c, g, 0) == Some(p))
              || (|c.gates[g].qubits| == 2 && c.gates[g].qubits[1] == c.gates[p].qubits[j] && Pred(c, g, 1) == Some(p))
  {
    if Succ(c, p, j) == Some(g) {
      SuccUses(c, p, g, j);
      var i :| 0 <= i < |c.gates[g].qubits| && c.gates[g].qubits[i] == c.gates[p].qubits[j];
      PinMatches(c, p, g, i, j);
    }
  }

  lemma GatePins(c: Circuit, g: nat, n: nat)
    requires CircuitOk(c, n) && g < |c.gates|
    ensures 1 <= |c.gates[g].qubits| <= 2 && (|c.gates[g].qubits| == 2 ==> c.gates[g].qubits[0] != c.gates[g].qubits[1])
  {
    assert GateOk(c.gates[g], n);
  }

  lemma HitsOfPins(c: Circuit, g: nat, p: nat)
    requires g < |c.gates| && 1 <= |c.gates[g].qubits| <= 2
    ensures Hits(c, g, p, |c.gates[g].qubits|)
            == (if Pred(c, g, 0) == Some(p) then 1 else 0) + if |c.gates[g].qubits| == 2 && Pred(c, g, 1) == Some(p) then 1 else 0
  {
    assert Hits(c, g, p, 1) == Hits(c, g, p, 0) + if Pred(c, g, 0) == Some(p) then 1 else 0;
  }

  lemma SuccHitsOfPins(c: Circuit, p: nat, g: nat)
    requires p < |c.gates| && 1 <= |c.gates[p].qubits| <= 2
    ensures SuccHits(c, p, g, |c.gates[p].qubits|)
            == (if Succ(c, p, 0) == Some(g) then 1 else 0) + if |c.gates[p].qubits| == 2 && Succ(c, p, 1) == Some(g) then 1 else 0
  {
    assert SuccHits(c, p, g, 1) == SuccHits(c, p, g, 0) + if Succ(c, p, 0) == Some(g) then 1 else 0;
  }

  /** A gate not yet routed has no routed successor. */
  lemma {:induction false} NoneDone(c: Circuit, g: nat, before: set<nat>, pins: nat)
    requires Closed(c, before) && g < |c.gates| && g !in before && pins <= |c.gates[g].qubits|
    ensures DonePins(c, g, before, pins) == 0
  {
    if pins > 0 {
      NoneDone(c, g, before, pins - 1);
      var h := Succ(c, g, pins - 1);
      if h.Some? {
        SuccUses(c, g, h.value, pins - 1);
        ClosedIsPrefix(c, before, g, h.value, c.gates[g].qubits[pins - 1]);
      }
    }
  }

  lemma HitsStep(c: Circuit, g: nat, pin: nat)
    requires g < |c.gates| && pin < |c.gates[g].qubits|
    ensures forall p: nat :: Hits(c, g, p, pin + 1) == Hits(c, g, p, pin) + if Pred(c, g, pin) == Some(p) then 1 else 0
  {
  }

  /** A predecessor of a gate that is not routed has a successor left. */
  lemma StillRemembered(c: Circuit, before: set<nat>, g: nat, pin: nat)
    requires g < |c.gates| && g !in before && PredsIn(c, g, before) && pin < |c.gates[g].qubits| && Pred(c, g, pin).Some?
    ensures var p := Pred(c, g, pin).value; p in before && p < |c.gates| && !SuccsIn(c, p, before)
  {
    var p := Pred(c, g, pin).value;
    PredUses(c, p, g, pin);
    var j :| 0 <= j < |c.gates[p].qubits| && c.gates[p].qubits[j] == c.gates[g].qubits[pin];
    PinMatches(c, p, g, pin, j);
  }

  lemma CountsAreDone(c: Circuit, g: nat, before: set<nat>, n: nat)
    requires CircuitOk(c, n) && Closed(c, before) && g < |c.gates| && g !in before
    ensures forall p: nat :: p < |c.gates| ==>
              DonePins(c, p, before + {g}, |c.gates[p].qubits|)
              == DonePins(c, p, before, |c.gates[p].qubits|) + Hits(c, g, p, |c.gates[g].qubits|)
  {
    hide DonePins, Hits, SuccHits, CircuitOk, Closed;
    forall p: nat | p < |c.gates|
      ensures DonePins(c, p, before + {g}, |c.gates[p].qubits|) == DonePins(c, p, before, |c.gates[p].qubits|) + Hits(c, g, p, |c.gates[g].qubits|)
    {
      DonePinsMore(c, p, before, g, |c.gates[p].qubits|);
      HitsMatch(c, p, g, n);
    }
  }

  lemma FullIsDone(c: Circuit, p: nat, done: set<nat>)
    requires p < |c.gates|
    ensures DonePins(c, p, done, |c.gates[p].qubits|) >= SuccPins(c, p, |c.gates[p].qubits|) ==> SuccsIn(c, p, done)
  {
    AllPinsDone(c, p, done, |c.gates[p].qubits|);
  }

  lemma ClosedMore(c: Circuit, before: set<nat>, g: nat)
    requires Closed(c, before) && Ready(c, g, before)
    ensures Closed(c, before + {g})
  {
    forall h | h in before + {g}
      ensures h < |c.gates| && PredsIn(c, h, before + {g})
    {
      assert h in before ==> PredsIn(c, h, before);
    }
  }

  ghost predicate IsPred(c: Circuit, p: nat, h: nat) {
    h < |c.gates| && exists pin: nat :: pin < |c.gates[h].qubits| && Pred(c, h, pin) == Some(p)
  }

  lemma SuccNotDone(c: Circuit, before: set<nat>, g: nat, pin: nat)
    requires Closed(c, before) && g < |c.gates| && g !in before && pin < |c.gates[g].qubits| && Succ(c, g, pin).Some?
    ensures Succ(c, g, pin).value < |c.gates| && Succ(c, g, pin).value !in before + {g}
  {
    SuccUses(c, g, Succ(c, g, pin).value, pin);
    ClosedIsPrefix(c, before, g, Succ(c, g, pin).value, c.gates[g].qubits[pin]);
  }

  lemma AvailableIsReady(c: Circuit, executed: map<nat, nat>, done: set<nat>, h: nat)
    requires h < |c.gates| && h !in done && Remembers(c, executed, done)
    ensures Ready(c, h, done) <==> LooksAvailable(c, executed, h)
  {
    assert forall i: nat :: i < |c.gates[h].qubits| && Pred(c, h, i).Some? ==> IsPred(c, Pred(c, h, i).value, h);
  }

  /** A gate that becomes ready is a successor of the gate just routed. */
  lemma NewlyReady(c: Circuit, before: set<nat>, g: nat, h: nat)
    requires g < |c.gates| && g !in before && Ready(c, h, before + {g})
    ensures (Ready(c, h, before) && h != g) || exists i: nat :: i < |c.gates[g].qubits| && Succ(c, g, i) == Some(h)
  {
    if !PredsIn(c, h, before) {
      var pin: nat :| pin < |c.gates[h].qubits| && Pred(c, h, pin).Some? && Pred(c, h, pin).value !in before;
      assert Pred(c, h, pin) == Some(g);
      var q := c.gates[h].qubits[pin];
      PreviousNext(c, g, h, q);
      var i :| 0 <= i < |c.gates[g].qubits| && c.gates[g].qubits[i] == q;
      assert Succ(c, g, i) == Some(h);
    }
  }

  lemma ReadyNoMore(c: Circuit, before: set<nat>, g: nat)
    requires Ready(c, g, before)
    ensures g < |c.gates| && g !in before && PredsIn(c, g, before)
  {
  }

  /** The entry for the gate just routed. */
  lemma NewEntry(c: Circuit, executed: map<nat, nat>, before: set<nat>, g: nat)
    requires Closed(c, before) && Ready(c, g, before) && Tracked(c, executed, before)
    ensures Remembers(c, executed[g := 0], before + {g}) && Counting(c, executed[g := 0], g, before, 0)
  {
    hide DonePins, Closed;
    NoneDone(c, g, before, |c.gates[g].qubits|);
    forall h: nat, p: nat | IsPred(c, p, h) && h !in before + {g}
      ensures p in executed[g := 0] <==> p in before + {g}
    {
      if p in before && p !in executed {
        PredLeads(c, p, h, before);
      }
    }
  }

  lemma PredLeads(c: Circuit, p: nat, h: nat, before: set<nat>)
    requires IsPred(c, p, h) && h !in before && p < |c.gates|
    ensures !SuccsIn(c, p, before)
  {
    var pin: nat :| pin < |c.gates[h].qubits| && Pred(c, h, pin) == Some(p);
    PredUses(c, p, h, pin);
    var j :| 0 <= j < |c.gates[p].qubits| && c.gates[p].qubits[j] == c.gates[h].qubits[pin];
    PinMatches(c, p, h, pin, j);
  }

  lemma CountedIsTracked(c: Circuit, executed: map<nat, nat>, g: nat, before: set<nat>)
    requires g < |c.gates| && Counting(c, executed, g, before, |c.gates[g].qubits|)
    requires forall p: nat :: p < |c.gates| ==>
               DonePins(c, p, before + {g}, |c.gates[p].qubits|)
               == DonePins(c, p, before, |c.gates[p].qubits|) + Hits(c, g, p, |c.gates[g].qubits|)
    ensures Tracked(c, executed, before + {g})
  {
    hide DonePins, Hits;
    forall p | p in before && p !in executed
      ensures p < |c.gates| && SuccsIn(c, p, before + {g})
    {
      assert SuccsIn(c, p, before);
    }
  }
}
