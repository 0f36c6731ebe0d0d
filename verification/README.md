# Verification of the tableau compiler, the mapper and the circuit graph

This project models three connected parts of the compiler in Dafny and proves that they do what they are for.

**The tableau compiler.** A Pauli product is a row of bits with a sign, a Clifford operator is a tableau of such
rows, and a circuit is compiled into a list that alternates tableaux and lists of Pauli rotations and back into gates.
The meaning of a program (`Meaning`) is the expectation of every Pauli observable after it, for every initial state,
so two programs that mean the same (`Same`) differ by a global phase at most. Every pass is proved to keep that meaning.

- `Paulis`, `Operators`, `Tableaux`, `Prepending`: signed products, the twelve Clifford operators, tableaux, prepending.
- `StabilizerTableaux`, `BitProducts`: the objects that are updated in place, proved against those functions.
- `AaronsonGottesman`, `HOptimal`, `Recording`: operators from a tableau, and with the fewest H.
- `Meaning`, `MeaningLaws`, `Rotations`, `OperatorIdentities`: meaning, and the rewriting laws of rotations.
- `Merging`, `Absorbing`, `Properizing`, `MixedTableaux`, `TableauPasses`, `LostGates`: the passes over a whole tableau.
- `Diagonalization`, `GraySynth`, `GrayInvariant`, `GrayState`, `PhaseFunctions`, `Replaying`: gates from rotations,
  and what they do to basis states.
- `ControlledPhases`, `QcirToTableau`, `TableauToQcir`: the two converters and the way through both.

**The mapper.** A logical circuit is put on a device whose qubits are coupled in part, with swaps inserted.

- `Topologies`, `Devices`: all-pairs shortest paths, and the device with its times and its placement.
- `Routing`, `DuostraSearch`, `DuostraRouting`, `DuostraPaths`, `Routers`: one gate along a shortest path, or by two
  search trees, each as a method on the device and as the function it computes, and where the operands go.
- `CircuitTopologies`, `CircuitOrders`: which gates are ready, and which orders respect the dependencies.
- `Schedules`, `Sorts`, `Replicas`, `Schedulers`, `SearchSchedulers`, `Mapping`: timed operations and their order, what a
  run of gates makes of router and topology, the schedulers, the one that looks ahead, and whole runs.
- `MappingSteps`, `MappingCheckers`: readings of a mapped circuit, and the checker that finds one, forwards or backwards.

**The circuit graph.** Gates are kept in one doubly linked chain per qubit.

- `GateGraphs`, `Qcirs`: the chains, the topological order, depth, the adjoint in place.
- `CircuitGraphs`: the graph as the dependencies that the mapper reads.

`Collections` holds what several of them share. A phase is a real number in units of pi, brought into (-1, 1] as the
phase class does. Cosine and sine enter only through a parameter that satisfies the addition, mirror and
quarter-turn laws; `Same` quantifies over every such pair.

## Model

| member | source | states |
|---|---|---|
| `Paulis.ConjMul` | src/tableau/pauli_rotation.cpp:202-231 | conjugation by H, S or CX takes a signed product of Pauli products to the product of their images, also when the factors anticommute and a factor i is dropped |
| `BitProducts.BitProduct.SumPowers` | src/tableau/pauli_rotation.cpp:68-77 | the sum of the powers of i, kept in eight bits, is odd exactly when the factors anticommute, and its second bit is the sign of the product |
| `BitProducts.BitProduct.MultiplyBy` | src/tableau/pauli_rotation.cpp:133-145 | the bits afterwards hold the signed product of the two values before, also when an object is multiplied by itself |
| `BitProducts.BitProduct.ApplyCX` | src/tableau/pauli_rotation.cpp:220-231 | flipping bits in place gives the conjugation of the value by CX, sign included, and leaves the value alone when a qubit is out of range |
| `BitProducts.BitProduct.IsCommutative` | src/tableau/pauli_rotation.cpp:233-240 | answers true exactly when the two products commute |
| `BitProducts.BitRotation.ApplyGate` | src/tableau/pauli_rotation.cpp:256-272 | a gate on a rotation conjugates its product and moves a minus sign into the phase, so that the stored product stays positive |
| `Operators.AdjointUndoes` | src/tableau/pauli_rotation.hpp:57-96 | for each of the twelve operators the adjoint takes the image of every Pauli product back to it |
| `Operators.AdjointAllUndoes` | src/tableau/pauli_rotation.hpp:57-96 | a string of operators followed by its adjoint string is the identity on every Pauli product |
| `OperatorIdentities.OperatorActs` | src/tableau/pauli_rotation.hpp:112-160 | on every Pauli product each of the twelve operators acts by its bits and its sign, stated one by one: a swap exchanges the bits of its two qubits and keeps the sign |
| `OperatorIdentities.EcrTurns` | src/tableau/pauli_rotation.hpp:112-160 | the echoed cross-resonance operator means a quarter turn about Z on its first qubit times X on its second, and a half turn about X on the first |
| `OperatorIdentities.CzFromParities` | src/tableau/pauli_rotation.hpp:112-160 | S on both qubits and a CX, S-dagger, CX sandwich act on every Pauli product as CZ |
| `OperatorIdentities.RootOfY` | src/tableau/pauli_rotation.hpp:112-160 | the string for a root of Y about X and the one about Z act alike on every Pauli product |
| `Tableaux.TableauDetermines` | src/tableau/tableau_optimization.cpp:98-156 | the tableau of an operator string gives the image of every Pauli product, so that collapse may replace a string by its tableau |
| `Tableaux.EqualTableauxActEqually` | src/tableau/tableau_optimization.cpp:98-156 | two operator strings with equal tableaux act equally on every Pauli product |
| `Prepending.PrependMirrorsAppend` | src/tableau/stabilizer_tableau.cpp:62-115 | for every string and operator, the row updates of prepending turn the tableau of the string into the tableau of the operator followed by the string |
| `Prepending.PrependAllMirrors` | src/tableau/stabilizer_tableau.cpp:117-154 | prepending a string operator by operator puts it in front in reverse order |
| `StabilizerTableaux.StabilizerTableau.ApplyString` | src/tableau/stabilizer_tableau.cpp:44-60 | the tableau's rows in place become their images under the string |
| `StabilizerTableaux.StabilizerTableau.PrependString` | src/tableau/stabilizer_tableau.cpp:117-154 | the rows in place become those of the prepended string, the swaps and products of rows in the source's order |
| `AaronsonGottesman.FinishedOneMore` | src/tableau/stabilizer_tableau.cpp:163-297 | after one more qubit the finished rows are signed X and Z of their qubits and all other rows are the identity there |
| `AaronsonGottesman.SignedIsIdentity` | src/tableau/stabilizer_tableau.cpp:163-297 | when every qubit is finished and every sign is fixed, the rows are the identity tableau |
| `AaronsonGottesman.Synthesize` | src/tableau/stabilizer_tableau.cpp:163-297 | for every tableau with the commutation relations, the operators applied to the identity give exactly that tableau, signs included; when the stabilizers are diagonal no H is among them, and for what CX gates make of the identity there are only CX |
| `HOptimal.RankAfterString` | src/tableau/stabilizer_tableau.cpp:311-376 | a string without v, vdg and ecr raises the rank of the stabilizers' X block by at most the number of its H |
| `HOptimal.RankFalls` | src/tableau/stabilizer_tableau.cpp:311-376 | when a row of a matrix is a unit vector and its column becomes, in the other rows, a combination of columns that leaves it out, and zero in that row, the rank falls by one |
| `HOptimal.HCountBoundsRank` | src/tableau/stabilizer_tableau.cpp:311-376 | the tableau of a string without v, vdg and ecr has an X block of rank at most the number of its H |
| `HOptimal.Diagonalize` | src/tableau/stabilizer_tableau.cpp:311-376 | all stabilizers become diagonal with no more H than the rank of their X block at the start, row by row: CX gates from the first qubit with an x bit to each other one as a star, or from each to the one behind it as a staircase, an S exactly if a z bit is left there, and an H |
| `HOptimal.Synthesize` | src/tableau/stabilizer_tableau.cpp:311-376 | in either mode the operators rebuild the tableau, their H are as many as the GF(2) rank of the stabilizers' X block, and no string without v, vdg and ecr for the same tableau has fewer; they end with the adjoint of a row-by-row diagonalization in the shape of the mode |
| `MeaningLaws.SwapRotations` | src/tableau/tableau_optimization.cpp:226-240 | adjacent rotations about commuting Pauli products may change places |
| `MeaningLaws.MergeRotations` | src/tableau/tableau_optimization.cpp:226-240 | two rotations about one Pauli product mean the rotation by the normalised sum of their phases |
| `MeaningLaws.CliffordRotation` | src/tableau/tableau_optimization.cpp:248-277 | a Z rotation by 1/2, 1 or -1/2 means S, Z or S-dagger |
| `MeaningLaws.PassOperator` | src/tableau/tableau.cpp:15-58 | a rotation before an operator means the operator before the conjugated rotation |
| `Rotations.PassStringAll` | src/tableau/tableau_optimization.cpp:98-156 | a rotation list before an operator string means the string before the list conjugated by it |
| `Rotations.StringIsTable` | src/tableau/tableau_optimization.cpp:98-156 | an operator string means its tableau |
| `Rotations.StringCancels` | src/convert/tableau_to_qcir.cpp:93-117 | a string next to its adjoint, in either order, means the empty program |
| `Merging.MergeStep` | src/tableau/tableau_optimization.cpp:226-240 | adding a later phase to an earlier one of equal product keeps the meaning of the list, when the product commutes with all rotations between |
| `Merging.RotationList.Merge` | src/tableau/tableau_optimization.cpp:226-240 | the list in place keeps its meaning and has no idle rotation; it is never longer, and if as long it is unchanged and no two rotations can be merged |
| `Absorbing.AbsorbStep` | src/tableau/tableau_optimization.cpp:54-89 | moving the Clifford part of a rotation through all earlier ones into the tableau in front, by conjugating these, keeps the meaning of tableau and list |
| `Absorbing.AbsorbCliffordRotations` | src/tableau/tableau_optimization.cpp:248-277 | tableau and list in place keep their meaning, no rotation left has a Clifford phase, and a list as long as before means that nothing has changed |
| `Properizing.SplitPhase` | src/tableau/tableau_optimization.cpp:285-326 | every phase is the normalised sum of a Clifford phase or zero and a rest in [0, 1/2) |
| `Properizing.Properize` | src/tableau/tableau_optimization.cpp:285-326 | the pass ends, keeps the meaning, and leaves each surviving phase in (0, 1/2) on a product that is not the identity, although absorbing one may turn the earlier ones around |
| `MixedTableaux.Tableau.AppendGate` | src/tableau/tableau.cpp:15-58 | conjugating the trailing rotations and rewriting the last Clifford makes a tableau that has one mean itself followed by the gate |
| `MixedTableaux.ExtractFromTableau` | src/tableau/tableau_optimization.cpp:98-156 | the operators extracted from a tableau rebuild it, and tableau and string mean the same |
| `MixedTableaux.AdjointTableau` | src/tableau/stabilizer_tableau.cpp:156-158 | a tableau and its adjoint mean the empty program in either order |
| `TableauPasses.AdjointInPlace` | src/tableau/tableau.cpp:60-88 | the tableau in place becomes one whose program is inverse to the old one on either side |
| `TableauPasses.InverseTwice` | src/tableau/tableau.cpp:60-88 | the inverse of an inverse means the original, hence so does the adjoint taken twice |
| `TableauPasses.Collapse` | src/tableau/tableau_optimization.cpp:98-156 | every list of segments becomes one Clifford and at most one rotation list behind it, with the same meaning |
| `TableauPasses.MergeAndAbsorb` | src/tableau/tableau_optimization.cpp:384-399 | the loop of merging and absorbing ends, keeps the meaning, and leaves no mergeable pair, no Clifford phase and no idle rotation |
| `TableauPasses.MergeRotations` | src/tableau/tableau_optimization.cpp:384-399 | the same for a whole tableau, which is collapsed first |
| `TableauPasses.RemoveIdentities` | src/tableau/tableau_optimization.cpp:163-219 | the meaning is kept, and no idle rotation, empty list or identity Clifford is left; what does something stays in its order, but each Clifford takes over the one right behind it; the identity tableau becomes the empty list |
| `TableauPasses.ProperizeTableau` | src/tableau/tableau_optimization.cpp:328-374 | the meaning is kept, every rotation's phase lies in (0, 1/2), and no idle segment is left |
| `LostGates.GateIsSomething` | src/tableau/tableau.cpp:15-58 | no H, S or CX on any qubits means the empty program |
| `LostGates.LostWithoutClifford` | src/tableau/tableau.cpp:15-58 | whenever no segment is a Clifford, every appended H, S or CX is lost: the result does not mean the tableau followed by the gate |
| `LostGates.KeptExactlyWithClifford` | src/tableau/tableau.cpp:15-58 | for every tableau and gate, appending means the tableau followed by the gate if and only if some segment is a Clifford |
| `LostGates.AppendToTidiedIdentity` | src/tableau/tableau_optimization.cpp:163-219 | the identity tableau, tidied, is the empty list and stays empty when any gate is appended |
| `LostGates.TidiedIdentityLoses` | src/tableau/tableau.cpp:15-58 | at that input the appended gate is lost |
| `Diagonalization.ExtractOperators` | src/tableau/pauli_rotation.cpp:274-295 | for every positive product that is not the identity, the extracted operators take it to exactly +Z on the returned qubit |
| `Diagonalization.DiagonalizedRotation` | src/convert/tableau_to_qcir.cpp:93-117 | operators, the phase on that qubit and the adjoint operators mean the rotation |
| `Diagonalization.SynthesizeNaively` | src/convert/tableau_to_qcir.cpp:93-117 | the circuit means the rotation list and is, rotation after rotation, operators that take its product to Z on a qubit, the phase there and the adjoint operators |
| `GraySynth.ControlRows` | src/convert/tableau_to_qcir.cpp:134-153 | the rows returned are, each once, exactly those set in every filtered column, the target left out |
| `GraySynth.CofactorRow` | src/convert/tableau_to_qcir.cpp:207-226 | the row returned is one of the unprocessed rows, and none of these has a larger side |
| `GraySynth.ApplyCXs` | src/convert/tableau_to_qcir.cpp:155-196 | the CX gates clear the control rows of the filtered columns and keep circuit, closing Clifford, frozen rotations and work stack in step; as a star each control goes onto the target, as a staircase each goes onto the next one in the order and the last onto the target |
| `GrayInvariant.StackSplit` | src/convert/tableau_to_qcir.cpp:247-361 | splitting the columns of a stack element by a row keeps: columns of an element that agree on all unprocessed rows ordered after a processed row agree on that row too |
| `GraySynth.Synthesize` | src/convert/tableau_to_qcir.cpp:247-361 | for every control order and either mode the loop ends; a circuit results exactly when every rotation is diagonal and none the identity; it consists of CX and phase gates, returns every basis state unchanged, adds exactly the sum of phase times parity of the input, means the rotation list, and emits the phase of every rotation once; it comes about step by step, each gathering the controls of the top element in the shape of the mode and splitting at a row of largest side |
| `Replaying.ParityAlong` | src/convert/tableau_to_qcir.cpp:155-196 | CX gates change a selection of qubits and the bits of every basis state so that the parity stays, which makes a phase on one qubit a phase on a parity of the input |
| `Replaying.BitsComeBack` | src/convert/tableau_to_qcir.cpp:349-358 | CX gates with the tableau of the adjoint string bring every bit of every basis state back |
| `PhaseFunctions.SamePhasesSameMeaning` | src/convert/tableau_to_qcir.cpp:247-361 | two lists of diagonal rotations, given as phases and parities, that give every basis state the same phase up to whole turns mean the same, whatever their order and their parities |
| `PhaseFunctions.SamePhaseRotations` | src/convert/tableau_to_qcir.cpp:247-361 | the same for the rotation lists themselves: phase functions that agree modulo 2 are enough |
| `PhaseFunctions.ExpectTerms` | src/convert/tableau_to_qcir.cpp:247-361 | in a state with definite bits, diagonal rotations turn an observable by the difference of their phases on two basis states, in the plane it spans with one other observable |
| `ControlledPhases.AlternatingOddWhole` | src/convert/qcir_to_tableau.cpp:90-133 | the parities of all non-empty subsets, added with a sign by size, are a power of two when all bits are set and zero otherwise |
| `ControlledPhases.ControlledPhaseTerms` | src/convert/qcir_to_tableau.cpp:90-133 | for any number of qubits the generated terms add up, on every basis state, to the phase when all bits are set and to nothing otherwise |
| `ControlledPhases.DivisorFits` | src/convert/qcir_to_tableau.cpp:95-97 | the divisor 2^(n-1) fits a 32-bit int if and only if there are fewer than 32 qubits |
| `QcirToTableau.DenotationUnique` | src/convert/qcir_to_tableau.cpp:140-301 | all programs that a gate may stand for mean the same; a phased gate stands for any rotations with X, Y or Z on the target whose phases add up, modulo 2, to the phase when all bits are set |
| `QcirToTableau.AroundIsTurned` | src/convert/qcir_to_tableau.cpp:99-131 | the operators before and after turn diagonal rotations into those with X, or Y, in place of Z on the target, with the sign unchanged |
| `QcirToTableau.SwapExchanges` | src/convert/qcir_to_tableau.cpp:140-301 | a swap gate, given as the tableau whose rows are the Z and X of either qubit exchanged, is what the swap operator means |
| `QcirToTableau.ImplementMcp` | src/convert/qcir_to_tableau.cpp:90-133 | the tableau in place means itself followed by the multi-controlled phase about X, Y or Z |
| `QcirToTableau.AppendGateOf` | src/convert/qcir_to_tableau.cpp:140-301 | false exactly for an unsupported gate; otherwise the tableau means itself followed by the gate, where H, swap and the phased gates stand for what they do to Z and X, and not for the operators that the code uses |
| `QcirToTableau.ToTableau` | src/convert/qcir_to_tableau.cpp:305-319 | succeeds exactly when every gate is supported, and then the tableau means the circuit |
| `TableauToQcir.ToQcir` | src/convert/tableau_to_qcir.cpp:557-577 | fails exactly when GraySynth meets a rotation that is not diagonal; otherwise the circuit means the tableau and is, segment after segment, a string that builds the Clifford by the chosen strategy, or rotations one by one, or the steps of GraySynth in its mode |
| `TableauToQcir.Recompile` | src/convert/tableau_to_qcir.cpp:557-577 | a circuit taken to a tableau, collapsed, merged, absorbed and synthesized naively: succeeds exactly when every gate is supported, and the new circuit means the old one |
| `Topologies.Topology.FloydWarshall` | src/device/device.cpp:162-187 | the two matrices in place hold distances and predecessors of shortest paths, and the path from b to a is the reverse of the one from a to b |
| `Topologies.WalkBound` | src/device/device.cpp:162-187 | no walk along couplings is shorter than the distance |
| `Topologies.RelaxedMirrored` | src/device/device.cpp:162-187 | one round of strict updates on symmetric couplings keeps the paths mirrored |
| `Topologies.FiniteIsLinked` | src/device/device.cpp:162-187 | on at most 100000 qubits a distance is below that bound if and only if a walk exists |
| `Devices.WaysMirror` | src/device/device.cpp:353-368 | what is reached one way is reached the other, along the reversed path, and no walk is shorter |
| `Devices.Device.GetNextSwapCost` | src/device/device.cpp:260-268 | the next qubit is a coupled neighbour on the way to the target, and the cost is when both are free |
| `Devices.Device.ApplyGate` | src/device/device.cpp:304-321 | the times of the two qubits move to the end of the operation, a swap exchanges what they hold, a logical swap gate included, and search marks are untouched |
| `Routing.NextSteps` | src/device/device.cpp:260-268 | two qubits that walk towards each other along one path, and are not coupled yet, step to different qubits of that path |
| `Routing.ApspRoutes` | src/duostra/router.cpp:265-303 | the function that the method computes routes every gate between qubits within reach, from every state of the device, with one swap less than the distance |
| `Routing.ApspInward` | src/duostra/router.cpp:265-303 | the operands walk towards each other along a shortest path; each swap is the next step of one of them and starts at the lesser of the two times at which either could take its own; at equal times the first operand goes exactly if ties go to the smaller logical qubit and it is that |
| `Routing.ApspRouting` | src/duostra/router.cpp:265-303 | on connected qubits it ends with exactly distance - 1 swaps, each starting at the lesser of the two times at which an operand could step on, and the gate last on its own operands in the right order; operations and qubits are those of a function of the qubits before |
| `DuostraSearch.TouchAdjacency` | src/duostra/router.cpp:313-338 | each neighbour is marked and queued at most once, no queued cost is below the last one popped, and when the trees meet the qubit returned is coupled and of the other tree |
| `DuostraSearch.QueueNotEmpty` | src/duostra/router.cpp:180-253 | on a connected device the queue cannot be empty while the two trees have not met |
| `DuostraSearch.AdvanceKeeps` | src/duostra/router.cpp:180-253 | one step of the search finds something queued, pops no cost below those before and no qubit twice, takes one qubit more, and keeps both trees, the queue and the placement |
| `DuostraSearch.SearchAllMeets` | src/duostra/router.cpp:180-253 | as a function of the qubits, the search from any two qubits of a connected device ends with the trees meeting at a coupled pair |
| `DuostraSearch.Search` | src/duostra/router.cpp:180-253 | the search ends with the two trees meeting at a coupled pair, popped costs never fell, and placement and times are as before |
| `DuostraRouting.SortedRoutes` | src/duostra/router.cpp:353-407 | swaps that end before the gate starts may be sorted by start time with it, however ties fall: the gate stays last and finds its operands |
| `DuostraRouting.TracedRoutes` | src/duostra/router.cpp:353-407 | for every sort, the swaps from both trees and the gate, sorted, route the gate, and leave the device as the operations say |
| `DuostraRouting.TreesRoutes` | src/duostra/router.cpp:180-253 | the function from the qubits to the operations of search and traceback routes every gate from every state at rest, and leaves the device at rest |
| `DuostraRouting.Traceback` | src/duostra/router.cpp:353-407 | the swaps of both trees, sorted by time, are on coupled pairs and bring the operands together in the right order with the gate last |
| `DuostraRouting.RouteByTrees` | src/duostra/router.cpp:180-253 | from any two different qubits of a connected device the gate is routed, and all marks are taken back |
| `DuostraPaths.SearchClaims` | src/duostra/router.cpp:185-205 | operands that are neighbours meet where they are; otherwise every neighbour of the one touched first, the other operand aside, belongs to its tree from the beginning to the end of the search |
| `DuostraPaths.TreesRouteWalks` | src/duostra/router.cpp:180-253 | the operands walk along two disjoint paths with one swap a step until they are neighbours, with no swap if they were; the one free earlier, at equal times the smaller one if ties go there and the first one otherwise, has claimed its neighbours, and the other keeps off these |
| `Routers.RouteOfRoutes` | src/duostra/router.cpp:415-437 | for every policy and every state that a router can be in, `RouteOf` routes every gate and leads to such a state again |
| `Routers.RouteOfWalks` | src/duostra/router.cpp:415-437 | a one-qubit gate takes one operation; with the shortest-path router the operands of a two-qubit gate walk inward as above, and with the search router along the two disjoint walks |
| `Routers.ExecutableNeedsNoSwap` | src/duostra/router.cpp:143-151 | a gate counts as executable if and only if routing it, with either router, takes a single operation |
| `Routers.Router.AssignGate` | src/duostra/router.cpp:415-437 | with either router, and for one-qubit gates, the operations route the gate from the present state, the table of places is again the inverse of the placement, and both are those of `RouteOf`, a function of the router before |
| `Schedules.NoOverlap` | src/duostra/router.cpp:160-168 | in every run two operations on one physical qubit have disjoint intervals, the earlier one first |
| `Schedules.FitsByQubit` | src/device/device.cpp:51-61 | operations fit a device one after the other if and only if each lasts its delay on its couplings and on every qubit each starts when the one before has ended |
| `Schedules.SortKeepsQubitOrder` | src/duostra/scheduler.cpp:64-69 | any sort by start time, stable or not, keeps the order of the operations on each qubit |
| `Schedules.QubitOrderDecides` | src/duostra/scheduler.cpp:64-69 | two runs with the same order on each physical qubit carry the same gates in the same order on each logical one and end with the same placement |
| `Schedules.SortedRun` | src/duostra/scheduler.cpp:64-69 | the sorted run again fits the device, ends in the same state, and carries the same gates for each logical qubit |
| `Schedules.SortedPrompt` | src/duostra/scheduler.cpp:64-69 | when each operation starts as soon as the last of its qubits is free, sorting by start time keeps it so |
| `CircuitTopologies.UpdateReflects` | src/duostra/circuit_topology.cpp:58-81 | routing a ready gate keeps: the available list, as a set, is exactly the unrouted gates whose predecessors are all routed, although counters are trimmed |
| `CircuitTopologies.CircuitTopology.UpdateAvailableGates` | src/duostra/circuit_topology.cpp:58-81 | list and counters in place become those of that update, for any gate |
| `CircuitOrders.ListedMore` | src/duostra/circuit_topology.cpp:58-81 | an available gate is listed exactly as often as pins lead to it from the predecessor routed last, once if it has none |
| `CircuitOrders.ListedTwice` | src/duostra/circuit_topology.cpp:64-68 | of two gates on the same two qubits the second is listed twice when the first has been routed |
| `CircuitOrders.UpdateLists` | src/duostra/circuit_topology.cpp:58-68 | routing a gate leaves the other listed gates in their order and lists new ones behind them, in the order of the pins that lead to them |
| `CircuitOrders.OrderedMore` | src/duostra/circuit_topology.cpp:58-81 | routing an available gate keeps, for the whole run: each gate once, each when it was ready, every qubit in order, and the list as it should be |
| `CircuitOrders.CompleteRun` | src/duostra/scheduler.cpp:197-250 | a run of ready gates as long as the circuit has routed each gate once and respects the dependencies of every qubit |
| `CircuitOrders.IdOrderRespects` | src/duostra/scheduler.cpp:147-155 | the order of the ids respects the dependencies if and only if ids ascend along every qubit |
| `CircuitOrders.PrependedGateIsLate` | src/duostra/scheduler.cpp:147-155 | for a gate with a second one prepended on its qubit the order of the ids is wrong, and the reverse is right |
| `Schedulers.Scheduler.RouteOneGate` | src/duostra/scheduler.cpp:165-178 | any gate, ready or not, is carried out on its own operands behind those so far, and router and tracker become what their functions say |
| `Schedulers.Scheduler.AssignNaively` | src/duostra/scheduler.cpp:231-250 | each gate routed is the first listed one that is executable, or the first listed one if none is |
| `Schedulers.Scheduler.AssignRandomly` | src/duostra/scheduler.cpp:197-218 | the i-th gate routed is the listed one that the i-th choice, modulo the length of the list, picks |
| `Schedulers.SortedIsCarried` | src/duostra/scheduler.cpp:64-69 | the final sort keeps that a run fits, ends where it did, and carries its gates in order on each logical qubit |
| `Schedulers.TrueWithoutSwapGates` | src/device/device.cpp:304-321 | the device's placement is that of the circuit all along if and only if no operation is a swap gate of the circuit |
| `Schedulers.SwapGatesShow` | src/duostra/scheduler.cpp:165-178 | a complete run has no such operation if and only if the circuit has no swap gate |
| `Replicas.CopyRoutes` | src/duostra/scheduler_search.cpp:109-129 | along every run of available gates the copied router stays one that could be real, and its operations route the next gate |
| `Replicas.CostIsLastEnd` | src/duostra/scheduler_search.cpp:109-129 | the cost of a run is the time at which the last of its operations ends, or the cost before it if that is later |
| `Replicas.RunRoutes` | src/duostra/scheduler.cpp:165-178 | in every run each gate is routed from the state that the operations before it lead to, the way its router goes |
| `Replicas.AtHandMeans` | src/duostra/scheduler.cpp:113-120 | after every run a gate counts as executable if and only if routing it then takes no swap |
| `SearchSchedulers.NodeFromIsRound` | src/duostra/scheduler_search.cpp:94-129 | the gates of a node are a round: the one chosen and, if so configured, those there is no choice about, each the first executable one listed or the only one listed, until there is none |
| `SearchSchedulers.RoundDecided` | src/duostra/scheduler_search.cpp:94-129 | the gate chosen decides the round |
| `SearchSchedulers.LeadsIsRun` | src/duostra/scheduler_search.cpp:159-217 | every way to go on that the costs speak of is a run of that many rounds, or fewer if no gate is left, of gates available in turn, with the cost of its operations |
| `SearchSchedulers.RunLeads` | src/duostra/scheduler_search.cpp:159-217 | and every such run is a way to go on |
| `SearchSchedulers.FindsLowest` | src/duostra/scheduler_search.cpp:159-217 | where the candidate limit leaves no child out, what the search finds is the least cost of all ways to go on |
| `SearchSchedulers.BestCost` | src/duostra/scheduler_search.cpp:159-217 | the cost found is, at the last choice, the least cost of the children; before, the least found for as many children as the limit allows, none of which costs more than one left out; the node itself stays, whatever is cached |
| `SearchSchedulers.BestChild` | src/duostra/scheduler_search.cpp:137-151 | the child returned is one of all children, and what is found for it with the given depth is the least of what is found for each of them |
| `SearchSchedulers.SearchScheduler.AssignGates` | src/duostra/scheduler_search.cpp:267-291 | with the coded routers, the loop ends with every gate routed, each when it was ready; the run consists of rounds, each of which leads to a child for which the look-ahead finds the least cost from where the rounds before have led, and where the limit leaves no child out no way to go on for one choice more than the look-ahead costs less |
| `Mapping.MapCircuit` | src/duostra/scheduler.cpp:147-250 | every run by id, naive, random or with look-ahead ends with sorted operations that fit the device, start as soon as their qubits allow and, swaps undone, carry each gate of the circuit once on its own operands; the operations are those of the gates one after the other, each picked as the strategy has it and routed by the chosen router from the state the others have led to; the order respects the dependencies always when naive, random or looking ahead, and by id if and only if ids ascend; the placement stays true if and only if the circuit has no swap gate |
| `MappingSteps.GoesOnOneWay` | src/duostra/mapping_eqv_checker.cpp:50-75 | there is at most one way to read on: as a swap of three CX on a pair that does not wait for one CX, or as the logical gate that waits |
| `MappingSteps.WaitingSwapRefused` | src/duostra/mapping_eqv_checker.cpp:106-115 | a mapped circuit that can be read as a swap and a logical gate, but only with the swap on a pair that waits for a CX, has no reading without |
| `MappingCheckers.AccountedFacts` | src/duostra/mapping_eqv_checker.cpp:50-75 | when all physical gates have been read, the steps account for each of them in qubit order, and the logical gates read are a closed prefix in qubit order |
| `MappingCheckers.LinksBackwards` | src/duostra/mapping_eqv_checker.cpp:238-240 | read in the opposite order, predecessors and successors of every gate on every qubit change places |
| `MappingCheckers.CheckMapping` | src/duostra/mapping_eqv_checker.cpp:50-216 | the check passes, from either end, if and only if the physical circuit can be read in order as swaps of three CX and logical gates of the same kind on their own operands, with two-qubit steps on coupled pairs and no swap on a pair whose two logical qubits wait for one CX; then the placement is a bijection throughout, all physical gates are used in qubit order and the logical ones are a dependency-closed prefix in order |
| `GateGraphs.ListKeepsChains` | src/qcir/qcir_action.cpp:65-105 | every topological list has the gates of each qubit in the order of its chain |
| `GateGraphs.EdgesLeadForward` | src/qcir/qcir.cpp:148-184 | every link leads forward in the order of the chains, so the graph has no cycle |
| `GateGraphs.PathBound` | src/qcir/qcir.cpp:186-209 | no path is longer than the time of the gate at its end |
| `GateGraphs.LongestPath` | src/qcir/qcir.cpp:186-209 | some path to each gate is as long as its time |
| `GateGraphs.AppendOnChain` | src/qcir/qcir.cpp:281-305 | setting the two links and the last gate puts a new gate at the end of one qubit's chain and touches no other qubit |
| `GateGraphs.RemoveOnChain` | src/qcir/qcir.cpp:348-375 | joining the two neighbours of a gate takes it out of one qubit's chain, at either end and in the middle, and touches no other qubit |
| `Qcirs.QCir.Append` | src/qcir/qcir.cpp:281-305 | the links stay one doubly linked chain per qubit, with the new gate at the end of each of its own |
| `Qcirs.QCir.Prepend` | src/qcir/qcir.cpp:307-331 | the same with the new gate, whose id is the highest, at the front |
| `Qcirs.QCir.RemoveGate` | src/qcir/qcir.cpp:348-375 | false and unchanged exactly when there is no such gate; otherwise every chain is the old one with the gate left out |
| `Qcirs.QCir.Dfs` | src/qcir/qcir_action.cpp:65-105 | the loop over the stack ends, and lists each gate once and behind its predecessors |
| `Qcirs.QCir.GetGates` | src/qcir/qcir_action.cpp:114-122 | the list, cached or new, is topological and agrees with the chain of each qubit |
| `Qcirs.QCir.CalculateGateTimes` | src/qcir/qcir.cpp:186-209 | every gate has a time, one more than the latest of its predecessors' |
| `Qcirs.QCir.CalculateDepth` | src/qcir/qcir.cpp:186-209 | the depth is the length of the longest path |
| `Qcirs.QCir.Compose` | src/qcir/qcir_action.cpp:28-36 | there are as many qubits as in the larger circuit, and each qubit's chain is the old one followed by copies of the other circuit's gates on it in their order, also when a circuit is composed with itself; both circuits stay chains |
| `Qcirs.QCir.AdjointInPlace` | src/qcir/qcir_action.cpp:136-153 | every chain is reversed, every operation adjoint, and all links exchanged |
| `Qcirs.AdjoinedChained` | src/qcir/qcir_action.cpp:136-153 | links that form one chain per qubit still do when they are exchanged, with every chain reversed |
| `Qcirs.AdjoinedTwice` | src/qcir/qcir_action.cpp:136-153 | taken twice it gives back the whole graph, when the operations' adjoint is its own inverse |
| `Qcirs.QCir.Reset` | src/qcir/qcir_action.cpp:128-134 | what is left of the links forms chains if and only if there was no gate: qubits, list and counter are cleared, gates and links kept |
| `Qcirs.ResetKeepsGates` | src/qcir/qcir_action.cpp:128-134 | afterwards the links are chains if and only if there was no gate |
| `CircuitGraphs.LinksAreNeighbours` | src/qcir/qcir.cpp:148-184 | the links of a gate on a qubit are its neighbours in the dependencies that the mapper reads |
| `CircuitGraphs.AppendThenPrepend` | src/qcir/qcir.cpp:281-331 | appending one gate and prepending another on one qubit makes the graph at which the order of the ids is wrong |

## Findings

Properties that the code does not have, each with an input and the exact condition under which it holds.

- `Tableau::h`, `s` and `cx` (src/tableau/tableau.cpp:15-58) lose the gate when no segment is a Clifford. Input: the
  identity tableau, emptied by `remove_identities`, and any gate. The gate is kept if and only if the tableau has a
  Clifford (`LostGates.KeptExactlyWithClifford`, `AppendToTidiedIdentity`, `TidiedIdentityLoses`).
- `Device::apply_gate` (src/device/device.cpp:304-321) exchanges what two physical qubits hold also for a swap gate of
  the logical circuit, so that gate is undone by the placement. Input: any circuit with a swap gate. The placement stays
  true if and only if the circuit has none (`Schedulers.TrueWithoutSwapGates`, `SwapGatesShow`, `MapCircuit`).
- `BaseScheduler::_assign_gates` (src/duostra/scheduler.cpp:147-155) routes by gate id, and `QCir::prepend` gives the
  first gate the highest one. Input: append a gate on qubit 0, then prepend one there. The run respects the dependencies
  if and only if ids ascend along every qubit (`CircuitOrders.IdOrderRespects`, `PrependedGateIsLate`,
  `CircuitGraphs.AppendThenPrepend`, `Mapping.MapCircuit`).
- The mapping checker takes three CX for a swap only on a pair that does not wait for a CX
  (src/duostra/mapping_eqv_checker.cpp:106-115), and so refuses a mapper's swap on such a pair. Input: one logical
  CX from qubit 1 to qubit 0, mapped onto two coupled qubits as a swap and then a CX from 0 to 1
  (`MappingSteps.WaitingSwapRefused`).
  A circuit passes if and only if it can be read without such a swap (`MappingCheckers.CheckMapping`).
- GraySynth (src/convert/tableau_to_qcir.cpp:313-315) fails its assertion for a rotation about the identity, which has
  no target qubit. Input: one rotation about the identity on one qubit. On at least one qubit and for diagonal
  rotations it yields a circuit if and only if none is about the identity (`GraySynth.Synthesize`).
- `QCir::reset` (src/qcir/qcir_action.cpp:128-134) leaves the gate table as it is although the qubits are gone. Input:
  a circuit with one gate. The links are chains afterwards if and only if there was no gate (`Qcirs.ResetKeepsGates`).
- `implement_mcp` (src/convert/qcir_to_tableau.cpp:95-97) casts 2^(n-1) to `int`. Input: a gate on 32 qubits. The
  divisor is in range if and only if there are fewer than 32 qubits (`ControlledPhases.DivisorFits`); the identity of
  the terms is proved for the exact divisor, hence holds of the code as written below 32 qubits.

## Left out

- ControlledPhases.ControlledPhaseTerms: divides by the exact power of two; with 32 qubits or more the source's cast is out of range.
- GraySynth.Synthesize: asks for a list that is not empty, of which the source reads the first element; the shuffled qubits are any order without repetition.
- Diagonalization.SynthesizeNaively: asks that no rotation is about the identity, for which the source reads the last element of an empty list.
- TableauToQcir.ToQcir: asks the same of each segment; the passes before it in `Recompile` establish it.
- Qcirs.AdjoinedTwice: the operations' own adjoint is a parameter, so that it undoes itself is asked for.
- MappingCheckers.CheckMapping: logical gates that are never reached are only warned about by the source, so the result is a closed prefix and not the whole circuit.
- Topologies.FiniteIsLinked: devices of more than 100000 qubits; and mapping is modelled for connected devices only.
- `implement_mcr` on two or more qubits, and the choice between RX, RY, RZ and their kin that leads to it.
- Gates on more than two qubits in the mapper, and operations on none.
- Which children a candidate limit drops among equally cheap ones: any that cost no less than those kept. A search depth and a limit of at least one are asked for, as the source asserts.
- The greedy scheduler, every run of which is a random run with suitable choices; the placers, for which any bijection stands.
- How `std::ranges::sort` treats equal times: the sort is any function whose result is the same operations by start time.
- MST and TPar synthesis, TODD, internal-H optimisation, matroid partition, `full_optimize` and circuit equivalence: they rest on libraries and passes of their own.
- The tableau as an array of bit rows: its rows are values here that are reassigned, and `BitProducts` shows one row, with its rotation, updated in place.
- Inserting and removing qubits, tensor products, concatenation and copying of circuits.
- ZX graphs, tensors, the decomposer; readers, writers, printing, commands, logs, interrupts and progress bars.
- Overflow of rational numbers and of `size_t`; phases are exact reals, and sine and cosine are known by their laws only.
