# Verification of the bosonic simulator

A Dafny model of the continuous-variable simulator under `src/bosim`, with proofs about it. The model covers both
compilers (the measurement-based "machinery" level and the graph level), the circuit object with its feedforward, the three
ways of executing a circuit on the CPU, and the Gaussian states the circuits act on.

`dafny verify dfyconfig.toml` verifies everything. No part of the original program was executed.

## What is modelled

- **Circuits and their execution** (`Operations`, `Engine`, `EngineDraws`, `CircuitObject`, `SimulatorObject`, `Resolution`, `Histories`,
  `Influence`, `Reuse`, `SelectedValues`, `Shots`, `ThreadChunks`, `ShotThreads`, `TaskGraph`, `TaskOrder`). The numerical work on a state is a
  record of functions, `Engine.Kernel`, so what is proved about execution holds for every kind of state. The sampler is an arbitrary deterministic function of the state and the random engine.
  Circuit, simulator and shot state are classes; their methods are proved against the step function `Engine.Step`. The
  task graph of the peak-level backend is built by a method, and a run of it is any sequence of its tasks that respects the
  dependencies. The threads of the shot-level backend interleave operation by operation on one shared simulator object.
  What a run depends on, and what can be told from it, is settled with a kernel that records everything it is asked to do.
- **The machinery compiler** (`ModeAllocator`, `Machinery`, `MachineryCompiler`, `MachineryRuns`, `MachineryBlocks`,
  `MachineryPoints`, `MachineryFeeding`, `MachineryInfluence`, `Teleportation`, `Readout`, `LevelAgreement`,
  `MachineryRecycling`, `MachinerySimulation`, `ResourceRuns`).
- **The graph compiler and the result decoder** (`GraphProgram`, `GraphCompiler`, `GraphFeedForward`, `GraphCircuitBuilder`,
  `GraphResult`, `GraphRuns`, `GraphFeeding`, `GraphInfluence`, `GraphPoints`, `GraphRecycling`, `GraphLevels`) and its gates
  as macronodes (`ArbitraryGates`, `GateAngles`, `PairAngles`, `GraphGates`).
- **Refinement** (`Points`, `Refinement`). The two compilers are compared on phase-space points: one position and one
  momentum per mode, on which gates act linearly and a homodyne measurement reads a quadrature. The randomness of the
  measured values is in the quadratures of the resource states: the squeezed one is zero in an ideal state, the other one is
  an arbitrary number, so a statement about every point is a statement about every outcome. The means of a Gaussian state
  follow such a point when every measurement finds the mean, with all feedforward (`MeanRuns`), which carries the theorem
  over to Gaussian states (`GaussianRefinement`).
- **Gaussian states** (`Sums`, `Conditioning`, `Congruence`, `PartialUpdate`, `PostSelection`, `Commutation`,
  `Replacement`, `Symplectic`, `AcceptedGates`, `GateSequences`, `GateMatrices`, `GaussianPeaks`, `GaussianRuns`,
  `RealRuns`, `MeansAsPoints`) and their
  **peaks and weights** (`DirectProduct`, `Weights`, `ProductStates`, `WeightRuns`, `PeakObject`). The in-place updates of
  mean vectors and covariance matrices work on arrays and are proved equal to functions on whole matrices; the peak object
  ties them to the kernel the runs are made of.

All arithmetic is exact, over `real`. The functions of the C++ standard library (sine, cosine, tangent, exponential, arcus
functions) are a record of arbitrary functions with the laws written out in `Elementary`; what is needed of powers of ten
is a hypothesis where it is used (`GaussianRuns.Powers`, `LevelAgreement.PowersAt`, `ResourceRuns.InvertsAt`). "Equal modulo pi"
is a vanishing sine of the difference, without the tolerance of the program.

## Where the code differs from what one might expect

These are results, proved as they are in the code:

- Matrix gates compute their matrix in the constructor only, so feedforward into such a gate changes a field and no run. A
  feedforward can influence a run exactly when its last source comes before its target and its target is not such a gate
  (`Influence.OthersAreInert`, `Influence.InfluenceExactly`). All feedforward of a machinery circuit can
  (`MachineryInfluence.MachineryInfluences`); in a graph program the nonlinear feedforward into gates, Arbitrary operations
  among them, can be deleted without changing any run (`GraphInfluence.IntoGateIsInert`).
- Copying a circuit builds its matrices anew: the copy runs like the original exactly when no matrix gate has had a parameter
  overwritten (`Reuse.CopyRunsAlike`, `Reuse.CopyExactly`).
- In the peak-level backend an x measurement without selection reads an absent value; the backend agrees with the
  sequential one exactly when every x measurement has a selection (`TaskOrder.AnyOrderIsSequential`).
- A feedforward rejects only neighbouring duplicate sources. The machinery compiler concatenates source lists whose
  neighbours always differ; in the graph compiler two nonlinear feedforwards from the same measurement into one Arbitrary
  operation are refused, because sorting makes them neighbours (`GraphFeedForward.RefusesEqualSources`).
- Angles equal modulo pi make a macronode measurable, but M_b and M_d only report quadratures of the inputs when the angles
  agree in sine and cosine (`Readout.ReadoutExact`, `Readout.EqualModPiIsNotEnough`).
- ArbitrarySecond after ArbitraryFirst is the circuit-level Arbitrary gate with lambda negated (`ArbitraryGates.HalvesCompose`,
  `ArbitraryGates.SignMatters`).
- Two graph operations for one macronode block the loop over macronodes: all operations after them are ignored
  (`GraphProgram.DuplicateBlocks`, `GraphProgram.NoneIsSkipped`).
- Reusing one circuit for all shots is harmless exactly when every feedforward either can influence a run or leads into a
  matrix gate (`Reuse.Harmless`, `Reuse.StaleExecute`, `Reuse.ReusableExactly`): a feedforward that comes too late for its
  target is seen by the next shot instead (`Reuse.DriftRepeats`).

## Model

| member | source | states |
|---|---|---|
| `Refinement.MachineryRefinesGraph` | src/bosim/simulate/machinery_repr.h:435-490 | For any number of local macronodes and steps: from ideal resource modes, with feedforward generated from the homodyne angles, a machinery program whose macronodes all teleport or measure reaches every macronode in a state that holds the modes of the graph circuit with unswapped Manual gates of the same angles (measurements where all four angles agree) and the same displacements; and what the graph run measures is M_b and M_d of the machinery run |
| `Refinement.TeleportStep` | src/bosim/simulate/machinery_repr.h:448-479 | A macronode with two different angles in each pair keeps the two runs related, whatever its four measurements read |
| `Refinement.MeasureStep` | src/bosim/simulate/machinery_repr.h:203-222 | A macronode with four equal angles keeps the two runs related, and both report the same two values |
| `Refinement.StaysInStep` | src/bosim/simulate/machinery_repr.h:435-490 | The relation holds before every macronode: graph mode 0 is the up input, the other graph modes are the delay-line modes in the order in which they will be consumed |
| `Refinement.AlwaysFresh` | src/bosim/simulate/machinery_repr.h:481-489 | Before every macronode of the run the four recycled modes are ideal resource states again |
| `Refinement.CorrectionsOf` | src/bosim/simulate/machinery_repr.h:573-615 | The two displacements after a macronode are FIMac of its own angles and of what its own measurements read |
| `Refinement.TeleportedOuts` | src/bosim/simulate/machinery_repr.h:169-190 | The corrected outputs of a teleporting macronode are the outputs of its Manual gate on the displaced inputs |
| `Refinement.MeasuredOuts` | src/bosim/simulate/machinery_repr.h:203-222 | The corrected outputs of a measuring macronode are squeezed states at angle theta - pi/2, and M_b, M_d are the theta quadratures of its displaced inputs |
| `TaskOrder.AnyOrderIsSequential` | src/bosim/simulate/simulate_cpu_multi_thread.h:52-201 | For a well-formed circuit and at least one peak, every order of the tasks that respects the dependencies completes if and only if every x measurement has its selection, and then ends with the peaks, random engine, parameters and measured values of the sequential execution |
| `TaskOrder.SomeOrderThrows` | src/bosim/simulate/simulate_cpu_multi_thread.h:163-172 | A circuit with an x measurement without selection fails in every order of the tasks |
| `TaskOrder.MissingSelectionThrows` | src/bosim/simulate/simulate_cpu_multi_thread.h:163-172 | Running the tasks fails as soon as they include the post-selection of such a measurement |
| `TaskOrder.SamplingComparable` | src/bosim/simulate/simulate_cpu_multi_thread.h:122-192 | A sampling task comes before or after any other task in the same way in every admissible order, although sampling shares the state with all peaks |
| `TaskOrder.OwnSamplingResult` | src/bosim/simulate/simulate_cpu_multi_thread.h:96-120 | When a post-selection runs, the shared sampling result is that of its own measurement: its sampling has run and no other sampling since |
| `TaskGraph.BuildTaskGraph` | src/bosim/simulate/simulate_cpu_multi_thread.h:52-200 | The tasks created operation by operation are one per layer and peak (one per sampling layer), the dependencies are exactly those between successive layers, and the order of creation respects them |
| `TaskGraph.BuildOp` | src/bosim/simulate/simulate_cpu_multi_thread.h:53-199 | Adding one operation, of any of the three kinds, extends the graph by its layers, and keeps the rows of operation, rotation and post-selection tasks as the next operation needs them |
| `TaskGraph.WaitForPrevious` | src/bosim/simulate/simulate_cpu_multi_thread.h:69-80 | The first tasks of an operation wait, peak by peak, for the last layer of the operation before: the post-selections of a measurement, the tasks of any other operation, nothing at the start |
| `TaskGraph.LayersAreRun` | src/bosim/simulate/simulate_cpu_multi_thread.h:52-201 | Executing the layers one after the other is executing the operations one after the other |
| `GaussianRuns.ReachableSound` | src/bosim/operation.h:1066-1089 | In every state a run reaches, whatever is sampled and fed forward, every covariance is symmetric and positive definite and every mode known to be separate is uncorrelated with all others, if the circuit only replaces separate modes |
| `GaussianRuns.VariancePositive` | src/bosim/operation.h:1074 | At every measurement of such a run the variance the post-selection divides by is positive |
| `MachinerySimulation.SimulationStaysSound` | src/bosim/simulate/machinery_simulate.h:66-95 | A machinery simulation whose nonlinear feedforwards lead forward never throws; all its covariances stay positive definite and the real part of the total weight stays exactly one |
| `WeightRuns.WeightConserved` | src/bosim/operation.h:1083 | Once the real part of the total weight is one it stays one in every state a run reaches: gates and displacements leave the weights alone, measurements renormalise them |
| `Commutation.SelectionsCommute` | src/bosim/operation.h:1066-1089 | Post-selections of two different modes with given outcomes give the same covariance and the same mean in either order, for any number of modes |
| `MachineryRuns.CorrectedWithMeasuredAngles` | src/bosim/simulate/machinery_repr.h:559-616 | In every run, on any kind of state, the displacements after macronode k hold FIMac of the four values measured there and of exactly the four angles those measurements were made with, fed forward or not |
| `MachineryRuns.ZeroAsProgrammed` | src/bosim/simulate/machinery_repr.h:559-616 | No correction is computed only where the program asks for zero: a program that leaves the method open does not compile |
| `MachineryFeeding.FeedsReport` | src/bosim/simulate/machinery_repr.h:498-557 | In every run, on any kind of state, the angle or the input displacement (x or p of up or left) that a nonlinear feedforward names ends as its function of the value M_a, M_b, M_c or M_d that is reported of its source macronode |
| `MachineryFeeding.KeepsProgrammed` | src/bosim/simulate/machinery_repr.h:440-479 | Every angle and input displacement that no nonlinear feedforward names stays as programmed |
| `MachineryFeeding.FeedsQuadrature` | src/bosim/simulate/machinery_repr.h:510-521 | On points, from a macronode with four angles of one sine and cosine, what is fed forward from M_b and M_d are the theta quadratures of its displaced up and left inputs, whatever the squeezing |
| `MachineryRuns.MachineryWellFormed` | src/bosim/simulate/machinery_repr.h:499-616 | The circuit is well formed and its feedforward causal if and only if every nonlinear feedforward leads from a macronode to a later existing one; linear feedforward never spoils it |
| `MachineryInfluence.MachineryInfluences` | src/bosim/simulate/machinery_repr.h:499-616 | When the nonlinear feedforwards lead forward, every feedforward of a machinery circuit, linear or not, can influence a run: none can be left out, and the circuit can be used again for every shot |
| `GraphRuns.GraphRun` | src/bosim/simulate/graph_repr.h:616-755 | A run of a compiled graph program never throws, and every operation is executed with the parameters it holds at the end; there each replacement is a quarter turn behind its measurement, and the parameter fields of the Manual gate of an Arbitrary operation, though not its matrix, are the angles of the fed-forward parameters |
| `GraphFeeding.FeedsMeaning` | src/bosim/simulate/graph_repr.h:404-485 | In every run every parameter that a nonlinear feedforward means (both angles and both replacements of a measurement, the parameter of every gate of the macronode, x or p of the displacement of the up or the left mode) ends as its function of the value measured on the up or left mode of its source macronode, a quarter turn back in a replacement |
| `GraphFeeding.TargetsExactly` | src/bosim/simulate/graph_repr.h:424-466 | The parameters the compiler resolves a target to are exactly those, told by kind and mode of the operations alone |
| `GraphFeeding.SourceExactly` | src/bosim/simulate/graph_repr.h:403-415 | The source is the one measurement of its macronode on the mode named |
| `GraphFeeding.ReadsReported` | src/bosim/simulate/graph_repr.h:410-412 | From a readout macronode it is the value the decoder reports as m_b or m_d |
| `GraphRuns.GraphWellFormed` | src/bosim/simulate/graph_repr.h:404-485 | If the program leads forward, so do all feedforwards of its circuit; and they are well formed if and only if every parameter the program names exists |
| `GraphInfluence.IntoGateIsInert` | src/bosim/simulate/graph_repr.h:404-485 | Deleting from a program all nonlinear feedforward into parameters of gates, Arbitrary operations included, leaves the peaks, the random engine and the measured values of every run of its circuit as they are, on every kind of state |
| `GraphInfluence.OthersInfluence` | src/bosim/simulate/graph_repr.h:404-485 | In a program that leads forward, all other nonlinear feedforward can influence a run |
| `GraphInfluence.UngatedCompiles` | src/bosim/simulate/graph_repr.h:616-755 | The program without that feedforward still compiles, to the same operations |
| `GraphResult.DecoderAgrees` | src/bosim/simulate/graph_result.h:92-129 | The table the decoder computes from the program alone contains exactly the homodyne operations the compiler made for macronodes marked for readout, each with its macronode and flagged up exactly when it measures the up mode |
| `ArbitraryGates.HalvesCompose` | src/bosim/simulate/graph_repr.h:23-65 | The matrix of ArbitrarySecond times that of ArbitraryFirst is R(alpha) diag(exp(lambda), exp(-lambda)) R(beta): the circuit-level Arbitrary gate with lambda negated |
| `ArbitraryGates.SignMatters` | src/bosim/operation.h:548-556 | It equals the Arbitrary gate with the same parameters if and only if lambda is zero |
| `Influence.OthersAreInert` | src/bosim/operation.h:288-321 | On every kind of state, a run keeps its peaks, random engine and measured values when feedforwards are removed that lead into gates with a matrix or that come too late for their targets |
| `Influence.InfluenceExactly` | src/bosim/circuit.h:176-189 | A feedforward can influence a run if and only if its last source comes before its target and its target has no matrix: otherwise it can be removed whatever it computes, and if so some value makes removing it show |
| `Influence.InfluenceDecides` | src/bosim/simulator.h:21-50 | Two well-formed circuits run alike, on every kind of state, if they have the same matrices, the same feedforwards that can influence a run, and the same parameters wherever these do not overwrite them in time |
| `Histories.ToldApart` | src/bosim/simulator.h:43-50 | Two runs that execute some operation with different matrices or parameters end in different states of the kernel that records its work |
| `Reuse.StaleExecute` | src/bosim/simulate/simulate_cpu_single_thread.h:39-47 | If every feedforward can influence a run or leads into a matrix gate, the parameters an earlier shot left behind have no effect on peaks, random engine, measured values or final parameters, on every kind of state |
| `Reuse.ReusableExactly` | src/bosim/simulate/simulate_cpu_single_thread.h:39-47 | And only then: otherwise one feedforward needs only compute the right value for a second shot on the same circuit to differ |
| `Reuse.DriftRepeats` | src/bosim/simulate/simulate_cpu_single_thread.h:39-47 | On phase-space points, the second shot of a circuit whose displacement is fed by the measurement after it reads what the first read if and only if zero was fed back |
| `Engine.StepSettled` | src/bosim/simulator.h:21-41 | One operation of a well-formed circuit never throws; afterwards exactly the measurements so far have values and every fired feedforward is reflected in its target |
| `Engine.RunSettled` | src/bosim/simulator.h:43-50 | The same over any stretch of a run, and values once measured stay |
| `EngineDraws.EngineIsPassedOn` | src/bosim/simulator.h:21-50 | In every run the random engine before an operation is the initial one after as many draws as there were measurements without selection: each goes on where the last one stopped |
| `CircuitObject.Circuit.EmplaceOperation` | src/bosim/circuit.h:101-116 | Appends the operation, or leaves the circuit alone when its constructor refuses the arguments |
| `CircuitObject.Circuit.AddFF` | src/bosim/circuit.h:133-142 | Refuses a feedforward whose target is taken; otherwise list, multimap and target map stay in agreement and grow by it |
| `CircuitObject.Circuit.ApplyFF` | src/bosim/circuit.h:152-164 | Overwrites exactly one parameter with the function of the values of the sources, or fails when a value or the parameter is missing |
| `CircuitObject.Circuit.ApplyAllFF` | src/bosim/circuit.h:176-189 | In whatever order the multimap yields them, the result is `Engine.FireAll`, or a failure exactly when some feedforward cannot fire |
| `CircuitObject.Circuit.Copy` | src/bosim/circuit.h:118-131 | A new circuit with matrices built from the current parameters and the same feedforwards; fails when a constructor refuses them |
| `CircuitObject.CopyOfPristine` | src/bosim/circuit.h:118-131 | A circuit whose parameters were never overwritten copies to itself |
| `Reuse.CopyRunsAlike` | src/bosim/circuit.h:118-131 | A copy runs like the original, on every kind of state, if no matrix gate has had a parameter overwritten: its matrices are built anew from the parameters of the moment |
| `Reuse.CopyExactly` | src/bosim/circuit.h:118-131 | And only then |
| `SimulatorObject.SimState.Apply` | src/bosim/operation.h:129-133 | A gate is applied to every peak |
| `SimulatorObject.SimState.Measure` | src/bosim/operation.h:1289-1295 | Rotation by theta - pi/2, sampling, and post-selection of every peak by the one sampling result |
| `SimulatorObject.Simulator.ExecuteOperation` | src/bosim/simulator.h:21-41 | Is `Engine.Step` on the state, the circuit and the measured values of the shot; other shots are untouched |
| `SimulatorObject.Simulator.Execute` | src/bosim/simulator.h:43-50 | Is `Engine.Execute` |
| `Shots.RunShot` | src/bosim/simulate/simulate_cpu_single_thread.h:13-25 | One shot stores the outcome of executing the circuit as it is now, and leaves the parameters of that execution in it |
| `Shots.SimulateSingleThread` | src/bosim/simulate/simulate_cpu_single_thread.h:26-52 | Every shot has the outcome of the circuit as the shots before it left it; on a harmless circuit that is the outcome of the circuit as built, and the values measured in shot s are those of shot 0 of a simulation whose seed is larger by s |
| `Shots.ShotIsSeed` | src/bosim/simulate/simulate_cpu_single_thread.h:46 | Shot 0 has the engine of the seed itself, and shot s the engine shot 0 has with the seed increased by s |
| `Shots.DistinctEngines` | src/bosim/simulate/simulate_cpu_single_thread.h:46 | If different 64-bit seeds give different engines, two shots have the same engine only if they are a multiple of 2^64 apart |
| `Shots.StatesKept` | src/bosim/simulate/simulate_cpu_single_thread.h:43-45 | Every shot of a well-formed circuit keeps its final state, or only the first does, or none, as the settings say |
| `Shots.ReusedShot` | src/bosim/simulate/simulate_cpu_single_thread.h:39-47 | On a harmless circuit the shots before leave only values that will be overwritten, for any number of shots |
| `ThreadChunks.Chunks` | src/bosim/simulate/simulate_cpu_multi_thread.h:241-277 | Consecutive nonempty ranges from 0 to the number of shots, as many as there are threads, the earlier ones longer by at most one; none when there are no shots to divide |
| `ThreadChunks.ChunksPartition` | src/bosim/simulate/simulate_cpu_multi_thread.h:255-277 | Every shot is in exactly one range |
| `ShotThreads.StartShot` | src/bosim/simulate/simulate_cpu_multi_thread.h:211-221 | A shot starts on a fresh copy of the circuit and of the state, or fails when a constructor refuses the parameters to be copied |
| `ShotThreads.StepShot` | src/bosim/simulate/simulate_cpu_multi_thread.h:222 | One operation of one shot continues the run of that shot and touches the slot of no other |
| `ShotThreads.FinishShot` | src/bosim/simulate/simulate_cpu_multi_thread.h:222-224 | A shot run to the end leaves the outcome of the copied circuit in its slot |
| `ShotThreads.Turn` | src/bosim/simulate/simulate_cpu_multi_thread.h:263-275 | Whatever the other threads are in the middle of, a step of one thread leaves their shots where they were |
| `ShotThreads.RunThreads` | src/bosim/simulate/simulate_cpu_multi_thread.h:250-279 | Threads that run their ranges at the same time on the one simulator object, interleaved operation by operation in any way, terminate with the outcome of the copied circuit in every slot, and fail exactly when copying fails; the circuit stays as it was |
| `ShotThreads.SimulateShotLevel` | src/bosim/simulate/simulate_cpu_multi_thread.h:226-279 | Every slot has the outcome of the copied circuit, the values of shot s being those of shot 0 with the seed increased by s; fails exactly when copying fails or there are no shots |
| `Resolution.ExecutedWithFinal` | src/bosim/circuit.h:152-164 | With causal feedforward an operation is executed with the parameters it still has at the end of the run |
| `Resolution.Resolve` | src/bosim/simulator.h:43-50 | A run with feedforward is, step by step, the run of the final operations without feedforward |
| `Resolution.FinalParameters` | src/bosim/circuit.h:176-189 | At the end every target holds its function of the measured values and every other parameter is as built |
| `Points.RunOnPoints` | src/bosim/simulator.h:43-50 | Executing a circuit on a phase-space point moves it operation by operation and records what each measurement reads |
| `SelectedValues.SelectedIsReported` | src/bosim/operation.h:836-882 | In every run a measurement with a selection reports the selected value, as it is when the measurement is executed |
| `SelectedValues.MeasurementsExactly` | src/bosim/operation.h:1254-1263 | A measurement is accepted exactly with its angle, if it has one, and at most a selected value, which then is its selection |
| `SelectedValues.PointsHonour` | src/bosim/operation.h:871-878 | A measurement of a phase-space point with a selection yields the selected value |
| `ModeAllocator.StateObjModeIdx.constructor` | src/bosim/simulate/machinery_repr.h:319-325 | The tabulated cycle is (1 5 6 ... N+4 3) |
| `ModeAllocator.StateObjModeIdx.Call` | src/bosim/simulate/machinery_repr.h:300-310 | Looks up `ModeIdx` |
| `ModeAllocator.Initially` | src/bosim/simulate/machinery_repr.h:300-310 | At macronode 0 every micronode lives in the mode of its own number |
| `ModeAllocator.RenamingStep` | src/bosim/simulate/machinery_repr.h:300-326 | From one macronode to the next the indices move by one fixed renaming, whatever the macronode and N |
| `ModeAllocator.Injective` | src/bosim/simulate/machinery_repr.h:300-326 | For every macronode and N >= 1 different micronodes have different modes below N + 5 |
| `ModeAllocator.Surjective` | src/bosim/simulate/machinery_repr.h:300-326 | Every mode below N + 5 is in use |
| `ModeAllocator.DelayLine` | src/bosim/simulate/machinery_repr.h:300-326 | The mode macronode k emits for macronode k + d sits in a delay slot and is the left input of macronode k + d |
| `ModeAllocator.DelayLineUntouched` | src/bosim/simulate/machinery_repr.h:300-326 | In between no macronode works on it |
| `Machinery.ParametrizedAngles` | src/bosim/simulate/machinery_repr.h:390-410 | The closure with its moving index sees, for every angle, the fed-forward value if there is one and the programmed angle otherwise |
| `Machinery.MacronodesAt` | src/bosim/simulate/machinery_repr.h:435-490 | Operation j of macronode k is at index 18 k + j |
| `Machinery.TotalExactly` | src/bosim/simulate/machinery_repr.h:428-435 | The macronodes are those of the first steps: number k exists exactly when k / N is less than the number of steps |
| `MachineryCompiler.DistinctModes` | src/bosim/operation.h:208-215 | No beam splitter of a macronode gets the same mode twice |
| `MachineryCompiler.EmplaceEntanglement` | src/bosim/simulate/machinery_repr.h:440-462 | Appends the two displacements and five beam splitters of a macronode, never refused |
| `MachineryCompiler.EmplaceMeasurements` | src/bosim/simulate/machinery_repr.h:463-479 | Appends the four measurements, the last beam splitter and the two displacements |
| `MachineryCompiler.EmplaceReplacements` | src/bosim/simulate/machinery_repr.h:481-489 | Appends the four replacements |
| `MachineryCompiler.EmplaceMacronodes` | src/bosim/simulate/machinery_repr.h:435-490 | The circuit is the concatenation of the blocks of all macronodes |
| `MachineryCompiler.AddNonlinears` | src/bosim/simulate/machinery_repr.h:499-556 | Adds the nonlinear feedforwards in order; fails exactly when a target parameter is invalid or taken |
| `MachineryCompiler.GetAngleWriters` | src/bosim/simulate/machinery_repr.h:353-369 | For each of the four angles the feedforward that writes it, if any |
| `MachineryCompiler.WritersUnaffected` | src/bosim/simulate/machinery_repr.h:559-571 | The lookup is not disturbed by the linear feedforwards added meanwhile |
| `MachineryCompiler.AddLinear` | src/bosim/simulate/machinery_repr.h:576-615 | Adds the two feedforwards to an output when they are generated from the angles, none when zero filled, and fails when unspecified |
| `MachineryCompiler.MachineryCircuit` | src/bosim/simulate/machinery_repr.h:422-619 | The compiler succeeds exactly on the programs with valid distinct nonlinear targets and specified methods, and yields exactly the described operations and feedforwards |
| `MachineryRuns.WriterIsEarlier` | src/bosim/simulate/machinery_repr.h:560-571 | A feedforward into an angle of macronode k reads the four measurements of an earlier macronode |
| `MachineryRuns.SliceAligned` | src/bosim/simulate/machinery_repr.h:392-406 | The four-wide slices the moving index picks out of the concatenated sources are the sources of the corresponding nonlinear feedforward |
| `MachineryRuns.SeenAreHeld` | src/bosim/simulate/machinery_repr.h:385-410 | The angles the linear feedforward sees are the angles the measurements hold |
| `MachineryPoints.MeasuresFour` | src/bosim/simulate/machinery_repr.h:463-472 | What the four measurements of a macronode read and leave behind |
| `MachineryPoints.BlockIsMacronode` | src/bosim/simulate/machinery_repr.h:440-479 | Up to its replacements a block of operations does to its six modes what the algebra of a macronode says, and touches no other mode |
| `MachineryPoints.Replaces` | src/bosim/simulate/machinery_repr.h:481-489 | Exactly the four measured modes come back as fresh resource states |
| `MachineryBlocks.BlockOfFinal` | src/bosim/simulate/machinery_repr.h:435-490 | Every block of the circuit keeps that form under any feedforward |
| `MachineryBlocks.NextModes` | src/bosim/simulate/machinery_repr.h:481-489 | Seen from the next macronode the four replaced modes are its resource micronodes |
| `Teleportation.ManualFactors` | src/bosim/operation.h:777-813 | The product of the four factors of the Manual matrix, entry by entry |
| `Teleportation.ManualActs` | src/bosim/operation.h:777-825 | Manual applies V(theta_b, theta_a) to the difference and V(theta_d, theta_c) to the sum of its modes and recombines them |
| `Teleportation.PairTeleports` | src/bosim/simulate/machinery_repr.h:178-190 | One term of FMac completes a teleportation through V, whatever the two measured values are |
| `Teleportation.MacronodeTeleports` | src/bosim/simulate/machinery_repr.h:233-242 | With ideal resources and two different angles in each pair, the outputs after feedforward are those of the Manual gate on the displaced inputs |
| `Readout.Outputs` | src/bosim/simulate/machinery_repr.h:448-475 | What a macronode measures and emits for any resources, as combinations of its six inputs |
| `Readout.ReadoutExact` | src/bosim/simulate/machinery_simulate.h:37-42 | For every squeezing M_b and M_d are the theta quadratures of the displaced up and left inputs if and only if the four angles have the sine and cosine of theta |
| `Readout.EqualModPiIsNotEnough` | src/bosim/simulate/machinery_repr.h:66-70 | Four angles equal modulo pi that the test accepts and that report no quadrature of the inputs for any theta |
| `Readout.MeasurableExactly` | src/bosim/simulate/machinery_repr.h:66-70 | The test for a measurable macronode compares five pairs of angles; it accepts exactly when all four are equal modulo pi |
| `Readout.Initialized` | src/bosim/simulate/machinery_repr.h:203-222 | After the IMac correction the squeezed quadratures of both outputs are combinations of the resource modes alone, with total weight giving twice the resource variance |
| `LevelAgreement.GraphLevelAgrees` | src/bosim/simulate/graph_repr.h:268-271 | The variance of those squeezed quadratures, as the quadratic form of the covariance of four freshly squeezed resource modes in any Gaussian state, is the variance of the squeezed quadrature of the state the graph brings in at the level its compiler computes |
| `ResourceRuns.AlwaysFresh` | src/bosim/simulate/machinery_repr.h:481-489 | In every machinery simulation, before every macronode from the first on, the four resource modes are uncorrelated with everything else and squeezed at the level of the machine, b and d in x, a and c in p, whatever was measured and fed forward |
| `ResourceRuns.InitialHolds` | src/bosim/simulate/machinery_simulate.h:77-87 | At the start every mode is a squeezed state at that level, modes 2 and 3 in p and all others in x |
| `ResourceRuns.LevelsAgree` | src/bosim/simulate/graph_repr.h:268-271 | So in every machinery simulation the squeezed quadratures of the two outputs of a macronode that measures at theta have, before it is executed, the variance of the states the graph compiler brings in |
| `ResourceRuns.ReplacedAtLevel` | src/bosim/operation.h:1540-1548 | After a replacement at angle theta - pi/2 the squeezed quadrature of the mode has the variance hbar / 2 over the squeezing of its level |
| `ResourceRuns.MeasuredIsVacuum` | src/bosim/operation.h:1084-1089 | A measured mode is left in the vacuum: with mean zero and the covariance of a state squeezed by one at any angle |
| `GraphLevels.BringsInAtLevel` | src/bosim/simulate/graph_repr.h:285-322 | In every run of a graph circuit, right after the replacement that follows a measurement at theta, fed forward or not, the squeezed quadrature of the mode has the variance of the level the compiler computed |
| `LevelAgreement.ReplacedVariance` | src/bosim/state.h:73-86 | The quadratic form of the squeezed covariance at angle theta - pi/2, along its squeezed quadrature, is hbar / 2 over the squeezing |
| `GraphProgram.SortByMacronode` | src/bosim/simulate/graph_repr.h:626-633 | A sorted permutation of the graph operations |
| `GraphProgram.SortedUnique` | src/bosim/simulate/graph_repr.h:626-633 | With distinct macronodes every sort gives the same sequence |
| `GraphProgram.NoneIsSkipped` | src/bosim/simulate/graph_repr.h:650-666 | The loop over macronodes meets every graph operation |
| `GraphProgram.DuplicateBlocks` | src/bosim/simulate/graph_repr.h:650-690 | After two operations for one macronode no later operation is found, and every later macronode is wired through |
| `GraphProgram.TotalExactly` | src/bosim/simulate/graph_repr.h:641-651 | Macronode k of a graph program exists exactly when k / N is less than the number of steps |
| `GraphProgram.InputModesPermute` | src/bosim/simulate/graph_repr.h:635-659 | input_modes stays a permutation of 0 .. N, so up and left are different modes |
| `GraphProgram.UpRouting` | src/bosim/simulate/graph_repr.h:652-660 | What comes from up at the next macronode is what came from up at this one, or what came from left if the operation of this one swaps |
| `GraphProgram.LeftRouting` | src/bosim/simulate/graph_repr.h:652-660 | What comes from left N macronodes later is what came from left at this one, or what came from up if its operation swaps; no macronode in between touches it |
| `GraphProgram.FirstFromLeft` | src/bosim/simulate/graph_repr.h:635-653 | The first N macronodes take the modes 1 to N from left, in order |
| `GraphProgram.WithoutOperation` | src/bosim/simulate/graph_repr.h:665-690 | A macronode without a graph operation keeps its two modes apart |
| `GraphProgram.CountsAgree` | src/bosim/simulate/graph_result.h:65-83 | The count the decoder uses for a graph operation is the number of circuit operations the compiler adds, and its measurements are the second and the fifth |
| `GraphProgram.FirstIsLength` | src/bosim/simulate/graph_result.h:108-126 | The running index of the decoder is the length of the circuit so far |
| `GraphCompiler.AddUnaryOperations` | src/bosim/simulate/graph_repr.h:183-202 | Appends the group of a single-mode operation and records its indices |
| `GraphCompiler.AddBinaryOperation` | src/bosim/simulate/graph_repr.h:215-232 | Appends the group of a two-mode operation and records its indices |
| `GraphCompiler.AddDisplacementOperation` | src/bosim/simulate/graph_repr.h:244-258 | Appends the group of a wiring and records its indices |
| `GraphCompiler.AddMeasurementOperations` | src/bosim/simulate/graph_repr.h:284-322 | Appends the group of a measurement or initialization and records its indices |
| `GraphCompiler.AddOperations` | src/bosim/simulate/graph_repr.h:335-395 | Appends exactly the group of the graph operation, or fails when its type or its parameters are unsupported or a constructor refuses |
| `GraphFeedForward.UpdateParameters` | src/bosim/simulate/graph_repr.h:513-528 | The closure computes the Arbitrary parameters with every fed-forward value put in |
| `GraphFeedForward.IrrelevantIsIrrelevant` | src/bosim/simulate/graph_repr.h:571-577 | Skipping a lone alpha of ArbitraryFirst or lambda of ArbitrarySecond changes no Manual angle |
| `GraphFeedForward.IrrelevantExactly` | src/bosim/simulate/graph_repr.h:571-577 | The parameter that is skipped when it is fed forward alone is exactly the one that never enters the angles |
| `GraphFeedForward.SortBySource` | src/bosim/simulate/graph_repr.h:723-729 | A sorted permutation of the stored feedforwards |
| `GraphFeedForward.RefusesEqualSources` | src/bosim/circuit.h:57-66 | After sorting, feedforwards that read the same measurement are neighbours and the constructor refuses the combined one |
| `GraphCircuitBuilder.EmplaceMacronodes` | src/bosim/simulate/graph_repr.h:650-690 | The circuit, the index records and the table of Arbitrary operations after the loop over macronodes |
| `GraphCircuitBuilder.AddNonlinear` | src/bosim/simulate/graph_repr.h:705-721 | Direct feedforwards are added in order, those into Arbitrary operations are stored; fails exactly when one does not resolve or its target is taken |
| `GraphCircuitBuilder.DirectMissesManual` | src/bosim/simulate/graph_repr.h:714-719 | Direct feedforward never writes to the Manual gate of an Arbitrary operation |
| `GraphCircuitBuilder.AddFFsTargetingManual` | src/bosim/simulate/graph_repr.h:550-605 | Adds four feedforwards into the Manual gate, or none in the irrelevant cases |
| `GraphCircuitBuilder.AddArbitraries` | src/bosim/simulate/graph_repr.h:731-752 | In whatever order the unordered map yields them, every Arbitrary operation gets its feedforwards |
| `GraphCircuitBuilder.GraphCircuit` | src/bosim/simulate/graph_repr.h:616-755 | The compiler succeeds exactly on the programs described by `GraphCompiles`, and yields exactly the described operations and feedforwards |
| `GraphRuns.TargetExists` | src/bosim/simulate/graph_repr.h:424-464 | The parameter a nonlinear feedforward names exists in the circuit exactly when the operation of its macronode has such a parameter |
| `GraphRuns.ReplacementFollowsMeasurement` | src/bosim/simulate/graph_repr.h:475-485 | phi = theta - pi/2 between each measurement and its replacement survives nonlinear feedforward, and both measurements of a macronode keep the same angle |
| `GraphRuns.ManualAnglesFollow` | src/bosim/simulate/graph_repr.h:501-537 | At the end the parameter fields of the Manual gate of an Arbitrary operation are the angles computed from its fed-forward parameters; its matrix is the one of the angles it was built with (see `GraphInfluence.IntoGateIsInert`) |
| `GraphPoints.HalfRuns` | src/bosim/simulate/graph_repr.h:296-314 | On a point, one half of a measurement macronode displaces, reads the theta quadrature and brings in a state at theta - pi/2 |
| `GraphResult.UpdateMeasurementOpMap` | src/bosim/simulate/graph_result.h:39-57 | Adds the two entries of a readout macronode; fails when an index is taken |
| `GraphResult.ConstructMeasurementOpMap` | src/bosim/simulate/graph_result.h:92-129 | The table has exactly the measurements of the readout macronodes, at the indices of the compiled circuit |
| `GraphResult.ExtractShot` | src/bosim/simulate/graph_result.h:153-167 | In whatever order the values are visited, each macronode collects its up value as m_b and its left value as m_d |
| `GraphResult.ReportsReadouts` | src/bosim/simulate/graph_result.h:140-177 | For a run of the compiled circuit exactly the readout macronodes are reported, with their own two values |
| `GraphResult.ExtractReadouts` | src/bosim/simulate/graph_result.h:140-177 | Decoding the measured values of a run with the table of the program gives a value for exactly the readout macronodes, the one measured on the up mode as m_b and the one on the left mode as m_d |
| `ArbitraryGates.FirstActs` | src/bosim/simulate/graph_repr.h:23-39 | Unswapped ArbitraryFirst applies one 2x2 matrix to each mode; the swap-ordered angles apply the same and exchange the modes |
| `ArbitraryGates.SecondActs` | src/bosim/simulate/graph_repr.h:49-65 | The same for ArbitrarySecond |
| `ArbitraryGates.ArbitraryActs` | src/bosim/simulate/graph_repr.h:23-65 | The two Manual gates in a row, unswapped, apply Arbitrary(alpha, beta, -lambda) to each mode |
| `PartialUpdate.MultiplyRows` | src/bosim/operation.h:116-117 | The matrix times the operated columns, transposed, is the off-diagonal part of the congruence |
| `PartialUpdate.MultiplyBlock` | src/bosim/operation.h:118-120 | The matrix times the operated block times the transpose is the operated part of the congruence |
| `PartialUpdate.UpdatePeak` | src/bosim/operation.h:110-127 | Operated rows, then columns, then block, written in place: the result is S sigma S^T and S mu with S the matrix embedded in the identity, for any size, any duplicate-free indices and any symmetric sigma |
| `PartialUpdate.UpdatedEntry` | src/bosim/operation.h:116-126 | Which of the three pieces every entry of the full congruence comes from |
| `Congruence.TransformedForm` | src/bosim/operation.h:110-127 | The quadratic form of S sigma S^T at v is that of sigma at S^T v |
| `Congruence.TransformedSymmetric` | src/bosim/operation.h:110-127 | Symmetry is kept |
| `Congruence.TransformedPositive` | src/bosim/operation.h:110-127 | Positive definiteness is kept by every S with an injective transpose |
| `GateMatrices.EmbeddedInjective` | src/bosim/operation.h:184-193 | A small matrix with an injective transpose keeps it when embedded in any number of modes |
| `GateMatrices.GateInjective` | src/bosim/operation.h:262-268 | The matrix of every gate a constructor accepts has it |
| `PostSelection.UpdateEntry` | src/bosim/operation.h:1073-1079 | One entry and its mirror image become the conditional covariance, although column x is read live from the matrix being written |
| `PostSelection.UpdateOthers` | src/bosim/operation.h:1069-1080 | The double loop updates all other means and entries simultaneously |
| `PostSelection.ClearMode` | src/bosim/operation.h:1084-1089 | The measured mode is left uncorrelated with variance hbar / 2 |
| `PostSelection.PostSelect` | src/bosim/operation.h:1056-1090 | The in-place loop is the simultaneous conditional-Gaussian update: Schur complement on all other variables, shifted means, measured mode reset |
| `Conditioning.ConditionalForm` | src/bosim/operation.h:1073-1089 | The quadratic form after post-selection is a form of the original covariance plus squares |
| `Conditioning.ConditionalPositive` | src/bosim/operation.h:1066-1089 | Post-selection keeps a covariance symmetric and positive definite |
| `Sums.DiagonalPositive` | src/bosim/operation.h:1074 | A positive definite matrix has a positive diagonal |
| `Replacement.SqueezedPositive` | src/bosim/state.h:73-86 | The squeezed covariance is symmetric and positive definite for every level and angle |
| `Replacement.ReplacedPositive` | src/bosim/operation.h:1540-1548 | Replacing an uncorrelated mode keeps a covariance symmetric and positive definite |
| `Replacement.ReplacePeak` | src/bosim/operation.h:1540-1548 | The mode gets mean zero and the squeezed block; everything else, correlations included, is untouched |
| `PeakObject.MultiModePeak.constructor` | src/bosim/state.h:243-265 | The peak object holds the peak assembled from single-mode peaks |
| `PeakObject.MultiModePeak.Displace` | src/bosim/operation.h:93-98 | The two means of the mode move, nothing else |
| `PeakObject.MultiModePeak.Gate` | src/bosim/operation.h:110-127 | In place, the object comes to hold the gated peak |
| `PeakObject.MultiModePeak.Replace` | src/bosim/operation.h:1540-1548 | In place, the object comes to hold the renewed peak |
| `PeakObject.MultiModePeak.Apply` | src/bosim/operation.h:93-127 | Whatever the operation, the in-place update is the function `GaussianPeaks.Operate` the runs are made of |
| `PeakObject.MultiModePeak.Select` | src/bosim/operation.h:1056-1090 | The in-place post-selection with its new coefficient is `GaussianPeaks.PostSelected` |
| `GaussianPeaks.OperateSound` | src/bosim/operation.h:93-127 | A gate, displacement or replacement keeps a peak positive definite and the untouched separate modes separate |
| `GaussianPeaks.ObservedSound` | src/bosim/operation.h:1082-1089 | A post-selection does, and makes the measured mode separate |
| `GaussianPeaks.TreatedAlike` | src/bosim/operation.h:1056-1090 | Gates, replacements and post-selections treat the imaginary parts of the means as the real ones, the value found being real |
| `MachineryRecycling.ReplacesMeasured` | src/bosim/simulate/machinery_repr.h:463-489 | The four modes replaced in a macronode are exactly the four measured in it |
| `MachineryRecycling.MachineryRecyclesSafely` | src/bosim/simulate/machinery_repr.h:435-490 | Every replaced mode was measured before and has been left alone since |
| `MachineryRecycling.MachineryStaysSound` | src/bosim/simulate/machinery_repr.h:435-490 | In every reachable state of a machinery run the covariances are positive definite, and from the first replacement of a macronode on the four measured modes are uncorrelated with all others |
| `MachineryRecycling.DelayedModeUntouched` | src/bosim/simulate/machinery_repr.h:440-489 | No operation between macronodes k and k + N touches the mode emitted to (D, k+N), which macronode k + N takes as its left input |
| `GraphRecycling.GraphRecyclesSafely` | src/bosim/simulate/graph_repr.h:298-313 | In a graph circuit every replacement directly follows a measurement of the same mode |
| `GraphRecycling.GraphStaysSound` | src/bosim/simulate/graph_repr.h:616-755 | So every reachable covariance of a graph run is positive definite |
| `Symplectic.UnaryDet` | src/bosim/operation.h:316-556 | Every single-mode matrix a constructor accepts has determinant one |
| `Symplectic.UnarySymplectic` | src/bosim/operation.h:316-556 | Every single-mode gate and its transpose keep the symplectic form |
| `Symplectic.BeamSplitterSymplectic` | src/bosim/operation.h:605-621 | BeamSplitter is symplectic |
| `Symplectic.BeamSplitter50Symplectic` | src/bosim/operation.h:1393-1401 | BeamSplitter50 is symplectic |
| `Symplectic.BeamSplitterStdSymplectic` | src/bosim/operation.h:1446-1460 | BeamSplitterStd is symplectic |
| `Symplectic.ShearSymplectic` | src/bosim/operation.h:659-714 | ControlledZ and TwoModeShear are symplectic |
| `Symplectic.VDet` | src/bosim/operation.h:815-825 | V has determinant one for two angles that differ modulo pi |
| `Symplectic.ManualSymplectic` | src/bosim/operation.h:777-825 | Manual is symplectic for every pair of angle pairs its constructor accepts |
| `Symplectic.BinarySymplectic` | src/bosim/operation.h:605-825 | Every two-mode gate a constructor accepts is symplectic |
| `AcceptedGates.UnaryExactly` | src/bosim/operation.h:331-368 | A constructor of a single-mode gate accepts exactly the parameters whose matrix has determinant one |
| `AcceptedGates.BinaryExactly` | src/bosim/operation.h:724-825 | A constructor of a two-mode gate other than BeamSplitter accepts exactly the parameters whose matrix is symplectic |
| `AcceptedGates.BeamSplitterExactly` | src/bosim/operation.h:566-603 | BeamSplitter accepts exactly the nonnegative reflection amplitudes that leave a transmission amplitude |
| `GateSequences.GatesKeepArea` | src/bosim/operation.h:105-133 | Any sequence of gates, on any number of modes, preserves the symplectic form of two phase-space points |
| `GateSequences.GatesUndone` | src/bosim/operation.h:105-133 | Any sequence of gates has an inverse |
| `GateAngles.RotationIsV` | src/bosim/operation.h:288-321 | PhaseRotation is what one half of a macronode teleports through at the angles phi / 2 and phi / 2 + pi/2: as a matrix it is the V of those angles |
| `GateAngles.SqueezingIsV` | src/bosim/operation.h:331-368 | Squeezing by theta is the V of the angles -theta and theta, if and only if those differ modulo pi |
| `GateAngles.Squeezing45IsV` | src/bosim/operation.h:378-417 | Squeezing45 is the V of the angles pi/4 - theta and pi/4 + theta, under the same condition |
| `GateAngles.ShearXIsV` | src/bosim/operation.h:427-459 | ShearXInvariant by kappa is the V of the angles atan(kappa) and pi/2 |
| `GateAngles.ShearPIsV` | src/bosim/operation.h:469-501 | ShearPInvariant by eta is the V of the angles 0 and pi/2 - atan(eta) |
| `PairAngles.TwoModeShearIsManual` | src/bosim/operation.h:674-714 | TwoModeShear is the Manual gate that shears the difference of its modes by a - b/2 and their sum by a + b/2 |
| `PairAngles.ControlledZIsManual` | src/bosim/operation.h:631-664 | ControlledZ is the Manual gate that shears the difference by -g/2 and the sum by g/2 |
| `PairAngles.BeamSplitterIsManual` | src/bosim/operation.h:566-621 | BeamSplitter is the Manual gate that rotates the difference and the sum of its modes by theta + acos(sqrt R) and theta - acos(sqrt R) |
| `PairAngles.BeamSplitterAmplitudes` | src/bosim/operation.h:605-621 | Its amplitudes are sqrt R and the nonnegative t with t^2 + R = 1 |
| `PairAngles.StdActs` | src/bosim/operation.h:1411-1460 | BeamSplitterStd rotates the second mode back by phi, mixes the two modes by theta, and rotates the second output by phi |
| `PairAngles.FiftyIsStd` | src/bosim/operation.h:1378-1401 | BeamSplitter50 is BeamSplitterStd at pi/4 and phase zero |
| `PairAngles.MixingAdds` | src/bosim/operation.h:1446-1460 | Mixing two modes twice is mixing them once by the sum of the angles |
| `GraphGates.GateGroupRuns` | src/bosim/simulate/graph_repr.h:181-232 | Every gate of a graph program, of any type, does to its two displaced inputs what a machinery macronode with the angles of that gate teleports them through |
| `GraphGates.AcceptedExactly` | src/bosim/simulate/graph_repr.h:181-205 | For single-mode gates those angles are angles of a teleporting macronode, except Squeezing and Squeezing45 exactly where the tangent does not exist |
| `GraphGates.PairAccepted` | src/bosim/simulate/graph_repr.h:213-232 | For the two-mode gates they always are |
| `GraphGates.GroupIsGateGroup` | src/bosim/simulate/graph_repr.h:181-232 | The operations the compiler adds for a gate are such a displaced gate; an absent displacement is none |
| `GraphGates.WiredThrough` | src/bosim/simulate/graph_repr.h:665-690 | A macronode without a graph operation does nothing to its inputs |
| `MeansAsPoints.MeansMoveAsPoints` | src/bosim/operation.h:122-123 | Gates, displacements and replacements move the real parts of the means of a peak as they move a phase-space point |
| `MeanRuns.MeansFollowPoint` | src/bosim/simulator.h:21-50 | In a run on one Gaussian peak whose measurements find the mean, with all its feedforward, the means are at every moment the point of the run that starts at them, and the same values are measured and fed forward |
| `RealRuns.RealStaysReal` | src/bosim/operation.h:1056-1090 | Peaks with real means keep them in every run, whatever is measured and fed forward |
| `RealRuns.InitialReal` | src/bosim/simulate/machinery_simulate.h:77-87 | The means of the initial state of a machinery simulation are real and zero |
| `GaussianRefinement.MeansRefineGraph` | src/bosim/simulate/machinery_repr.h:435-490 | The refinement for Gaussian states: when measurements find the mean, the means of the state of the machinery before every macronode are the modes of the graph run, and M_b and M_d are what the graph run measures |
| `DirectProduct.DigitsOfIndex` | src/bosim/state.h:363-376 | Every choice of one peak per mode has a slot |
| `DirectProduct.IndexOfDigits` | src/bosim/state.h:363-376 | No two slots hold the same choice |
| `DirectProduct.Enumeration.Visit` | src/bosim/state.h:363-376 | The recursion that pushes and pops `current` leaves it as it was, advances i_peak by the number of remaining combinations and fills exactly those slots, in mixed-radix order |
| `DirectProduct.Enumeration.VisitPeak` | src/bosim/state.h:371-375 | One peak of the mode at hand, combined with all combinations of the remaining modes |
| `DirectProduct.AllCombinations` | src/bosim/state.h:356-379 | Slot i holds the combination with the mixed-radix digits of i |
| `ProductStates.Assemble` | src/bosim/state.h:243-265 | Coefficient, mean and covariance of a multi-mode peak, entry by entry |
| `ProductStates.AssembledSound` | src/bosim/state.h:243-265 | A peak assembled from positive definite blocks is positive definite and all its modes are separate |
| `ProductStates.ConstructChunk` | src/bosim/state.h:695-699 | One thread constructs exactly the peaks of its range |
| `ProductStates.ConstructState` | src/bosim/state.h:345-381 | The chunks together construct every peak from its combination |
| `ProductStates.ProductSound` | src/bosim/state.h:345-381 | Every peak of a product of positive definite peaks is positive definite |
| `ProductStates.ProductMarginal` | src/bosim/state.h:243-265 | Each mode of peak i on its own, means and covariance, is the peak of that mode which the mixed-radix digit of i stands for |
| `ProductStates.CoefficientsMultiply` | src/bosim/state.h:243-265 | One more mode multiplies the coefficient of a peak by that of the peak of the mode |
| `Weights.TotalWeight` | src/bosim/state.h:248-252 | The weights of all combinations sum to the product of the per-mode sums |
| `Weights.UnitWeights` | src/bosim/state.h:248-252 | So modes of total weight one make a state of total weight one |
| `Weights.CalcOriginalPdf` | src/bosim/operation.h:1208-1236 | The density of every peak at the value found, and the real part of their sum |
| `Weights.CommonDensity` | src/bosim/operation.h:1208-1236 | Peaks of one density at the value found have together that density times their total weight |
| `WeightRuns.SharesTotal` | src/bosim/operation.h:1083 | The new weights sum to 1 + i Im / Re of the summed densities: real part exactly one, and one altogether if and only if the sum is real |
| `WeightRuns.SharesInProportion` | src/bosim/operation.h:1083 | The new weights are in the proportion of the densities: every peak gets the share of its own |
| `WeightRuns.StepWeight` | src/bosim/operation.h:1056-1090 | One operation of a run keeps the real part of the total weight at one |
| `WeightRuns.ProductWeighed` | src/bosim/state.h:345-381 | The initial state of modes of weight one has total weight one |
| `WeightRuns.CatNormalised` | src/bosim/state.h:193-214 | The four weights of a cat state sum to one |
| `WeightRuns.CatIsSuperposition` | src/bosim/state.h:193-214 | They are the traces of the four terms of the density matrix of the superposition of two coherent states with amplitudes 1 and exp(i pi k), over the trace of them all |
| `MachinerySimulation.InitialModes` | src/bosim/simulate/machinery_simulate.h:77-86 | Modes 2 and 3 are squeezed in p, all other of the N + 5 modes in x |
| `MachinerySimulation.InitialSound` | src/bosim/simulate/machinery_simulate.h:77-87 | The initial state is one peak of weight one, positive definite |
| `MachinerySimulation.ExtractShot` | src/bosim/simulate/machinery_simulate.h:28-48 | The reported values of the readout macronodes; a missing value is an error |
| `MachinerySimulation.ReportedIffExists` | src/bosim/simulate/machinery_simulate.h:28-35 | After a whole run all four values of a macronode are there if and only if the macronode exists |

## Left out

- Refinement.MachineryRefinesGraph: is about programs all of whose macronodes teleport (two different angles in each pair) or measure (four angles with the same sine and cosine), and makes no claim about graph operations with swap, because the swap-ordered angles already exchange the modes and the compiler exchanges the mode labels as well.
- MachineryCompiler.MachineryCircuit: requires the lists of a configuration to be long enough, which the program does not check, and `from_abcd` to be below four; the program would throw when a feedforward with another value fires.
- GraphCircuitBuilder.GraphCircuit: requires nonlinear feedforwards with distinct targets and at most the three parameters of an Arbitrary operation; the Python functions of a program are arbitrary functions on real numbers.
- GaussianRuns.ReachableSound: requires initial covariances that are positive definite, which `ProductStates.ProductSound` and `MachinerySimulation.InitialSound` provide; the constructors only ask for positive semidefinite ones.
- WeightRuns.WeightConserved: requires the sampler to report the densities of the peaks with a real part of the sum that is not zero; the sampler itself is not modelled.
- ShotThreads.SimulateShotLevel: stops as soon as one copy fails, where the program first lets the other threads finish and then drops their results; and takes the refusal of zero shots from its caller (src/bosim/simulate/simulate.h:67), since the division by the number of threads would be undefined.
- MeanRuns.MeansFollowPoint and GaussianRefinement.MeansRefineGraph: are about measurements that find the mean; another outcome shifts the other means by their covariances with it.
- GraphProgram.SortByMacronode and GraphFeedForward.SortBySource are insertion sorts; the library's sort is only used through what it guarantees.
- Rejection sampling, the Gaussian densities and the seeded random engine: values and densities come from an arbitrary deterministic function.
- Floating-point rounding, the tolerances of `IsReal` and `IsEquivModPi`, and the exceptions for significant imaginary parts.
- Checks that are compiled in debug builds only, such as mode ranges in the operations and correlations in ReplaceBySqueezedState; an operation on a mode that does not exist does nothing in the model.
- 32-bit overflow of counts; only the 64-bit sum of seed and shot wraps around.
- The iteration order of unordered maps and multimaps: it is unspecified, and results are proved for every order.
- Timeouts, profiling, logging, JSON output and the choice of backend.
- The shot-level taskflow around the per-peak task graph; shots do not share state.
- The GPU backends, the Python interpreter, the server, the generated protocol classes and the parsing of settings.
- The conversion of reported values to single precision.
