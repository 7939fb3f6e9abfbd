# SubCircuit core in Dafny

SubCircuit is a SPICE-style transient circuit simulator built on Modified Nodal
Analysis (MNA), with a second engine that integrates quantised states (QSS,
the DEVS-LIM method). This project models the discrete part of both engines
and proves properties of it. Floating-point physics, the linear solver and
the GUI stay outside the model.

- **MNA assembly and Newton loop** (`netlist.dfy`, `circuit.dfy`):
  - the node registry and internal nodes;
  - the zero-then-scatter-add stamp assembler; the older `circuit.py` reads
    each local matrix transposed;
  - `setup`, and the Newton `minor_step`/`step` loop, where the solver is a
    function argument that may refuse a system;
  - subcircuit flattening by name mangling.
- **Transient driver** (`simulator.dfy`): `trans` as a method over the sample
  arrays, with the exact sequence of calls it makes, and the Voltage and
  Current traces of `plot`.
- **Device engines**: one class per engine, each with a `Valid()` invariant
  and `connect`/`start`/`step`/`minor_step` methods:
  - R, C, L, I, V, K/Mut, E, S and D;
  - the current sensor and the scopes;
  - X (subcircuit instance), the signal source, the summing junction and the
    transfer-function block.

  Each stamp method states exactly which entries of the device's local `jac`
  and `bequiv` arrays it writes. Partner lemmas state the element law that
  those entries impose on a solution, through `Interfaces.Residual`: the
  current a device draws from the node at one of its ports, that is, the
  current entering the device at that port.
- **Stimuli** (`stimuli.dfy`): PULSE, PWL, and the branch structure of SIN
  and EXP. The lookup table with its forward-only cursor is in
  `interfaces.dfy`.
- **QSS engine** (`qdl.dfy`, `limnode.dfy`, `limbranch.dfy`):
  - atoms and their quantisation band;
  - integration and next-event times;
  - quantum updates and the output log;
  - the system's device enrolment, state save and restore, and the `advance`
    loop;
  - the LIM node and branch devices.
- **Helpers**:
  - the controllable canonical form and forward-Euler state-space step
    (`lti.dfy`);
  - ordered string rewriting (`tf.dfy`, `pprint.dfy`);
  - the schematic connector's list surgery and point-to-segment distance
    (`sandbox.dfy`);
  - the Python built-ins the code relies on (`pyops.dfy`).

Python's `None` and the exceptions the code raises are modelled by the
`Option`, `Result` and `Outcome` types in `wrappers.dfy`. A device method that
raises returns `Raised(e)` and states what it wrote before the raise.

## Model

| member | source | states |
|---|---|---|
| R.Conductance | subcircuit/devices/r.py:56-60 | a truthy resistance gives g with g * value == 1; zero or a missing value gives the 1e12 S near short |
| R.R.constructor | subcircuit/devices/r.py:44-45 | no internal node: jac is a zero |nodes|-by-|nodes| matrix and bequiv a zero vector; the value is kept |
| R.R.Connect | subcircuit/devices/r.py:51-54 | exactly two labels are registered, in order, as ports 0 and 1; any other count raises ValueError (tuple unpacking) and changes nothing |
| R.R.Update | subcircuit/devices/r.py:56-65 | the call completes exactly when there are at least two nodes, otherwise IndexError; either way every entry of [[g, -g], [-g, g]] that lies inside jac is written before the raise and nothing else changes |
| R.R.Start | subcircuit/devices/r.py:67-68 | start does what update does |
| R.R.Step | subcircuit/devices/r.py:70-72 | step changes nothing |
| R.ResistorCurrent | subcircuit/devices/r.py:62-65 | the stamp draws g * (v0 - v1) from port 0's node and its negation from port 1's (Ohm's law) |
| C.C.constructor | subcircuit/devices/c.py:57-59 | no internal node: zero jac and bequiv of the node count |
| C.C.Connect | subcircuit/devices/c.py:61-64 | two labels become ports 0 and 1; any other count raises ValueError and changes nothing |
| C.C.Start | subcircuit/devices/c.py:66-70 | dt == 0 raises ZeroDivisionError with jac unchanged; otherwise the in-range entries of the two-terminal pattern of C/dt are written, and the call completes exactly when there are two nodes, else IndexError after the partial write |
| C.C.Step | subcircuit/devices/c.py:72-75 | bequiv[0] = (C/dt) * vc and bequiv[1] = -bequiv[0], vc the history voltage across ports 0 and 1; jac is untouched; a failing history read or dt == 0 raise without writing; a short node list raises IndexError after writing the in-range entries |
| C.CapacitorIsBackwardEuler | subcircuit/devices/c.py:66-75 | the companion current into port 0 is C * ((v0 - v1) - vc) / dt, the backward-Euler discretisation of i = C dv/dt |
| L.InductorJac | subcircuit/devices/l.py:67-72 | the start writes form a symmetric pattern: the gyrator on port 2 plus -(res + L/dt) on its diagonal; the 2-by-2 terminal block is not written |
| L.L.constructor | subcircuit/devices/l.py:41-52 | two nodes get one internal node (a 3-by-3 stamp) and linkable is false; three nodes get no internal node and linkable is true; any other count allocates no stamp |
| L.L.Connect | subcircuit/devices/l.py:54-65 | the linkable form registers its three labels as ports 0..2; the two-node form registers its two labels and then creates one internal node as port 2; any other count never ran MNADevice.__init__, so reading self.nodes raises AttributeError and nothing changes (also lines 43-48) |
| L.L.Start | subcircuit/devices/l.py:67-72 | jac gets exactly the InductorJac entries; dt == 0 raises ZeroDivisionError after the four gyrator entries are written; a device without a stamp raises AttributeError |
| L.L.Step | subcircuit/devices/l.py:74-76 | only bequiv[2] is written, with -(L/dt) times the previous branch current; an inductor of other than two or three nodes has no port2node and raises AttributeError in the history read; a failed history read or dt == 0 raise; none of these writes anything |
| L.L.GetCurrentNode | subcircuit/devices/l.py:78-79 | returns (port2node[2], 1.0) exactly when port 2 is mapped, else raises |
| L.InductorBranchEquation | subcircuit/devices/l.py:67-76 | the branch current enters the inductor at port 0 and leaves it at port 1, and the branch row is v0 - v1 - res * i - L * (i - ih) / dt = 0: backward Euler for v = R i + L di/dt |
| L.LinkableCreatesNothing | subcircuit/devices/l.py:55-59 | the three-node form leaves the internal-node counter alone and port 2 is the user's third node |
| I.SourceConductance | subcircuit/devices/i.py:48-50 | a positive resistance gives g > 0 with g * resistance == 1; zero or negative gives no conductance |
| I.StartCurrent | subcircuit/devices/i.py:57-61 | start's current is the stimulus's start value when there is a stimulus and it returns one (a None output, as from `Pwl.start` or the `Sffm` stub, is a TypeError), else the value when truthy, else 0.0 |
| I.StepCurrent | subcircuit/devices/i.py:69-72 | step's current is the stimulus's step value, else the stored value; a None from either cannot be negated and is a TypeError |
| I.I.constructor | subcircuit/devices/i.py:30-39 | a stimulus argument leaves value missing; a number is stored as the value; zero stamp, no internal node |
| I.I.Connect | subcircuit/devices/i.py:41-44 | two labels become ports 0 and 1; any other count raises ValueError and changes nothing |
| I.I.Start | subcircuit/devices/i.py:46-64 | the in-range entries of the two-terminal pattern of SourceConductance are always written to jac; with fewer than two nodes the jac write raises IndexError and bequiv is untouched; with two nodes bequiv gets the opposed pair (current, -current), or, when the stimulus output is None, bequiv[0] gets NumPy's NaN (left unspecified) and `-current` raises TypeError with every other entry kept |
| I.I.Step | subcircuit/devices/i.py:66-75 | only the opposed pair in bequiv is rewritten, with StepCurrent; a None value or stimulus output is first stored into bequiv[0] (NumPy's NaN, left unspecified), then `-current` raises TypeError with every other entry kept; with no nodes that store raises IndexError and nothing changes; a short node list raises IndexError after writing the in-range entries |
| I.IdealSourceCurrent | subcircuit/devices/i.py:52-64 | with no resistance the stamp draws exactly -current from port 0's node and +current from port 1's |
| V.SourceJac | pyspyce/devices/v.py:79-83 | the start writes are symmetric: the gyrator on port 2 plus -(res + induct/dt) on the branch diagonal, nothing in the terminal block |
| V.V.constructor | pyspyce/devices/v.py:58-69 | one internal node (3-by-3 zero stamp); a stimulus sets the stimulus, a number clears it and stores the value as a float, anything else sets neither |
| V.V.Connect | pyspyce/devices/v.py:71-75 | the two labels become ports 0 and 1 and a newly created internal node port 2; any other count raises ValueError and changes nothing |
| V.V.StartVolt | pyspyce/devices/v.py:85-89 | the stimulus's start value, else a truthy value, else 0.0 |
| V.V.Start | pyspyce/devices/v.py:77-91 | jac gets exactly SourceJac and bequiv[2] the start voltage; dt == 0 raises ZeroDivisionError after the gyrator writes even with no inductance; an argument of another type raises AttributeError at the stimulus test |
| V.V.StepVolt | pyspyce/devices/v.py:93-102 | the stimulus's step value or the stored value, plus (induct/dt) times the previous branch current when induct is truthy; the missing attribute, a missing value and a failing history read are errors |
| V.V.Step | pyspyce/devices/v.py:93-104 | only bequiv[2] is rewritten, with StepVolt; on an error nothing is written |
| V.V.GetCurrentNode | pyspyce/devices/v.py:106-107 | returns (port2node[2], -1.0) exactly when port 2 is mapped |
| V.SourceBranchEquation | pyspyce/devices/v.py:79-104 | as written, the branch row solves v0 - v1 = src + res * i + induct * (i + ih) / dt and the branch current enters the source at port 0 |
| V.SourceBranchEquationIntended | pyspyce/devices/v.py:100-102 | with the history term subtracted the branch row is backward Euler for the series inductance: v0 - v1 = src + res * i + induct * (i - ih) / dt |
| V.SteadyCurrentNeedsVoltage | pyspyce/devices/v.py:100-102 | a 0 V source with 1 H carrying a steady 1 A needs 2 V across its terminals as written, and 0 V with the intended sign |
| K.MutualJac | subcircuit/devices/k.py:58-60 | start writes only the two off-diagonal entries, both -M/dt: a symmetric pattern |
| K.CrossHistory | subcircuit/devices/k.py:62-66 | each port's right-hand side is built from the OTHER port's previous current |
| K.CrossHistorySwaps | subcircuit/devices/k.py:62-66 | exchanging the two currents exchanges the two right-hand sides |
| K.K.constructor | subcircuit/devices/k.py:39-45 | built on the placeholder nodes [0, 0]: a zero 2-by-2 stamp; L1, L2 and the mutual inductance start missing |
| K.K.Connect | subcircuit/devices/k.py:47-56 | both inductors are looked up by name (a missing one raises KeyError before anything changes); L1, L2 are copied, M = k * sqrt(L1 * L2) (a negative product raises ValueError), and ports 0 and 1 map to the inductors' current nodes |
| K.K.Start | subcircuit/devices/k.py:58-60 | jac gets exactly MutualJac; no mutual inductance raises TypeError, dt == 0 ZeroDivisionError, both without writing |
| K.K.Step | subcircuit/devices/k.py:62-66 | bequiv gets exactly CrossHistory of the two previous currents, and nothing is written when a read fails or dt == 0 |
| K.MutualFromCoupling | subcircuit/devices/k.py:52 | with a true square root, M * M == k * k * L1 * L2, and M >= 0 for k >= 0 |
| K.Mut.constructor | subcircuit/devices/k.py:84-85 | the value is the mutual inductance itself; zero 2-by-2 stamp |
| K.Mut.Connect | subcircuit/devices/k.py:87-90 | two labels become ports 0 and 1; any other count raises ValueError and changes nothing |
| K.Mut.Start | subcircuit/devices/k.py:92-94 | jac gets exactly MutualJac; dt == 0 raises ZeroDivisionError without writing |
| K.Mut.Step | subcircuit/devices/k.py:96-100 | succeeds exactly when both history reads succeed, dt != 0 and there are two nodes, and then bequiv gets exactly CrossHistory of the two previous port values; with one node bequiv[0] is written before bequiv[1] raises IndexError; any other failure writes nothing |
| K.CouplingTerm | subcircuit/devices/k.py:58-66 | as written, the coupling adds -(M/dt) times the SUM of the other inductor's new and previous currents to a branch equation |
| K.CouplingTermIntended | subcircuit/devices/k.py:65-66 | with the history sign of the inductor engine the coupling adds -(M/dt) times the CHANGE of the other current: backward Euler for M di/dt |
| K.SteadyCurrentInducesVoltage | subcircuit/devices/k.py:65-66 | M = 1 H, dt = 1 s, a steady 1 A in the second inductor: as written 2 V are induced in the first branch; with the intended sign none |
| E.EStamp | subcircuit/devices/e.py:81-86 | start writes exactly six entries: -1/+1 coupling the output ports 2, 3 to the branch node 4, and k, -k on the control columns of row 4 |
| E.GainEntries | subcircuit/devices/e.py:101-102 | step rewrites only jac[4,0] = k and jac[4,1] = -k |
| E.Limited | subcircuit/devices/e.py:95-99 | with a truthy limit and a non-zero control voltage, the limited gain keeps vc * k within [-limit, limit]; an in-range product is left alone, an out-of-range one lands exactly on the nearer bound; without a limit or with vc == 0 the gain is unchanged |
| E.E.constructor | subcircuit/devices/e.py:51-63 | one internal node (5-by-5 zero stamp); a number becomes the gain as a float, a Table the table, anything else neither; the limit is kept |
| E.E.Connect | subcircuit/devices/e.py:65-71 | four labels become ports 0..3 and a newly created internal node port 4; any other count raises ValueError and changes nothing |
| E.E.StartGain | subcircuit/devices/e.py:76-79 | a truthy gain, else 0.0 |
| E.E.Start | subcircuit/devices/e.py:73-86 | jac gets exactly EStamp(StartGain()) |
| E.E.Step | subcircuit/devices/e.py:88-102 | without a table nothing changes; with one, vc is read across ports 2 and 3 of the last iterate, the table's interpolation gives k and moves its cursor, and only the two gain entries are rewritten with the limited k; a failed read or lookup raises without writing |
| E.E.GetCurrentNode | subcircuit/devices/e.py:104-106 | returns the fifth raw node label, which exists only with more than four labels, which connect never accepts |
| E.ControlledVoltage | subcircuit/devices/e.py:81-86 | the branch row holds exactly when v2 - v3 == k * (v0 - v1), and the branch current enters the source at port 3 and leaves it at port 2; the control ports draw nothing |
| S.Defaults | subcircuit/devices/s.py:72-102 | the six numeric model attributes the constructor creates: vt, it, vh, ih at 0.0, ron = RON = 1e-6 and roff = ROFF = 1e6 |
| S.SwitchStamp | subcircuit/devices/s.py:137-146 | start writes exactly five entries: the symmetric gyrator between the terminals (ports 2, 3) and the branch node 4, and the branch diagonal d |
| S.NextState | subcircuit/devices/s.py:171-178 | after a minor step the switch is ON exactly when the control is at or above vt; it changes state exactly when the old state disagrees with that test |
| S.S.constructor | subcircuit/devices/s.py:88-106 | one internal node (5-by-5 zero stamp); the state starts at `on` and the attributes at their defaults |
| S.S.Connect | subcircuit/devices/s.py:108-114 | four labels become ports 0..3 and a newly created internal node port 4; any other count raises ValueError and changes nothing |
| S.S.MergedAttrs | subcircuit/devices/s.py:122-131 | only existing attributes change; a keyword parameter wins over the model's parameter for the same key, which wins over the default |
| S.S.Start | subcircuit/devices/s.py:117-148 | the attributes become MergedAttrs, the state resets to `on`, jac gets exactly SwitchStamp(-ron) when ON or SwitchStamp(-roff) when OFF, bequiv[4] = 0; afterwards the branch diagonal agrees with the state |
| S.S.MergeAttrs | subcircuit/devices/s.py:122-131 | the two override loops of start leave exactly MergedAttrs |
| S.S.WriteStamp | subcircuit/devices/s.py:137-146 | the five jac writes of start are exactly SwitchStamp(d) |
| S.S.Control | subcircuit/devices/s.py:164-168 | the control signal is the named voltage source's voltage when a truthy name is given, else the voltage across ports 0 and 1 |
| S.S.Beq | subcircuit/devices/s.py:181-184 | bequiv[4] is -(ron * v(port 2)) when ON and the voltage across ports 0 and 1 when OFF |
| S.S.MinorStep | subcircuit/devices/s.py:154-184 | the state becomes NextState of the control; jac[4,4] is rewritten (to -ron or -roff) only on a transition; bequiv[4] gets Beq of the new state; the diagonal keeps agreeing with the state; a failed control read changes nothing |
| S.S.GetCurrentNode | subcircuit/devices/s.py:186-187 | returns the fifth raw node label, which exists only with more than four labels, which connect never accepts |
| S.Sweep | subcircuit/devices/s.py:171-178 | along a sequence of minor steps the state after each is exactly whether that step's control reached vt: there is no hysteresis |
| S.MonotoneSweepTurnsOnOnce | subcircuit/devices/s.py:171-178 | under a non-decreasing control the switch turns ON at most once, never when it starts ON at or above vt, and once ON stays ON |
| S.CrossingTurnsOnExactlyOnce | subcircuit/devices/s.py:171-178 | a non-decreasing control that starts OFF and ends at or above vt turns the switch ON exactly once |
| D.Defaults | subcircuit/devices/d.py:55-70 | the SPICE model attributes the constructor sets, with is_ = 1e-14 and n = 1.0 |
| D.Clamp | subcircuit/devices/d.py:98 | min(v, 0.8): the linearisation voltage never exceeds 0.8 V nor the iterate, and is one of the two |
| D.ConductanceNonNegative | subcircuit/devices/d.py:96-99 | a non-negative saturation current gives a non-negative companion conductance |
| D.D.constructor | subcircuit/devices/d.py:27-71 | no internal nodes, the defaults set, the model name kept and `model` set to None |
| D.D.Connect | subcircuit/devices/d.py:73-76 | exactly two labels become ports 0 and 1; any other count raises ValueError and changes nothing |
| D.D.Start | subcircuit/devices/d.py:78-93 | with a model set the read of its parameters raises AttributeError and nothing changes; otherwise the keyword parameters override existing attributes only |
| D.D.MinorStep | subcircuit/devices/d.py:95-107 | a failed voltage read raises and writes nothing; otherwise the in-range entries of the two-terminal pattern of geq are written, a short node list then raises IndexError, and with two nodes bequiv holds -beq, beq, both at the clamped voltage |
| D.D.WriteConductance | subcircuit/devices/d.py:102-105 | the four jac writes are the two-terminal pattern geq, -geq, -geq, geq; on a stamp smaller than 2-by-2 they stop (IndexError) after the entries inside it |
| D.D.WriteSource | subcircuit/devices/d.py:106-107 | the two bequiv writes are -beq at port 0 and beq at port 1 |
| D.CompanionIsTangent | subcircuit/devices/d.py:99-107 | the stamp is the tangent of the diode law at vd: it draws ieq(vd) + geq(vd)*(v0 - v1 - vd), and what enters the diode at port 0 leaves it at port 1 |
| D.CompanionExactAtPoint | subcircuit/devices/d.py:99-101 | at the linearisation point the companion draws exactly the diode current is_*(exp(vd/vt) - 1) |
| Isense.CurrentSensor.constructor | subcircuit/devices/isense.py:24-25 | no internal node: a zero stamp sized by the three user nodes |
| Isense.CurrentSensor.Connect | subcircuit/devices/isense.py:27-31 | exactly three labels become ports 0, 1 and the current node 2, with no internal node created; any other count raises ValueError and changes nothing |
| Isense.CurrentSensor.Start | subcircuit/devices/isense.py:33-37 | jac gets exactly the gyrator on port 2: +1/-1 in column 2 and row 2; bequiv stays zero |
| Isense.CurrentSensor.GetCurrentNode | subcircuit/devices/isense.py:39-40 | the node of port 2 with sign -1, available exactly when connect has mapped port 2 |
| Isense.ZeroVoltBranch | subcircuit/devices/isense.py:33-37 | the stamp is an ammeter: its branch row forces v0 = v1 and the branch current enters the sensor at port 0 and leaves it at port 1 |
| IScope.IScope.constructor | subcircuit/devices/iscope.py:24-27 | one internal node (a zero stamp one larger than the user nodes) and two empty logs |
| IScope.IScope.Connect | subcircuit/devices/iscope.py:29-33 | exactly two labels become ports 0 and 1 and a newly created internal node port 2; any other count raises ValueError and changes nothing |
| IScope.IScope.Start | subcircuit/devices/iscope.py:35-42 | jac gets exactly the gyrator on port 2, as the current sensor's; step does nothing |
| IScope.IScope.PostStep | subcircuit/devices/iscope.py:44-47 | a failed read of port 2 raises and logs nothing; otherwise exactly t and the branch current are appended, keeping the logs aligned |
| IScope.IScope.GetCurrentNode | subcircuit/devices/iscope.py:49-50 | the internal node of port 2 with sign -1, available exactly when connect has mapped port 2 |
| VScope.VScope.constructor | subcircuit/devices/vscope.py:9-12 | no stamp and two empty logs |
| VScope.VScope.Connect | subcircuit/devices/vscope.py:14-30 | exactly two labels become ports 0 and 1; any other count raises ValueError and changes nothing; update, start and step do nothing |
| VScope.VScope.PostStep | subcircuit/devices/vscope.py:32-35 | a failed read raises and logs nothing; otherwise exactly t and the voltage across ports 0 and 1 are appended |
| VScope.VScope3.constructor | subcircuit/devices/vscope.py:39-44 | no stamp and four empty logs |
| VScope.VScope3.Connect | subcircuit/devices/vscope.py:46-60 | exactly four labels become ports 0 to 3, port 3 the reference; any other count raises ValueError and changes nothing |
| VScope.VScope3.PostStep | subcircuit/devices/vscope.py:62-69 | a failed read raises and logs nothing; otherwise t and the three voltages of ports 0, 1, 2 against port 3 are appended, one to each log |
| VScope.BlockEngine | subcircuit/devices/vscope.py:134-137 | a single connection gets a grounded negative lead appended to the caller's own list; the engine is built on that list with empty logs |
| VScope.Block3Engine | subcircuit/devices/vscope.py:221-228 | one to three connections are padded with ground to four, in the caller's list; other lengths are left as they are |
| VScope.PaddedScope3Connects | subcircuit/devices/vscope.py:221-228 | the padded list has the four nodes VScope3 connect unpacks exactly when one to four connections were given |
| Scope.Scope5.constructor | subcircuit/devices/scope.py:25-32 | no stamp and six empty logs |
| Scope.Scope5.Connect | subcircuit/devices/scope.py:34-50 | exactly six labels become ports 0 to 5, port 5 the reference; any other count raises ValueError and changes nothing |
| Scope.Scope5.PostStep | subcircuit/devices/scope.py:52-63 | a failed read raises and logs nothing; otherwise t and the five voltages of ports 0 to 4 against port 5 are appended, one to each log |
| Scope.BlockEngine | subcircuit/devices/scope.py:175-188 | zero to five connections are padded with ground to six, in the caller's list; the engine is built on that list with empty logs |
| X.ZipMap | subcircuit/devices/x.py:46-48 | after the first k pairs the port map's keys are exactly those ports, and a port not repeated later maps to its own node |
| X.ZipLength | subcircuit/devices/x.py:47 | zip stops at the shorter of the definition's ports and the instance's nodes |
| X.X.constructor | subcircuit/devices/x.py:31-40 | no internal node; the definition name and parameters kept, no port map yet |
| X.X.Connect | subcircuit/devices/x.py:42-48 | an unregistered definition name raises KeyError after the map was reset to empty; otherwise the map is exactly ZipMap of the definition's ports and the nodes |
| X.ZipPorts | subcircuit/devices/x.py:46-48 | the zip loop builds exactly ZipMap over ZipLength pairs |
| X.DistinctPortsMapped | subcircuit/devices/x.py:46-48 | with distinct port names every paired port maps to its own node and the map has exactly as many entries as pairs |
| X.DistinctCard | subcircuit/devices/x.py:46-48 | k distinct port names make a key set of size k |
| X.SubcktTable.constructor | netlist.py:201-210 | an empty registry of definitions |
| X.SubcktTable.Register | netlist.py:201-210 | netlist.subckt stores (or replaces) the definition under its name and names the definition |
| X.SlotTable | subcircuit/interfaces.py:250-262 | the definition's device table holds exactly the non-blank slots whose evaluation produced a device, each under its own text; a repeated text keeps its first device |
| X.BlockEngine | subcircuit/devices/x.py:85-102 | a fresh definition on the two port names, registered under the block's name only when a netlist is given, holding SlotTable of the nine slots; the engine is a fresh X on the nodes naming that definition |
| Source.SignalSource.constructor | subcircuit/devices/source.py:25-36 | a stimulus argument sets the stimulus, a number sets no stimulus, anything else leaves the attribute unset; `value` is always the raw argument |
| Source.SignalSource.Connect | subcircuit/devices/source.py:38-40 | only the first label is registered, as port 0; no label raises IndexError and changes nothing |
| Source.SignalSource.Output | subcircuit/devices/source.py:46-56 | the stimulus's output when one is attached, else the raw value; an unset stimulus attribute raises AttributeError and a non-number value TypeError |
| Source.SignalSource.Start | subcircuit/devices/source.py:45-50 | as written, start always raises AttributeError: set_port_value is defined nowhere |
| Source.SignalSource.Step | subcircuit/devices/source.py:52-57 | as written, step always raises AttributeError for the same reason |
| Source.SignalSource.StepIntended | subcircuit/devices/source.py:45-57 | as intended, the output is stored as port 0's value, and an output error raises and stores nothing |
| SumNode.SignsOrDefault | subcircuit/devices/sumnode.py:33-36 | no signs or an empty list gives the default [1, 1, -1]; a non-empty list is kept as given |
| SumNode.DefaultSignsSubtractThird | subcircuit/devices/sumnode.py:33-60 | with the default signs the output is in1 + in2 - in3 |
| SumNode.Sum.constructor | subcircuit/devices/sumnode.py:29-36 | the signs are SignsOrDefault of the argument; no port map, no port values |
| SumNode.Sum.Connect | subcircuit/devices/sumnode.py:38-44 | exactly four labels become the output port 0 and inputs 1 to 3; any other count silently changes nothing |
| SumNode.Sum.Step | subcircuit/devices/sumnode.py:52-62 | as written, a signs list not of three raises ValueError and three signs raise AttributeError: get_port_value is defined nowhere |
| SumNode.Sum.StepIntended | subcircuit/devices/sumnode.py:52-62 | as intended, port 0 gets in1*s1 + in2*s2 + in3*s3 of ports 1 to 3; a missing input raises KeyError and a signs list not of three raises ValueError, both changing nothing |
| SumNode.SignLabel | subcircuit/devices/sumnode.py:121-126 | "+" exactly for sign 1, "_" exactly for -1, "?" exactly otherwise |
| SumNode.InputField | subcircuit/devices/sumnode.py:119-128 | a connected input's field is shown with SignLabel of its sign; an unconnected one is hidden and keeps its text |
| SumNode.ParseAll | subcircuit/devices/sumnode.py:115 | the float() parse of every piece succeeds exactly when each does, and then is each piece's value in order |
| SumNode.SumNodeBlock.constructor | subcircuit/devices/sumnode.py:77-111 | Signs "1 1 -1", the default signs, no input connected, a shown sigma field and three hidden "+" fields |
| SumNode.SumNodeBlock.DesignUpdate | subcircuit/devices/sumnode.py:113-150 | a failed parse raises ValueError and changes nothing; a parse not of three signs stores them and raises ValueError; three signs label or hide the three input fields by InputField, the sigma field untouched |
| SumNode.DefaultSignsText | subcircuit/devices/sumnode.py:109 | the default Signs text splits on spaces into "1", "1" and "-1" |
| SumNode.DefaultTextGivesDefaultSigns | subcircuit/devices/sumnode.py:109-111 | parsed, the default Signs text gives exactly the default signs the block starts with |
| TF.DictSet | subcircuit/devices/tf.py:133 | `d[key] = value` on an insertion-ordered dict: keys stay distinct, an existing key keeps its place and takes the value, a new key goes last, every other entry is untouched |
| TF.Collect | subcircuit/devices/tf.py:129-135 | the collected dict has distinct keys, and each entry comes from one of the first n zipped pairs whose value parsed to exactly that number |
| TF.InsertByLength | subcircuit/devices/tf.py:33 | inserting a name into a list sorted longest first keeps it sorted and adds exactly that name |
| TF.ByLengthDescending | subcircuit/devices/tf.py:33 | sorted(keys, key=len, reverse=True): lengths non-increasing, and a permutation of the keys |
| TF.Keys | subcircuit/devices/tf.py:33 | the dict's keys in order, one per entry |
| TF.Value | subcircuit/devices/tf.py:34 | `parameters[key]` is the value of an entry stored under that key |
| TF.OrderHasKeys | subcircuit/devices/tf.py:33-34 | every name sub_params visits is a key of the dict, so the lookup never fails |
| TF.SubParams | subcircuit/devices/tf.py:32-35 | each parameter name is replaced by its value's text, longest names first; an empty dict leaves the expression as it is |
| TF.SubOperators | subcircuit/devices/tf.py:38-41 | the three operator_subs replacements are applied in table order |
| TF.NoOperatorsLeft | subcircuit/devices/tf.py:27-41 | after sub_operators no caret, multiplication sign or middle dot is left |
| TF.Substituted | subcircuit/devices/tf.py:139-140 | the expression handed to the engine never contains a caret, multiplication sign or middle dot |
| TF.TF.constructor | subcircuit/devices/tf.py:45-50 | a missing or empty equation becomes 1 / (s + 1); any other is kept |
| TF.TF.Connect | subcircuit/devices/tf.py:55-59 | exactly two labels become input port 0 and output port 1; any other count silently changes nothing |
| TF.TF.Step | subcircuit/devices/tf.py:67-70 | as written, step always raises AttributeError: get_port_value is defined nowhere |
| TF.CollectParams | subcircuit/devices/tf.py:129-135 | the zip loop builds exactly Collect over the shorter of the two lists |
| TF.Parameters | subcircuit/devices/tf.py:125-135 | the dict built from the two space-separated texts has distinct keys |
| TF.DefaultParameters | subcircuit/devices/tf.py:106-135 | the block's default texts give exactly the one parameter omega_0 = 100.0 |
| TF.Prepare | subcircuit/devices/tf.py:124-142 | get_engine's computation gives exactly Parameters of the two texts and Substituted of H(s) |
| TF.TFBlock.constructor | subcircuit/devices/tf.py:87-115 | the block starts with H(s) = omega_0 / (s + omega_0) and omega_0 = 100.0, and its debug get_engine call fills the parameter dict and the Sympy Expression property |
| TF.TFBlock.GetEngine | subcircuit/devices/tf.py:124-144 | the block's parameters become Parameters of its texts, the Sympy Expression property becomes Substituted of H(s), and a fresh engine gets both |
| Lti.Zeros | subcircuit/mathutils/lti.py:52 | np.zeros of a shape: that shape, every entry 0 (also lines 148-151) |
| Lti.ZeroVector | subcircuit/mathutils/lti.py:55-60 | an n-long zero column |
| Lti.MatVec | subcircuit/mathutils/lti.py:74-76 | `m.dot(x)`: one entry per row, each the row's inner product with x |
| Lti.Add | subcircuit/mathutils/lti.py:74-76 | the entrywise sum of two columns of one length |
| Lti.Scale | subcircuit/mathutils/lti.py:75 | `dx.dot(dt)`: every entry multiplied by the scalar |
| Lti.MatrixFalsy | subcircuit/mathutils/lti.py:51-52 | `not d`: None is falsy, a one-entry matrix is falsy exactly when that entry is 0, and a larger matrix has no truth value (ValueError) |
| Lti.VectorFalsy | subcircuit/mathutils/lti.py:54-55 | `not xo` by the same rules: None is falsy, and more than one entry has no truth value |
| Lti.Advance | subcircuit/mathutils/lti.py:74-75 | a forward-Euler step keeps the state's size |
| Lti.Output | subcircuit/mathutils/lti.py:76 | y = C x + D u has one entry per row of C |
| Lti.EquilibriumIsFixed | subcircuit/mathutils/lti.py:74-75 | a state where A x + B u vanishes is left unchanged by a step of any length |
| Lti.FixedIsEquilibrium | subcircuit/mathutils/lti.py:74-75 | conversely, a state a step of non-zero length leaves unchanged is an equilibrium |
| Lti.StateSpace.constructor | subcircuit/mathutils/lti.py:26-62 | n, m, l from the shapes of a, b, c; a falsy d becomes an m-by-l zero matrix and a falsy xo an n-long zero column; state and history start at xo, the input at zeros, no output |
| Lti.StateSpace.Reset | subcircuit/mathutils/lti.py:64-68 | state and history back to xo, input back to zeros, the output kept |
| Lti.StateSpace.Step | subcircuit/mathutils/lti.py:70-80 | the input is stored, the state moves one forward-Euler step, the output is read from the new state and returned, and the history follows the state |
| Lti.PadLeft | subcircuit/mathutils/lti.py:131-134 | the numerator right-aligned in n coefficients, zeros in front |
| Lti.Normalized | subcircuit/mathutils/lti.py:138-146 | the list without its leading coefficient, each entry divided by a0 |
| Lti.AsWrittenA | subcircuit/mathutils/lti.py:148-160 | A as the loops fill it: ones on the superdiagonal and the last row -a' in list order |
| Lti.CompanionA | subcircuit/mathutils/lti.py:155-160 | A of the controllable canonical form, the last row -a' reversed |
| Lti.InputColumn | subcircuit/mathutils/lti.py:149-164 | B is an n-by-1 column |
| Lti.OutputRow | subcircuit/mathutils/lti.py:150-161 | C is a 1-by-n row |
| Lti.Feedthrough | subcircuit/mathutils/lti.py:151-167 | D is 1-by-1 holding bo |
| Lti.Coefficients | subcircuit/mathutils/lti.py:128-146 | a' and b' both have one entry fewer than the denominator |
| Lti.TransferFunction.constructor | subcircuit/mathutils/lti.py:88-94 | the equation kept, the gain flag cleared, no state-space system yet |
| Lti.TransferFunction.ResetFromCoefficients | subcircuit/mathutils/lti.py:97-169 | the gain flag is always cleared; a numerator longer than the denominator raises ValueError and a constant denominator IndexError, neither building a system; otherwise a fresh system with A, B, C, D as the code fills them and a zero state |
| Lti.NormalizeInPlace | subcircuit/mathutils/lti.py:131-146 | the truncated, normalised denominator and padded numerator are exactly Normalized of each |
| Lti.FillCompanion | subcircuit/mathutils/lti.py:148-161 | the nested loop writes exactly AsWrittenA into A and OutputRow into C |
| Lti.CompanionEquilibrium | subcircuit/mathutils/lti.py:155-164 | at an equilibrium of the canonical form under input u every state but the first is 0 and a'[n-1] * x[0] == u |
| Lti.CompanionOutput | subcircuit/mathutils/lti.py:161-167 | at such an equilibrium the bo terms cancel and the output is b'[n-1] * x[0] |
| Lti.CanonicalFormDcGain | subcircuit/mathutils/lti.py:124-167 | with the last row reversed, every equilibrium under a constant input u outputs num(0)/den(0) * u, the transfer function's steady state |
| Lti.AsWrittenDcGainWrong | subcircuit/mathutils/lti.py:155-160 | as the code fills A, 1/(s^2 + 3s + 2) has an equilibrium under input 1 whose output is 1/3, where its steady state is 1/2 |
| PPrint.UnicodePrint | subcircuit/mathutils/pprint.py:147-153 | the loop over charmap gives exactly the replacements of the whole table applied in table order |
| PPrint.FoldAppend | subcircuit/mathutils/pprint.py:150-151 | applying a table split in two is applying its first part and then its second |
| PPrint.GreekShape | subcircuit/mathutils/pprint.py:21-44 | every braced Greek name starts with a brace, none has '1' after it, and none brings back an asterisk |
| PPrint.SubscriptsMarked | subcircuit/mathutils/pprint.py:50-80 | every subscript and operator pattern starts with an underscore or a lead character and is at least two long |
| PPrint.SuperscriptsMarked | subcircuit/mathutils/pprint.py:81-107 | every superscript Greek, digit and sign pattern is marked the same way |
| PPrint.SuperscriptLettersMarked | subcircuit/mathutils/pprint.py:108-142 | every superscript letter pattern is marked the same way |
| PPrint.TailShape | subcircuit/mathutils/pprint.py:50-142 | every entry after the fractions' group is marked |
| PPrint.CharMapShape | subcircuit/mathutils/pprint.py:20-142 | after the asterisk entry no replacement holds an asterisk, and every pattern starts with a lead character |
| PPrint.NoAsteriskInOutput | subcircuit/mathutils/pprint.py:20 | unicode_print's output never contains an asterisk (also lines 147-153) |
| PPrint.PlainTextUnchanged | subcircuit/mathutils/pprint.py:20-153 | text without an asterisk, brace, underscore or caret comes back unchanged |
| PPrint.TailInertOnShort | subcircuit/mathutils/pprint.py:50-142 | the entries after the fractions leave a single character, or two whose second is not ASCII, alone |
| PPrint.HeadInertOnFraction | subcircuit/mathutils/pprint.py:20-44 | the asterisk and Greek entries leave {1/2} and {1/4} alone |
| PPrint.SymbolsOnFraction | subcircuit/mathutils/pprint.py:45-49 | a fractions' group of this shape maps {1/2} and {1/4} to the symbols of its third and fourth entries |
| PPrint.FractionThroughTable | subcircuit/mathutils/pprint.py:20-153 | through the whole table a braced fraction is decided by the fractions' group alone |
| PPrint.FractionsSwapped | subcircuit/mathutils/pprint.py:47-48 | as written, {1/2} prints as the quarter sign and {1/4} as the half sign |
| PPrint.FractionsIntended | subcircuit/mathutils/pprint.py:47-48 | with the symbols matched to their names, {1/2} prints as the half sign and {1/4} as the quarter sign |
| PPrint.BetaThroughHead | subcircuit/mathutils/pprint.py:20-44 | before the fractions' group, "_{beta}" has already become an underscore and a plain beta |
| PPrint.SubscriptBetaStaysGreek | subcircuit/mathutils/pprint.py:22-50 | the subscript-beta entry never fires on "_{beta}": the output is an underscore and a plain beta |
| PPrint.GreekOnTheta | subcircuit/mathutils/pprint.py:21-44 | the Greek group turns "{theta}" into a plain theta: only its own entry matches |
| PPrint.FoldAfterLead | subcircuit/mathutils/pprint.py:150-151 | a table none of whose patterns starts with c acts on the text after a leading c alone |
| PPrint.ThetaThroughHead | subcircuit/mathutils/pprint.py:20-44 | before the fractions' group, a marker followed by "{theta}" has already become the marker and a plain theta |
| PPrint.MarkedThetaStaysGreek | subcircuit/mathutils/pprint.py:28 | through the whole table, an underscore or caret followed by "{theta}" prints as that marker and a plain theta (also lines 53 and 80) |
| PPrint.SubscriptThetaStaysGreek | subcircuit/mathutils/pprint.py:28-53 | the subscript-theta entry never fires on "_{theta}": the output is an underscore and a plain theta |
| PPrint.SuperscriptThetaStaysGreek | subcircuit/mathutils/pprint.py:28 | the superscript-theta entry never fires on "^{theta}": the output is a caret and a plain theta (also line 80) |
| Qdl.MinE | subcircuit/qdl.py:1306 | min over floats that may be infinite: one of the two, infinite only when both are, and no larger than either |
| Qdl.MaxE | subcircuit/qdl.py:633 | max of a possibly infinite time and a finite floor: infinite stays infinite, a finite result is the larger of the two (also line 739) |
| Qdl.Appended | subcircuit/qdl.py:330-341 | save's appends: one output sample (time, q, updates), and the old and new value at the same time on the hold; the arrays stay aligned (len(tzoh) == 2*len(tout) - 1) |
| Qdl.DqUpdate | subcircuit/qdl.py:311-328 | no new quantum when dqerr is falsy or not positive, when neither bound is truthy, or when dqmax - dqmin < _EPS; a TypeError exactly when one bound is None; otherwise |dqerr*q| clamped into [dqmin, dqmax] |
| Qdl.Waveform | subcircuit/qdl.py:494-535 | STEP gives u0 before t1 and u1 from t1, CONSTANT u0, RAMP u1 up to t1 and u2 after t2; PWM and NONE leave the value unbound (NameError) |
| Qdl.RampBetween | subcircuit/qdl.py:526-531 | between t1 and t2 a ramp's value is u1 plus the slope times the time since t1 |
| Qdl.RampMeetsEnd | subcircuit/qdl.py:490-492 | a ramp driven by its ramp_slope starts at u1 at t1 and meets u2 exactly at t2 (also lines 526-531) |
| Qdl.Slewed | subcircuit/qdl.py:537-543 | with the slew rate enabled the change from u_prev is bounded by dmax*dq*(time - tlast) and the value lies between u_prev and the target; a change within the bound, or no slew rate, gives the target |
| Qdl.CrossingReachesLevel | subcircuit/qdl.py:572-574 | the scheduled crossing time is where x + d*(t - time) meets the level (also lines 733-735) |
| Qdl.NextCrossing | subcircuit/qdl.py:730-737 | a state atom's next event is the crossing of qhi when d > _EPS, of qlo when d < -_EPS, and never (infinity) exactly when |d| <= _EPS |
| Qdl.CrossingAhead | subcircuit/qdl.py:730-737 | an atom inside its band never schedules a crossing in the past |
| Qdl.SourceNext | subcircuit/qdl.py:557-586 | a ramp, step or sine before t1 waits for t1; a step after t1 and a ramp after t2 never fire; a running ramp waits until u moves one quantum off q; constant, PWM, FUNCTION and NONE never fire (also lines 628-630) |
| Qdl.SourceSlope | subcircuit/qdl.py:635-662 | a source's derivative is ramp_slope for a ramp, the sine's derivative for a sine, else 0 |
| Qdl.InterpolatedIsSecantZero | subcircuit/qdl.py:720-726 | the interpolated q is where the secant of the derivative across the band vanishes |
| Qdl.DerivativeArgAsWritten | subcircuit/qdl.py:637-638 | `if not q: q = self.q`: any non-zero argument is used as given (also lines 750-751) |
| Qdl.ZeroEdgeEvaluatedAtQ | subcircuit/qdl.py:721-751 | as written, f(self.qlo) with the band edge at 0 is evaluated at the atom's own q instead |
| Qdl.DerivativeArg | subcircuit/qdl.py:635-638 | as intended, only a missing argument falls back to the atom's own q (also lines 748-751) |
| Qdl.Device.constructor | subcircuit/qdl.py:1801-1805 | a named device with no atoms |
| Qdl.Device.AddAtom | subcircuit/qdl.py:1807-1816 | the atom is appended and the device becomes its owner |
| Qdl.Connection.constructor | subcircuit/qdl.py:1840-1859 | the atoms, coefficient and coefficient function kept, no device; `other` now broadcasts to `atom` |
| Qdl.Atom.StateAtom | subcircuit/qdl.py:100-166 | an integrating atom at x0 with q == q0 == x0, an empty band at 0, clocks at 0, its quanta and step bounds as given, nothing connected (also lines 670-679) |
| Qdl.Atom.SourceAtom | subcircuit/qdl.py:458-492 | the atom starts at u0 (x0 = u = u0); a ramp then holds u1 as its u0; ramp_slope is (u2 - u1)/(t2 - t1) when t2 > t1, else 0 |
| Qdl.Atom.AddConnection | subcircuit/qdl.py:168-177 | a fresh connection from `other` owned by this atom's device is appended to the connections, and `other` broadcasts to this atom |
| Qdl.Atom.AddJacfunc | subcircuit/qdl.py:179-181 | the (atom, function) pair is appended |
| Qdl.Atom.Broadcast | subcircuit/qdl.py:305-309 | every atom this one broadcasts to is flagged triggered, except this atom itself |
| Qdl.Atom.UpdateDq | subcircuit/qdl.py:311-328 | a new quantum from DqUpdate re-centres the band on q (qlo = q - dq, qhi = q + dq); otherwise nothing changes; the band stays 2*dq wide |
| Qdl.Atom.Save | subcircuit/qdl.py:330-341 | a sample is appended exactly when the time differs from the last output time or the save is forced; otherwise nothing changes |
| Qdl.Atom.Initialize | subcircuit/qdl.py:196-253 | the clock starts at t0 with no event pending; a state atom restarts from x0, a source evaluates its waveform (raising for PWM and NONE); q, q0 and the saved pair take x, the band is centred on q, and the arrays hold one sample |
| Qdl.Atom.Restart | subcircuit/qdl.py:210-245 | q, q0 and the saved pair take v, the band is centred on v, the update count is 0 and each array holds the one sample at t0 |
| Qdl.Atom.SetState | subcircuit/qdl.py:183-194 | x takes the value; without quantize q does too and the band is centred on it; with quantize a state atom quantises without interpolation and a source raises TypeError |
| Qdl.Atom.DintState | subcircuit/qdl.py:681-687 | x += d*(time - tlast), then tlast = time, and x is returned |
| Qdl.Atom.DintSource | subcircuit/qdl.py:494-550 | u_prev keeps u; the waveform, slew-limited by dmax*dq*(time - tlast) when enabled, becomes u, x and q, and tlast catches up; PWM and NONE raise and change only u_prev |
| Qdl.Atom.QuantizeState | subcircuit/qdl.py:689-728 | x is kept and q, the band, d and interp are exactly Quantize as written: leaving the band upwards makes q the old qhi, downwards the old qlo, and the band moves one quantum with it; inside the band nothing moves; qhi == qlo + 2dq; after an implicit crossing d is f at the crossed q, and q is interpolated exactly when d changed sign and the edge derivatives differ, those taken through `f(q)` as written, so a band edge at 0 is evaluated at the crossed q |
| Qdl.Atom.QuantizeStateIntended | subcircuit/qdl.py:689-728 | the same new q, band, d and interp as Quantize with the band-edge derivatives taken at the edges themselves; an interpolated q is the zero of the secant across the new band |
| Qdl.Atom.Ta | subcircuit/qdl.py:557-633 | the next event time is NextCrossing (state) or SourceNext (source) floored at tlast + dtmin, so never earlier than tlast + dtmin (also lines 730-739) |
| Qdl.Atom.IntegrateState | subcircuit/qdl.py:261-268 | a state atom: d0 and the first d are f at the old q, x moves to Dint of the old x along that d from tlast to the clock, tlast catches up, and q, band, d follow Quantize as written (also lines 681-728) |
| Qdl.Atom.IntegrateSource | subcircuit/qdl.py:545-555 | a source: d is its slope, u_prev the old u; a waveform error is raised with x, q, band and tlast kept; otherwise u is the waveform slewed by dmax*dq*(time - tlast), and x and q follow u with tlast at the clock |
| Qdl.Atom.Schedule | subcircuit/qdl.py:268-277 | tnext is NextCrossing of the band quantize left (state) or SourceNext with the quantum before the revision (source), floored at tlast + dtmin; a move of q is then published as Published says, and otherwise nothing else changes |
| Qdl.Atom.FollowState | subcircuit/qdl.py:261-277 | the state half of update: FollowedState, i.e. x, q, d, d0, tlast as IntegrateState says, tnext from the band quantize left, and the move of q published |
| Qdl.Atom.FollowSource | subcircuit/qdl.py:261-277 | the source half of update: FollowedSource, i.e. u, x, q, tlast as IntegrateSource says or the waveform error raised, tnext from SourceNext, and the move of q published |
| Qdl.Dint | subcircuit/qdl.py:681-687 | dint's move x + d*(time - tlast): x stays when no time passed or d is 0, and grows when d > 0 and time passed |
| Qdl.EdgeArg | subcircuit/qdl.py:637-638 | the point f is evaluated at for a band edge: the edge itself when non-zero or when intended, the crossed q for an edge at exactly 0 as written (also lines 721-722) |
| Qdl.Quantize | subcircuit/qdl.py:689-728 | quantize on values: the band moves up one quantum (q = old qhi) when x >= qhi, down (q = old qlo) when x <= qlo, else nothing moves; qhi == qlo + 2dq; without implicit no interpolation and d kept; after an implicit crossing d = f(crossed q); interp exactly when that d and the old d have opposite signs and the edge derivatives differ, q then being Interpolated over the new band |
| Qdl.Atom.Publish | subcircuit/qdl.py:273-277 | once q moved off q0: the sample is saved (appended when the clock differs from the last output time), q0 catches up, the listeners other than the atom are flagged, and the quantum is revised by DqUpdate with the band re-centred on q, or its TypeError raised |
| Qdl.Atom.Update | subcircuit/qdl.py:255-277 | the clock moves to t, the update count grows by one and triggered is false afterwards even when the atom broadcasts to itself; then Followed: the new x, q, d, tlast and tnext are the ones FollowState or FollowSource state, tnext no earlier than tlast + dtmin, and a move of q is published to every other listener |
| Qdl.Atom.Follow | subcircuit/qdl.py:261-277 | update after the clock moved: Followed of the values before it (the new x, q, d, band, tlast, tnext == MaxE(NextCrossing or SourceNext, tlast + dtmin) and the publication); on success tlast == time and q0 == q |
| Qdl.Filled | subcircuit/qdl.py:858-862 | a falsy atom dtmin or dmax takes the system's; a truthy one is kept |
| Qdl.StatesOf | subcircuit/qdl.py:868-871 | the state atoms of a sequence, in order |
| Qdl.SourcesOf | subcircuit/qdl.py:873-876 | the source atoms of a sequence, in order |
| Qdl.FiltersSplit | subcircuit/qdl.py:868-876 | every atom is numbered in exactly one of the two lists |
| Qdl.Earliest | subcircuit/qdl.py:1303-1306 | min over tnext: no later than any atom's pending event, and either infinite or some atom's tnext |
| Qdl.NextTimeBounds | subcircuit/qdl.py:1308-1309 | the new time never passes tstop; short of tstop it moves at least _EPS and lands on the earliest event when that is later; with nothing pending it jumps to tstop |
| Qdl.System.constructor | subcircuit/qdl.py:770-831 | a falsy dtmin or dmax takes DEF_DTMIN or DEF_DMAX; no devices, atoms or events; slew rate disabled |
| Qdl.System.Schedule | subcircuit/qdl.py:833-838 | the callback is appended to the list for its time, which is created when missing; every other time keeps its list |
| Qdl.System.Number | subcircuit/qdl.py:868-876 | a state atom takes index n and joins the state list, a source index m and the source list, and the count grows by one; numbering stays consecutive |
| Qdl.System.Enroll | subcircuit/qdl.py:858-876 | one atom: falsy dtmin and dmax filled from the system, the device its owner, appended to atoms and numbered in its list |
| Qdl.System.EnrollNext | subcircuit/qdl.py:844-876 | one turn of add_device's loop keeps the progress invariant for one more atom |
| Qdl.System.Start | subcircuit/qdl.py:844 | add_device's loop starts with no atom enrolled |
| Qdl.System.EnrollAll | subcircuit/qdl.py:844-876 | the atoms are enrolled in order until one has a falsy quantum; with fresh distinct atoms state and source indices stay 0..n-1 and 0..m-1 in insertion order |
| Qdl.System.EnrollLoop | subcircuit/qdl.py:844-876 | the loop stops at the first atom with a falsy quantum or at the end |
| Qdl.System.AddDevice | subcircuit/qdl.py:840-878 | the device is recorded and its atoms enrolled in order; an atom with a falsy quantum raises AttributeError after the ones before it; on success the device is reachable by its name and the numbering stays consecutive |
| Qdl.System.SaveState | subcircuit/qdl.py:891-897 | tsave takes the clock and every atom keeps its q and x |
| Qdl.System.RestoreAtom | subcircuit/qdl.py:916-921 | an atom takes back its saved q and x with its band centred on q; never saved raises AttributeError, no quantum TypeError |
| Qdl.System.RestoreState | subcircuit/qdl.py:912-921 | the clock goes back to tsave and every atom is restored, or the first failing atom's error is raised |
| Qdl.System.EarliestEvent | subcircuit/qdl.py:1303-1306 | advance's first loop finds exactly Earliest of the atoms |
| Qdl.System.Visit | subcircuit/qdl.py:1313-1321 | one atom.update(self.time): that atom's clock is the system's, and every other atom keeps its clock and its pending event |
| Qdl.System.SweepAt | subcircuit/qdl.py:1311-1313 | one turn of the second loop updates atom j when it is due or the run is over |
| Qdl.System.Sweep | subcircuit/qdl.py:1311-1313 | every atom due by the new time, or every atom once the clock reached tstop, is updated to the new time; no other clock moves elsewhere |
| Qdl.System.Pass | subcircuit/qdl.py:1317-1321 | one pass updates the triggered atoms; a quiet pass leaves none triggered |
| Qdl.System.PassAt | subcircuit/qdl.py:1319-1321 | one turn of a pass updates atom j exactly when it is triggered |
| Qdl.System.Settle | subcircuit/qdl.py:1315-1324 | the trigger loop runs at most _MAXITER passes and, when it stops earlier, leaves no atom triggered |
| Qdl.System.Respond | subcircuit/qdl.py:1311-1324 | the due atoms are updated to the new time, then the triggered ones until quiet or _MAXITER |
| Qdl.System.Clock | subcircuit/qdl.py:1303-1309 | time' = min(max(min tnext, time + _EPS), tstop), so time' <= tstop |
| Qdl.System.Advance | subcircuit/qdl.py:1301-1324 | the clock moves to NextTime of the earliest pending event and never past tstop; every due atom is updated to it; the trigger loop runs at most _MAXITER passes and, finishing early, leaves no atom triggered |
| Qdl.IntendedInterpolationZerosSecant | subcircuit/qdl.py:719-751 | for every input of Quantize with the edges evaluated at the edges, an interpolated q zeroes the derivative secant through (qlo, f(qlo)) and (qhi, f(qhi)) of the new band |
| Qdl.ZeroEdgeMissesRoot | subcircuit/qdl.py:719-751 | for f(v) = 0.25 - v, q 0 in band [-0.5, 0.5], dq 0.5 and x reaching 0.5: the band moves to [0, 1] and d turns from 0.25 to -0.25; as written Quantize interpolates q = -0.5, where f is not 0; as intended q = 0.25, the root |
| LimNode.Aii | subcircuit/devices/qss/limnode.py:55-57 | -g/c: a ZeroDivisionError exactly when c is 0, otherwise the value times c is -g, negative for positive g and c |
| LimNode.Bii | subcircuit/devices/qss/limnode.py:59-61 | 1/c: a ZeroDivisionError exactly when c is 0, otherwise the value times c is 1 |
| LimNode.Aij | subcircuit/devices/qss/limnode.py:63-65 | -1/c: a ZeroDivisionError exactly when c is 0, otherwise the value times c is -1 |
| LimNode.Aji | subcircuit/devices/qss/limnode.py:67-69 | 1/c: a ZeroDivisionError exactly when c is 0, otherwise the value times c is 1 |
| LimNode.Couplings | subcircuit/devices/qss/limnode.py:55-69 | aij == -aji, aii == g*aij and bii == aji whenever c is nonzero, and all fail together when it is 0 |
| LimNode.LimNode.constructor | subcircuit/devices/qss/limnode.py:30-45 | h is a constant source at the given current and voltage a state at v0 with coefficient function aii, both with quantum dq, added in that order; voltage has exactly one connection, from h through bii, h broadcasts to voltage, and voltage's one Jacobian entry is (voltage, aii) |
| LimNode.LimNode.Coefficient | subcircuit/devices/qss/limnode.py:55-69 | the coefficient functions looked up by name on the node: aii and bii evaluate as above, an unknown name has no attribute |
| LimNode.LimGround.constructor | subcircuit/devices/qss/limnode.py:76-83 | one constant source atom "source" at 0 V with a quantum of 1, owned by the device |
| LimBranch.Aii | subcircuit/devices/qss/limbranch.py:42-44 | -r/l: a ZeroDivisionError exactly when l is 0, otherwise the value times l is -r, negative for positive r and l |
| LimBranch.Bii | subcircuit/devices/qss/limbranch.py:46-48 | 1/l: a ZeroDivisionError exactly when l is 0, otherwise the value times l is 1 |
| LimBranch.Aij | subcircuit/devices/qss/limbranch.py:50-52 | 1/l: a ZeroDivisionError exactly when l is 0, otherwise the value times l is 1 |
| LimBranch.Aji | subcircuit/devices/qss/limbranch.py:54-56 | -1/l: a ZeroDivisionError exactly when l is 0, otherwise the value times l is -1 |
| LimBranch.Couplings | subcircuit/devices/qss/limbranch.py:42-56 | aij == bii == -aji and aii == r*aji whenever l is nonzero, and all fail together when it is 0 |
| LimBranch.LimBranch.constructor | subcircuit/devices/qss/limbranch.py:15-30 | e is a constant source at the given voltage and current a state at i0 with coefficient function aii, both with quantum dq, added in that order; current has exactly one connection, from e through bii, e broadcasts to current, and current's one Jacobian entry is (current, aii) |
| LimBranch.LimBranch.Coefficient | subcircuit/devices/qss/limbranch.py:42-56 | the coefficient functions looked up by name on the branch: aii and bii evaluate as above, an unknown name has no attribute |
| Interfaces.BaseNodes | subcircuit/interfaces.py:40-44 | a bare int becomes a one-element node tuple holding that node; any other argument is kept as the list given |
| Interfaces.MNASize | subcircuit/interfaces.py:194-198 | the stamp size is the number of nodes plus internals, and it exists exactly when a node list was given and the size is not negative; a bare int raises TypeError |
| Interfaces.MNAOverridesBase | subcircuit/interfaces.py:40-44 | a single int node satisfies the base class but fails the MNA subclass; a node list sizes the stamp at one row per node plus one per internal (also lines 194-198) |
| Interfaces.PyIndex | subcircuit/interfaces.py:99 | numpy indexing succeeds exactly for -len <= i < len and reads the i-th entry for a non-negative index |
| Interfaces.PortValue | subcircuit/interfaces.py:99-125 | a port's node value: TypeError before connect (port2node is None), KeyError for an unknown port, otherwise the value at the port's node |
| Interfaces.Across | subcircuit/interfaces.py:98-127 | succeeds exactly when both port reads succeed; the first port's value minus the second's when the second port is truthy, the first port's value alone otherwise |
| Interfaces.PortZeroIsGround | subcircuit/interfaces.py:100-126 | passing port 0 as the second port measures against ground, exactly as omitting it |
| Interfaces.AcrossAntisymmetric | subcircuit/interfaces.py:124-127 | between two non-zero ports, swapping them negates the reading |
| Interfaces.NodeValue | subcircuit/interfaces.py:121-122 | a raw node label indexes the vector: a string label raises IndexError, an int label is numpy indexing |
| Interfaces.NodeDifference | subcircuit/interfaces.py:121-122 | succeeds exactly when both labels can be read, and is then the first value minus the second |
| Interfaces.GetAcross | subcircuit/interfaces.py:104-131 | 0.0 before setup; with an external device, KeyError for an unknown name and otherwise the difference of the values at its first two node labels; without one, the port form on across_last |
| Interfaces.GetAcrossHistory | subcircuit/interfaces.py:81-102 | without a device, the port form on across_history; with a device of two or more nodes, across_history[0] minus across_history[1] whatever its nodes are |
| Interfaces.GetAcrossHistoryIntended | subcircuit/interfaces.py:81-102 | with a device of two or more nodes, succeeds exactly when its first two node labels can be read on the history vector; without one, agrees with get_across_history |
| Interfaces.IntendedHistoryMatchesGetAcross | subcircuit/interfaces.py:81-131 | on the same vector the intended device reading of the history equals get_across's device reading |
| Interfaces.HistoryOfDeviceIgnoresNodes | subcircuit/interfaces.py:93-97 | a resistor on nodes 2 and 3 at 5 V and 1 V has a history reading of 0 V as written and 4 V as intended |
| Interfaces.GetModel | subcircuit/interfaces.py:200-207 | a model is found exactly when its name is registered, and it is the registered one |
| Interfaces.DeviceRef.constructor | subcircuit/interfaces.py:47-49 | a device starts with no name and no parent definition |
| Interfaces.Subckt.constructor | subcircuit/interfaces.py:235-248 | a definition starts with its ports and no devices |
| Interfaces.Subckt.Device | subcircuit/interfaces.py:250-262 | returns True exactly for an unused name, then adds the device under it, names it and links it back; a used name changes nothing |
| Interfaces.LookupAll | netlist.py:173-177 | one node index per label |
| Interfaces.LookupAllSpec | netlist.py:173-177 | after registering a device's labels each label names the index returned for it, every index is a valid node, earlier labels keep their index and no internal node is created |
| Interfaces.PortMap | subcircuit/devices/r.py:53-54 | port p maps to the p-th node index, and only ports 0 to n-1 are mapped |
| Interfaces.ConnectNodes | subcircuit/interfaces.py:78-79 | looking up each label in turn leaves the netlist's registry as the abstract registration does and builds that port map (also subcircuit/devices/r.py:51-54) |
| Interfaces.NewStamp | subcircuit/interfaces.py:197-198 | fresh n-by-n jac and n-row bequiv, all zero |
| Interfaces.TwoTerminal | subcircuit/devices/r.py:62-65 | the pattern is symmetric, g on the diagonal and -g off it, and each row sums to zero |
| Interfaces.Opposed | subcircuit/devices/i.py:63-64 | the right-hand side is x at port 0 and its negation at port 1 |
| Interfaces.Gyrator | pyspyce/devices/v.py:79-82 | +1 and -1 tie the branch port to the two terminals, symmetric about the diagonal |
| Interfaces.TwoTerminalConserves | subcircuit/devices/r.py:62-65 | a two-terminal stamp draws g(v0 - v1) - x into port 0 and returns the same at port 1 (also subcircuit/devices/i.py:52-64) |
| Interfaces.ReadAll | subcircuit/devices/scope.py:53-57 | a scope's readings succeed exactly when every port reading does, one per port; on failure, the error is that of the first port that fails |
| Interfaces.PyList.constructor | subcircuit/devices/scope.py:175 | the caller's list holds the labels given |
| Interfaces.PyList.ExtendGround | subcircuit/devices/scope.py:176-187 | `nodes += [0] * k` appends k ground labels in place |
| Interfaces.Padded | subcircuit/devices/scope.py:175-188 | a list shorter than the engine's port count (and at least the lower bound) is padded with ground to that count; any other list is unchanged; the original labels stay first |
| Interfaces.OverrideSpec | subcircuit/devices/s.py:120-131 | the attribute set is unchanged; an attribute takes the parameter's value when one is given and keeps its own otherwise |
| Interfaces.Override | subcircuit/devices/s.py:122-125 | the per-key loop produces exactly that override |
| Interfaces.KeywordsWin | subcircuit/devices/s.py:120-131 | model parameters then keyword parameters: keywords win, the model fills what they leave, unknown keys never appear (also subcircuit/devices/d.py:80-93) |
| Interfaces.Scan | subcircuit/interfaces.py:329-331 | the cursor loop stops at the first knot not below x at or after the cursor, or at the last knot |
| Interfaces.Lerp | subcircuit/interfaces.py:333-335 | interpolation is defined exactly on a bracket of distinct knots and reproduces both end values |
| Interfaces.InterpAt | subcircuit/interfaces.py:323-335 | an empty table raises IndexError; inputs at or beyond either end give the end value and keep the cursor; the cursor never moves back; the only other error is a zero division |
| Interfaces.LerpBetween | subcircuit/interfaces.py:335 | interpolating inside a bracket stays between the bracket's two values |
| Interfaces.InterpBracket | subcircuit/interfaces.py:323-335 | on a strictly increasing table, an interior input reached with a cursor not past it lands in its true bracket and the output lies between that bracket's values |
| Interfaces.InterpAtKnot | subcircuit/interfaces.py:323-335 | at an interior knot the table returns that knot's output exactly |
| Interfaces.InterpStaleBracket | subcircuit/interfaces.py:329-332 | the cursor never moves back, so after 1.5 a smaller input 0.5 is extrapolated on the stale bracket (1.5 rather than 0.5) |
| Interfaces.Table.constructor | subcircuit/interfaces.py:302-314 | the inputs and outputs are the pairs' components in order, and the cursor is 0 |
| Interfaces.Table.Interp | subcircuit/interfaces.py:316-335 | the result and the new cursor are those of the interpolation function from the old cursor |
| Stimuli.RampFraction | subcircuit/stimuli.py:80-85 | the rise and fall fractions taken inside their intervals lie in [0, 1) |
| Stimuli.TowardBetween | subcircuit/stimuli.py:81-85 | a ramp from one level toward the other stays between the two levels |
| Stimuli.LinearRampBetween | subcircuit/stimuli.py:81-85 | the rise and fall ramps of the pulse, taken inside their intervals, stay between the two levels |
| Stimuli.PulseShape | subcircuit/stimuli.py:78-87 | one period of the pulse never leaves the range between V1 and V2, is V2 on the plateau and V1 outside the pulse |
| Stimuli.PulseCorners | subcircuit/stimuli.py:45-51 | the pulse passes through the corners of the documented table: V1 at TD, V2 at TD+TR and TD+TR+PW, V1 at TD+TR+PW+TF (also lines 78-87) |
| Stimuli.ModPeriod | subcircuit/stimuli.py:77 | `t %= per` fails exactly for a zero period (ZeroDivisionError); an infinite period leaves a non-negative time as it is |
| Stimuli.Pulse.constructor | subcircuit/stimuli.py:24-63 | the stimulus holds its arguments; omitted durations and period stay None until start |
| Stimuli.Pulse.Start | subcircuit/stimuli.py:65-74 | only the missing durations take the time step and a missing period becomes infinite; the output is V1 |
| Stimuli.Pulse.Step | subcircuit/stimuli.py:76-87 | a period still None is a TypeError and a zero period a ZeroDivisionError; with a period, a rise time still None is a TypeError; otherwise the value is PulseAt of the time modulo the period; with every duration set it fails exactly for a None or zero period, and it stays between V1 and V2 |
| Stimuli.PulseAt | subcircuit/stimuli.py:78-87 | with pw and tf set, the pulse shape; a None pw raises exactly when t is outside the rise [td, td+tr), a None tf exactly when t >= td+tr+pw outside the rise, as the short-circuiting comparisons reach them; any value lies between V1 and V2 |
| Stimuli.PulsePeriodic | subcircuit/stimuli.py:77 | with a finite non-zero period the output repeats after one period |
| Stimuli.PulseOnce | subcircuit/stimuli.py:72-87 | with no period the pulse happens once: after the fall the output holds V1 |
| Stimuli.Sin.constructor | subcircuit/stimuli.py:103-132 | the stimulus holds its arguments |
| Stimuli.Sin.Step | subcircuit/stimuli.py:138-148 | the output is 0.0 before the delay |
| Stimuli.Sin.Start | subcircuit/stimuli.py:134-136 | start is step at time 0: 0.0 for a positive delay |
| Stimuli.SinBeforeDelayIsZero | subcircuit/stimuli.py:122-141 | before the delay a SIN source with a non-zero offset outputs 0 instead of the documented offset VO |
| Stimuli.ExpStart | subcircuit/stimuli.py:181-189 | falsy time constants become dt and a falsy fall delay becomes td1 + dt; every other parameter is kept; with a non-zero dt both time constants are then truthy |
| Stimuli.ExpTail | subcircuit/stimuli.py:199-202 | the exponential expression succeeds exactly when both time constants are truthy and the fall delay is set; its errors follow evaluation order: missing tau1 TypeError, zero tau1 ZeroDivisionError, then missing td2 or tau2 TypeError, then zero tau2 ZeroDivisionError |
| Stimuli.ExpStep | subcircuit/stimuli.py:191-202 | v1 only when t is at most 0 and before td1; otherwise the exponential expression with a constant 1.0 in place of v1 (the middle branch cannot be taken) |
| Stimuli.ExpRise | subcircuit/stimuli.py:195-197 | the rise alone as the middle branch evidently means it: succeeds exactly for a truthy tau1 (None TypeError, 0 ZeroDivisionError) and is v1 at td1 when exp(0) = 1 |
| Stimuli.ExpStepIntended | subcircuit/stimuli.py:191-202 | v1 before td1; from td1 a None td2 is a TypeError; the rise alone between td1 and td2; from td2 rise plus fall built on v1 |
| Stimuli.ExpIntendedJoinsAtTd2 | subcircuit/stimuli.py:195-202 | the intended waveform does not jump at td2: rise plus fall there equals the rise alone |
| Stimuli.ExpStepOffset | subcircuit/stimuli.py:193-202 | with equal delays at the delay time the output is 1.0 as written and v1 = 0.0 as intended |
| Stimuli.ExpIntendedStartsAtV1 | subcircuit/stimuli.py:170-202 | the intended waveform starts at v1 at its rise delay whenever the fall delay is no earlier |
| Stimuli.PwlLists | subcircuit/stimuli.py:216-225 | the constructor never has fewer times than values |
| Stimuli.PwlListsIntended | subcircuit/stimuli.py:216-225 | the intended constructor keeps times and values of equal length, at most one per argument pair |
| Stimuli.PwlListsIntendedKeeps | subcircuit/stimuli.py:219-224 | each kept time sits next to its own value, both from one convertible argument pair |
| Stimuli.PwlListsAgree | subcircuit/stimuli.py:219-224 | when every pair converts fully or not at all, the constructor as written and as intended agree |
| Stimuli.PwlListsSnoc | subcircuit/stimuli.py:219-224 | one more argument pair extends the lists exactly as the loop body does, as written and as intended |
| Stimuli.PwlMisaligned | subcircuit/stimuli.py:221-222 | (0, 1), (1, "x") leaves times [0, 1] and values [1] as written, times [0] and values [1] as intended |
| Stimuli.PwlInterp | subcircuit/stimuli.py:234-245 | an empty table raises IndexError; inputs at or beyond either end read the first or last value with Python's index rules |
| Stimuli.PwlIsTableInterp | subcircuit/stimuli.py:234-245 | with aligned lists the PWL interpolation is the lookup table's interpolation from a fresh cursor (also subcircuit/interfaces.py:323-335) |
| Stimuli.PwlMisalignedInterp | subcircuit/stimuli.py:237-245 | on misaligned lists a late input reads the first pair's value, and an interior input raises IndexError |
| Stimuli.Pwl.constructor | subcircuit/stimuli.py:216-225 | the lists are those the constructor loop builds from the arguments |
| Stimuli.Pwl.Interp | subcircuit/stimuli.py:234-245 | the index loop gives the PWL interpolation function's result |
| Stimuli.Pwl.Step | subcircuit/stimuli.py:230-232 | step interpolates at the device's simulation time |
| Netlist.Decimal | netlist.py:182 | str() of a non-negative int has at least one digit, and two or more exactly from 10 on |
| Netlist.DecimalInjective | netlist.py:182 | different counters print differently |
| Netlist.InternalKeyInjective | netlist.py:182 | different counters give different 'internal<k>' keys |
| Netlist.PreloadedInvariants | netlist.py:29-31 | the preloaded registry (0, 'ground', 'gnd' on node 0, next index 1) is bounded, distinct apart from ground and dense |
| Netlist.LookupSpec | netlist.py:173-177 | a known key keeps its index and changes nothing; a new key gets the old nodenum, an index not yet used, and nodenum grows by one; no other key changes |
| Netlist.LookupInvariants | netlist.py:173-177 | get_node_index keeps the registry bounded, distinct and dense |
| Netlist.InternalSpec | netlist.py:179-184 | create_internal returns the old nodenum under 'internal<internalnum>', bumps both counters and leaves every other key alone |
| Netlist.InternalInvariants | netlist.py:179-184 | without a key collision create_internal keeps the registry distinct and dense |
| Netlist.InternalCollisionOrphans | netlist.py:183 | when 'internal<k>' already names a node, create_internal overwrites it and no key holds that node any more |
| Netlist.SumSwap | netlist.py:74-78 | a finite double sum can be taken in either order |
| Netlist.DevJacTranspose | netlist.py:74-78 | two devices on the same nodes with transposed local matrices contribute transposed system entries |
| Netlist.DevJacSymmetric | netlist.py:74-78 | a device with a symmetric local jac contributes symmetrically |
| Netlist.NetJacSymmetric | netlist.py:69-78 | when every device's local jac is symmetric, the assembled jac is symmetric |
| Netlist.NetJacAppend | netlist.py:74-78 | the assembled jac is additive over the device list |
| Netlist.NetRhsAppend | netlist.py:74-76 | the assembled bequiv is additive over the device list |
| Netlist.ReducedJac | netlist.py:154 | the system given to the solver drops the ground row and column: n-1 rows of n-1 entries |
| Netlist.ReducedRhs | netlist.py:154 | the right-hand side given to the solver drops the ground entry: n-1 entries |
| Netlist.CheckConvergence | netlist.py:160-166 | converged exactly when every pair of the old and new iterates is within tol |
| Netlist.MangleAll | netlist.py:63-64 | one registration per subcircuit device, under '<instance>_<device>' |
| Netlist.PlaceLastWins | netlist.py:63-65 | every registered name is present; the last registration under a name decides its entry; other names keep their entries |
| Netlist.PlaceLastName | netlist.py:63-66 | a device object's final name is the one its last registration gave; unregistered objects keep their names |
| Netlist.PlaceNameIsLater | netlist.py:62-66 | the final name of a registered device comes from that registration or a later one |
| Netlist.PlacementsAt | netlist.py:62-64 | the j-th device of instance i is registered at a known place, under its mangled name |
| Netlist.FlattenAliases | netlist.py:62-66 | two instances of one definition register the very same device object under both mangled names, and that object keeps only the later name |
| Netlist.PlaceUnique | netlist.py:63-65 | without collisions every registration survives under its own name |
| Netlist.PlaceRenamed | netlist.py:63-66 | without collisions a device registered again later does not keep its earlier name |
| Netlist.PlacementsPrefixGrow | netlist.py:62-64 | a later instance's registrations all come after an earlier instance's |
| Netlist.Netlist.constructor | netlist.py:20-42 | a new netlist has the preloaded registry, no devices, no arrays and is not converged |
| Netlist.Netlist.GetNodeIndex | netlist.py:173-177 | the registry and index are those of the abstract lookup |
| Netlist.Netlist.CreateInternal | netlist.py:179-184 | the registry and index are those of the abstract create_internal |
| Netlist.Netlist.Stamp | netlist.py:69-78 | every system entry is the sum of every device's contributions at that node pair |
| Netlist.Netlist.Setup | netlist.py:80-97 | the vectors are nodenum zeros, the matrix nodenum by nodenum, and then holds the assembled stamp |
| Netlist.Netlist.MinorStep | netlist.py:135-171 | restamps; succeeds exactly when the solver does, then across below ground is the solution and convergence is the tol test against the previous iterate; a failure leaves across and converged alone; across_last becomes across |
| Netlist.Netlist.Step | netlist.py:99-120 | at most maxitr iterations; success means converged or maxitr reached, converged implies success; the first iteration starts from the old across_last; a successful step ends on the solution of its last iteration, with converged comparing it with the iterate before; a failure is the solver refusing the last system, before maxitr and unconverged, with across kept at the last good iterate; ground stays put; across_last and across_history end equal to across |
| Netlist.Netlist.Flatten | netlist.py:45-66 | the devices dict and the device names end as the abstract flattening leaves them |
| Netlist.Netlist.RemoveInstances | netlist.py:54-58 | the X instances leave the devices dict, each collected with its definition, and every other device stays |
| Netlist.Netlist.RegisterInstance | netlist.py:63-66 | one instance's devices are registered and renamed as the abstract registration does |
| Netlist.Assemble | netlist.py:72-78 | after zeroing and scatter-adding, every system entry is the sum of the devices' contributions |
| Netlist.AddStamp | netlist.py:75-78 | one device's contributions are added on top of the entries already there |
| Netlist.AddSources | netlist.py:75-76 | one device's local source vector is added to the system vector |
| Netlist.AddRows | netlist.py:75-78 | one device's local matrix is added to the system matrix |
| Circuit.Transpose | circuit.py:50 | the transposed local matrix has entry (p, q) equal to the original's (q, p) |
| Circuit.Ports | circuit.py:45-49 | one (port, node) pair per entry of the node list, duplicates included, the port looked up in node2port |
| Circuit.Plains | netlist.py:74-78 | one local stamp per device, read without transposition as the netlist does |
| Circuit.LocalsFit | circuit.py:44-50 | the devices of an n-node system give local stamps that fit the n-node arrays |
| Circuit.CircuitStampTransposed | circuit.py:50 | the assembled entry (i, j) is the entry (j, i) the netlist's stamp would assemble from the same devices (also netlist.py:78) |
| Circuit.CircuitMatchesNetlistWhenSymmetric | circuit.py:50 | when every local matrix is symmetric the two engines assemble the same system (also netlist.py:78) |
| Circuit.NodeCount | circuit.py:58-61 | the node count exists exactly when every device has a node, is at least the starting count, exceeds every device node, and is either the start or one past some device node |
| Circuit.Highest | circuit.py:60 | max of a non-empty list is one of its elements and no element exceeds it |
| Circuit.AddAllFirstWins | circuit.py:123-124 | under repeated add_device, the first device added under a new name keeps it |
| Circuit.AddAllAbsent | circuit.py:123-124 | a name never added stays absent |
| Circuit.SubCircuit.constructor | circuit.py:14-36 | a new subcircuit has no nodes, no devices and is not converged |
| Circuit.SubCircuit.AddDevice | circuit.py:117-129 | the device is attached in any case and registered only under an unused name |
| Circuit.SubCircuit.Stamp | circuit.py:38-50 | every system entry is the sum of the devices' transposed local contributions |
| Circuit.SubCircuit.Setup | circuit.py:52-70 | succeeds exactly when every device has a node and the count is at least 1; the vectors are then zeros of that size and the matrix holds the stamp |
| Circuit.SubCircuit.CountNodes | circuit.py:58-61 | the loop computes the abstract node count, failing exactly when a device has no nodes |
| Circuit.SubCircuit.MinorStep | circuit.py:89-114 | jacobian and bequiv hold the net stamp of the devices' locals (NetJac, NetRhs); raises exactly when the solver fails, leaving across, across_last and converged alone; otherwise across below ground is the solution, convergence is the tol test and across_last becomes across |
| Circuit.SubCircuit.Reduce | circuit.py:100-101 | the solver is given the stamped system without its ground row and column |
| Circuit.SubCircuit.Accept | circuit.py:104-114 | the solution fills the non-ground nodes, is tested for convergence against the previous iterate and remembered |
| Circuit.SubCircuit.Iterate | circuit.py:82 | one iteration of the step loop: the devices' reduced system is solved and across_last becomes across, or the solver refuses and across, across_last and converged are left alone |
| Circuit.SubCircuit.Iterations | circuit.py:79-83 | the Newton loop stops converged, at maxitr or on a raise; it ends on the solution of its last iteration, compared against the iterate it started from, or on the solver refusing before maxitr |
| Circuit.SubCircuit.Step | circuit.py:72-86 | at most maxitr iterations, the first compared against across_last as the previous step or setup left it; without a raise the step ends converged or at maxitr on the solution of its last iteration, and across_last and the history take across; a raise is the solver refusing the last system, before maxitr, leaving the history alone, across_last at the last good iterate and across there too (as the step found it when the first iteration raises) |
| Circuit.NodeCountStep | circuit.py:60-61 | one more device raises the count to one past its highest node when that is more |
| Circuit.NodeCountNone | circuit.py:60 | a device with no nodes makes the count fail (max of an empty list) |
| Simulator.Unpack | src/simulator.py:121 | `success, k = r` succeeds exactly on a (success, iterations) pair and gives back its two parts; a single bool raises TypeError |
| Simulator.IterationCallsOrder | src/simulator.py:117-121 | one iteration calls the hook with (tstep, t) first, then update() on every device in dict order, then step with (tstep, t), and nothing else |
| Simulator.UpdatesSpec | src/simulator.py:118-119 | the update calls are one per device, in dict order |
| Simulator.CallsLength | src/simulator.py:115-121 | m iterations make exactly m * (devices + 2) calls |
| Simulator.ElapsedExact | src/simulator.py:108-126 | the time accumulated by adding tstep once per sample is, in exact arithmetic, i * tstep |
| Simulator.Run | src/simulator.py:115-125 | started at sample i <= n, the loop records between i and n samples |
| Simulator.RunSpec | src/simulator.py:115-128 | every recorded sample's step returned a successful pair; a raise is the TypeError of a single bool at an earlier sample than n; an early finish is the first step that returned failure |
| Simulator.RunStep | src/simulator.py:115-128 | one sample of the loop: at n all are recorded; a single bool halts with TypeError after i samples; a failed pair stops after i; a successful pair goes on to sample i + 1 |
| Simulator.BoolStepAborts | src/simulator.py:121 | when step returns one bool, as netlist.step does, trans raises TypeError at the first sample and records nothing |
| Simulator.PairStepsRecordAll | src/simulator.py:115-128 | with (success, iterations) pairs that all succeed, every one of the n samples is recorded |
| Simulator.Simulator.constructor | src/simulator.py:20-33 | maxitr and tol as given (default 100 and 0.001), t and tmax 0, no samples |
| Simulator.Simulator.Trans | src/simulator.py:59-128 | tstep == 0 raises ZeroDivisionError and a negative sample count ValueError, before any call; otherwise tmax is tstop, the nodenum x (int(tstop / tstep) + 1) data and the times are fresh, the loop stops where Run says with each recorded sample holding its time and solution and the rest zero, and the calls made are those of the started iterations |
| Simulator.Simulator.Samples | src/simulator.py:108-128 | over zeroed arrays, the loop stops where Run says, records exactly the samples before the stop and logs the calls of every started iteration |
| Simulator.Simulator.Iteration | src/simulator.py:116-128 | one sample: a raise or failed step stops the loop with the result of Run; a successful step records sample i, advances t by tstep and keeps the loop state for i + 1 |
| Simulator.Simulator.LogIteration | src/simulator.py:117-121 | the calls of iteration i, at time Elapsed(i), are appended to the log |
| Simulator.Simulator.RecordSample | src/simulator.py:127-128 | sample i gets its time and solution column; later samples stay zero |
| Simulator.Simulator.RecordTime | src/simulator.py:127 | trans_time[i] becomes i * tstep, the later times stay zero |
| Simulator.Simulator.RecordColumn | src/simulator.py:128 | column i of trans_data becomes the solution and every other column is unchanged |
| Simulator.VoltageTrace | src/simulator.py:179-183 | an unknown node raises KeyError; otherwise the trace has one value per sample |
| Simulator.VoltageAntisymmetric | src/simulator.py:179-183 | swapping the two nodes negates the trace |
| Simulator.VoltageToGround | src/simulator.py:179-183 | against ground, whose row stays zero, the trace is the node's own row |
| Simulator.CurrentTrace | src/simulator.py:189-194 | an unknown device raises KeyError; a device that is not a current sensor gives no trace; a sensor gives one value per sample |
| Simulator.CurrentTraceSign | src/simulator.py:189-194 | with the -1.0 scale the sensors report, the trace is the negated current-node row |
| Sandbox.Shifted | subcircuit/sandbox.py:91-93 | every bounding rectangle moved by the whole delta, in order |
| Sandbox.ShiftedAsWritten | subcircuit/sandbox.py:91-93 | every bounding rectangle moved as the loop writes it, by dx along both axes, in order |
| Sandbox.TranslateKeepsHits | subcircuit/sandbox.py:87-116 | after an intended translate, a point moved by the same delta hits exactly when the original point hit |
| Sandbox.TranslateAsWrittenLosesHits | subcircuit/sandbox.py:93-116 | a 2 x 2 rectangle at the origin moved by (0, 2) as written no longer contains the moved centre point it contained before |
| Sandbox.AdjoinSet | subcircuit/sandbox.py:129-131 | the append-unless-present idiom adds exactly the element, keeps a list without repeats without repeats, is idempotent and grows the list by at most one (also lines 206-216) |
| Sandbox.IndexOf | subcircuit/sandbox.py:236 | list.index gives the first position holding the element |
| Sandbox.RemoveFirst | subcircuit/sandbox.py:244-245 | list.remove drops one element |
| Sandbox.IndexOfFirst | subcircuit/sandbox.py:236 | a position holding x with no x before it is list.index's answer |
| Sandbox.DistinctIndex | subcircuit/sandbox.py:236 | in a list without repeats, list.index finds each element at its own position |
| Sandbox.SplitAt | subcircuit/sandbox.py:231-238 | splitting a wire at link i adds exactly one link |
| Sandbox.MergeAt | subcircuit/sandbox.py:241-247 | merging links i and i+1 removes exactly one link |
| Sandbox.MergeUndoesSplit | subcircuit/sandbox.py:231-247 | removing the knee a split inserted gives the original wire back |
| Sandbox.SplitKeepsChain | subcircuit/sandbox.py:231-238 | splitting a link keeps each link starting where the previous one ends, with the same first start and last end |
| Sandbox.MergeKeepsChain | subcircuit/sandbox.py:241-247 | merging two links keeps the wire chained, with the same first start and last end |
| Sandbox.SplitKeepsWire | subcircuit/sandbox.py:231-238 | a split wire still runs from the start point to the active point |
| Sandbox.MergeKeepsWire | subcircuit/sandbox.py:241-247 | a merged wire still runs from the start point to the active point |
| Sandbox.ExtendKeepsWire | subcircuit/sandbox.py:221-229 | a link from the active point keeps the wire running from the start, now to the link's far end |
| Sandbox.SplitByUpdate | subcircuit/sandbox.py:233-236 | restarting link i at the knee and inserting (c1, knee) before it is exactly the split |
| Sandbox.MergeByUpdate | subcircuit/sandbox.py:243-244 | stretching link i to the end of link i+1 and dropping link i+1 is exactly the merge |
| Sandbox.ExtendKeepsChain | subcircuit/sandbox.py:221-223 | a link from the wire's last end keeps it chained |
| Sandbox.SqDistNonneg | subcircuit/sandbox.py:341-342 | squared distances are never negative, so their square roots exist |
| Sandbox.Distance | subcircuit/sandbox.py:332-359 | a zero-length segment gives the point itself at infinite distance |
| Sandbox.Nearest | subcircuit/sandbox.py:337-357 | for a proper segment the distance is always finite |
| Sandbox.NearestOnSegment | subcircuit/sandbox.py:338-357 | the returned point is the foot of the perpendicular when it falls within the segment, otherwise the nearer end, so always on the segment |
| Sandbox.DistanceOnSegment | subcircuit/sandbox.py:332-357 | for a segment of positive length the returned point lies on the segment |
| Sandbox.PerpendicularSquare | subcircuit/sandbox.py:337-345 | (s * sqrt(r_den))^2 is the squared distance from the point to the foot of the perpendicular |
| Sandbox.FootSquare | subcircuit/sandbox.py:337-345 | the same identity in coordinates |
| Sandbox.Lagrange | subcircuit/sandbox.py:337-341 | Lagrange's identity in the plane: dot product squared plus cross product squared is the product of the squared lengths |
| Sandbox.Expand | subcircuit/sandbox.py:338 | the squared length of u - t v, expanded |
| Sandbox.CancelFactor | subcircuit/sandbox.py:337-339 | a nonzero common factor cancels |
| Sandbox.ScaledRoot | subcircuit/sandbox.py:345 | abs(s) * sqrt(r_den) is non-negative and squares to s^2 * r_den |
| Sandbox.NearestIsEuclidean | subcircuit/sandbox.py:344-357 | with a true square root, the length returned is the Euclidean distance from the point to the returned point |
| Sandbox.DistanceIsEuclidean | subcircuit/sandbox.py:332-357 | for a segment of positive length and a true square root, distance's length is the Euclidean distance from the point to the returned point |
| Sandbox.ZOrder.constructor | subcircuit/sandbox.py:72 | the class-wide counter starts at 0 |
| Sandbox.SchematicObject.constructor | subcircuit/sandbox.py:74-85 | a new object sits at the origin, unrotated, unflipped, scale 1, unselected, with one empty rectangle, and takes the next zorder, advancing the counter by one |
| Sandbox.SchematicObject.Translate | subcircuit/sandbox.py:87-95 | position and center move by delta; each bounding rectangle moves by dx along both axes, as written |
| Sandbox.SchematicObject.TranslateIntended | subcircuit/sandbox.py:87-95 | position, center and every bounding rectangle move by delta |
| Sandbox.SchematicObject.Rotate | subcircuit/sandbox.py:97-98 | the rotation grows by the angle |
| Sandbox.SchematicObject.FlipHorizontal | subcircuit/sandbox.py:100-101 | the horizontal flip toggles |
| Sandbox.SchematicObject.FlipVertical | subcircuit/sandbox.py:103-104 | the vertical flip toggles |
| Sandbox.SchematicObject.HitTest | subcircuit/sandbox.py:106-116 | hit exactly when some bounding rectangle strictly contains the point |
| Sandbox.ConnectionPoint.Port | subcircuit/sandbox.py:120-146 | a port with its index and ground flag, no connectors, unconnected, the port radius and margin, placed at the position with the centre left at the origin |
| Sandbox.ConnectionPoint.KneePoint | subcircuit/sandbox.py:120-127 | a knee attached to its connector, unconnected, placed and centred at the position (also lines 158-163) |
| Sandbox.ConnectionPoint.AddConnector | subcircuit/sandbox.py:129-131 | the connector is recorded unless it is already there |
| Sandbox.Segment.constructor | subcircuit/sandbox.py:167-173 | a segment of the connector from connection1 to connection2, with the next zorder |
| Sandbox.Ends | subcircuit/sandbox.py:242 | the end points of the links, in order |
| Sandbox.LinksInsert | subcircuit/sandbox.py:237 | inserting a segment inserts its pair of points at the same position |
| Sandbox.LinksDrop | subcircuit/sandbox.py:244 | dropping a segment drops its pair of points |
| Sandbox.RemoveAt | subcircuit/sandbox.py:244 | in a list without repeats, list.remove(s[i]) drops position i |
| Sandbox.DistinctDrop | subcircuit/sandbox.py:244 | dropping a position keeps a list without repeats without repeats |
| Sandbox.DistinctInsert | subcircuit/sandbox.py:237 | inserting a new element keeps a list without repeats without repeats |
| Sandbox.EndingAt | subcircuit/sandbox.py:242-243 | the first link ending at the knee, or the number of links when none does |
| Sandbox.Connector.constructor | subcircuit/sandbox.py:193-204 | a partial wire starting and ending at the connection's center, with no knees, ports or segments, the connection as start and active point, attached to it |
| Sandbox.Connector.AddPort | subcircuit/sandbox.py:206-210 | a port not yet joined is recorded, gets this connector and becomes connected; a joined one changes nothing |
| Sandbox.Connector.AddKnee | subcircuit/sandbox.py:212-216 | a knee not yet on the wire is recorded, gets this connector and becomes connected; one already there changes nothing |
| Sandbox.Connector.AddSegment | subcircuit/sandbox.py:221-229 | a new segment (taking the next z-order, which grows by one) from the active point to the connection is appended and the connection becomes active; a knee is added to the knees, a port to the ports; the connection gets this connector and becomes connected when it was newly added, its flag otherwise unchanged; the wire stays a wire (also lines 206-216) |
| Sandbox.Connector.Extend | subcircuit/sandbox.py:222-229 | the segment half of add_segment: one segment, with the next z-order, appended from the active point, which moves to the connection |
| Sandbox.Connector.Attach | subcircuit/sandbox.py:224-228 | the point half of add_segment: a knee or port is recorded, the connection gets this connector, and it becomes connected exactly when newly recorded, else its flag is kept (also lines 206-216) |
| Sandbox.Connector.SplitSegment | subcircuit/sandbox.py:231-239 | a segment off the wire changes nothing, the z-order counter included; otherwise a new segment (the next z-order) from its first point to the connection goes in front of it, it starts at the connection, the connection becomes a knee with this connector and is connected when newly added as a knee, its flag otherwise kept; the wire stays a wire |
| Sandbox.Connector.Split | subcircuit/sandbox.py:232-237 | the segment half of split_segment: one new segment with the next z-order, and exactly the split of the links at the segment's index |
| Sandbox.Connector.Insert | subcircuit/sandbox.py:237 | list.insert: the segment goes in at the position, the rest keep their order |
| Sandbox.Connector.Restart | subcircuit/sandbox.py:234 | the segment now starts at the connection and every other link stays |
| Sandbox.Connector.FindEnd | subcircuit/sandbox.py:242-243 | the search finds the first segment ending at the knee, or none |
| Sandbox.Connector.RemoveKnee | subcircuit/sandbox.py:241-247 | a knee no segment ends at changes nothing; one only the last segment ends at raises IndexError with no change; otherwise the segment ending at it takes the end of the next, which is removed, the wire stays a wire, and the knee is removed or, if it is not among the knees, ValueError is raised after the segments changed |
| Sandbox.Connector.DropKnee | subcircuit/sandbox.py:245 | knees.remove on a knee that is there |
| Sandbox.Connector.Merge | subcircuit/sandbox.py:243-244 | the segment half of remove_knee: exactly the merge of links i and i+1 |
| Sandbox.Connector.Stretch | subcircuit/sandbox.py:243 | the segment now ends where the next one ends and every other link stays |
| Sandbox.Connector.Drop | subcircuit/sandbox.py:244 | list.remove of a segment: that position is dropped |
| PyOps.InsertEverywhere | subcircuit/devices/tf.py:34 | str.replace with an empty pattern inserts the replacement before every character and at the end, so the length grows by (|s| + 1) * |rep| |
| PyOps.InsertEverywhereKeepsOut | subcircuit/devices/tf.py:34 | a character in neither the text nor the replacement stays out of the result |
| PyOps.ReplaceKeepsOut | subcircuit/mathutils/pprint.py:151 | str.replace: a character in neither the subject nor the replacement is not in the result |
| PyOps.ReplaceRemoves | subcircuit/mathutils/pprint.py:151 | replacing a one-character pattern by text without it removes that character |
| PyOps.ReplaceAbsent | subcircuit/mathutils/pprint.py:151 | a non-empty pattern that does not occur leaves the text unchanged |
| PyOps.Split | subcircuit/devices/sumnode.py:115 | str.split(" ") gives at least one field and no field holds the separator |
| PyOps.SplitWithoutSep | subcircuit/devices/sumnode.py:115 | text without the separator splits into itself alone |
| PyOps.JoinSplit | subcircuit/devices/sumnode.py:115 | joining the fields with the separator gives the text back, so split loses nothing |
| PyOps.Trunc | src/simulator.py:98 | int() truncates toward zero: the floor for non-negative values, the ceiling for negative ones |
| PyOps.FModShift | subcircuit/stimuli.py:77 | the remainder of t % per is the same after shifting t by one period |

## Left out

- Floating point: every float is a Dafny `real`. There is no rounding, overflow, `inf` or `NaN`. The one exception is the `ExtReal` type, which carries the explicit `float('inf')` values of the code.
- `la.solve`, `math.exp`, `math.sqrt`, `math.sin`, `math.pi` and the stimulus outputs seen by a device are function or value parameters:
  - the solver returns `None` for a singular system;
  - a lemma that needs a true square root says so with `IsSqrt`.
- Python dict iteration order is an explicit `order` sequence parameter wherever the code iterates over a dict: the devices of a netlist, the parameters of `sub_params`, and the subcircuit instances found by `flatten`.
- Netlist.Netlist.CreateInternal: the devices call `netlist.create_internal(name)` (subcircuit/interfaces.py:209-210), but netlist.py:179 takes no name. The model follows netlist.py, so the name is never used.
- Netlist.Netlist.Step: `print_matrices` (netlist.py:117, 122-133) is console output and is left out.
- Simulator.Simulator.Trans: `self.netlist.setup(tstep)` (src/simulator.py:99) is not called. The netlist's own setup is `Netlist.Netlist.Setup`, and `trans` takes the node count it leaves as `nodenum`.
- Simulator.Simulator.Trans: it assumes the netlist has a `simulation_hook`. netlist.py defines none, so as written the call at src/simulator.py:117 raises AttributeError unless the user has assigned one. The hook is recorded as a call with no effect.
- Simulator.Simulator.Trans: what `netlist.step` returns and the solution it leaves are parameters (`results`, `acrossAfter`), as are the device `update()` calls, recorded by name.
- The progress printing of `trans` (src/simulator.py:129-135), `save`, `print_`, the other analyses and the matplotlib/wx half of `plot` are I/O or stubs.
- The `Circuit` class of circuit.py (lines 132-170: titles, `add_model`, SPICE import and export) is not part of this model; only `SubCircuit` is.
- S.S.MergeAttrs and D.D.Start: the `__dict__` merges of model and keyword parameters are modelled on the attributes each constructor creates, as a `map<string, real>`. Attributes of other types and the object's other fields are not represented.
- The no-op `step` of the switch (subcircuit/devices/s.py:150-152) and the no-op `start`/`step` methods of the scopes are not written out, since they change nothing.
- Lti.StateSpace.Step: requires conformable matrix and vector shapes. Where numpy would raise a shape ValueError, the model excludes the call.
- Lti.TransferFunction.constructor: the equation is stored, but building the system from it needs sympy's parser, which is not modelled. `reset` is modelled from coefficient lists, highest power first, as Lti.TransferFunction.ResetFromCoefficients.
- The `is_gain` branch of `TransferFunction.step` is dead after `reset` and is not modelled.
- TF.TF.Step: parsing an equation with sympy, `equ2latex`, `tex2img`, `equ2bmp` and the LaTeX side of pprint.py are not part of this model.
- Stimuli.Sin.Step: states only the value before the delay (0.0, not `vo`). After the delay the value depends on the `exp`, `sin` and `pi` parameters and is not stated.
- Stimuli.ExpStep: the waveform after the delays depends on the `exp` parameter. Only the branch structure and the errors of each branch are stated.
- The `Sffm` stimulus (subcircuit/stimuli.py:259-268) is an empty stub and is left out.
- Source.SignalSource.Output: the stimulus output it receives is a `real`. `Pwl.start` (subcircuit/stimuli.py:227-228) always returns None and the `Sffm` stub returns None too; that None would reach `set_port_value`, which as written raises AttributeError first (Source.SignalSource.Start), so only Source.SignalSource.StepIntended misses it.
- Qdl.Atom.IntegrateState: the derivative is a fixed total function `deriv` of the atom's own q. `StateAtom.f` (subcircuit/qdl.py:748-766) adds `Connection.value()` for each connection, and that reads the neighbour's CURRENT q (subcircuit/qdl.py:1868-1880). So the model cannot show a triggered atom, updated again, seeing its neighbour's new q.
- Qdl.Atom.IntegrateState: when a neighbour is a source atom, `Connection.value()` calls that neighbour's `dint()`, which changes its u, x, q and tlast. This side effect is not modelled.
- Qdl.System.Advance: the same holds for every atom updated by `advance`. `deriv(a)` is fixed for the whole call.
- Qdl.Connection.constructor: `Connection.value` and `compute_coefficient` (subcircuit/qdl.py:1861-1880) are not modelled. A connection only records its atoms and coefficient, and its effect reaches the model through `deriv`.
- Qdl.Device.AddAtom: the `setattr(self, atom.name, atom)` of `add_atom` (subcircuit/qdl.py:1811) is not modelled.
- Qdl.System.AddDevice: `atom.sys = self` (subcircuit/qdl.py:865) is not modelled. The `setattr(self, device.name, device)` at subcircuit/qdl.py:878 is modelled as a separate `named` map, so a device whose name equals one of the System's own attributes (such as `atoms` or `time`) would replace that attribute in Python, and the model does not capture that.
- The qdl.py scipy, sympy and plotting paths are not part of this model: `solve_dc`, the ODE branch of `run`, `calc_steadystate`, `optimize_dq`, `get_error`, `SymbolicDevice` and every `plot*` method. The SINE branch of `SourceAtom.ta` is left out too, because it is transcendental.
- Qdl.SourceNext: for a SINE source after t1, the next event time depends on `sin` (subcircuit/qdl.py:588-626) and is not stated.
- The `Atom.step` of subcircuit/qdl.py:279-287 is used only by the ODE path and is left out.
- Sandbox.SchematicObject.constructor: the class-wide `zorder` counter is an explicit `ZOrder` object passed to every constructor.
- Sandbox.Connector.SplitSegment and Sandbox.Connector.RemoveKnee: the segment-chain results hold when the segment list has no repeats (`Distinct`). The code's own calls only append fresh segments, so this always holds there.
- Sandbox.Distance: every `/` is read as Python 3 true division. Under Python 2, which pprint.py's `cStringIO` import suggests, integer coordinates would make `r_num / r_den` and the distance quotient (subcircuit/sandbox.py:337-339) floor divisions; that reading is not modelled.
- Sandbox.NearestIsEuclidean: requires a non-negative `r_den`. Sandbox.Distance calls Nearest only when `r_den > 0`.
- `Connector.translate`, `get_last_point`, `get_connectoin_points`, `__str__`/`__repr__`, `Segment.hittest`, `ConnectionPoint.__getitem__` and the no-op `Port.translate` (subcircuit/sandbox.py:132-137, 148-155, 179-190, 218-219, 249-272) are not modelled. They are drawing helpers around the modelled list surgery.
- `Port.block`/`Port.node`, `BlockLabel`, `Block`, `Schematic`, `Mode`, the wx constants and every `*Block` drawing or `end()` method are GUI.
- The block side is modelled only where it decides an engine: scope padding, `TFBlock.get_engine`, `XBlock2Port.get_engine` and `SumNode.design_update`. `eval` in `XBlock2Port.get_engine` is a parameter.
- subcircuit/devices/q.py, subcircuit/loader.py, the qss `dqbranch`/`dqnode` stubs, netgraph.py and the earlier generations are not part of this model. The earlier generations are devices.py, interfaces.py and the PySpyce/ and pyspyce/ copies; only pyspyce/devices/v.py is used, for V.
- Source.SignalSource.Start, Source.SignalSource.Step and SumNode.Sum.Step: they call `set_port_value`/`get_port_value`, which no class in the modelled files defines, so as written they raise AttributeError. Source.SignalSource.StepIntended and SumNode.Sum.StepIntended model a port-value dict instead.

## Findings

| source | as written | input that shows it | evidently intended | confidence | as-written member | corrected member |
|---|---|---|---|---|---|---|
| src/simulator.py:121 | `success, k = self.netlist.step(...)`, but `Netlist.step` returns one bool (netlist.py:120) | any run with at least one sample: unpacking the bool raises TypeError at sample 0 and nothing is recorded | step returns a (success, iterations) pair | high, not executed | Simulator.BoolStepAborts | Simulator.PairStepsRecordAll |
| subcircuit/interfaces.py:93-97 | with `device=` given, the history reading is `across_history[0] - across_history[1]` whatever the device's nodes | a device on nodes 2 and 3 with 5 V and 1 V on them reads 0 V instead of 4 V | read the device's own two nodes, as `get_across` does (subcircuit/interfaces.py:104-131) | medium, not executed | Interfaces.HistoryOfDeviceIgnoresNodes | Interfaces.IntendedHistoryMatchesGetAcross |
| subcircuit/stimuli.py:219-224 | `xp.append(float(time))` runs before `float(value)` can raise, so a bad value leaves an extra time | `Pwl((0, 1), (1, "x"))` keeps times [0, 1] and values [1]; interpolation then reads the wrong value or raises IndexError | convert both before appending either, so the lists stay aligned | high, not executed | Stimuli.PwlMisaligned | Stimuli.PwlListsIntendedKeeps |
| subcircuit/stimuli.py:198 | the last branch of `Exp.step` starts from the constant `1.0` instead of `v1` | v1 = 0, v2 = 5, td1 = td2 = tau1 = tau2 = 0.001, at t = 0.001: the output is 1.0 where it should be v1 = 0.0 | `self.v1 + (v2 - v1) * ...`, with the rise alone between td1 and td2 | high, not executed | Stimuli.ExpStepOffset | Stimuli.ExpIntendedStartsAtV1 |
| pyspyce/devices/v.py:100-102 | the history term is added: `volt += induct / dt * il`, while the inductor engine subtracts it (subcircuit/devices/l.py:76) | a 0 V source with 1 H in series carrying a steady 1 A needs 2 V across its terminals | subtract the term, so a steady current needs no voltage | medium, not executed | V.SteadyCurrentNeedsVoltage | V.SourceBranchEquationIntended |
| subcircuit/devices/k.py:65-66 | the coupling history `mutual / dt * current` has the sign that makes a steady current induce a voltage | M = 1 H, dt = 1 s, a steady 1 A in the second inductor induces 2 V in the first branch | the inductor engine's history sign: M/dt times the CHANGE of the other current | medium, not executed | K.SteadyCurrentInducesVoltage | K.CouplingTermIntended |
| subcircuit/mathutils/pprint.py:47-48 | `{1/2}` maps to U+00BC (one quarter) and `{1/4}` to U+00BD (one half) | `unicode_print("{1/2}")` gives the quarter sign | swap the two code points | high, not executed | PPrint.FractionsSwapped | PPrint.FractionsIntended |
| subcircuit/mathutils/lti.py:155-160 | the last row of A takes `-a[j]` in list order, so the companion matrix is reversed | 1/(s^2 + 3s + 2) has an equilibrium under input 1 whose output is 1/3, not the steady state 1/2 | last row `-a[n-1-j]`, the controllable canonical form, whose equilibria output num(0)/den(0) times u | high, not executed | Lti.AsWrittenDcGainWrong | Lti.CanonicalFormDcGain |
| subcircuit/qdl.py:721-722, 750-751 | `self.f(self.qlo)` goes through `if not q: q = self.q`, so a band edge at exactly 0.0 is evaluated at the atom's q | f(v) = 0.25 - v, q 0 in band [-0.5, 0.5], dq 0.5, x reaching 0.5: the band moves to [0, 1], f(0) is taken at the crossed q 0.5, and the interpolated q is -0.5, outside the new band, where f is 0.75 | `if q is None`, so the interpolation lands on the secant's root, here 0.25 | medium, not executed | Qdl.ZeroEdgeMissesRoot | Qdl.IntendedInterpolationZerosSecant |
| subcircuit/sandbox.py:93 | bounding rectangles move by `(dx, dx)` | a 2 x 2 rectangle at the origin moved by (0, 2) no longer contains the moved point (1, 3) | move by `(dx, dy)`, as `position` and `center` do | high, not executed | Sandbox.TranslateAsWrittenLosesHits | Sandbox.TranslateKeepsHits |
