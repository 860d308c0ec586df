# Maharashtra Agricultural Oracle — a Dafny model of its scenario simulator

The oracle forecasts how a "what if" event affects the agriculture of
Maharashtra. It reads the most recent row of a small historical table,
turns it into an initial state (monsoon `Disrupted` or `Normal`, subsidies
`High` or `Standard`), and builds a four-qubit circuit. Qubit 0 is Monsoon,
1 is Yield, 2 is Subsidies and 3 is Demand. The circuit applies:

1. bias X gates;
2. the fixed CNOT chain `cx(0,1)`, `cx(1,3)`, `cx(2,1)`;
3. the one gate of the selected event;
4. a measurement of qubit i into classical bit i.

It runs the circuit for 1024 shots. It then decodes each measured bitstring
into four factor labels with a percentage probability. Those report lines
go into a prompt for a text-generation model.

The register starts at |0000>, and every gate is X, CX or id. So every
state the circuit reaches is a basis state, and the circuit is a classical
reversible program on four bits. The model represents it exactly that way.

| file | module | what it models |
|---|---|---|
| `wrappers.dfy` | `Wrappers` | `Option` / `Result` for the error paths |
| `register.dfy` | `QubitRegister` | factors and their qubits, the four-bit register, gates, `Run` |
| `circuit.dfy` | `AgriCircuit` | bias gates, the CNOT chain, the circuit layout |
| `events.dfy` | `EventCatalog` | the four named events and the gate each appends |
| `history.dfy` | `History` | the embedded table and the derivation of the initial state |
| `simulator.dfy` | `Simulator` | the little-endian count key, the count table, `Simulate` |
| `report.dfy` | `Report` | the label table, key decoding, probabilities, report lines |
| `oracle.dfy` | `Oracle` | the pipeline from history and event name to report lines |

Modelling choices:
- Probabilities are exact `real` values, `(count / total) * 100`.
- A count table is a sequence of `(key, count)` entries in the dictionary's iteration order.
- An event callback is modelled as the sequence of gates it appends.
- A CX whose control equals its target cannot be built: the circuit library refuses it, and the `Gate` subset type excludes it.

What the code does at its edges:
- The code runs one deterministic circuit with exactly one event gate, so its count table always has one key holding all 1024 shots. The shot count is the constant 1024.
- An unknown event name is a failed dictionary lookup, modelled as `UnknownEvent`.
- An empty count table yields an empty report, not an error. A non-empty table whose counts sum to zero fails with a division by zero, modelled as `ZeroTotal`. That error is raised at the first entry, and only if that entry's key decoded.
- The decoder handles every key of the table, including any with a zero count.

## Model

| member | source | states |
|---|---|---|
| QubitRegister.QubitOfBijective | app.py:21-48 | each qubit position stands for exactly one factor, and each factor has its own qubit: Monsoon 0 and Subsidies 2 from the bias gates, Yield 1 and Demand 3 from the chain and the decoder (the events at lines 94-96 use the same positions) |
| QubitRegister.Apply | app.py:19-28 | X flips its target, CX xors the control into the target, id leaves the register alone; no other qubit changes |
| QubitRegister.Run | app.py:20-31 | executes the circuit's gates in order on the register; characterised by RunAppend, RunFrame and RunReverseUndoes |
| QubitRegister.RunFrame | app.py:19-30 | a qubit that no gate of the circuit targets ends with the value it started with |
| QubitRegister.RunAppend | app.py:20-31 | running appended gate groups is running the groups one after another, so the circuit's sections compose in order |
| QubitRegister.ApplyInvolution | app.py:22-28 | each gate the circuit uses is its own inverse |
| QubitRegister.RunReverseUndoes | app.py:19-31 | running the reversed circuit undoes a run: on basis states the circuit is a reversible classical program |
| AgriCircuit.BiasGates | app.py:21-24 | an X on qubit 0 is emitted iff the monsoon entry is 'Disrupted', an X on qubit 2 iff the subsidies entry is 'High'; a missing or other value emits nothing |
| AgriCircuit.BuildCircuit | app.py:20-30 | the circuit before measurement; what it does to the register is stated by BaselineRegister and EventsRunAfterChain, and CircuitLayout records its gate order |
| AgriCircuit.CircuitLayout | app.py:19-31 | the circuit is the bias gates, then the three-gate chain, then the event gates, and nothing else |
| AgriCircuit.FinalRegister | app.py:20-31 | the measured basis state of a run from |0000>; characterised by BaselineRegister and EventsRunAfterChain |
| AgriCircuit.BiasSetsPriors | app.py:20-24 | after the bias gates the register is (monsoon disrupted, 0, subsidies high, 0) |
| AgriCircuit.ChainEffect | app.py:26-28 | the chain maps (a, b, c, d) to (a, b xor a xor c, c, d xor b xor a) |
| AgriCircuit.SwappedChainEffect | app.py:26-28 | with cx(2,1) before cx(1,3) Demand would become d xor b xor a xor c, so the order matters |
| AgriCircuit.BaselineRegister | app.py:19-29 | without an event, Demand equals Monsoon, Yield is Monsoon xor Subsidies, and Monsoon and Subsidies keep their bias |
| AgriCircuit.EventsRunAfterChain | app.py:26-30 | the event gates act on the state the chain leaves |
| AgriCircuit.DemandIgnoresSubsidies | app.py:26-28 | Demand does not depend on the subsidy bias, but it would under the swapped chain |
| EventCatalog.CatalogComplete | app.py:93-98 | the catalog lists each of the four events once, under pairwise different names |
| EventCatalog.FindByName | app.py:106 | a found event is in the list and has the name; nothing found means no listed event has the name |
| EventCatalog.Lookup | app.py:106 | a name finds the event of that name; it finds nothing exactly when no event has that name |
| EventCatalog.LookupName | app.py:93-98 | looking up an event's own name gives back that event |
| EventCatalog.EventGates | app.py:94-97 | each event appends one gate: an X on the qubit of the factor it shocks, or id(0) when it shocks none |
| EventCatalog.EventTogglesOwnFactor | app.py:94-97 | an event flips only the qubit of the factor it shocks, and the baseline event leaves the register as no event does |
| EventCatalog.DroughtChangesMonsoonOnly | app.py:94 | the drought flips Monsoon and keeps Yield, Subsidies and Demand |
| EventCatalog.DroughtToggles | app.py:19-30 | a drought on a disrupted monsoon reads as a normal one; Yield and Demand keep their chain values |
| EventCatalog.EventTwiceCancels | app.py:94-97 | appending an event's gate twice gives the baseline register (the application itself appends one event gate per run) |
| History.LatestRow | app.py:82 | the latest row exists iff the table is non-empty and is then the last row, whatever the year order; on a table ordered oldest first it has the largest year |
| History.DeriveInitialState | app.py:83-91 | both keys are always set; monsoon is 'Disrupted' iff rainfall < 1000, otherwise 'Normal'; subsidies is 'High' iff the level is exactly 'high', otherwise 'Standard' |
| History.DerivedBias | app.py:84-91 | the bias gates fire exactly on rainfall below 1000 and on the lower-case level 'high' |
| History.ThresholdEdges | app.py:84-91 | rainfall 999 is disrupted, 1000 is normal, and 'High' written in capitals does not count as high |
| History.EmbeddedInitialState | app.py:70-91 | the embedded table's latest row (2025, 950, standard) gives a disrupted monsoon and standard subsidies |
| Simulator.Key | app.py:31 | the key has four characters, and classical bit i is character 3 - i (little-endian) |
| Simulator.KeyInjective | app.py:31-35 | distinct registers produce distinct keys |
| Simulator.Total | app.py:43 | the sum of all counts; characterised by TotalZero and Report.CountAtMostTotal |
| Simulator.TotalZero | app.py:43 | the total is zero exactly when every count is zero |
| Simulator.Simulate | app.py:31-35 | the count table has one entry: the key of the final register (qubit i measured into bit i) holding all 1024 shots, so the counts sum to the shot count |
| Report.StateLabel | app.py:38-41 | the label table has an entry exactly for the characters '0' and '1' |
| Report.StateLabelInjective | app.py:38-41 | for every factor the '0' and '1' labels differ |
| Report.LabelsReadQubits | app.py:38-48 | each label reads its own factor's qubit: Disrupted, Poor, High and Volatile stand for a 1 |
| Report.LabelsAgree | app.py:45-48 | two registers get the same factor label iff they agree on that factor's qubit |
| Report.Decode | app.py:44-48 | a key decodes iff it has at least four characters and its first four are all '0' or '1' |
| Report.DecodeKey | app.py:31-48 | the key of a register decodes to each factor's own label, so the encoder and decoder agree on bit order |
| Report.KeyOnto | app.py:31-48 | every four-character 0/1 key is the key of some register |
| Report.DecodeInjective | app.py:38-48 | decoding is one-to-one on four-character 0/1 keys |
| Report.LabelsInjective | app.py:38-48 | distinct registers get distinct label tuples, which makes decoding a bijection |
| Report.Probability | app.py:49 | a probability is at least 0, at most 100 when the count is at most the total, and exactly 100 when the count is the total |
| Report.Lines | app.py:42-52 | one line per table entry, in order, with the decoded outcome and 100 * count / total; fails at the first undecodable key, or with a zero total at the first entry |
| Report.GenerateReport | app.py:42-52 | succeeds exactly when every key decodes and the table is empty or has a non-zero total, with one line per entry; its sum is stated by ProbabilitiesSumTo100 |
| Report.LinesSum | app.py:43-49 | the probabilities of a run of lines add up to that run's share of the total |
| Report.ProbabilitiesSumTo100 | app.py:43-49 | when a non-empty table's report succeeds, its probabilities sum to exactly 100 |
| Report.CountAtMostTotal | app.py:43 | no single count exceeds the sum of all counts |
| Report.ProbabilitiesInRange | app.py:43-49 | every reported probability lies between 0 and 100 |
| Report.DistinctOutcomes | app.py:44-52 | distinct well-formed keys produce distinct outcome lines |
| Oracle.Forecast | app.py:82-111 | fails exactly when the history is empty, the chronicler model is missing or the event name is unknown, with that error; otherwise it gives one line with probability 100 whose labels are those of the final register |
| Oracle.ForecastOfEvent | app.py:31-52 | for a catalog event the report is exactly one line: the final register's labels with probability 100 |
| Oracle.BaselineForecast | app.py:82-97 | without a shock the final labels read: monsoon is Disrupted and demand Volatile iff rainfall < 1000, subsidies are High iff the level is 'high', and yield is Poor iff exactly one of the two holds |
| Oracle.DroughtFlipsMonsoonOnly | app.py:94-97 | compared with the baseline forecast, a drought changes the Monsoon label and no other |
| Oracle.EmbeddedDroughtScenario | app.py:70-98 | with the embedded table, a drought forecasts Normal monsoon, Poor yield, Standard subsidies and Volatile demand with probability 100 |

## Left out

- The Streamlit page is presentation only and is not modelled: page setup, title, expander, table display, sidebar, button, spinners and error messages. The model keeps only its one decision, whether the chronicler model is available, as the `chroniclerReady` parameter of `Oracle.Forecast`.
- `setup_api` and the `generate_content` call reach an external network service, and the prompt text only feeds it; none of these are modelled. The model stops at the report lines that would be formatted into the prompt.
- The f-string text of each report line, the `:.1f` float rounding and the newline join are not modelled. A line is kept as its outcome labels and an exact probability.
- The simulator's and circuit library's internals are replaced by exact basis-state semantics for X, CX and id. This is sound only because the circuit has no gate that creates a superposition.
- `barrier()` is left out because it has no effect on the state.
- Parsing the historical table from CSV text is left out. The table is given as a sequence of rows whose rainfall is already an integer.
- Decode: the source reads positions 0, 1, 2 and 3 of a key in that order and raises IndexError or KeyError at the first of them that is missing or not '0' or '1' (so "0x" raises KeyError). The model reports either error as one missing decoding (`BadKey`) and does not tell the two apart.
- The shot count is the source's constant 1024. It is not a parameter, so no shot-count validation is modelled.
