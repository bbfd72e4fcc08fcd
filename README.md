# RAVIAN Quantum dashboard: the state logic, in Dafny

The dashboard in `quantum-nexus-agent-x` is a React application in which
every quantum "result" is hardcoded or random. Beneath the JSX, though, its
components hold small, exact rules and state machines. This project lifts
them out as data plus operations and proves what each one promises:

- **QuantumAgent**: the rule engine. It maps a results bag to an ordered
  list of decisions:
  - an entanglement test on the Qiskit histogram;
  - the first state with the highest count in the Cirq histogram;
  - a variance test on the Strawberry Fields samples;
  - a recommendation that is always appended.

  The agent panel is a class whose completion step replaces the panel's
  decisions with those decisions.
- **QuantumDashboard**: the execution pipeline. It resets the flags, steps
  the progress bar 0, 5, …, 100, publishes the fixed mock payload, and
  later fires the timer that activates the agent panel.
- **BenchmarkSystem**: the benchmark catalogue, the benchmark progress
  machine and the difficulty badge colours.
- **AgentRegistry**: the agent registry list. Create is guarded and derives
  the id and ports from the list length. Toggle and remove work by id. A
  header shows the counters.
- **NandaBackend**: the backend console:
  - the process roster derived from the configuration by port arithmetic;
  - stop and a two-phase start;
  - the deploy log;
  - the generated start script;
  - the running and active-port counters.
- **InterAgentCommunication**: the append-only message feed:
  - a guarded send, and the one canned reply a direct send schedules;
  - the periodic broadcast generator;
  - the roster status lookup and the recipient list.
- **AuthSystem**: the credit account, a guarded debit with a boolean
  answer, plus sign-out.

There are also three shared modules:

- **Text**: JavaScript's `trim` whitespace set, and decimal rendering of
  integers with a parse round trip.
- **Timeline**: the progress sequence shared by both progress loops.
- **Wrappers**: `Option`.

Conventions:

- Objects whose state the component replaces are classes. Each method's
  `ensures` gives the whole new state in terms of the old one.
- The list transforms inside those methods are pure functions. The
  properties are lemmas about those functions.
- `Math.random()` becomes a `real` parameter that the precondition puts in
  [0, 1). The one exception is create in the registry: it takes the qubit
  count already drawn (1..20), and `QubitsFor` shows that
  `floor(random·20)+1` always lies in that range. `Date` becomes an `int`
  or `string` parameter.
- A timer becomes an explicit second step:
  - `CompleteAnalysis` for the agent panel;
  - `FireActivation` for the dashboard;
  - `CompleteStart` for the backend;
  - `DeliverReply` for the message feed.
- A histogram is a sequence of (key, count) pairs in `Object.entries` order.
- `calculateVariance` of an empty list is `NaN` in JavaScript. Here it is
  `Variance(d) == None`, and `None` is never above 1, just as `NaN > 1` is
  false.

Behaviour worth knowing, stated as lemmas:

- A registry remove followed by a create reuses an existing id and port
  pair (`AgentRegistry.RemoveThenCreateReusesId`).
- The delayed phase of `startAgent` restores the list as it was when the
  start began. So a stop of another agent issued during the delay is lost
  (`NandaBackend.StaleStartUndoesStop`).
- `useCredits` has no upper guard, so a negative amount pushes the balance
  above `maxCredits` (`AuthSystem.NegativeDebitExceedsMaximum`).
- With an empty Cirq histogram, `Math.max()` is `-Infinity` and `find`
  yields `undefined`. The optimization decision is still emitted, and its
  text reads "estado dominante undefined" (`QuantumAgent.DominantState`,
  `QuantumAgent.OptimizationDecision`).

## Model

| member | source | states |
|---|---|---|
| QuantumAgent.ShouldAnalyze | src/components/QuantumAgent.tsx:25 | no contract of its own: `AgentPanel.OnInputsChanged` states that an analysis starts exactly when this guard (results present and agent active) holds |
| QuantumAgent.Lookup | src/components/QuantumAgent.tsx:41 | indexing a histogram by key: absent exactly when no entry has the key, otherwise the count of an entry with that key |
| QuantumAgent.EntanglementDetected | src/components/QuantumAgent.tsx:40-43 | no contract of its own: `EntanglementIntegerForm` and `EntanglementRule` state when the real-valued test holds, in integer terms |
| QuantumAgent.RatioBelowTenth | src/components/QuantumAgent.tsx:41-43 | for a non-zero total t, `x / t < 0.1` holds iff t < 0 or 10·x < t |
| QuantumAgent.EntanglementIntegerForm | src/components/QuantumAgent.tsx:40-43 | the real-valued entanglement test holds iff both '00' and '11' are present, the total is non-zero, and (total < 0 or 10·abs(c00 − c11) < total); a zero total never fires |
| QuantumAgent.EntanglementRule | src/components/QuantumAgent.tsx:40-43 | for non-negative counts the test fires iff both keys are present, the total t > 0 and 10·abs(c00 − c11) < t |
| QuantumAgent.Total | src/components/QuantumAgent.tsx:40 | no contract of its own: `TotalNonNegative` states that non-negative counts give a non-negative total, and `EntanglementIntegerForm` uses it as the divisor of the test |
| QuantumAgent.Abs | src/components/QuantumAgent.tsx:41 | no contract of its own: `EntanglementIntegerForm` and `EntanglementRule` state the test with it as abs(c00 − c11) |
| QuantumAgent.TotalNonNegative | src/components/QuantumAgent.tsx:40 | the total of non-negative counts is non-negative |
| QuantumAgent.MaxCount | src/components/QuantumAgent.tsx:56 | `Math.max` over the counts of a non-empty histogram is an upper bound of every count and equals one of them |
| QuantumAgent.FirstWithCount | src/components/QuantumAgent.tsx:57 | `find` of a count: none iff no entry has it, else an index holding it with no earlier entry holding it |
| QuantumAgent.DominantState | src/components/QuantumAgent.tsx:56-57 | undefined iff the histogram is empty; otherwise the key of the first entry whose count is the maximum |
| QuantumAgent.FirstMaxUnique | src/components/QuantumAgent.tsx:57 | the first maximal entry is unique, so the dominant state is well defined |
| QuantumAgent.Variance | src/components/QuantumAgent.tsx:96-100 | no contract of its own: `VarianceNonNegative`, `VarianceClosedForm` and `VarianceOfConstant` state that it is absent only for the empty list, never negative, equal to (n·Σx² − (Σx)²)/n², and 0 for a constant list |
| QuantumAgent.HighVariance | src/components/QuantumAgent.tsx:70-72 | no contract of its own: `HighVarianceIff` states that it holds iff n > 0 and n·Σx² − (Σx)² > n² |
| QuantumAgent.Sum | src/components/QuantumAgent.tsx:97 | no contract of its own: `SquaredDeviationsExpand` and `VarianceClosedForm` state the variance in terms of it, and `SumOfConstant` what it gives for a constant list |
| QuantumAgent.SumOfSquares | src/components/QuantumAgent.tsx:98 | no contract of its own: `SquaredDeviationsExpand` and `VarianceClosedForm` state the variance in terms of it, and `SumOfConstant` what it gives for a constant list |
| QuantumAgent.SquaredDeviations | src/components/QuantumAgent.tsx:98 | no contract of its own: `SquaredDeviationsNonNegative` states that it is never negative, and `SquaredDeviationsExpand` that it equals Σx² − 2mΣx + n·m² |
| QuantumAgent.SquaredDeviationsNonNegative | src/components/QuantumAgent.tsx:98 | a sum of squared deviations is non-negative |
| QuantumAgent.VarianceNonNegative | src/components/QuantumAgent.tsx:96-100 | `calculateVariance` is never negative |
| QuantumAgent.SquaredDeviationsExpand | src/components/QuantumAgent.tsx:98 | Σ(x − m)² equals Σx² − 2mΣx + n·m² |
| QuantumAgent.IntegerMeanAlgebra | src/components/QuantumAgent.tsx:97-98 | with m = Σx/n, the expanded deviations divided by n equal (n·Σx² − (Σx)²)/n² |
| QuantumAgent.VarianceClosedForm | src/components/QuantumAgent.tsx:96-100 | the mean squared deviation of a non-empty list equals (n·Σx² − (Σx)²)/n² |
| QuantumAgent.RatioAboveOne | src/components/QuantumAgent.tsx:72 | for y > 0, x / y > 1 iff x > y |
| QuantumAgent.HighVarianceIff | src/components/QuantumAgent.tsx:69-72 | the variance alert fires iff n > 0 and n·Σx² − (Σx)² > n²; an empty list never alerts |
| QuantumAgent.SumOfConstant | src/components/QuantumAgent.tsx:97-98 | for a constant list, Σx = n·c and Σx² = n·c² |
| QuantumAgent.VarianceOfConstant | src/components/QuantumAgent.tsx:96-100 | the variance of a non-empty constant list is 0 |
| QuantumAgent.QuietPhotonicSample | src/components/QuantumAgent.tsx:69-72 | [0,1,0,2,1] has variance 0.56 and raises no alert |
| QuantumAgent.NoisyPhotonicSample | src/components/QuantumAgent.tsx:69-72 | [0,5,0,5,0] has variance 6 and raises the alert |
| QuantumAgent.QiskitRule | src/components/QuantumAgent.tsx:39-52 | no contract of its own: `AnalyzeFires` states that the analysis decision is produced iff Qiskit results are present and the entanglement test holds |
| QuantumAgent.CirqRule | src/components/QuantumAgent.tsx:55-66 | no contract of its own: `AnalyzeFires` states that the optimization decision is produced iff Cirq results are present, naming `DominantState` |
| QuantumAgent.PhotonicRule | src/components/QuantumAgent.tsx:69-81 | no contract of its own: `AnalyzeFires` states that the alert is produced iff samples are present and the variance exceeds 1 |
| QuantumAgent.StateText | src/components/QuantumAgent.tsx:62 | no contract of its own: it prints a present state as itself and a missing one as "undefined"; `AnalyzeAt` states that the optimization text embeds it |
| QuantumAgent.OptimizationDecision | src/components/QuantumAgent.tsx:59-65 | no contract of its own: `AnalyzeAt` states that the optimization decision carries the fixed title, confidence 0.87 and framework Cirq, and that its text names the dominant state ("undefined" when there is none) |
| QuantumAgent.Analyze | src/components/QuantumAgent.tsx:36-92 | no contract of its own: `AnalyzeOrder`, `AnalyzeFires` and `AnalyzeAt` state its length, order, which decisions appear and what each carries |
| QuantumAgent.AnalyzeAt | src/components/QuantumAgent.tsx:36-90 | each decision produced carries the title, description, confidence and framework fixed for its kind; the optimization decision names the dominant state |
| QuantumAgent.AnalyzeOrder | src/components/QuantumAgent.tsx:36-92 | between 1 and 4 decisions, the recommendation last, kinds in the order analysis, optimization, alert, recommendation with none repeated, and confidence/framework fixed per kind: 0.95/Qiskit, 0.87/Cirq, 0.78/Strawberry Fields, 0.92/Multi-Framework |
| QuantumAgent.AnalyzeFires | src/components/QuantumAgent.tsx:39-90 | analysis is present iff Qiskit results are present and the entanglement test holds; optimization is present iff Cirq results are present; alert is present iff samples are present and the variance exceeds 1; an optimization decision names DominantState |
| QuantumAgent.AnalyzeQuiet | src/components/QuantumAgent.tsx:36-92 | results with an entangled Qiskit histogram, a Cirq histogram and a quiet sample decide exactly analysis, optimization naming the dominant state, recommendation |
| QuantumAgent.AgentPanel.constructor | src/components/QuantumAgent.tsx:21-22 | no decisions and not thinking |
| QuantumAgent.AgentPanel.OnInputsChanged | src/components/QuantumAgent.tsx:24-31 | an analysis starts (thinking set, results captured) exactly when results are present and the agent is active; the decisions are untouched |
| QuantumAgent.AgentPanel.CompleteAnalysis | src/components/QuantumAgent.tsx:36-93 | after the delay the decisions become exactly the rule engine's output for the captured results and thinking ends |
| QuantumDashboard.MockEntangled | src/components/QuantumDashboard.tsx:37-40 | the mock Qiskit counts pass the entanglement test |
| QuantumDashboard.MockDominant | src/components/QuantumDashboard.tsx:41-46 | the dominant state of the mock Cirq counts is "0" |
| QuantumDashboard.MockAnalysis | src/components/QuantumDashboard.tsx:36-52 | analysing the mock payload gives exactly [analysis, optimization naming state "0", recommendation] |
| Timeline.ProgressSteps | src/components/QuantumDashboard.tsx:30-33 | no contract of its own: `ProgressStepsShape` states its length, bounds, order and that it holds exactly the multiples of 5 in [0, 100] |
| Timeline.ProgressStepsShape | src/components/QuantumDashboard.tsx:30-33 | the progress values are 21 in number, run from 0 to 100, strictly increase, and are exactly the multiples of 5 in [0, 100] |
| Text.IsJsSpace | src/components/nanda/AgentRegistry.tsx:89 | no contract of its own: the ECMAScript WhiteSpace and LineTerminator characters; `TrimStartDropsSpace` and `TrimEndDropsSpace` state that `trim` removes exactly these at either end |
| Text.IsBlank | src/components/nanda/InterAgentCommunication.tsx:114 | no contract of its own: `TrimEmptyIffBlank` states that `!s.trim()` holds iff it holds |
| Text.Trim | src/components/nanda/AgentRegistry.tsx:89 | no contract of its own: `TrimEmptyIffBlank` states that the result is empty iff the string is blank |
| Text.TrimStart | src/components/nanda/InterAgentCommunication.tsx:114 | the result is no longer than the string and starts with a character that is not whitespace, when not empty |
| Text.TrimEnd | src/components/nanda/InterAgentCommunication.tsx:114 | the result is no longer than the string and ends with a character that is not whitespace, when not empty |
| Text.TrimEmptyIffBlank | src/components/nanda/AgentRegistry.tsx:89 | `trim()` of a string is empty iff every character is JavaScript whitespace |
| Text.TrimStartDropsSpace | src/components/nanda/InterAgentCommunication.tsx:114 | the leading trim keeps a suffix of the string and drops only whitespace |
| Text.TrimEndDropsSpace | src/components/nanda/InterAgentCommunication.tsx:114 | the trailing trim keeps a prefix of the string and drops only whitespace |
| Text.NatToString | src/components/nanda/AgentRegistry.tsx:97 | a non-empty string of digits with no leading zero; `ParseNatToString` reads it back to the number |
| Text.IntToString | src/components/nanda/NandaBackendIntegration.tsx:117 | the decimal form of a non-negative integer, and '-' before the decimal form of its magnitude for a negative one; `StartScriptFields` states that the NUM_AGENTS line carries it unquoted |
| Text.ParseNatToString | src/components/nanda/AgentRegistry.tsx:97 | reading back the decimal rendering of n gives n |
| Text.NatToStringInjective | src/components/nanda/AgentRegistry.tsx:97 | two numbers render alike iff they are equal |
| Text.PrefixedNumberInjective | src/components/nanda/AgentRegistry.tsx:97-103 | a fixed prefix followed by a rendered number identifies the number |
| QuantumDashboard.Dashboard.constructor | src/components/QuantumDashboard.tsx:16-21 | nothing executing, progress 0, no results, nothing shown, agent inactive |
| QuantumDashboard.Dashboard.Reset | src/components/QuantumDashboard.tsx:24-27 | executing, progress 0, results hidden, agent inactive; results and pending timers kept |
| QuantumDashboard.Dashboard.RunProgress | src/components/QuantumDashboard.tsx:30-33 | the progress values set are exactly 0, 5, …, 100 in order, ending at 100 |
| QuantumDashboard.Dashboard.Publish | src/components/QuantumDashboard.tsx:54-61 | results are the mock payload, execution over, results shown, one more activation timer pending |
| QuantumDashboard.Dashboard.Execute | src/components/QuantumDashboard.tsx:23-62 | a full run shows 0, 5, …, 100, ends with the mock payload shown, execution over, agent not yet active and one activation pending; the invariant "agent active or timer pending only over shown mock results" is kept |
| QuantumDashboard.Dashboard.FireActivation | src/components/QuantumDashboard.tsx:59-61 | the timer activates the agent and changes nothing else; the agent is only ever active over shown results |
| BenchmarkSystem.DifficultyColor | src/components/scientific/BenchmarkSystem.tsx:83-91 | the colour is gray exactly for strings other than the four difficulties |
| BenchmarkSystem.DifficultyColorsDistinct | src/components/scientific/BenchmarkSystem.tsx:83-91 | the four difficulties map to four distinct colours, none gray |
| BenchmarkSystem.CatalogueColoured | src/components/scientific/BenchmarkSystem.tsx:24-59 | every catalogue benchmark has a known difficulty, so no badge is gray |
| BenchmarkSystem.BenchmarkRunner.constructor | src/components/scientific/BenchmarkSystem.tsx:62-64 | nothing selected, not running, progress 0 |
| BenchmarkSystem.BenchmarkRunner.Start | src/components/scientific/BenchmarkSystem.tsx:67-69 | the argument selected, running, progress 0 |
| BenchmarkSystem.BenchmarkRunner.RunBenchmark | src/components/scientific/BenchmarkSystem.tsx:66-77 | progress visits 0, 5, …, 100 in order; at the end the benchmark is selected, not running, progress 100 |
| AgentRegistry.AgentId | src/components/nanda/AgentRegistry.tsx:97 | no contract of its own: `AgentIdInjective` states that two list lengths give the same id iff they are equal |
| AgentRegistry.BridgePort | src/components/nanda/AgentRegistry.tsx:100 | no contract of its own: `CanonicalDistinct` states that the derived ports of different positions differ |
| AgentRegistry.ApiPort | src/components/nanda/AgentRegistry.tsx:101 | no contract of its own: `CanonicalDistinct` states that no api port equals another record's bridge or api port |
| AgentRegistry.SeedAgents | src/components/nanda/AgentRegistry.tsx:44-85 | no contract of its own: `SeedHeader` and `SeedCanonical` state its counters and that record k has id agentm{60+k} and ports 6000+2k, 6001+2k |
| AgentRegistry.QubitsFor | src/components/nanda/AgentRegistry.tsx:106 | `floor(random·20)+1` lies in 1..20 |
| AgentRegistry.NewAgent | src/components/nanda/AgentRegistry.tsx:96-108 | the record for list length n: id agentm{60+n}, bridge port 6000+2n, api port one above, URLs ending in those ports, inactive, 0 operations, the drawn qubit count (1..20), the given name and framework. These fields are the record itself; what they guarantee across creates is stated by `CanonicalDistinct` and `CreatesKeepDistinct` |
| AgentRegistry.AgentIdInjective | src/components/nanda/AgentRegistry.tsx:97 | two list lengths give the same id iff they are equal |
| AgentRegistry.Created | src/components/nanda/AgentRegistry.tsx:88-113 | no contract of its own: `CreateBlankIff`, `CreateHeader` and `CreatePreservesCanonical` state that a blank name leaves the list unchanged, that any other name appends exactly the derived record, and what that does to the counters and the derived ids |
| AgentRegistry.CreateBlankIff | src/components/nanda/AgentRegistry.tsx:89 | create changes the list iff the name contains a non-whitespace character |
| AgentRegistry.Flip | src/components/nanda/AgentRegistry.tsx:120 | no contract of its own: `Toggled` states that active becomes inactive and everything else becomes active, and `ToggleTwice` what two flips give |
| AgentRegistry.Toggled | src/components/nanda/AgentRegistry.tsx:115-125 | same length; matching records become inactive if active and active otherwise, with the new time; other records unchanged |
| AgentRegistry.ToggleTwice | src/components/nanda/AgentRegistry.tsx:115-125 | toggling twice restores active and inactive records and leaves error or processing records inactive |
| AgentRegistry.ToggleUnknown | src/components/nanda/AgentRegistry.tsx:115-125 | toggling an id no record has changes nothing |
| AgentRegistry.Removed | src/components/nanda/AgentRegistry.tsx:127-129 | the list never grows |
| AgentRegistry.RemovedMembers | src/components/nanda/AgentRegistry.tsx:127-129 | a record survives iff it was present and has a different id |
| AgentRegistry.RemovedAppend | src/components/nanda/AgentRegistry.tsx:127-129 | removal splits over concatenation, so survivors keep their order |
| AgentRegistry.RemovedIdentity | src/components/nanda/AgentRegistry.tsx:127-129 | removing an absent id changes nothing; removing twice equals removing once |
| AgentRegistry.ActiveCount | src/components/nanda/AgentRegistry.tsx:168 | no contract of its own: `ActiveCountBound` and `CountersAppend` state that it is at most the length, equal to it iff all are active, and additive over concatenation |
| AgentRegistry.TotalQubits | src/components/nanda/AgentRegistry.tsx:172 | no contract of its own: `CountersAppend` states that it is additive over concatenation, and `CreateHeader` that a create raises it by 1..20 |
| AgentRegistry.TotalOperations | src/components/nanda/AgentRegistry.tsx:176 | no contract of its own: `CountersAppend` states that it is additive over concatenation, and `CreateHeader` that a create leaves it unchanged |
| AgentRegistry.HeaderOf | src/components/nanda/AgentRegistry.tsx:168-180 | the active count never exceeds the registered count, which is the list length |
| AgentRegistry.ActiveCountBound | src/components/nanda/AgentRegistry.tsx:168 | the active count is at most the length, and equals it iff every record is active |
| AgentRegistry.CountersAppend | src/components/nanda/AgentRegistry.tsx:168-176 | the active count and both sums split over concatenation |
| AgentRegistry.SeedHeader | src/components/nanda/AgentRegistry.tsx:44-85 | the seed shows 2 active agents, 25 qubits, 4295 operations, 3 registered |
| AgentRegistry.AppendHeader | src/components/nanda/AgentRegistry.tsx:168-180 | appending an inactive record with no operations and 1..20 qubits adds one registered agent and 1..20 qubits, and leaves active agents and operations unchanged; `CreateHeader` applies it to a create |
| AgentRegistry.CreateHeader | src/components/nanda/AgentRegistry.tsx:96-110 | a successful create adds one registered agent and 1..20 qubits, and leaves active agents and operations unchanged |
| AgentRegistry.SeedCanonical | src/components/nanda/AgentRegistry.tsx:44-85 | seed record k is agentm{60+k} with ports 6000+2k and 6001+2k |
| AgentRegistry.CanonicalAppend | src/components/nanda/AgentRegistry.tsx:97-101 | appending the record derived from the length keeps every record at its derived id and ports |
| AgentRegistry.CreatePreservesCanonical | src/components/nanda/AgentRegistry.tsx:89-110 | a create keeps every record at the id and ports its position derives |
| AgentRegistry.CanonicalDistinct | src/components/nanda/AgentRegistry.tsx:97-101 | derived ids are pairwise distinct and no port is used twice |
| AgentRegistry.CreateAll | src/components/nanda/AgentRegistry.tsx:88-113 | no contract of its own: `CreateAllExtends`, `CreateAllCanonical` and `CreatesKeepDistinct` state that a run of creates only appends, at most one record per request, and keeps ids and ports distinct from the seed |
| AgentRegistry.CreateAllExtends | src/components/nanda/AgentRegistry.tsx:88-113 | a run of creates keeps the original list as a prefix and adds at most one record per request |
| AgentRegistry.CreateAllCanonical | src/components/nanda/AgentRegistry.tsx:88-113 | any run of creates keeps records at their derived ids and ports |
| AgentRegistry.CreatesKeepDistinct | src/components/nanda/AgentRegistry.tsx:44-113 | starting from the seed, any run of creates keeps all ids and all ports distinct |
| AgentRegistry.RemoveThenCreateReusesId | src/components/nanda/AgentRegistry.tsx:97-101 | removing agentm60 from the seed and creating again yields two records with id agentm62 and ports 6004/6005 |
| AgentRegistry.Registry.constructor | src/components/nanda/AgentRegistry.tsx:37-40 | empty list, empty name, Qiskit selected, not creating |
| AgentRegistry.Registry.Mount | src/components/nanda/AgentRegistry.tsx:43-86 | the list becomes the seed |
| AgentRegistry.Registry.SetName | src/components/nanda/AgentRegistry.tsx:38 | the name input takes the typed text |
| AgentRegistry.Registry.SelectFramework | src/components/nanda/AgentRegistry.tsx:39 | the framework choice takes the chosen value |
| AgentRegistry.Registry.CreateAgent | src/components/nanda/AgentRegistry.tsx:88-113 | given the drawn qubit count: a blank name changes nothing; otherwise the record derived from the old length is appended, the name cleared and creating false; the framework choice is kept |
| AgentRegistry.Registry.ToggleAgentStatus | src/components/nanda/AgentRegistry.tsx:115-125 | the list becomes `Toggled` of the old list |
| AgentRegistry.Registry.RemoveAgent | src/components/nanda/AgentRegistry.tsx:127-129 | the list becomes `Removed` of the old list |
| NandaBackend.RosterEntry | src/components/nanda/NandaBackendIntegration.tsx:61-75 | entry i: id agentm{prefix}{i}, pid 12000+i, running, bridge port 6000+2i, api port one above, public URL ending in :bridgePort, api URL https://{domain}:{apiPort}, four log lines. These fields are the entry itself; the roster-wide facts are `RosterPortsDistinct`, `RosterIdsDistinct` and `RosterPortCount` |
| NandaBackend.StartupLogs | src/components/nanda/NandaBackendIntegration.tsx:69-74 | there are four start-up lines per entry |
| NandaBackend.Roster | src/components/nanda/NandaBackendIntegration.tsx:61 | the roster has max(0, numAgents) entries, entry i being RosterEntry i |
| NandaBackend.RosterLength | src/components/nanda/NandaBackendIntegration.tsx:61 | no contract of its own: `Roster` states that the roster has this many entries, 0 for a negative count |
| NandaBackend.RosterPortsDistinct | src/components/nanda/NandaBackendIntegration.tsx:64-65 | no two entries share a bridge port or an api port, and no bridge port equals any api port |
| NandaBackend.PairedPorts | src/components/nanda/NandaBackendIntegration.tsx:64-65 | when entry i holds ports base+2i and base+2i+1, the listed ports are base, base+1, …, base+2n−1 in order |
| NandaBackend.RosterPortCount | src/components/nanda/NandaBackendIntegration.tsx:61-65 | the roster's ports, entry by entry, are 6000, 6001, …, 6000+2n−1, each once, and there are as many as the "Active Ports" counter of line 214 shows |
| NandaBackend.RosterIdsDistinct | src/components/nanda/NandaBackendIntegration.tsx:62-68 | no two entries share an id or an api URL |
| NandaBackend.RosterNumbering | src/components/nanda/NandaBackendIntegration.tsx:62-68 | entry i's id is agentm{prefix} followed by i, and its api URL ends in its api port 6001+2i |
| NandaBackend.NumberedDistinct | src/components/nanda/NandaBackendIntegration.tsx:62-68 | entries whose ids end in their index and whose api URLs end in 6001+2i are pairwise different in both |
| NandaBackend.ActivePorts | src/components/nanda/NandaBackendIntegration.tsx:214 | the counter is twice the number of listed processes, so always even; what it counts is stated by `RosterPortCount`: exactly the ports the roster occupies |
| NandaBackend.RunningCount | src/components/nanda/NandaBackendIntegration.tsx:208 | no contract of its own: `AllRunningCount`, `RosterAllRunning` and `StopRunningCount` state what it shows for an all-running list, a fresh roster and after a stop |
| NandaBackend.AllRunningCount | src/components/nanda/NandaBackendIntegration.tsx:208 | a list of running entries counts all of them as running |
| NandaBackend.RosterAllRunning | src/components/nanda/NandaBackendIntegration.tsx:61-66 | a fresh roster shows max(0, numAgents) running agents |
| NandaBackend.WithStatus | src/components/nanda/NandaBackendIntegration.tsx:160-172 | same length; matching entries get the new status with every other field kept; other entries unchanged |
| NandaBackend.StopRunningCount | src/components/nanda/NandaBackendIntegration.tsx:159-163 | a stop lowers the running counter by exactly the running entries with that id |
| NandaBackend.StatusOverwrite | src/components/nanda/NandaBackendIntegration.tsx:166-172 | a later status write to an id overrides an earlier one |
| NandaBackend.StaleStartUndoesStop | src/components/nanda/NandaBackendIntegration.tsx:165-175 | a stop of another running entry issued during the start delay is undone by the delayed phase |
| NandaBackend.ExportLines | src/components/nanda/NandaBackendIntegration.tsx:113-118 | there are six export lines |
| NandaBackend.Join | src/components/nanda/NandaBackendIntegration.tsx:107-157 | no contract of its own: `JoinAppend` states that joining splits over concatenation, and `LineInJoin` where each line sits with its newline |
| NandaBackend.JoinAppend | src/components/nanda/NandaBackendIntegration.tsx:107-157 | joining two blocks of lines is joining each and concatenating |
| NandaBackend.LineInJoin | src/components/nanda/NandaBackendIntegration.tsx:113-118 | each line of a newline-joined block occurs, with its newline, at its offset, preceded by a newline when not first |
| NandaBackend.HeadLines | src/components/nanda/NandaBackendIntegration.tsx:108-112 | the fixed head of the script is five lines |
| NandaBackend.TailLines | src/components/nanda/NandaBackendIntegration.tsx:119-155 | the fixed tail of the script is 37 lines |
| NandaBackend.ScriptLines | src/components/nanda/NandaBackendIntegration.tsx:107-157 | the lines of the script before its last are exactly the five fixed head lines, then the six export lines at their offsets, then the 37 fixed tail lines |
| NandaBackend.ScriptText | src/components/nanda/NandaBackendIntegration.tsx:107-157 | the script is the joined head, the joined export block, the joined tail and the final echo line, in that order |
| NandaBackend.StartScript | src/components/nanda/NandaBackendIntegration.tsx:107-157 | no contract of its own: `ScriptText`, `StartScriptExports` and `StartScriptFrame` state its layout, that each configuration field appears in a whole export line, and that only the export block depends on the configuration |
| NandaBackend.LineInText | src/components/nanda/NandaBackendIntegration.tsx:107-157 | any line after the first of a newline-joined block is a whole line of the block followed by any text |
| NandaBackend.StartScriptExports | src/components/nanda/NandaBackendIntegration.tsx:113-118 | every config field appears verbatim in a whole `export` line of the script, quoted except NUM_AGENTS |
| NandaBackend.StartScriptFields | src/components/nanda/NandaBackendIntegration.tsx:113-118 | for every configuration, each of the six `export NAME="value"` lines (NUM_AGENTS unquoted, rendered by `IntToString`) is a whole line of the script |
| NandaBackend.StartScriptFrame | src/components/nanda/NandaBackendIntegration.tsx:107-157 | two configurations give the same script iff they give the same export block |
| NandaBackend.DefaultCountLine | src/components/nanda/NandaBackendIntegration.tsx:117 | the default configuration (count 3, line 50) gives the count line `export NUM_AGENTS=3` |
| NandaBackend.DefaultScriptCount | src/components/nanda/NandaBackendIntegration.tsx:117 | that line is a whole line of the default script |
| NandaBackend.Backend.constructor | src/components/nanda/NandaBackendIntegration.tsx:45-79 | after mounting: default config, its roster, no logs, not deploying, online |
| NandaBackend.Backend.SetConfig | src/components/nanda/NandaBackendIntegration.tsx:59-79 | the config is replaced; the roster is re-derived and the status set online exactly when the count, prefix or domain changed |
| NandaBackend.Backend.StopAgent | src/components/nanda/NandaBackendIntegration.tsx:159-163 | matching entries become stopped |
| NandaBackend.Backend.StartAgent | src/components/nanda/NandaBackendIntegration.tsx:165-169 | matching entries become starting; the pending phase holds the pre-call list and the id |
| NandaBackend.Backend.CompleteStart | src/components/nanda/NandaBackendIntegration.tsx:170-174 | the list becomes the snapshot with the matching entries running |
| NandaBackend.Backend.DeployBackend | src/components/nanda/NandaBackendIntegration.tsx:81-105 | the logs are the initial line and the ten steps in order, 11 in all; not deploying; online; config and roster untouched |
| InterAgentCommunication.Pick | src/components/nanda/InterAgentCommunication.tsx:87 | `floor(random·n)` is a valid index into a list of n (the same draw at lines 100 and 144) |
| InterAgentCommunication.PickBound | src/components/nanda/InterAgentCommunication.tsx:87 | random·n lies in [0, n) |
| InterAgentCommunication.TypeFor | src/components/nanda/InterAgentCommunication.tsx:122 | the type is broadcast iff the target is 'broadcast', query otherwise |
| InterAgentCommunication.FindPeer | src/components/nanda/InterAgentCommunication.tsx:165 | `find` by id: none iff no entry has the id, else the first entry that has it |
| InterAgentCommunication.PeerStatusOf | src/components/nanda/InterAgentCommunication.tsx:164-167 | the status of the first entry with that id, offline when there is none; `ListedStatus` turns this into the status of entry k when no earlier entry shares its id |
| InterAgentCommunication.ListedStatus | src/components/nanda/InterAgentCommunication.tsx:164-167 | the lookup reports the status of the entry at k when no earlier entry has its id |
| InterAgentCommunication.PeerIdsDistinct | src/components/nanda/InterAgentCommunication.tsx:43-49 | the fixed roster lists each id once |
| InterAgentCommunication.DefaultStatuses | src/components/nanda/InterAgentCommunication.tsx:164-167 | every listed agent's lookup gives the status the roster lists for it, and an unlisted id is offline |
| InterAgentCommunication.SelectableTargets | src/components/nanda/InterAgentCommunication.tsx:276 | no more entries than the roster, none of them the current agent or offline |
| InterAgentCommunication.SelectableMembers | src/components/nanda/InterAgentCommunication.tsx:276 | an entry is offered iff it is in the roster, is not the current agent and is not offline |
| InterAgentCommunication.DefaultTargets | src/components/nanda/InterAgentCommunication.tsx:276 | the fixed roster of lines 43-49 offers agentm61, agentm62 and agentm64, in that order |
| InterAgentCommunication.ReplyMessage | src/components/nanda/InterAgentCommunication.tsx:132-148 | the reply comes from the target to the current agent, typed response, delivered, with one of the five fixed texts |
| InterAgentCommunication.GeneratorMessage | src/components/nanda/InterAgentCommunication.tsx:87-104 | the broadcast comes from a roster id, goes to 'broadcast', typed broadcast, delivered, with one of the five fixed texts |
| InterAgentCommunication.InitialMessages | src/components/nanda/InterAgentCommunication.tsx:53-81 | no contract of its own: `InitialWellAddressed` states that the three messages obey the addressing rules, and `Feed.constructor` that they are the feed after mounting |
| InterAgentCommunication.InitialWellAddressed | src/components/nanda/InterAgentCommunication.tsx:53-81 | the initial messages obey the addressing rules |
| InterAgentCommunication.Feed.constructor | src/components/nanda/InterAgentCommunication.tsx:38-82 | after mounting: the three initial messages, an empty draft, broadcast selected |
| InterAgentCommunication.Feed.SetDraft | src/components/nanda/InterAgentCommunication.tsx:288 | the draft takes the typed text |
| InterAgentCommunication.Feed.SelectTarget | src/components/nanda/InterAgentCommunication.tsx:272 | the target takes the chosen value |
| InterAgentCommunication.Feed.SendMessage | src/components/nanda/InterAgentCommunication.tsx:113-153 | a blank draft changes nothing and schedules nothing; otherwise exactly one message from the current agent to the target with the draft as content, the type from TypeFor and status sent is appended, the draft is cleared, and one reply from the target is scheduled iff the target is not 'broadcast'; the addressing invariant is kept |
| InterAgentCommunication.Feed.DeliverReply | src/components/nanda/InterAgentCommunication.tsx:131-151 | exactly the reply is appended; the addressing invariant is kept |
| InterAgentCommunication.Feed.GeneratorTick | src/components/nanda/InterAgentCommunication.tsx:85-108 | a draw above 0.7 appends exactly the generated broadcast, any other draw appends nothing; the addressing invariant is kept |
| AuthSystem.Debit | src/components/auth/AuthSystem.tsx:51-55 | no contract of its own: `DebitRefusal` and `DebitAccepted` state both of its outcomes |
| AuthSystem.DebitAll | src/components/auth/AuthSystem.tsx:51-55 | no contract of its own: `DebitAllBalance` and `SignedOutRefusesAll` state the balance after any run of calls and that a signed-out run refuses all |
| AuthSystem.DebitRefusal | src/components/auth/AuthSystem.tsx:51-52 | a debit is refused iff nobody is signed in or credits < amount, and a refusal changes nothing |
| AuthSystem.DebitAccepted | src/components/auth/AuthSystem.tsx:53-54 | an accepted debit lowers credits by exactly the amount and keeps id, name, email, plan and maxCredits |
| AuthSystem.DebitAllBalance | src/components/auth/AuthSystem.tsx:51-55 | over any run of calls the balance drops by exactly the accepted amounts, other fields are kept, and a balance starting at ≥ 0 stays ≥ 0 |
| AuthSystem.SignedOutRefusesAll | src/components/auth/AuthSystem.tsx:47-52 | after sign-out every call is refused and nobody is signed in |
| AuthSystem.NegativeDebitExceedsMaximum | src/components/auth/AuthSystem.tsx:52-53 | debiting −41 from the initial user is accepted and leaves 51 credits, above the maximum of 50 |
| AuthSystem.AuthProvider.constructor | src/components/auth/AuthSystem.tsx:33-40 | the initial user: id '1', free plan, 10 of 50 credits |
| AuthSystem.AuthProvider.Logout | src/components/auth/AuthSystem.tsx:47-49 | nobody is signed in |
| AuthSystem.AuthProvider.Login | src/components/auth/AuthSystem.tsx:42-45 | no contract of its own: the method has no `modifies` clause, so it changes no state, as the source only writes to the console |
| AuthSystem.AuthProvider.UseCredits | src/components/auth/AuthSystem.tsx:51-55 | the new user and the answer are exactly `Debit` of the old user |

## Left out

- Timers and `await`. Each delayed continuation is a separate method
  (`CompleteAnalysis`, `FireActivation`, `CompleteStart`, `DeliverReply`,
  `GeneratorTick`). The two-second wait inside `createAgent` is folded into
  one atomic `CreateAgent`. The same holds for the progress and deploy loops
  (`Execute`, `RunBenchmark`, `DeployBackend`). Interleavings are not
  modelled, for example a re-run of the dashboard while an old activation
  timer is pending, or two `useCredits` calls in one render that read a
  stale user.
- Clock values. `Date`, `toISOString` and `Date.now().toString()` are
  parameters. Message ids are therefore not proved unique; the code does not
  guarantee that either.
- The benchmark score. `runBenchmark`'s `Math.random() * 100` and the
  `alert()` that shows it are output only.
- Floating point. Counts, ports and credits are unbounded integers. The
  variance and the entanglement ratio are exact rationals, so JavaScript's
  rounding of very large sums is not modelled. Numbers are rendered as plain
  decimals; exponent notation above 10^21 is not modelled. The credit-bar
  percentage and the rounding of confidence percentages are display
  arithmetic.
- `Object.entries` key order. A histogram is taken in the order given.
  JavaScript's hoisting of integer-like keys is not modelled. The mock
  payload already lists its keys in that order. Histograms are assumed to
  have distinct keys, as a JavaScript object does; the type does not
  enforce it, and no property depends on it.
- `parseInt` yielding `NaN` for the agent count. The configuration holds an
  integer, and a negative count gives an empty roster, matching `Array.from`.
- `login`. It only writes to the console, so `AuthProvider.Login` changes
  nothing.
- What the generated bash script would do when run. Only the text
  substitution is modelled.
- JSX rendering, icons, status colours, charts, and the disabled states of
  buttons (they only prevent calls). Also left out are `QuantumAPI` (static
  example code, a mock response, a clipboard call), the quantum-module
  files, `ExecutionVisualization`, `PricingPlans` and `MainDashboard`.
- NandaBackend.RosterEntry: the four start-up log lines take their time
  stamps from a parameter. Their exact rendering by `toISOString` is not
  modelled.
- AgentRegistry.Registry.CreateAgent: the `Math.random()` draw of the
  qubit count happens outside the method, which receives the count. The
  draw itself is `QubitsFor`.
- NandaBackend.StartupLogs: the contract states only that there are four
  lines. Their texts are fixed by the definition, and no property depends
  on them.
- NandaBackend.HeadLines: the contract states only that the head is five
  lines; their texts are transcribed in the definition.
- NandaBackend.TailLines: the contract states only that the tail is 37
  lines; their texts are transcribed in the definition.
