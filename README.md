# Tariff-war simulation engine, modelled in Dafny

This project models the simulation engine of a tariff-war game in which five
economic actors play a repeated game. The actors are a trade authority (US), a
monetary union (EU), a manufacturing bloc (China), the emerging markets (EM)
and a crypto market (Crypto). The model covers:

- **The agent table** (`Agents`, agents.dfy).
  - Each agent has named strategies. A strategy is a generator that returns a constant action record.
  - Each agent has a payoff function of its own action and the previous round's action map.
  - Optional fields and the `?.` / `|| 0` / truthiness defaults become `Option` fields and small lookup functions.
  - The payoff functions are also proved equal to a closed normal-form table (`MatrixPayoff`) whenever every agent plays a generated action.
- **The grid update** (`GridModel`, grid.dfy).
  - The grid is a 20×20 torus of health values. `Grid` is a class over an `array<real>`.
  - `Update` sweeps every cell from the pre-update snapshot into a fresh array, then commits it in one step.
  - Each cell's new value comes from:
    - the eight wrapped Moore neighbours;
    - the first bloc rectangle that contains the cell;
    - a clamp to [0, 1].
  - The sweep is proved against the pure specification `NextGrid`.
- **The round loop** (`Simulation`, simulation.dfy).
  - `RunSimulation` plays `numRounds` rounds. In each round the agents take their turns in table order.
  - A turn (`TakeTurn`):
    - may substitute a random strategy's action by mistake;
    - computes the payoff against the previous round's actions (none in round 0);
    - extends the agent's running payoff history;
    - for EM and Crypto only, may drift to a random strategy after a drop in payoff.
  - In spatial mode (`simulationType == "CA"`) the grid is updated and snapshotted after every round.
  - `Math.random()` is an oracle `random: nat -> real`: `random(k)` is the value of the k-th call, in [0, 1). The methods thread the number of calls made so far.
  - A ghost log records every round. Properties of whole runs are stated over it (`RunProperties`, properties.dfy).
- **Accumulation** (`Accumulation`, accumulation.dfy).
  - `sum` and running sums.
  - The discounted total Σ pᵣ·0.9ʳ, with its closed form for a constant payoff.

Spatial mode is on exactly when `simulationType === 'CA'`
(worker-simu.js:119, 142). A run of `numRounds = 0` plays no round: the payoff
histories are empty, every discounted total is 0, and in spatial mode the grid
history holds only the initial snapshot.

## Model

| member | source | states |
|---|---|---|
| Accumulation.Sum | worker-simu.js:1 | no contract of its own; pinned by `SumAppend` and `RunningTotal` |
| Accumulation.Weighted | worker-simu.js:147 | one weighted payoff per round; the weights are pinned by `WeightedAppend` |
| Accumulation.Discounted | worker-simu.js:147 | no contract of its own; pinned by `DiscountedAppend` and `ConstantDiscounted` |
| Accumulation.SumAppend | worker-simu.js:1 | `sum` is a left fold from 0: appending x adds x to the sum |
| Accumulation.Extend | worker-simu.js:133 | pushing onto a history adds exactly one entry and keeps the earlier entries |
| Accumulation.ExtendRunningSums | worker-simu.js:133 | pushing `last + p` (or `p` onto an empty history) onto a running-sum history of a payoff column gives the running sums of the column extended by p |
| Accumulation.RunningTotal | worker-simu.js:133 | the last entry of a running-sum history is the sum of all payoffs so far |
| Accumulation.WeightedAppend | worker-simu.js:147 | the discount-weighted column of a longer column weights the new payoff by 0.9 to the power of its round index |
| Accumulation.DiscountedAppend | worker-simu.js:145-148 | the discounted total grows by p·0.9ⁿ when round n's payoff p is added |
| Accumulation.ConstantDiscounted | worker-simu.js:145-148 | a constant payoff p over n rounds has discounted total p·(1−0.9ⁿ)/(1−0.9) |
| Agents.Generate | worker-simu.js:17-70 | no contract of its own: the constant record of each generator; pinned by `GeneratedIsShaped` and `PayoffMatrix` |
| Agents.Revenue | worker-simu.js:22 | no contract of its own; pinned by `RevenueOfThree` |
| Agents.UsPayoff | worker-simu.js:21-26 | no contract of its own; pinned by `UsMatrix` |
| Agents.EuPayoff | worker-simu.js:35-40 | no contract of its own; pinned by `EuMatrix` |
| Agents.ChinaPayoff | worker-simu.js:48-52 | no contract of its own; pinned by `ChinaMatrix` |
| Agents.EmPayoff | worker-simu.js:60-64 | no contract of its own; pinned by `EmMatrix` |
| Agents.CryptoPayoff | worker-simu.js:72-75 | no contract of its own; pinned by `CryptoMatrix` |
| Agents.Payoff | worker-simu.js:21-75 | no contract of its own: dispatch to the agent's payoff; pinned by `PayoffMatrix` and `RoundZeroPayoffs` |
| Agents.Strategies | worker-simu.js:14-76 | each agent's strategy list, in the table's key order, holds only that agent's strategies and has no duplicates |
| Agents.StrategyListed | worker-simu.js:14-76 | every strategy appears in its own agent's strategy list |
| Agents.GeneratedIsShaped | worker-simu.js:17-70 | every generated action carries the fields its agent's payoff reads without a fallback: US has three tariff rates, EU has counter-tariffs, Crypto has a BTC investment |
| Agents.OrZero | worker-simu.js:73 | the or-zero fallback on an optional number: 0 when absent, the value otherwise |
| Agents.UsTariff | worker-simu.js:37 | `oppActions.US?.tariffs[i]` is absent when the previous round has no US action |
| Agents.RevenueOfThree | worker-simu.js:22 | US revenue weighs the three tariff rates by 1000, 2000 and 500 |
| Agents.LookupsOfProfile | worker-simu.js:23-73 | when every agent plays a generated action, the opponent lookups the payoffs make reduce to strategy tests, in both directions: China's counter-tariffs are nonzero iff China retaliates (0.34), EU's are 0.2 iff EU retaliates, China's trade shift is set iff China redirects, and US LNG leverage is set iff US escalates |
| Agents.UsMatrix | worker-simu.js:21-26 | US payoff is 126.8 (escalate), 87.0 (moderate) or 0.5 (negotiate), minus 10 when China retaliated the round before |
| Agents.EuMatrix | worker-simu.js:35-40 | EU payoff is −30 for accepting, −10 for retaliating against an escalating US, the US tariff loss (−10 / −12.5 / 0), and +5 when China redirected |
| Agents.ChinaMatrix | worker-simu.js:48-52 | China payoff is 25 for redirecting, otherwise the tariff hit (−200·t₁)/5 (−21.6 / −10 / 0) plus −20 for retaliating |
| Agents.EmMatrix | worker-simu.js:60-64 | EM payoff is 25 (+10 if China redirected) for redirecting, −10 for crypto adoption, otherwise the tariff hit (−200·t₁)/4 (−27 / −12.5 / 0) |
| Agents.CryptoMatrix | worker-simu.js:72-75 | Crypto payoff is the investment direction times 45 plus ten times the instability, which is US tariff 0 plus EU and China counter-tariffs |
| Agents.PayoffMatrix | worker-simu.js:14-77 | for every strategy, the payoff of its generated action against a round of generated actions equals the normal-form table entry |
| Agents.RoundZeroPayoffs | worker-simu.js:123 | against the empty round-0 map every lookup defaults without failing; e.g. US negotiate earns 0.5, EU ignore earns 0, Crypto invest earns 45 |
| Agents.LookupsIgnoreEmAndCrypto | worker-simu.js:21-75 | no opponent lookup reads the EM or Crypto entries of the previous round |
| Agents.PayoffIgnoresEmAndCrypto | worker-simu.js:21-75 | every payoff is unchanged when the previous round's EM and Crypto actions are removed |
| GridModel.Idx | worker-simu.js:89 | the row-major index `i*20 + j` of a cell lies in [0, 400) |
| GridModel.IdxOfRowColumn | worker-simu.js:89 | row-major indexing is a bijection between the 20×20 cells and [0, 400) |
| GridModel.NeighborOffsetsAreUnit | worker-simu.js:6-12 | every neighbour offset lies in {−1, 0, 1}² |
| GridModel.NeighborOffsetsAreMoore | worker-simu.js:6-12 | the offset table has exactly 8 distinct entries: every pair in {−1, 0, 1}² except (0, 0) |
| GridModel.BuildNeighborOffsets | worker-simu.js:6-12 | the push loop over di and dj, skipping (0, 0), builds exactly the offset table |
| GridModel.Wrap | worker-simu.js:94-95 | `(x + d + 20) % 20` lies in [0, 20) and wraps −1 to 19 and 20 to 0 |
| GridModel.NeighborIdx | worker-simu.js:94-96 | a wrapped neighbour's index is a valid cell index |
| GridModel.NeighborSum | worker-simu.js:92-97 | no contract of its own; pinned by `NeighborSumUniform`, `NeighborSumBounds`, `NeighborSumLocal` and `Grid.SumNeighbors` |
| GridModel.NeighborHealth | worker-simu.js:98 | no contract of its own; pinned by `NeighborHealthInRange` |
| GridModel.FindBloc | worker-simu.js:99-100 | `blocs.find` gives nothing iff no rectangle contains the cell, and otherwise the first one that does |
| GridModel.BlocFactorRegions | worker-simu.js:80-83 | the bloc factor is 0.5 on rows and columns 0..5, 1.5 on rows and columns 10..15, and 1 elsewhere |
| GridModel.BlocFactor | worker-simu.js:99-100 | no contract of its own; pinned by `BlocFactorRegions` |
| GridModel.Clamp | worker-simu.js:101 | `Math.max(0, Math.min(1, x))` lies in [0, 1], keeps x inside, and maps below to 0 and above to 1 |
| GridModel.TariffImpact | worker-simu.js:90 | no contract of its own; pinned by `TariffImpactOfProfile` |
| GridModel.RetaliationImpact | worker-simu.js:91 | no contract of its own; pinned by `RetaliationImpactOfProfile` |
| GridModel.CellRule | worker-simu.js:101 | no contract of its own: the clamped update of one cell; pinned by `FullHealthIsFixedPoint` and `NextGrid`'s range |
| GridModel.NewCell | worker-simu.js:89-101 | no contract of its own; pinned by `NextGridAt`, `NewCellLocal` and `Grid.ComputeCell` |
| GridModel.NextGrid | worker-simu.js:85-106 | the updated grid has 400 cells, all in [0, 1] |
| GridModel.NextGridAt | worker-simu.js:86-103 | cell (i, j) of the updated grid is the update rule applied to the pre-update grid |
| GridModel.Uniform | worker-simu.js:79 | the filled grid holds the same value in all 400 cells |
| GridModel.NeighborSumUniform | worker-simu.js:92-97 | on a uniform grid of value v the neighbour sum is 8·v |
| GridModel.NeighborSumBounds | worker-simu.js:92-97 | on a grid in [0, 1] the neighbour sum lies in [0, 8] |
| GridModel.NeighborHealthInRange | worker-simu.js:98 | the neighbour mean (`neighborSum / 8`) of a grid in [0, 1] lies in [0, 1] |
| GridModel.NeighborSumLocal | worker-simu.js:92-97 | the neighbour sum reads only the wrapped neighbour cells |
| GridModel.NewCellLocal | worker-simu.js:86-104 | a new cell value depends only on the old cell and its 8 old neighbours, so it does not depend on the sweep order |
| GridModel.FullHealthIsFixedPoint | worker-simu.js:90-101 | with no tariff and no retaliation impact an all-1.0 grid stays all-1.0 |
| GridModel.TariffImpactOfProfile | worker-simu.js:90 | the tariff impact is the mean US tariff: 0.28 (escalate), 0.25 (moderate), 0 (negotiate) |
| GridModel.RetaliationImpactOfProfile | worker-simu.js:91 | the retaliation impact is 0.2 if EU retaliates plus 0.34 if China retaliates |
| GridModel.PeaceKeepsFullHealth | worker-simu.js:85-106 | a round in which US negotiates and neither EU nor China retaliates leaves an all-1.0 grid unchanged |
| GridModel.Grid.constructor | worker-simu.js:79 | the grid starts with 400 cells, all 1.0 |
| GridModel.Grid.SumNeighbors | worker-simu.js:92-97 | the offset loop sums the 8 wrapped neighbours of the current grid |
| GridModel.Grid.ComputeCell | worker-simu.js:89-101 | one cell's new value is the update rule on the current grid |
| GridModel.Grid.Sweep | worker-simu.js:86-103 | the nested loops write into a fresh copy exactly the next grid of the current one, reading only the current grid |
| GridModel.Grid.Update | worker-simu.js:85-106 | after the commit the grid is the next grid of the old one under the round's tariff and retaliation impacts, it stays in [0, 1], and the returned snapshot is the new grid |
| Simulation.Spatial | worker-simu.js:119 | no contract of its own: spatial mode is on exactly for the simulation type "CA"; pinned by `RunSimulation` |
| Simulation.PickStrategy | worker-simu.js:127-128 | `strats[Math.floor(u * strats.length)]` is always a strategy of the same agent |
| Simulation.PickReachesEvery | worker-simu.js:127-128 | every strategy of an agent is selected by some draw |
| Simulation.InitialStrategies | worker-simu.js:109-115 | the starting strategies give every agent one of its own strategies |
| Simulation.Rank | worker-simu.js:109-115 | every agent has one position in the fixed turn order |
| Simulation.MistakeDraws | worker-simu.js:126-128 | the mistake test uses one draw, and a second one exactly when the mistake happens |
| Simulation.TakeTurn | worker-simu.js:122-140 | a turn plays the held strategy, or on a mistake (first draw below `mistakeProb`) the strategy the second draw picks. Its action is that strategy's generated action and its payoff is computed against the previous round. From round 1 on, the next draw below 0.2 for EM or Crypto whose payoff fell selects a new strategy with one more draw; otherwise the strategy is kept. The number of draws consumed is exact: one to four, at most two in round 0, where the strategy is always kept |
| Simulation.TurnDrawsOfRound | worker-simu.js:125-139 | in a round that uses the draws as recorded, an agent's played strategy is the held one unless the draw at the start of its turn is below `mistakeProb`, in which case it is the next draw's pick. Its next strategy is the pick of the draw after the drift draw exactly when the round is past 0, the drift draw is below 0.2, the agent is EM or Crypto, and its payoff fell; otherwise it is the held one |
| Simulation.DrawsStep | worker-simu.js:122 | the next agent in table order takes its draws from where the previous agent's turn ended |
| Simulation.DrawsComplete | worker-simu.js:122-141 | after the five turns the round's draws run from its first position to its last, turn after turn in table order |
| Simulation.RoundPlayedYields | worker-simu.js:122-141 | a played round gives a valid action map and a strategy for every agent for the next round |
| Simulation.RoundStep | worker-simu.js:122-141 | one more turn in table order extends the round's recorded actions, payoffs, histories and strategies by that agent's turn only |
| Simulation.RoundComplete | worker-simu.js:122-141 | after all five turns the round is fully played and every history grew by that agent's payoff |
| Simulation.PlayRound | worker-simu.js:122-141 | the `forEach` over the agents plays every agent's turn against the previous round's actions and extends each running history by its payoff. The turns take the draws in table order: the first starts at the round's first draw, each later one where the one before ended, and the last ends at the returned count. Each turn uses its draws as `TakeTurn` does |
| Simulation.RunStep | worker-simu.js:121-141 | a round played from the strategies, actions and payoffs the previous round left extends a valid run |
| Simulation.RunRounds | worker-simu.js:121-141 | every round of a run was played from what the rounds before it left |
| Simulation.RunSoFarNext | worker-simu.js:121-123 | a run so far leaves a strategy for every agent and a valid action map for the next round |
| Simulation.PayoffsOf | worker-simu.js:116 | the payoff table has one entry per round, the round's payoff map |
| Simulation.Column | worker-simu.js:147 | an agent's payoff column holds its payoff of every round, in order |
| Simulation.ColumnAppend | worker-simu.js:147 | adding a round appends that round's payoff to every column |
| Simulation.HistoriesStep | worker-simu.js:133 | pushing every agent's running total keeps each history the running sums of that agent's payoff column |
| Simulation.RunStart | worker-simu.js:116-118 | before the first round the histories are empty, the strategies are the starting ones and no draw has been made |
| Simulation.RunAdvance | worker-simu.js:121-141 | a played round extends the run, its draw positions, the payoff table and the histories together, and provides the actions the grid update reads |
| Simulation.DrawTraceStep | worker-simu.js:121-141 | a round whose draws start where the run's last round ended extends the run's draw positions by one |
| Simulation.AdvanceRun | worker-simu.js:122-141 | one iteration of the round loop: the round is played from what the run left and against the draws from where the run stopped, and the run state advances by that round |
| Simulation.GridTraceStep | worker-simu.js:142 | a snapshot of the grid updated by a round's actions extends the grid history by one |
| Simulation.Snapshot | worker-simu.js:142 | in spatial mode the grid is updated with the round's actions and its new state is pushed onto the grid history |
| Simulation.Accumulate | worker-simu.js:145-148 | every agent's result is the discounted sum of its payoff column |
| Simulation.RunSimulation | worker-simu.js:108-148 | a run plays `numRounds` rounds. Its histories are the running sums of the payoff table. Its payoffs are the discounted totals. Round 0 starts at the first draw and every round starts at the draw where the previous one ended, each using its draws as `PlayRound` does. In "CA" mode the grid history starts with the grid before the run and holds one updated snapshot per round. Otherwise the history is absent and the grid is untouched |
| RunProperties.TurnOfRun | worker-simu.js:122-140 | in every round each agent plays the generated action of one of its own strategies. Without mistakes it plays the strategy it holds. Its strategy changes only when it may drift, it is past round 0, and its payoff fell |
| RunProperties.PayoffOfRun | worker-simu.js:123-132 | every recorded payoff is the agent's payoff function on its recorded action and the round's previous actions |
| RunProperties.PriorOfRound | worker-simu.js:123 | round 0 responds to the empty map, and every later round to the previous round's actions |
| RunProperties.HeldOfRound | worker-simu.js:109-139 | round 0 holds the starting strategies, and every later round holds those the previous round left |
| RunProperties.PinnedAgentsKeepStrategy | worker-simu.js:134 | US, EU and China hold their configured strategy in every round of a run |
| RunProperties.DriftNeedsDrop | worker-simu.js:134-139 | a strategy change implies the agent is EM or Crypto, the round is not round 0, and its payoff fell below the previous round's |
| RunProperties.NoMistakesPlayHeld | worker-simu.js:125-130 | without mistakes every agent's recorded action is its held strategy's action |
| RunProperties.NoMistakesFollowMatrix | worker-simu.js:123-131 | without mistakes every payoff is the normal-form table entry for the held strategies against those of the round before |
| RunProperties.TurnDrawsOfRun | worker-simu.js:125-139 | in every round of a run, an agent plays the held strategy unless the draw at the start of its turn is below `mistakeProb`, in which case it plays the next draw's pick. It drifts to the pick of the draw after the drift draw exactly when the round is past 0, the drift draw is below 0.2, the agent is EM or Crypto, and its payoff fell below the previous round's |
| RunProperties.DrawsPerRound | worker-simu.js:122-139 | round 0 makes 5 to 10 draws and every later round 10 to 20 |
| RunProperties.HistoryEndsWithTotal | worker-simu.js:133 | each history has one entry per round, and its last entry is the agent's plain total |
| RunProperties.SnapshotsInUnitRange | worker-simu.js:142 | every grid snapshot after the first has 400 cells in [0, 1] |
| RunProperties.PeacefulRoundImpacts | worker-simu.js:90-91 | in a run without mistakes, with US negotiating and neither EU nor China retaliating, every round has zero tariff and zero retaliation impact |
| RunProperties.PeacefulRunKeepsFullHealth | worker-simu.js:119-142 | such a run, started from a grid in full health, keeps the grid in full health after every round |

## Left out

- `postMessage` and `self.onmessage` (worker-simu.js:150, 153-155) are cross-thread transport. `RunSimulation` returns the result record instead.
- script.js is not part of this model: it is DOM, chart rendering and worker messaging.
- The distribution of `Math.random()` is not modelled. Each call is an oracle value in [0, 1), and the contracts describe control flow, not probabilities.
- GridModel.Grid.Update: values are exact `real`s, not `Float32Array` entries, so single-precision rounding of the grid and its snapshots is not modelled. The other payoff arithmetic is also exact rather than IEEE-754 doubles.
- Input validation is not modelled, and the source performs none. Strategy names are per-agent enumerations, so the unknown-name case (an undefined generator in the source) cannot arise in the model.
- Simulation.RunSimulation: `numRounds` is a natural number. A negative or non-integer count, which makes `Array(numRounds)` throw at worker-simu.js:116, is outside the model.
- GridModel.Grid.Sweep: the source recomputes the tariff and retaliation impacts inside the loop for every cell. The model computes them once per update; the value is the same for every cell.
- Agents.Payoff: its precondition asks every action, its own and each entry of the previous round's map, for the US tariff vector of three rates, the EU counter-tariffs and the Crypto BTC investment. Every action in a run comes from a generator and has them. Only a missing US tariff vector would throw in the source (`tariffs.reduce` at worker-simu.js:22, `tariffs[i]` at lines 37, 49, 61 and 73). A missing EU counter-tariff makes `undefined > 0` false at line 36, and a missing BTC investment gives NaN at line 74. Hand-made actions of these kinds are outside the model, and so is the Crypto field the precondition asks of a previous-round entry that no payoff reads.
- Simulation.RunSimulation: the module-level grid is a `Grid` object passed in by the caller, and it is not reset between runs (as in the source). The per-round `actions` and `payoffs` arrays are kept as a ghost log, plus the previous round's maps the next round needs. The ghost log is not part of the returned record, and neither are those arrays in the source.
- NaN and `undefined` arithmetic, such as `undefined * -50 || 0`, is modelled only through its observable result: a missing or zero lookup contributes 0.
