# agent-arena core, modelled in Dafny

agent-arena lets language-model agents trade on a shared constant-product
market. This project models its sequential core:

- **The pool** (`defi_mechanics.dfy`, module `DefiMechanics`).
  - A `Pool` class changes its reserves, LP balances and cached product `k` in place.
  - Pure functions on `PoolState` give each operation's exact effect. The class methods are proved to have exactly that effect.
- **The agents** (`agent.dfy`, module `Agents`).
  - An `Agent` class holds the wallet, the decision log and alliance proposals.
  - It resolves one decided action against the pool: swap, provide liquidity, propose an alliance, or anything else (a no-op).
- **The simulation** (`simulation.dfy`, module `Simulations`).
  - A `Simulation` class runs `initialize_run`, then the turn × agent loop of `run`, then `_calculate_metrics`.
  - A loop over agents and a loop over turns are each proved against the functions `MovesFrom` and `TurnsFrom`.
- **The analyzer** (`analyzer.dfy`, module `Analyzer`): the clamped Gini coefficient, trade counts, aggressiveness, per-agent strategy profiles, trends across runs, the per-run metrics and the report's inequality band.
- **The summarizer's aggregation helpers** (`summarizer.dfy`, module `Summarizer`): the latest state of each agent ranked by profit, the action-type histogram, and the market events.
- **Shared pieces.**
  - `Gini` holds the Gini formula that both coefficients share.
  - `Dicts` models Python dicts as insertion-ordered association lists.
  - `Tallies` models `Counter` and `most_common`.
  - `Sorting` holds sums, means, extremes and `sorted`.
  - `Config` holds the configuration defaults; `Wrappers` holds the optional and result types.

Every quantity is a mathematical `real`.

**Configuration.** The defaults are fixed: `SWAP_FEE` = 0.003, `INITIAL_TOKENS` = 100, pool reserves 1000 / 1000 (the `Pool` field defaults), and 5 agents × 5 turns. The fee is written as the literal 0.003 wherever it is used.

**Where the model takes things from outside.**
- **Decisions.** The decision each agent's language model returns is an input; `Oracle` is a function of:
  - the turn;
  - the agent's position;
  - all agents' states;
  - the pool state.

  It yields a decision or an error message.
- **The square root.** The square root in the first LP mint, `(a*b) ** 0.5`, is a function `sqrt: real -> real` given to the pool. Nothing is assumed about it.

**Consequences.** Because everything else is modelled, the model can prove that whatever the oracle says:
- a run never raises;
- the pool's reserves stay positive and `k` never falls below its initial value;
- for decisions without negative swaps or lopsided deposits, the agents' total profit equals what the pool lost.

**Behaviour worth knowing.** The model does what the code does, including:
- **Swaps.**
  - The fee is taken out of the curve output, not the input.
  - A swap of a non-positive amount returns `(0, 0)`; it does not fail.
  - Nothing caps a swap at the reserves.
  - A negative swap amount passes the agent's balance check and credits the agent (`SwapAction`).
- **Withdrawals.**
  - `withdraw_liquidity` does not check that the caller owns the LP tokens, so over-withdrawal drives the reserves negative (`OverWithdrawalGoesNegative`).
  - For an unknown provider it raises `KeyError` after the reserves have already been reduced.
- **The cached product.** `constant_product` returns the `k` cached by the last operation that refreshed it. A swap of a positive amount, a deposit of two positive amounts and a withdrawal that burns tokens refresh it to `reserve_a * reserve_b`; the no-op paths leave the cached value as it was (`CompletedStepsKeepK`). A withdrawal that raises `KeyError` leaves it stale, above the product of the shrunken reserves (`KeyErrorLeavesKStale`). No agent action withdraws, so during a run `k` is always current (`RunNeverRaises`).
- **Betrayals and alliances.**
  - The betrayal count is a placeholder that always returns 0.
  - Proposing an alliance only records the proposal. It moves no tokens and gives no bonus.
- **The market.** Only the agents' own actions change the pool. The code has no scheduled market-maker trades and no price shocks.
- **Run numbering.** Without a database and with no explicit number, run `n` is announced as `current + 1`, and `run` then adds one more. Consecutive runs are therefore numbered 1, 3, 5, … (`Simulation.Run`, `UnnumberedRunsSkip`).
- **The two Gini coefficients.** The simulation's Gini is only floored at 0. Negative profits can push the raw formula below 0, where it is floored (`SimulationGiniFlooredAtZero`), or above 1 (`SimulationGiniAboveOne`). The analyzer's is clamped to [0, 1] (`GiniClampedAtOne`).

## Model

| member | source | states |
|---|---|---|
| DefiMechanics.NewPool | core/defi_mechanics.py:13-19 | a new pool has its `k` cached, no LP balances, and total liquidity 0 |
| DefiMechanics.OutputOnCurve | core/defi_mechanics.py:115-127 | the curve output is 0 unless all three arguments are positive; then it lies strictly between 0 and the output reserve and keeps `(x + dx)(y - dy) = x y` |
| DefiMechanics.SwapEffect | core/defi_mechanics.py:21-47 | a non-positive input changes nothing and returns (0, 0). Swapping "a" adds the input to reserve A and takes the payout from reserve B; the payout plus the fee is the curve output and the fee is 0.003 of it. Any other token is the mirror image. LP balances are untouched and `k` is recomputed |
| DefiMechanics.SwapGrowsProduct | core/defi_mechanics.py:31-46 | with positive reserves and input, both reserves stay positive and the new product is exactly `k + 0.003 · reserve_out · amount_in`, so `k` strictly grows |
| DefiMechanics.RoundTripLosesFee | core/defi_mechanics.py:21-47 | swapping A for B and the whole output straight back returns exactly `(1 - 0.003)^2` of the input, less than was put in |
| DefiMechanics.ProvideEffect | core/defi_mechanics.py:49-73 | a non-positive amount changes nothing and mints 0. Existing liquidity with a zero reserve raises ZeroDivisionError. Otherwise both reserves grow by the amounts, `k` is recomputed, and the caller is credited the minted LP tokens (the geometric mean first, then the smaller share times the summed reserves) |
| DefiMechanics.ProvideCompletes | core/defi_mechanics.py:55-73 | on the path where the deposit goes through, the resulting pool and LP amount in closed form |
| DefiMechanics.ProportionalMintBounded | core/defi_mechanics.py:59-64 | proportional minting is positive, at most each leg's share of the summed reserves, and equal to one of them |
| DefiMechanics.WithdrawEffect | core/defi_mechanics.py:75-90 | with no liquidity or a non-positive amount, nothing changes and (0, 0) is paid. Otherwise both reserves lose the share `lp / total`. The call completes exactly when the caller has an LP entry; it then pays that share, debits the caller and recomputes `k`. Otherwise it raises KeyError with the LP map and the cached `k` left as they were |
| DefiMechanics.WithdrawPays | core/defi_mechanics.py:81-86 | a completed withdrawal pays out exactly what the reserves lose, and scales both by `1 - share` |
| DefiMechanics.WithdrawBurns | core/defi_mechanics.py:87 | a completed withdrawal lowers the caller's LP balance, and the total liquidity, by exactly the burned amount |
| DefiMechanics.OverWithdrawalGoesNegative | core/defi_mechanics.py:77-86 | burning more LP tokens than exist drives both positive reserves negative, since nothing checks ownership |
| DefiMechanics.PriceAB | core/defi_mechanics.py:92-95 | the price times reserve A is reserve B when reserve A is positive; otherwise the price is 0 |
| DefiMechanics.PriceBA | core/defi_mechanics.py:97-100 | the mirror image of `PriceAB` |
| DefiMechanics.TotalLiquidity | core/defi_mechanics.py:102-105 | the sum of the LP balances, 0 for a pool without providers |
| DefiMechanics.LiquidityTracksLP | core/defi_mechanics.py:21-105 | a swap leaves `total_liquidity` unchanged, a completed deposit raises it by the minted LP tokens, a completed withdrawal of a positive amount lowers it by the burned tokens, and a withdrawal that raises leaves it unchanged |
| DefiMechanics.CompletedStepsKeepK | core/defi_mechanics.py:21-112 | what `constant_product` returns is `reserve_a * reserve_b` after a positive swap, a deposit of positive amounts and a withdrawal that burns tokens; their no-op paths keep `k` current when it was current before |
| DefiMechanics.KeyErrorLeavesKStale | core/defi_mechanics.py:81-112 | a withdrawal of a positive share, at most all LP tokens, by an agent without an LP entry raises KeyError with the old `k` still cached, strictly above the product of the reduced reserves |
| DefiMechanics.PricesReciprocal | core/defi_mechanics.py:92-100 | with both reserves positive the two prices multiply to 1 |
| DefiMechanics.Pool.constructor | core/defi_mechanics.py:18-19 | a pool built from two reserves is `NewPool` of them |
| DefiMechanics.Pool.Swap | core/defi_mechanics.py:21-47 | the new fields and the returned amounts are exactly `SwapStep` of the old fields, and LP balances stay one per provider; after a positive swap, or when it was current before, the cached `k` is the product of the reserves |
| DefiMechanics.Pool.ProvideLiquidity | core/defi_mechanics.py:49-73 | the new fields and the minted amount are `ProvideStep` of the old fields; an exception leaves the pool unchanged; a completed deposit of positive amounts leaves `k` current, as does any completed call when it was current before |
| DefiMechanics.Pool.WithdrawLiquidity | core/defi_mechanics.py:75-90 | the new fields and the paid amounts are `WithdrawStep` of the old fields, including the reserves already reduced when KeyError is raised; a completed withdrawal leaves `k` current when it burned tokens or `k` was current before |
| Dicts.CreditEffect | core/defi_mechanics.py:68-70 | `d[k] = d.get(k, 0) + x` credits `x` to `k`, keeps every other entry, adds `x` to the total and `k` to the keys when it was missing |
| Dicts.CreditDistinct | core/defi_mechanics.py:68-70 | crediting keeps one entry per key |
| Dicts.SetFacts | core/analyzer.py:67-69 | dict assignment adds the key at the end when new and keeps its position otherwise; it sets the value, keeps the others, and keeps keys distinct |
| Dicts.SetTwice | core/analyzer.py:67-69 | assigning a key twice is the same as assigning the second value once |
| Dicts.TotalSet | core/defi_mechanics.py:68-70 | after `d[k] = v` the summed values change by `v` minus the old value |
| Agents.ActionName | core/agent.py:136 | the name is `action` when present, else `action_type`, else the default |
| Agents.Profit | core/agent.py:97-99 | profit plus the endowment of 100 of each token is the tokens held; holding at least the endowment of both tokens means a non-negative profit |
| Agents.ActionProfitIsPoolLoss | core/agent.py:97-178 | for a decision without a negative swap or a lopsided deposit, a completed action raises the agent's profit by exactly what the pool's two reserves lose together |
| Agents.NewAgentHasNoProfit | core/agent.py:97-99 | a fresh agent's profit is 0 |
| Agents.Recent | core/agent.py:106 | the last ten history entries, or all of them when there are fewer |
| Agents.InferStrategyOf | core/agent.py:101-114 | "unknown" without history; otherwise an action that occurs among the last ten, at least as often as any other, and earlier in first-appearance order than every other action with the same count |
| Agents.SwapAction | core/agent.py:149-165 | an affordable "a" or "b" swap debits the amount, credits the pool's payout and returns the swapped pool. Anything else fails with nothing changed. Name, history and alliances never change. A non-negative amount conserves agent plus pool holdings of each token; a negative one credits the agent with the pool untouched |
| Agents.LiquidityAction | core/agent.py:167-178 | an unaffordable deposit fails with nothing changed. An affordable one raises exactly when the pool raises, and otherwise debits both amounts exactly, even when the pool ignores a non-positive leg. Two positive legs conserve agent plus pool holdings of each token. A raise is ZeroDivisionError from a zero reserve |
| Agents.AllianceAction | core/agent.py:180-186 | a non-empty name is recorded as "proposed" and succeeds; an empty name fails with nothing changed |
| Agents.AllianceIdempotent | core/agent.py:180-186 | proposing the same alliance again succeeds and changes nothing more |
| Agents.ExecuteStep | core/agent.py:134-147 | an unrecognised action succeeds and changes nothing. The agent's name and history never change. LP balances stay one per provider and a current `k` stays current. A conserving decision conserves agent plus pool holdings of each token |
| Agents.LiquidityKeepsDistinct | core/defi_mechanics.py:68-70 | a deposit keeps the LP map one entry per provider |
| Agents.SwapKeepsPoolHealthy | core/agent.py:149-165 | a swap keeps positive reserves positive, keeps the cached `k` current and never lowers `k` |
| Agents.LiquidityKeepsPoolHealthy | core/agent.py:167-178 | a deposit into a pool with positive reserves never raises, keeps them positive and never lowers `k` |
| Agents.ExecuteKeepsPoolHealthy | core/agent.py:134-147 | whatever the decision, a pool with positive reserves and a current `k` does not raise, keeps both and never loses `k` |
| Agents.Agent.constructor | core/agent.py:15-20 | a new agent holds 100 of each token, an empty history and no alliances, and has profit 0 |
| Agents.Agent.CalculateProfit | core/agent.py:97-99 | the agent's profit plus the endowment of 100 of each token is its current holdings |
| Agents.Agent.InferStrategy | core/agent.py:101-114 | "unknown" for an empty history; otherwise an action among the last ten that occurs at least as often as any other |
| Agents.Agent.LogDecision | core/agent.py:50-56 | `decide` appends the turn and the action name ("unknown" when absent) to the history and changes nothing else |
| Agents.Agent.ExecuteSwap | core/agent.py:149-165 | the agent and the pool end as `SwapAction` of their old states says, with the same success flag |
| Agents.Agent.ExecuteLiquidity | core/agent.py:167-178 | the agent and the pool end as `LiquidityAction` says; a pool exception is returned with both unchanged |
| Agents.Agent.ExecuteAlliance | core/agent.py:180-186 | the agent ends as `AllianceAction` says, with the same success flag |
| Agents.Agent.ExecuteAction | core/agent.py:134-147 | the agent and the pool end as `ExecuteStep` says; a pool exception is returned with both unchanged |
| Simulations.Fallback | core/simulation.py:131-133 | a failed decision is replaced by a non-empty "do_nothing" decision |
| Simulations.FailedDecisionChangesNothing | core/simulation.py:123-133 | an agent whose decision fails changes neither the agents nor the pool |
| Simulations.NatToStringRoundTrip | core/simulation.py:46 | the decimal digits written for `i` read back as `i` |
| Simulations.AgentNamesDistinct | core/simulation.py:46 | `Agent_i` and `Agent_j` differ when `i` and `j` do |
| Simulations.AgentMoveKeepsPoolHealthy | core/simulation.py:65-70 | one agent's move never raises, keeps the reserves positive and never lowers `k` |
| Simulations.MovesFromKeepsPoolHealthy | core/simulation.py:65-75 | the same for the rest of a turn's agents |
| Simulations.TurnsFromKeepsPoolHealthy | core/simulation.py:61-79 | the same for the remaining turns |
| Simulations.RunNeverRaises | core/simulation.py:55-82 | whatever the oracle, a run completes with one agent per requested agent, positive reserves, a cached `k` equal to their product, and `k` at least 1000 · 1000 |
| Simulations.AgentMoveConserves | core/simulation.py:65-70 | with a conserving oracle one move keeps the total of each token over agents and pool |
| Simulations.MovesFromConserves | core/simulation.py:65-75 | the same for the rest of a turn |
| Simulations.TurnsFromConserves | core/simulation.py:61-79 | the same for the remaining turns |
| Simulations.RunProfitIsPoolLoss | core/simulation.py:55-82 | with a conserving oracle the agents' summed profit at the end of a run is what the pool lost from its 2000 initial tokens |
| Simulations.SimulationGini | core/simulation.py:187-200 | never negative; 0 for an empty or zero-sum list; the raw formula whenever that is non-negative, and 0 whenever it is negative |
| Simulations.SimulationGiniPermutation | core/simulation.py:193 | the coefficient does not depend on the order of the values |
| Simulations.SimulationGiniOfEqualValues | core/simulation.py:193-199 | equal non-zero values give 0 |
| Simulations.SimulationGiniOfSingleHolder | core/simulation.py:193-199 | one of `k + 1` agents holding everything gives `k / (k + 1)`; `[0, 0, 0, 100]` gives 0.75 |
| Simulations.SimulationGiniFlooredAtZero | core/simulation.py:199-200 | `[-2, -1]` has a negative raw formula and gives 0 |
| Simulations.SimulationGiniAboveOne | core/simulation.py:199-200 | `[-1, 2]` gives 1.5: only the lower bound is clamped |
| Simulations.SimulationGiniBelowOne | core/simulation.py:193-200 | non-negative values give a coefficient below 1 |
| Simulations.CooperationRate | core/simulation.py:202-205 | the rate times `max(#agents, 1)` is the total number of alliance entries, and it is non-negative |
| Simulations.CooperationZeroIffNoAlliances | core/simulation.py:202-205 | the rate is 0 exactly when no agent has an alliance entry |
| Simulations.CountBetrayals | core/simulation.py:207-209 | the betrayal count is always 0 |
| Simulations.RunMetricsStable | core/simulation.py:171-185 | after any run with agents the metrics exist, count no betrayal, and report a pool stability of at least the initial `k` |
| Simulations.GiniCoefficient | core/simulation.py:187-200 | the accumulation loop computes `SimulationGini` |
| Simulations.UnnumberedRunsSkip | core/simulation.py:37-112 | `n` consecutive unnumbered runs without a database, each starting from the counter `Simulation.Run` leaves, adopt the numbers `c + 1, c + 3, c + 5, …`, so a new simulation numbers its runs 1, 3, 5 |
| Simulations.Simulation.constructor | core/simulation.py:16-28 | a new simulation has no agents, no pool and run number 0 |
| Simulations.Simulation.InitializeRun | core/simulation.py:37-47 | sets the run number (the given one, else the current one plus 1) and builds fresh agents `Agent_0` … `Agent_{n-1}` with 100 of each token and a fresh 1000 / 1000 pool |
| Simulations.Simulation.PlayAgent | core/simulation.py:65-70 | the new agents and pool are this agent's `AgentMove`: a decision, logged when it arrives and then executed unless empty, or the fallback |
| Simulations.Simulation.PlayTurn | core/simulation.py:65-75 | every agent moves once, in list order, on the shared pool: the new world is `MovesFrom` of the old |
| Simulations.Simulation.PlayTurns | core/simulation.py:61-79 | `turns_per_run` turns in order: the new world is `TurnsFrom` of the old |
| Simulations.Simulation.ComputeMetrics | core/simulation.py:171-185 | nothing without agents; otherwise the Gini of the profits, their mean, the cooperation rate, 0 betrayals and `reserve_a * reserve_b` |
| Simulations.Simulation.Run | core/simulation.py:55-113 | the final world is a fresh run's `TurnsFrom`, the metrics are those of that world, and the run counter ends one above the number the run adopted (`NextRunNumber`) |
| Gini.RawGiniPermutation | core/analyzer.py:33-37 | the unclamped formula depends only on the values, not their order |
| Gini.RawGiniOfNegativeValues | core/simulation.py:188-199 | for `[-2, -1]` the unclamped formula is exactly -1/6 |
| Gini.RawGiniBelowOne | core/analyzer.py:33-37 | for non-negative values, not all 0, the unclamped formula is below 1 |
| Analyzer.GiniCoefficient | core/analyzer.py:27-38 | always in [0, 1]; 0 for an empty or zero-sum list; the raw formula when that lies in [0, 1], else the nearer bound |
| Analyzer.GiniCoefficientPermutation | core/analyzer.py:33-37 | the clamped coefficient does not depend on the order of the values |
| Analyzer.GiniAgreesWithSimulation | core/analyzer.py:38 | for non-negative values the analyzer's and the simulation's coefficients agree |
| Analyzer.GiniClampedAtOne | core/analyzer.py:38 | `[-1, 2]` gives 1.5 in the simulation and 1 in the analyzer |
| Analyzer.CountTrades | core/analyzer.py:40-46 | the number of "swap" history entries over all agents, at most the number of entries |
| Analyzer.LoggingCountsSwaps | core/analyzer.py:43-46 | logging a decision adds one trade exactly when its action is "swap" |
| Analyzer.Aggressiveness | core/analyzer.py:88-101 | 0.5 for no actions; otherwise the share of "swap" and "provide_liquidity" actions, in [0, 1] |
| Analyzer.StrategiesByAgent | core/analyzer.py:62-69 | the strategies dict has one key per agent name in order of first appearance ("unknown" for a missing name), each holding that agent's action types in log order |
| Analyzer.AnalysesProfileEachKey | core/analyzer.py:71-84 | the analysis keeps every key with a non-empty list, in place, mapped to the profile of its list |
| Analyzer.Diversity | core/analyzer.py:82 | the share of distinct action types: positive, at most 1, and times the count equal to the number of distinct types |
| Analyzer.GroupByAgent | core/analyzer.py:62-69 | the first loop builds exactly `Strategies` of the records |
| Analyzer.ProfileAgents | core/analyzer.py:71-84 | the second loop builds exactly `Analyses` of the strategies |
| Analyzer.ArmsRacesProfileEachAgent | core/analyzer.py:59-86 | one entry per distinct agent, in order of first appearance, each profiling exactly that agent's (non-empty) list of action types |
| Analyzer.StrategiesNonEmpty | core/analyzer.py:72-74 | no agent in the strategies dict has an empty list, so the skip never applies |
| Analyzer.DetectArmsRaces | core/analyzer.py:59-86 | the analysis is that of the grouped records: one entry per distinct agent name; each holds the dominant strategy, the counts, the diversity and the aggressiveness of exactly that agent's action types |
| Analyzer.TrendDirection | core/analyzer.py:120-134 | "stable" for fewer than two values; otherwise "up" exactly when the second half's mean exceeds the first half's by more than 0.1, and "down" exactly when it falls short by more than 0.1 |
| Analyzer.ConstantIsStable | core/analyzer.py:120-134 | a constant series is stable |
| Analyzer.NegatedTrendMirrors | core/analyzer.py:120-134 | negating the values swaps "up" and "down" |
| Analyzer.DetectTrends | core/analyzer.py:103-118 | nothing exactly when there are no runs; otherwise the trends of the profits and of the Ginis, their means, and the run count |
| Analyzer.AverageGiniWithinBounds | core/analyzer.py:110-116 | stored coefficients in [0, 1] average to a value in [0, 1] |
| Analyzer.CalculateRunMetrics | core/analyzer.py:11-25 | the clamped Gini of the profits; their mean, smallest and largest (0 without agents); the trade count; the cooperation rate; `reserve_a * reserve_b`; a price change of 0 |
| Analyzer.RunMetricsOrdered | core/analyzer.py:14-20 | the smallest profit ≤ the mean ≤ the largest, and the Gini lies in [0, 1] |
| Analyzer.InequalityBand | core/analyzer.py:153-161 | "Low" exactly below 0.2, "Moderate" exactly from 0.2 to below 0.4, "High" exactly from 0.4 |
| Analyzer.InequalityBandMonotone | core/analyzer.py:153-161 | a larger coefficient never reads as a lower band |
| Analyzer.EqualProfitsReadLow | core/analyzer.py:153-161 | equal profits read as low inequality |
| Tallies.DedupFacts | core/analyzer.py:82 | `set(xs)` in order of first appearance: the same members, no repetition, no longer than `xs` |
| Tallies.TallyCounts | core/analyzer.py:76-80 | `Counter(xs)` as a dict: one key per distinct item in order of first appearance, each counting its occurrences, the counts summing to `len(xs)` |
| Tallies.MostCommon | core/analyzer.py:76-77 | `most_common(1)[0][0]`: an item of maximal count, the first-seen among equals |
| Sorting.Sort | core/simulation.py:193 | `sorted`: ascending, a permutation of the input, with the same sum |
| Sorting.SortPermutation | core/simulation.py:193 | permutations of each other sort to the same sequence |
| Sorting.Mean | core/analyzer.py:18 | the mean times the count is the sum |
| Sorting.Least | core/analyzer.py:19 | `min`: a member no greater than any other |
| Sorting.Greatest | core/analyzer.py:20 | `max`: a member no smaller than any other |
| Summarizer.LatestKeys | core/summarizer.py:50-55 | `latest_by_agent` has one key per agent name, in order of first appearance |
| Summarizer.LatestKept | core/summarizer.py:50-55 | each agent's entry is one of its records with the greatest turn; among several with that turn the earliest, since the comparison is strict |
| Summarizer.SortByProfitFacts | core/summarizer.py:66-67 | the rows end ordered by non-increasing profit and are a permutation of the input rows |
| Summarizer.AnalyzeAgents | core/summarizer.py:48-68 | the result is the rows of `latest_by_agent` (profit 0 and strategy "unknown" when absent) sorted stably by profit. It is ordered by non-increasing profit, a permutation of those rows, and has one row per distinct agent |
| Summarizer.AnalyzeActions | core/summarizer.py:70-76 | one entry per action type in order of first appearance ("unknown" when missing), each counting that type; the counts add up to the number of actions |
| Summarizer.CountOfType | core/summarizer.py:95 | the number of records of one type is at most the number of records |
| Summarizer.MarketEventsOrdered | core/summarizer.py:78-104 | at most one event of each kind, in the order shift, alliances, swaps, so at most three events and the cut to five never drops one |
| Summarizer.MarketEventsContent | core/summarizer.py:83-102 | a shift event exactly when there are two or more pool records, the first and last are non-empty, and a reserve moved by more than 100 (with those changes). An alliance event exactly when more than 3 alliances were proposed, with that count. A swap event exactly when more than 5 swaps were made, with that count |
| Summarizer.AnalyzeMarketEvents | core/summarizer.py:78-104 | the events the appends and the cut produce are exactly `MarketEvents` |

## Left out

- **Language-model calls.** `Agent.decide`'s model call, `_build_prompt`, `update_learning` and the summary prompt and completion are not modelled. The decision is an input through `Oracle`; only the logging `decide` does is modelled.
- **Persistence and output.**
  - Everything behind the database client (run creation, state snapshots, saving actions and metrics, `get_next_run_number`) is not modelled, so `InitializeRun` always takes the no-database path.
  - Printing is not modelled.
  - The API and web layers are not part of this model.
- **Floating point.** Values are exact reals, so IEEE rounding, `round(...)` and every format string are not modelled. `final_tokens` is kept as its two numbers rather than the formatted string.
- **Square root.** The square root of the first LP mint is an uninterpreted function, so nothing is proved about the amount of that first mint beyond where it goes.
- **Pool state of the summarizer.** A non-empty pool record that lacks `reserve_a` or `reserve_b` would raise KeyError. Pool records are modelled as empty or holding both reserves.
- **Analyzer.cooperation_rate** has the same formula as `_calculate_cooperation` and is modelled once, as `Simulations.CooperationRate`.
- **Analyzer.price_change** is the constant 0 and is inlined in `CalculateRunMetrics`.
- **Unused count.** `passive_count` in `_calculate_aggressiveness` is computed but never used, so it is not modelled.
- **Mean.** `statistics.mean` raises on an empty list. Every call in the code is guarded, so `Mean` requires a non-empty list.
- **Dynamic typing.** Dict values of unexpected types (a string amount, a `None` turn) are not modelled: every field has the type the code uses it at.
