/**
 * The simulation engine (core/simulation.py): a run builds fresh agents and a
 * fresh pool, then for each turn lets every agent, in list order, obtain a
 * decision and act on the shared pool; at the end it reduces the agents and
 * the pool to run metrics.
 *
 * Decisions come from a language model. Here they come from an `Oracle`, a
 * function of the turn, the agent's position and everything the prompt is
 * built from, which either yields a decision or fails with a message.
 */
module Simulations {
  import opened Config
  import opened Wrappers
  import opened Sorting
  import opened Gini
  import opened DefiMechanics
  import opened Agents

  /** What asking an agent's model gives: a decision, or the message of the exception raised. */
  datatype OracleResult = Decided(decision: Decision) | OracleError(message: string)

  /** Decision source: turn, agent position, all agents' states and the pool's state. */
  type Oracle = (nat, nat, seq<AgentState>, PoolState) -> OracleResult

  /** `_agent_decide`'s replacement for a decision that raised. */
  function Fallback(message: string): (d: Decision)
    ensures ActionName(d, "") == "do_nothing" && !d.IsEmpty()
  {
    Decision(Some("do_nothing"), None, None, Some("Error: " + message))
  }

  /** The agents' states and the pool's. */
  datatype World = World(agents: seq<AgentState>, pool: PoolState)

  /** `range(n)` is empty for a negative `n`. */
  function Clamp(n: int): nat {
    if n < 0 then 0 else n
  }

  /** Acting on decision `d` for agent `i`, whose state is now `s`; a pool exception aborts the run. */
  function Resolve(w: World, i: nat, s: AgentState, d: Decision, sqrt: real -> real): Result<World, PoolError>
    requires i < |w.agents|
  {
    match ExecuteStep(d, s, w.pool, sqrt)
    case Done(_, a, q) => Ok(World(w.agents[i := a], q))
    case Threw(e) => Err(e)
  }

  /**
   * Agent `i`'s move: a decision that arrives is logged by `decide`, then
   * executed unless it is empty; a failed decision is replaced by the fallback
   * and executed without being logged.
   */
  function AgentMove(w: World, turn: nat, i: nat, oracle: Oracle, sqrt: real -> real): (r: Result<World, PoolError>)
    requires i < |w.agents|
    ensures r.Ok? ==> |r.value.agents| == |w.agents|
  {
    match oracle(turn, i, w.agents, w.pool)
    case OracleError(msg) => Resolve(w, i, w.agents[i], Fallback(msg), sqrt)
    case Decided(d) =>
      var s := Logged(w.agents[i], turn, d);
      if d.IsEmpty() then Ok(w.(agents := w.agents[i := s]))
      else Resolve(w, i, s, d, sqrt)
  }

  /** The moves of agents `i`, `i + 1`, ... of one turn. */
  function MovesFrom(w: World, turn: nat, i: nat, oracle: Oracle, sqrt: real -> real): (r: Result<World, PoolError>)
    requires i <= |w.agents|
    ensures r.Ok? ==> |r.value.agents| == |w.agents|
    decreases |w.agents| - i
  {
    if i == |w.agents| then Ok(w)
    else
      match AgentMove(w, turn, i, oracle, sqrt)
      case Ok(w') => MovesFrom(w', turn, i + 1, oracle, sqrt)
      case Err(e) => Err(e)
  }

  /** A move that goes through hands the rest of the turn its world. */
  lemma MovesFromStep(w: World, turn: nat, i: nat, oracle: Oracle, sqrt: real -> real, next: World)
    requires i < |w.agents| && AgentMove(w, turn, i, oracle, sqrt) == Ok(next)
    ensures |next.agents| == |w.agents|
    ensures MovesFrom(w, turn, i, oracle, sqrt) == MovesFrom(next, turn, i + 1, oracle, sqrt)
  {
  }

  /** Turns `turn`, ..., `turns - 1`. */
  function TurnsFrom(w: World, turn: nat, turns: nat, oracle: Oracle, sqrt: real -> real): (r: Result<World, PoolError>)
    ensures r.Ok? ==> |r.value.agents| == |w.agents|
    decreases turns - turn
  {
    if turn >= turns then Ok(w)
    else
      match MovesFrom(w, turn, 0, oracle, sqrt)
      case Ok(w') => TurnsFrom(w', turn + 1, turns, oracle, sqrt)
      case Err(e) => Err(e)
  }

  /** A turn that goes through hands the remaining turns its world. */
  lemma TurnsFromStep(w: World, turn: nat, turns: nat, oracle: Oracle, sqrt: real -> real, next: World)
    requires turn < turns && MovesFrom(w, turn, 0, oracle, sqrt) == Ok(next)
    ensures TurnsFrom(w, turn, turns, oracle, sqrt) == TurnsFrom(next, turn + 1, turns, oracle, sqrt)
  {
  }

  function Digit(d: nat): (c: char)
    requires d < 10
    ensures '0' <= c <= '9' && c as int - '0' as int == d
  {
    (('0' as int) + d) as char
  }

  predicate AllDigits(s: string) {
    forall i :: 0 <= i < |s| ==> '0' <= s[i] <= '9'
  }

  /** `str(n)` for a natural number. */
  function NatToString(n: nat): (s: string)
    ensures |s| > 0 && AllDigits(s)
    decreases n
  {
    if n < 10 then [Digit(n)] else NatToString(n / 10) + [Digit(n % 10)]
  }

  /** The number a string of decimal digits denotes. */
  function DigitsValue(s: string): nat
    requires AllDigits(s)
  {
    if s == [] then 0
    else DigitsValue(s[..|s| - 1]) * 10 + (s[|s| - 1] as int - '0' as int)
  }

  lemma {:induction false} NatToStringRoundTrip(n: nat)
    ensures DigitsValue(NatToString(n)) == n
    decreases n
  {
    if n >= 10 {
      var s := NatToString(n);
      assert s[..|s| - 1] == NatToString(n / 10);
      NatToStringRoundTrip(n / 10);
    }
  }

  /** The name of the agent at position `i`: `f"Agent_{i}"`. */
  function AgentName(i: nat): string {
    "Agent_" + NatToString(i)
  }

  /** Different positions give different names. */
  lemma AgentNamesDistinct(i: nat, j: nat)
    requires i != j
    ensures AgentName(i) != AgentName(j)
  {
    if AgentName(i) == AgentName(j) {
      assert NatToString(i) == AgentName(i)[6..] == AgentName(j)[6..] == NatToString(j);
      NatToStringRoundTrip(i);
      NatToStringRoundTrip(j);
    }
  }

  function InitialAgents(n: nat): (agents: seq<AgentState>)
    ensures |agents| == n
  {
    seq(n, i requires 0 <= i < n => NewAgent(AgentName(i)))
  }

  /** What `initialize_run` builds: `n` new agents and a pool with the default reserves. */
  function InitialWorld(n: nat): World {
    World(InitialAgents(n), NewPool(DEFAULT_RESERVE, DEFAULT_RESERVE))
  }

  /** The turn loop of `run`, from a freshly initialised world. */
  function Played(numAgents: int, turnsPerRun: int, oracle: Oracle, sqrt: real -> real): Result<World, PoolError> {
    TurnsFrom(InitialWorld(Clamp(numAgents)), 0, Clamp(turnsPerRun), oracle, sqrt)
  }

  /** A failed decision changes nothing: its fallback is "do_nothing" and is not logged. */
  lemma FailedDecisionChangesNothing(w: World, turn: nat, i: nat, oracle: Oracle, sqrt: real -> real)
    requires i < |w.agents|
    requires oracle(turn, i, w.agents, w.pool).OracleError?
    ensures AgentMove(w, turn, i, oracle, sqrt) == Ok(w)
  {
    assert w.agents[i := w.agents[i]] == w.agents;
  }

  lemma AgentMoveKeepsPoolHealthy(w: World, turn: nat, i: nat, oracle: Oracle, sqrt: real -> real)
    requires i < |w.agents| && Healthy(w.pool)
    ensures var r := AgentMove(w, turn, i, oracle, sqrt);
            r.Ok? && Healthy(r.value.pool) && Product(r.value.pool) >= Product(w.pool)
  {
    match oracle(turn, i, w.agents, w.pool)
    case OracleError(msg) =>
      ExecuteKeepsPoolHealthy(Fallback(msg), w.agents[i], w.pool, sqrt);
    case Decided(d) =>
      ExecuteKeepsPoolHealthy(d, Logged(w.agents[i], turn, d), w.pool, sqrt);
  }

  lemma {:induction false} MovesFromKeepsPoolHealthy(w: World, turn: nat, i: nat, oracle: Oracle, sqrt: real -> real)
    requires i <= |w.agents| && Healthy(w.pool)
    ensures var r := MovesFrom(w, turn, i, oracle, sqrt);
            r.Ok? && Healthy(r.value.pool) && Product(r.value.pool) >= Product(w.pool)
    decreases |w.agents| - i
  {
    if i < |w.agents| {
      var m := AgentMove(w, turn, i, oracle, sqrt);
      assert m.Ok? && Healthy(m.value.pool) && Product(m.value.pool) >= Product(w.pool) by {
        AgentMoveKeepsPoolHealthy(w, turn, i, oracle, sqrt);
      }
      var next := m.value;
      assert MovesFrom(w, turn, i, oracle, sqrt) == MovesFrom(next, turn, i + 1, oracle, sqrt) && |next.agents| == |w.agents| by {
        MovesFromStep(w, turn, i, oracle, sqrt, next);
      }
      MovesFromKeepsPoolHealthy(next, turn, i + 1, oracle, sqrt);
    }
  }

  lemma {:induction false} TurnsFromKeepsPoolHealthy(w: World, turn: nat, turns: nat, oracle: Oracle, sqrt: real -> real)
    requires Healthy(w.pool)
    ensures var r := TurnsFrom(w, turn, turns, oracle, sqrt);
            r.Ok? && Healthy(r.value.pool) && Product(r.value.pool) >= Product(w.pool)
    decreases turns - turn
  {
    if turn < turns {
      MovesFromKeepsPoolHealthy(w, turn, 0, oracle, sqrt);
      TurnsFromKeepsPoolHealthy(MovesFrom(w, turn, 0, oracle, sqrt).value, turn + 1, turns, oracle, sqrt);
    }
  }

  /**
   * Whatever the decisions, a run never raises: the pool starts with positive
   * reserves, keeps them, and its product never falls below the initial one.
   */
  lemma RunNeverRaises(numAgents: int, turnsPerRun: int, oracle: Oracle, sqrt: real -> real)
    ensures var r := Played(numAgents, turnsPerRun, oracle, sqrt);
            && r.Ok? && |r.value.agents| == Clamp(numAgents)
            && Healthy(r.value.pool)
            && Product(r.value.pool) >= DEFAULT_RESERVE * DEFAULT_RESERVE
  {
    TurnsFromKeepsPoolHealthy(InitialWorld(Clamp(numAgents)), 0, Clamp(turnsPerRun), oracle, sqrt);
  }

  /** Every decision the oracle can give is `Conserving`. */
  ghost predicate ConservingOracle(oracle: Oracle) {
    forall turn, i, agents, p :: oracle(turn, i, agents, p).Decided? ==> Conserving(oracle(turn, i, agents, p).decision)
  }

  function TokensA(agents: seq<AgentState>): (r: seq<real>)
    ensures |r| == |agents| && forall i :: 0 <= i < |agents| ==> r[i] == agents[i].tokenA
  {
    seq(|agents|, i requires 0 <= i < |agents| => agents[i].tokenA)
  }

  function TokensB(agents: seq<AgentState>): (r: seq<real>)
    ensures |r| == |agents| && forall i :: 0 <= i < |agents| ==> r[i] == agents[i].tokenB
  {
    seq(|agents|, i requires 0 <= i < |agents| => agents[i].tokenB)
  }

  /** All of token A in the world: the agents' balances and the pool's reserve. */
  function TotalA(w: World): real {
    Sum(TokensA(w.agents)) + w.pool.reserveA
  }

  function TotalB(w: World): real {
    Sum(TokensB(w.agents)) + w.pool.reserveB
  }

  lemma {:induction false} SumUpdate(s: seq<real>, i: nat, x: real)
    requires i < |s|
    ensures Sum(s[i := x]) == Sum(s) - s[i] + x
  {
    if i > 0 {
      assert s[i := x][1..] == s[1..][i - 1 := x];
      SumUpdate(s[1..], i - 1, x);
    }
  }

  lemma TotalsAfterUpdate(w: World, i: nat, a: AgentState, q: PoolState)
    requires i < |w.agents|
    ensures TotalA(World(w.agents[i := a], q)) == TotalA(w) - (w.agents[i].tokenA + w.pool.reserveA) + (a.tokenA + q.reserveA)
    ensures TotalB(World(w.agents[i := a], q)) == TotalB(w) - (w.agents[i].tokenB + w.pool.reserveB) + (a.tokenB + q.reserveB)
  {
    assert TokensA(w.agents[i := a]) == TokensA(w.agents)[i := a.tokenA];
    assert TokensB(w.agents[i := a]) == TokensB(w.agents)[i := a.tokenB];
    SumUpdate(TokensA(w.agents), i, a.tokenA);
    SumUpdate(TokensB(w.agents), i, a.tokenB);
  }

  lemma AgentMoveConserves(w: World, turn: nat, i: nat, oracle: Oracle, sqrt: real -> real)
    requires i < |w.agents| && ConservingOracle(oracle)
    ensures var r := AgentMove(w, turn, i, oracle, sqrt);
            r.Ok? ==> TotalA(r.value) == TotalA(w) && TotalB(r.value) == TotalB(w)
  {
    match oracle(turn, i, w.agents, w.pool)
    case OracleError(msg) =>
      FailedDecisionChangesNothing(w, turn, i, oracle, sqrt);
    case Decided(d) =>
      var s := Logged(w.agents[i], turn, d);
      if d.IsEmpty() {
        TotalsAfterUpdate(w, i, s, w.pool);
      } else {
        match ExecuteStep(d, s, w.pool, sqrt)
        case Done(_, a, q) => TotalsAfterUpdate(w, i, a, q);
        case Threw(_) =>
      }
  }

  lemma {:induction false} MovesFromConserves(w: World, turn: nat, i: nat, oracle: Oracle, sqrt: real -> real)
    requires i <= |w.agents| && ConservingOracle(oracle)
    ensures var r := MovesFrom(w, turn, i, oracle, sqrt);
            r.Ok? ==> TotalA(r.value) == TotalA(w) && TotalB(r.value) == TotalB(w)
    decreases |w.agents| - i
  {
    if i < |w.agents| {
      var m := AgentMove(w, turn, i, oracle, sqrt);
      if m.Ok? {
        var next := m.value;
        assert TotalA(next) == TotalA(w) && TotalB(next) == TotalB(w) by {
          AgentMoveConserves(w, turn, i, oracle, sqrt);
        }
        assert MovesFrom(w, turn, i, oracle, sqrt) == MovesFrom(next, turn, i + 1, oracle, sqrt) && |next.agents| == |w.agents| by {
          MovesFromStep(w, turn, i, oracle, sqrt, next);
        }
        MovesFromConserves(next, turn, i + 1, oracle, sqrt);
      }
    }
  }

  lemma {:induction false} TurnsFromConserves(w: World, turn: nat, turns: nat, oracle: Oracle, sqrt: real -> real)
    requires ConservingOracle(oracle)
    ensures var r := TurnsFrom(w, turn, turns, oracle, sqrt);
            r.Ok? ==> TotalA(r.value) == TotalA(w) && TotalB(r.value) == TotalB(w)
    decreases turns - turn
  {
    if turn < turns {
      MovesFromConserves(w, turn, 0, oracle, sqrt);
      var m := MovesFrom(w, turn, 0, oracle, sqrt);
      if m.Ok? {
        TurnsFromConserves(m.value, turn + 1, turns, oracle, sqrt);
      }
    }
  }

  function Profits(agents: seq<AgentState>): (r: seq<real>)
    ensures |r| == |agents| && forall i :: 0 <= i < |agents| ==> r[i] == Profit(agents[i])
  {
    seq(|agents|, i requires 0 <= i < |agents| => Profit(agents[i]))
  }

  lemma {:induction false} SumOfProfits(agents: seq<AgentState>)
    ensures Sum(Profits(agents)) == Sum(TokensA(agents)) + Sum(TokensB(agents)) - (|agents| as real) * (2.0 * INITIAL_TOKENS)
  {
    if agents != [] {
      assert Profits(agents)[1..] == Profits(agents[1..]);
      assert TokensA(agents)[1..] == TokensA(agents[1..]);
      assert TokensB(agents)[1..] == TokensB(agents[1..]);
      SumOfProfits(agents[1..]);
    }
  }

  lemma InitialHoldings(n: nat)
    ensures Sum(TokensA(InitialAgents(n))) == (n as real) * INITIAL_TOKENS
    ensures Sum(TokensB(InitialAgents(n))) == (n as real) * INITIAL_TOKENS
  {
    assert TokensA(InitialAgents(n)) == Repeat(INITIAL_TOKENS, n);
    assert TokensB(InitialAgents(n)) == Repeat(INITIAL_TOKENS, n);
    SumRepeat(INITIAL_TOKENS, n);
  }

  /**
   * When no decision swaps a negative amount or deposits a lopsided pair,
   * the agents' total profit at the end of a run is exactly what the pool has
   * lost from its initial reserves.
   */
  lemma RunProfitIsPoolLoss(numAgents: int, turnsPerRun: int, oracle: Oracle, sqrt: real -> real)
    requires ConservingOracle(oracle)
    ensures var r := Played(numAgents, turnsPerRun, oracle, sqrt);
            r.Ok? && Sum(Profits(r.value.agents)) == 2.0 * DEFAULT_RESERVE - (r.value.pool.reserveA + r.value.pool.reserveB)
  {
    var n := Clamp(numAgents);
    var w0 := InitialWorld(n);
    RunNeverRaises(numAgents, turnsPerRun, oracle, sqrt);
    TurnsFromConserves(w0, 0, Clamp(turnsPerRun), oracle, sqrt);
    InitialHoldings(n);
    var w := Played(numAgents, turnsPerRun, oracle, sqrt).value;
    SumOfProfits(w.agents);
  }

  /** `max(0, gini)` of the raw formula, and 0 for an empty or zero-sum list. */
  function SimulationGini(values: seq<real>): (g: real)
    ensures g >= 0.0
    ensures |values| == 0 || Sum(values) == 0.0 ==> g == 0.0
    ensures |values| > 0 && Sum(values) != 0.0 && RawGini(values) >= 0.0 ==> g == RawGini(values)
    ensures |values| > 0 && Sum(values) != 0.0 && RawGini(values) < 0.0 ==> g == 0.0
  {
    if |values| == 0 || Sum(values) == 0.0 then 0.0
    else
      var raw := RawGini(values);
      if raw > 0.0 then raw else 0.0
  }

  /** The coefficient depends only on the values, not on their order. */
  lemma SimulationGiniPermutation(a: seq<real>, b: seq<real>)
    requires multiset(a) == multiset(b)
    ensures SimulationGini(a) == SimulationGini(b)
  {
    SameElementsSameLength(a, b);
    SortPermutation(a, b);
    if |a| > 0 && Sum(a) != 0.0 {
      RawGiniPermutation(a, b);
    }
  }

  lemma SimulationGiniOfEqualValues(c: real, k: nat)
    requires c != 0.0 && k > 0
    ensures SimulationGini(Repeat(c, k)) == 0.0
  {
    RawGiniOfEqualValues(c, k);
  }

  /** One agent of `k + 1` holding all the profit: `k / (k + 1)`. */
  lemma SimulationGiniOfSingleHolder(c: real, k: nat)
    requires c > 0.0
    ensures SimulationGini(SingleHolder(c, k)) == (k as real) / (k as real + 1.0)
  {
    RawGiniOfSingleHolder(c, k);
    assert (k as real) / (k as real + 1.0) >= 0.0;
  }

  /** Profits can be negative, and unlike the analyzer's, this coefficient is not capped at 1. */
  lemma SimulationGiniAboveOne()
    ensures SimulationGini([-1.0, 2.0]) == 1.5
  {
    RawGiniWithNegativeValue();
  }

  /** All-negative profits can make the raw formula negative; the coefficient is then floored at 0. */
  lemma SimulationGiniFlooredAtZero()
    ensures RawGini([-2.0, -1.0]) < 0.0
    ensures SimulationGini([-2.0, -1.0]) == 0.0
  {
    RawGiniOfNegativeValues();
  }

  lemma SimulationGiniBelowOne(values: seq<real>)
    requires NonNegative(values)
    ensures SimulationGini(values) < 1.0
  {
    if |values| > 0 && Sum(values) != 0.0 {
      RawGiniBelowOne(values);
    }
  }

  /** Total number of alliance entries over all agents. */
  function AllianceCount(agents: seq<AgentState>): nat {
    if agents == [] then 0 else |agents[0].alliances| + AllianceCount(agents[1..])
  }

  lemma {:induction false} AllianceCountZero(agents: seq<AgentState>)
    ensures AllianceCount(agents) == 0 <==> forall i :: 0 <= i < |agents| ==> agents[i].alliances == map[]
  {
    if agents != [] {
      AllianceCountZero(agents[1..]);
      assert forall i :: 1 <= i < |agents| ==> agents[i] == agents[1..][i - 1];
      if agents[0].alliances != map[] {
        var k :| k in agents[0].alliances;
        assert |agents[0].alliances| > 0 by {
          assert k in agents[0].alliances.Keys;
        }
      }
    }
  }

  /** `_calculate_cooperation`: alliance entries per agent, counting at least one agent. */
  function CooperationRate(agents: seq<AgentState>): (r: real)
    ensures r >= 0.0
    ensures r * (if |agents| > 1 then |agents| else 1) as real == AllianceCount(agents) as real
  {
    (AllianceCount(agents) as real) / ((if |agents| > 1 then |agents| else 1) as real)
  }

  /** The rate is 0 exactly when no agent has proposed an alliance. */
  lemma CooperationZeroIffNoAlliances(agents: seq<AgentState>)
    ensures CooperationRate(agents) == 0.0 <==> forall i :: 0 <= i < |agents| ==> agents[i].alliances == map[]
  {
    AllianceCountZero(agents);
  }

  /** `_count_betrayals`: betrayal detection is not implemented; the count is always 0. */
  function CountBetrayals(): (n: nat)
    ensures n == 0
  {
    0
  }

  datatype Metrics = Metrics(
    giniCoefficient: real,
    avgAgentProfit: real,
    cooperationRate: real,
    betrayalCount: nat,
    poolStability: real)

  /** `_calculate_metrics`: nothing without agents. */
  function CalculateMetrics(w: World): Option<Metrics> {
    if |w.agents| == 0 then None
    else
      var profits := Profits(w.agents);
      Some(Metrics(
        SimulationGini(profits),
        Mean(profits),
        CooperationRate(w.agents),
        CountBetrayals(),
        Product(w.pool)))
  }

  /** At the end of any run with agents, the stability metric is at least the initial product. */
  lemma RunMetricsStable(numAgents: int, turnsPerRun: int, oracle: Oracle, sqrt: real -> real)
    requires numAgents > 0
    ensures var r := Played(numAgents, turnsPerRun, oracle, sqrt);
            && r.Ok?
            && var m := CalculateMetrics(r.value);
            && m.Some? && m.value.betrayalCount == 0
            && m.value.poolStability >= DEFAULT_RESERVE * DEFAULT_RESERVE
  {
    RunNeverRaises(numAgents, turnsPerRun, oracle, sqrt);
  }

  /** `_gini_coefficient`, with its accumulation loop. */
  method GiniCoefficient(values: seq<real>) returns (g: real)
    ensures g == SimulationGini(values)
  {
    if |values| == 0 || Sum(values) == 0.0 {
      return 0.0;
    }
    var sorted := Sort(values);
    var n := |sorted|;
    var cumsum := 0.0;
    var i := 0;
    while i < n
      invariant 0 <= i <= n
      invariant cumsum + Weighted(sorted[i..], i + 1) == Weighted(sorted, 1)
    {
      WeightedStep(sorted, i);
      cumsum := cumsum + ((i + 1) as real) * sorted[i];
      i := i + 1;
    }
    var gini := GiniFormula(cumsum, n as real, Sum(sorted));
    g := if gini > 0.0 then gini else 0.0;
  }

  /** The run number `initialize_run` adopts when there is no database. */
  function StartNumber(current: int, runNumber: Option<int>): int {
    match runNumber
    case Some(n) => n
    case None => current + 1
  }

  /** `current_run_number` once `run` has finished: the adopted number plus the final increment. */
  function NextRunNumber(current: int, runNumber: Option<int>): int {
    StartNumber(current, runNumber) + 1
  }

  /**
   * The numbers adopted by `n` consecutive `run()` calls without a database
   * and without explicit numbers, starting from the counter `current`; each
   * call starts from the counter the previous one left (`Simulation.Run`).
   */
  function UnnumberedRunNumbers(current: int, n: nat): seq<int>
    decreases n
  {
    if n == 0 then []
    else [StartNumber(current, None)] + UnnumberedRunNumbers(NextRunNumber(current, None), n - 1)
  }

  /** Consecutive unnumbered runs skip every other number: from a new simulation they are 1, 3, 5, ... */
  lemma {:induction false} UnnumberedRunsSkip(current: int, n: nat)
    ensures |UnnumberedRunNumbers(current, n)| == n
    ensures forall k :: 0 <= k < n ==> UnnumberedRunNumbers(current, n)[k] == current + 1 + 2 * k
    decreases n
  {
    if n > 0 {
      UnnumberedRunsSkip(current + 2, n - 1);
      var rest := UnnumberedRunNumbers(current + 2, n - 1);
      assert UnnumberedRunNumbers(current, n) == [current + 1] + rest;
      forall k | 0 < k < n
        ensures UnnumberedRunNumbers(current, n)[k] == current + 1 + 2 * k
      {
        assert rest[k - 1] == current + 2 + 1 + 2 * (k - 1);
      }
    }
  }

  /** The turn loop run from the initial world is the played run. */
  lemma PlayedFromInitial(numAgents: int, turnsPerRun: int, oracle: Oracle, sqrt: real -> real,
                          initial: World, final: World)
    requires initial == InitialWorld(Clamp(numAgents))
    requires Ok(final) == TurnsFrom(initial, 0, Clamp(turnsPerRun), oracle, sqrt)
    ensures Played(numAgents, turnsPerRun, oracle, sqrt) == Ok(final)
  {
  }

  class Simulation {
    const numAgents: int
    const turnsPerRun: int
    var agents: seq<Agent>
    var pool: Pool?
    var currentRunNumber: int
    /** The square root the pool's first mint uses. */
    const sqrt: real -> real

    constructor (numAgents: int, turnsPerRun: int, sqrt: real -> real)
      ensures this.numAgents == numAgents && this.turnsPerRun == turnsPerRun && this.sqrt == sqrt
      ensures agents == [] && pool == null && currentRunNumber == 0
    {
      this.numAgents := numAgents;
      this.turnsPerRun := turnsPerRun;
      this.sqrt := sqrt;
      agents := [];
      pool := null;
      currentRunNumber := 0;
    }

    ghost predicate Valid()
      reads this`pool, this`agents, pool
    {
      && pool != null && pool.Valid() && pool.sqrt == sqrt
      && forall i, j :: 0 <= i < j < |agents| ==> agents[i] != agents[j]
    }

    function AgentStates(): (r: seq<AgentState>)
      reads this`agents, agents
      ensures |r| == |agents| && forall i :: 0 <= i < |agents| ==> r[i] == agents[i].State()
    {
      var all := agents;
      seq(|all|, i reads all requires 0 <= i < |all| => all[i].State())
    }

    function Snapshot(): World
      requires pool != null
      reads this`pool, this`agents, pool, agents
    {
      World(AgentStates(), pool.State())
    }

    /** `initialize_run` without a database: agents `Agent_0`, ... and a default pool. */
    method InitializeRun(runNumber: Option<int>)
      modifies this
      ensures Valid()
      ensures currentRunNumber == StartNumber(old(currentRunNumber), runNumber)
      ensures fresh(pool) && forall i :: 0 <= i < |agents| ==> fresh(agents[i])
      ensures Snapshot() == InitialWorld(Clamp(numAgents)) && Healthy(pool.State())
    {
      currentRunNumber := StartNumber(currentRunNumber, runNumber);
      var created: seq<Agent> := [];
      var k := 0;
      var n := Clamp(numAgents);
      while k < n
        invariant 0 <= k <= n && |created| == k
        invariant currentRunNumber == StartNumber(old(currentRunNumber), runNumber)
        invariant forall i :: 0 <= i < k ==> fresh(created[i]) && created[i].State() == NewAgent(AgentName(i))
        invariant forall i, j :: 0 <= i < j < k ==> created[i] != created[j]
      {
        var a := new Agent(AgentName(k));
        created := created + [a];
        k := k + 1;
      }
      agents := created;
      pool := new Pool(DEFAULT_RESERVE, DEFAULT_RESERVE, sqrt);
      assert AgentStates() == InitialAgents(n);
    }

    /** One agent's move: `_agent_decide`, then `execute_action` when the decision is non-empty. */
    method PlayAgent(turn: nat, i: nat, oracle: Oracle)
      requires Valid() && i < |agents| && Healthy(pool.State())
      modifies pool, agents[i]
      ensures Valid() && Healthy(pool.State())
      ensures Ok(Snapshot()) == AgentMove(old(Snapshot()), turn, i, oracle, sqrt)
    {
      var w := Snapshot();
      var agent := agents[i];
      var decision: Decision;
      match oracle(turn, i, w.agents, w.pool) {
        case OracleError(msg) =>
          decision := Fallback(msg);
        case Decided(d) =>
          agent.LogDecision(turn, d);
          decision := d;
      }
      if !decision.IsEmpty() {
        ExecuteKeepsPoolHealthy(decision, agent.State(), pool.State(), sqrt);
        var ok, raised := agent.ExecuteAction(decision, pool);
      }
      AgentMoveKeepsPoolHealthy(w, turn, i, oracle, sqrt);
      assert AgentStates() == w.agents[i := agent.State()];
    }

    /** One turn: every agent in list order. */
    method PlayTurn(turn: nat, oracle: Oracle)
      requires Valid() && Healthy(pool.State())
      modifies pool, agents
      ensures Valid() && Healthy(pool.State())
      ensures Ok(Snapshot()) == MovesFrom(old(Snapshot()), turn, 0, oracle, sqrt)
    {
      ghost var start := Snapshot();
      ghost var w := start;
      var i := 0;
      while i < |agents|
        invariant 0 <= i <= |agents| == |w.agents|
        invariant Valid() && Healthy(pool.State())
        invariant Snapshot() == w
        invariant MovesFrom(start, turn, 0, oracle, sqrt) == MovesFrom(w, turn, i, oracle, sqrt)
      {
        PlayAgent(turn, i, oracle);
        MovesFromStep(w, turn, i, oracle, sqrt, Snapshot());
        w := Snapshot();
        i := i + 1;
      }
    }

    /** The turn loop of `run`. */
    method PlayTurns(oracle: Oracle)
      requires Valid() && Healthy(pool.State())
      modifies pool, agents
      ensures Valid()
      ensures Ok(Snapshot()) == TurnsFrom(old(Snapshot()), 0, Clamp(turnsPerRun), oracle, sqrt)
    {
      ghost var start := Snapshot();
      ghost var w := start;
      var turn := 0;
      while turn < Clamp(turnsPerRun)
        invariant 0 <= turn <= Clamp(turnsPerRun)
        invariant Valid() && Healthy(pool.State())
        invariant Snapshot() == w
        invariant TurnsFrom(start, 0, Clamp(turnsPerRun), oracle, sqrt)
                  == TurnsFrom(w, turn, Clamp(turnsPerRun), oracle, sqrt)
      {
        PlayTurn(turn, oracle);
        TurnsFromStep(w, turn, Clamp(turnsPerRun), oracle, sqrt, Snapshot());
        w := Snapshot();
        turn := turn + 1;
      }
    }

    /** `_calculate_metrics` of the current agents and pool. */
    method ComputeMetrics() returns (metrics: Option<Metrics>)
      requires Valid()
      ensures metrics == CalculateMetrics(Snapshot())
    {
      if |agents| == 0 {
        return None;
      }
      var w := World(AgentStates(), pool.State());
      assert w == Snapshot();
      var profits := Profits(w.agents);
      var gini := GiniCoefficient(profits);
      metrics := Some(Metrics(gini, Mean(profits), CooperationRate(w.agents), CountBetrayals(), Product(w.pool)));
    }

    /** `run` without persistence, printing or learning. */
    method Run(runNumber: Option<int>, oracle: Oracle) returns (metrics: Option<Metrics>)
      modifies this
      ensures Valid()
      ensures currentRunNumber == NextRunNumber(old(currentRunNumber), runNumber)
      ensures Played(numAgents, turnsPerRun, oracle, sqrt) == Ok(Snapshot())
      ensures metrics == CalculateMetrics(Snapshot())
    {
      InitializeRun(runNumber);
      ghost var initial := Snapshot();
      PlayTurns(oracle);
      ghost var final := Snapshot();
      PlayedFromInitial(numAgents, turnsPerRun, oracle, sqrt, initial, final);
      metrics := ComputeMetrics();
      assert metrics == CalculateMetrics(final);
      currentRunNumber := currentRunNumber + 1;
      assert Snapshot() == final;
    }
  }
}
