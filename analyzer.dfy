/**
 * The analysis tools run over finished runs: the clamped Gini coefficient,
 * trade counts, per-agent strategy profiles ("arms races"), trends across
 * runs, the per-run metrics dict and the inequality band of the report.
 */
module Analyzer {
  import opened Wrappers
  import opened Dicts
  import opened Tallies
  import opened Sorting
  import opened Gini
  import opened DefiMechanics
  import opened Agents
  import Simulations

  // ---------------------------------------------------------------------
  // Gini coefficient, clamped to [0, 1]

  /** `max(0, min(1, gini))`, and 0 for no values or a zero sum. */
  function GiniCoefficient(values: seq<real>): (g: real)
    ensures 0.0 <= g <= 1.0
    ensures |values| == 0 || Sum(values) == 0.0 ==> g == 0.0
    ensures |values| > 0 && Sum(values) != 0.0 && 0.0 <= RawGini(values) <= 1.0 ==> g == RawGini(values)
    ensures |values| > 0 && Sum(values) != 0.0 && RawGini(values) > 1.0 ==> g == 1.0
    ensures |values| > 0 && Sum(values) != 0.0 && RawGini(values) < 0.0 ==> g == 0.0
  {
    if |values| == 0 || Sum(values) == 0.0 then 0.0
    else
      var raw := RawGini(values);
      var capped := if raw < 1.0 then raw else 1.0;
      if capped > 0.0 then capped else 0.0
  }

  /** Reordering the values does not change the coefficient. */
  lemma GiniCoefficientPermutation(a: seq<real>, b: seq<real>)
    requires multiset(a) == multiset(b)
    ensures GiniCoefficient(a) == GiniCoefficient(b)
  {
    SameElementsSameLength(a, b);
    SortPermutation(a, b);
    if |a| > 0 && Sum(a) != 0.0 {
      RawGiniPermutation(a, b);
    }
  }

  /**
   * For non-negative values the analyzer and the simulation agree: the upper
   * clamp never applies there.
   */
  lemma GiniAgreesWithSimulation(values: seq<real>)
    requires NonNegative(values)
    ensures GiniCoefficient(values) == Simulations.SimulationGini(values)
  {
    if |values| > 0 && Sum(values) != 0.0 {
      RawGiniBelowOne(values);
    }
  }

  /** With a negative profit the two disagree: `[-1, 2]` gives 1.5 in the simulation and 1 here. */
  lemma GiniClampedAtOne()
    ensures Simulations.SimulationGini([-1.0, 2.0]) == 1.5
    ensures GiniCoefficient([-1.0, 2.0]) == 1.0
  {
    RawGiniWithNegativeValue();
  }

  // ---------------------------------------------------------------------
  // Trades

  /** Number of history entries whose action is `swap`, over all agents. */
  function CountTrades(agents: seq<AgentState>): (n: nat)
    ensures n <= HistoryLength(agents)
  {
    if agents == [] then 0
    else
      CountAtMost(ActionsOf(agents[0].history), "swap");
      Count(ActionsOf(agents[0].history), "swap") + CountTrades(agents[1..])
  }

  function HistoryLength(agents: seq<AgentState>): nat {
    if agents == [] then 0 else |agents[0].history| + HistoryLength(agents[1..])
  }

  lemma {:induction false} CountTradesUpdate(agents: seq<AgentState>, i: nat, s: AgentState)
    requires i < |agents|
    ensures CountTrades(agents[i := s]) + Count(ActionsOf(agents[i].history), "swap")
            == CountTrades(agents) + Count(ActionsOf(s.history), "swap")
  {
    if i > 0 {
      assert agents[i := s][1..] == agents[1..][i - 1 := s];
      CountTradesUpdate(agents[1..], i - 1, s);
    }
  }

  /**
   * Logging a decision adds one trade exactly when its action is `swap`,
   * whether or not the swap then succeeds.
   */
  lemma LoggingCountsSwaps(agents: seq<AgentState>, i: nat, turn: nat, d: Decision)
    requires i < |agents|
    ensures CountTrades(agents[i := Logged(agents[i], turn, d)])
            == CountTrades(agents) + (if ActionName(d, "unknown") == "swap" then 1 else 0)
  {
    var s := Logged(agents[i], turn, d);
    CountTradesUpdate(agents, i, s);
    assert ActionsOf(s.history) == ActionsOf(agents[i].history) + [ActionName(d, "unknown")];
    CountAppend(ActionsOf(agents[i].history), ActionName(d, "unknown"), "swap");
  }

  // ---------------------------------------------------------------------
  // Aggressiveness and per-agent strategies

  /**
   * The share of `swap` and `provide_liquidity` among an agent's actions;
   * 0.5 when there are none.
   */
  function Aggressiveness(actions: seq<string>): (r: real)
    ensures |actions| == 0 ==> r == 0.5
    ensures |actions| > 0 ==> 0.0 <= r <= 1.0
    ensures |actions| > 0 ==>
              r * (|actions| as real) == (Count(actions, "swap") + Count(actions, "provide_liquidity")) as real
  {
    var total := |actions|;
    if total == 0 then 0.5
    else
      CountBothAtMost(actions, "swap", "provide_liquidity");
      Ratio(Count(actions, "swap") + Count(actions, "provide_liquidity"), total)
  }

  /** One logged action, with the keys `agent_name`, `action_type` and `action` each possibly missing. */
  datatype ActionRecord = ActionRecord(agentName: Option<string>, actionType: Option<string>, action: Option<string>)

  /** `action.get("agent_name", "unknown")`. */
  function RecordAgent(r: ActionRecord): string {
    r.agentName.GetOr("unknown")
  }

  /** `action.get("action_type", action.get("action", "unknown"))`. */
  function RecordType(r: ActionRecord): string {
    match r.actionType
    case Some(t) => t
    case None => r.action.GetOr("unknown")
  }

  function AgentsOf(actions: seq<ActionRecord>): (names: seq<string>)
    ensures |names| == |actions| && forall i :: 0 <= i < |actions| ==> names[i] == RecordAgent(actions[i])
  {
    seq(|actions|, i requires 0 <= i < |actions| => RecordAgent(actions[i]))
  }

  /** The action types of `agent`'s records, in log order. */
  function TypesBy(actions: seq<ActionRecord>, agent: string): seq<string> {
    if actions == [] then []
    else
      var prev := TypesBy(actions[..|actions| - 1], agent);
      var r := actions[|actions| - 1];
      if RecordAgent(r) == agent then prev + [RecordType(r)] else prev
  }

  /** Each agent has one type per record it appears in. */
  lemma {:induction false} TypesByLength(actions: seq<ActionRecord>, agent: string)
    ensures |TypesBy(actions, agent)| == Count(AgentsOf(actions), agent)
  {
    if actions != [] {
      var init := actions[..|actions| - 1];
      assert AgentsOf(actions)[..|actions| - 1] == AgentsOf(init);
      TypesByLength(init, agent);
    }
  }

  lemma TypesByAbsent(actions: seq<ActionRecord>, agent: string)
    ensures agent !in AgentsOf(actions) ==> TypesBy(actions, agent) == []
  {
    TypesByLength(actions, agent);
    CountPositive(AgentsOf(actions), agent);
  }

  /** The `strategies` dict built by the first loop of `detect_arms_races`. */
  function Strategies(actions: seq<ActionRecord>): Dict<seq<string>> {
    if actions == [] then []
    else
      var prev := Strategies(actions[..|actions| - 1]);
      var a := RecordAgent(actions[|actions| - 1]);
      Set(prev, a, Get(prev, a, []) + [RecordType(actions[|actions| - 1])])
  }

  lemma {:induction false} StrategiesDistinct(actions: seq<ActionRecord>)
    ensures Distinct(Strategies(actions))
  {
    if actions != [] {
      var prev := Strategies(actions[..|actions| - 1]);
      var a := RecordAgent(actions[|actions| - 1]);
      StrategiesDistinct(actions[..|actions| - 1]);
      SetDistinct(prev, a, Get(prev, a, []) + [RecordType(actions[|actions| - 1])]);
    }
  }

  lemma AgentsOfLast(actions: seq<ActionRecord>)
    requires actions != []
    ensures var names := AgentsOf(actions);
            names[..|names| - 1] == AgentsOf(actions[..|actions| - 1])
            && names[|names| - 1] == RecordAgent(actions[|actions| - 1])
  {
  }

  lemma {:induction false} StrategiesKeys(actions: seq<ActionRecord>)
    ensures Keys(Strategies(actions)) == Dedup(AgentsOf(actions))
  {
    if actions != [] {
      var init := actions[..|actions| - 1];
      var prev := Strategies(init);
      var a := RecordAgent(actions[|actions| - 1]);
      var d := Dedup(AgentsOf(init));
      AgentsOfLast(actions);
      calc {
        Keys(Strategies(actions));
        Keys(Set(prev, a, Get(prev, a, []) + [RecordType(actions[|actions| - 1])]));
        { SetKeys(prev, a, Get(prev, a, []) + [RecordType(actions[|actions| - 1])]); }
        if a in Keys(prev) then Keys(prev) else Keys(prev) + [a];
        { StrategiesKeys(init); }
        if a in d then d else d + [a];
        { DedupLast(AgentsOf(actions)); }
        Dedup(AgentsOf(actions));
      }
    }
  }

  /** `strategies.get(k, [])` is the list of `k`'s action types. */
  lemma {:induction false} StrategiesGet(actions: seq<ActionRecord>, k: string)
    ensures Get(Strategies(actions), k, []) == TypesBy(actions, k)
  {
    if actions != [] {
      var init := actions[..|actions| - 1];
      var prev := Strategies(init);
      var a := RecordAgent(actions[|actions| - 1]);
      StrategiesGet(init, k);
      StrategiesGet(init, a);
      GetSet(prev, a, Get(prev, a, []) + [RecordType(actions[|actions| - 1])], k, []);
    }
  }

  /**
   * One key per agent name in order of first appearance, holding that
   * agent's action types in log order.
   */
  lemma StrategiesByAgent(actions: seq<ActionRecord>)
    ensures var st := Strategies(actions);
            && Distinct(st)
            && Keys(st) == Dedup(AgentsOf(actions))
            && forall k :: k in Keys(st) ==> Lookup(st, k) == TypesBy(actions, k)
  {
    StrategiesDistinct(actions);
    StrategiesKeys(actions);
    var st := Strategies(actions);
    forall k | k in Keys(st) ensures Lookup(st, k) == TypesBy(actions, k) {
      StrategiesGet(actions, k);
    }
  }

  /** One entry of the arms-race analysis. */
  datatype AgentAnalysis = AgentAnalysis(
    dominantStrategy: string,
    strategyCounts: Dict<nat>,
    strategyDiversity: real,
    aggressiveness: real)

  /** `len(set(types)) / len(types)`: the share of distinct action types. */
  function Diversity(types: seq<string>): (r: real)
    requires |types| > 0
    ensures 0.0 < r <= 1.0
    ensures r * (|types| as real) == |Dedup(types)| as real
  {
    DedupFacts(types);
    Ratio(|Dedup(types)|, |types|)
  }

  /** `k / n` for counts, a share in [0, 1] when `k <= n`. */
  function Ratio(k: nat, n: nat): (r: real)
    requires n > 0
    ensures r * (n as real) == k as real
    ensures k > 0 ==> r > 0.0
    ensures r >= 0.0 && (k <= n ==> r <= 1.0)
  {
    QuotientBetween(n as real, 0.0, if k <= n then 1.0 else k as real, k as real);
    (k as real) / (n as real)
  }

  /** The profile of one agent's (non-empty) list of action types. */
  function Analyse(types: seq<string>): AgentAnalysis
    requires |types| > 0
  {
    AgentAnalysis(MostCommon(types), Tally(types), Diversity(types), Aggressiveness(types))
  }

  /** The `analysis` dict built from `strategies`, skipping empty lists. */
  function Analyses(st: Dict<seq<string>>): Dict<AgentAnalysis> {
    if st == [] then []
    else
      var prev := Analyses(st[..|st| - 1]);
      var item := st[|st| - 1];
      if |item.1| == 0 then prev else Set(prev, item.0, Analyse(item.1))
  }

  predicate NoEmptyList(st: Dict<seq<string>>) {
    forall i :: 0 <= i < |st| ==> |st[i].1| > 0
  }

  lemma {:induction false} AnalysesDistinct(st: Dict<seq<string>>)
    ensures Distinct(Analyses(st))
  {
    if st != [] {
      var prev := Analyses(st[..|st| - 1]);
      var item := st[|st| - 1];
      AnalysesDistinct(st[..|st| - 1]);
      if |item.1| > 0 {
        SetDistinct(prev, item.0, Analyse(item.1));
      }
    }
  }

  /** Dropping the last item keeps a dict without empty lists so. */
  lemma NoEmptyListPrefix(st: Dict<seq<string>>)
    requires st != [] && NoEmptyList(st)
    ensures NoEmptyList(st[..|st| - 1])
  {
    var init := st[..|st| - 1];
    forall i | 0 <= i < |init| ensures |init[i].1| > 0 {
      assert init[i] == st[i];
    }
  }

  /** With distinct keys and no empty list, every key is kept, in place. */
  lemma {:induction false} AnalysesKeys(st: Dict<seq<string>>)
    requires Distinct(st) && NoEmptyList(st)
    ensures Keys(Analyses(st)) == Keys(st)
  {
    if st != [] {
      var init := st[..|st| - 1];
      var item := st[|st| - 1];
      var prev := Analyses(init);
      DistinctLast(st);
      NoEmptyListPrefix(st);
      AnalysesKeys(init);
      assert |item.1| > 0;
      SetKeys(prev, item.0, Analyse(item.1));
      assert Keys(st) == Keys(init) + [item.0];
    }
  }

  /** ... and each key maps to the profile of its list. */
  lemma {:induction false} AnalysesLookup(st: Dict<seq<string>>, k: string)
    requires Distinct(st) && NoEmptyList(st) && k in Keys(st)
    ensures |Lookup(st, k)| > 0
    ensures k in Keys(Analyses(st)) && Lookup(Analyses(st), k) == Analyse(Lookup(st, k))
  {
    var init := st[..|st| - 1];
    var item := st[|st| - 1];
    var prev := Analyses(init);
    LookupAt(st, |st| - 1);
    assert |item.1| > 0;
    if k == item.0 {
      SetLookup(prev, item.0, Analyse(item.1));
    } else {
      DistinctLast(st);
      NoEmptyListPrefix(st);
      assert Keys(st) == Keys(init) + [item.0];
      LookupPrefix(st, k);
      AnalysesLookup(init, k);
      SetLookupOther(prev, item.0, Analyse(item.1), k);
    }
  }

  /**
   * With distinct keys and no empty list, every key is kept, in place, and
   * maps to the profile of its list.
   */
  lemma AnalysesProfileEachKey(st: Dict<seq<string>>)
    requires Distinct(st) && NoEmptyList(st)
    ensures Distinct(Analyses(st)) && Keys(Analyses(st)) == Keys(st)
    ensures forall k :: k in Keys(st) ==> Lookup(Analyses(st), k) == Analyse(Lookup(st, k))
  {
    AnalysesDistinct(st);
    AnalysesKeys(st);
    forall k | k in Keys(st) ensures Lookup(Analyses(st), k) == Analyse(Lookup(st, k)) {
      AnalysesLookup(st, k);
    }
  }

  /** `d.setdefault(k, [])` followed by appending `x` to `d[k]`. */
  lemma AppendUnder(d: Dict<seq<string>>, k: string, x: string)
    ensures var mid := if k in Keys(d) then d else Set(d, k, []);
            && k in Keys(mid)
            && Set(mid, k, Lookup(mid, k) + [x]) == Set(d, k, Get(d, k, []) + [x])
  {
    if k !in Keys(d) {
      var mid := Set(d, k, []);
      SetLookup(d, k, []);
      assert Lookup(mid, k) + [x] == [x];
      assert Get(d, k, []) + [x] == [x];
      SetTwice(d, k, [], [x]);
    }
  }

  lemma StrategiesStep(actions: seq<ActionRecord>, i: nat)
    requires i < |actions|
    ensures var prev := Strategies(actions[..i]);
            var agent := RecordAgent(actions[i]);
            Strategies(actions[..i + 1]) == Set(prev, agent, Get(prev, agent, []) + [RecordType(actions[i])])
  {
    assert actions[..i + 1][..i] == actions[..i];
  }

  lemma AnalysesStep(st: Dict<seq<string>>, i: nat)
    requires i < |st|
    ensures Analyses(st[..i + 1]) ==
              if |st[i].1| == 0 then Analyses(st[..i]) else Set(Analyses(st[..i]), st[i].0, Analyse(st[i].1))
  {
    assert st[..i + 1][..i] == st[..i];
  }

  /**
   * `detect_arms_races`: builds the strategies dict, then profiles each
   * agent. The result has one entry per distinct agent name, in order of
   * first appearance, and the entry of `k` profiles exactly `k`'s actions.
   */
  method DetectArmsRaces(actions: seq<ActionRecord>) returns (analysis: Dict<AgentAnalysis>)
    ensures analysis == Analyses(Strategies(actions))
    ensures Distinct(analysis) && Keys(analysis) == Dedup(AgentsOf(actions))
    ensures forall k :: k in Keys(analysis) ==>
              && |TypesBy(actions, k)| == Count(AgentsOf(actions), k) > 0
              && Lookup(analysis, k) == Analyse(TypesBy(actions, k))
  {
    var strategies := GroupByAgent(actions);
    analysis := ProfileAgents(strategies);
    ArmsRacesProfileEachAgent(actions);
  }

  /** The first loop of `detect_arms_races`: each record's type appended under its agent. */
  method GroupByAgent(actions: seq<ActionRecord>) returns (strategies: Dict<seq<string>>)
    ensures strategies == Strategies(actions)
  {
    strategies := [];
    for i := 0 to |actions|
      invariant strategies == Strategies(actions[..i])
    {
      var agent := RecordAgent(actions[i]);
      var actionType := RecordType(actions[i]);
      StrategiesStep(actions, i);
      AppendUnder(strategies, agent, actionType);
      if agent !in Keys(strategies) {
        strategies := Set(strategies, agent, []);
      }
      strategies := Set(strategies, agent, Lookup(strategies, agent) + [actionType]);
    }
    assert actions[..|actions|] == actions;
  }

  /** The second loop of `detect_arms_races`: one profile per non-empty list. */
  method ProfileAgents(strategies: Dict<seq<string>>) returns (analysis: Dict<AgentAnalysis>)
    ensures analysis == Analyses(strategies)
  {
    analysis := [];
    for i := 0 to |strategies|
      invariant analysis == Analyses(strategies[..i])
    {
      var (agent, types) := strategies[i];
      AnalysesStep(strategies, i);
      if |types| > 0 {
        analysis := Set(analysis, agent, Analyse(types));
      }
    }
    assert strategies[..|strategies|] == strategies;
  }

  /** What the arms-race analysis contains, stated on the specification functions. */
  lemma ArmsRacesProfileEachAgent(actions: seq<ActionRecord>)
    ensures var analysis := Analyses(Strategies(actions));
            && Distinct(analysis) && Keys(analysis) == Dedup(AgentsOf(actions))
            && forall k :: k in Keys(analysis) ==>
                 && |TypesBy(actions, k)| == Count(AgentsOf(actions), k) > 0
                 && Lookup(analysis, k) == Analyse(TypesBy(actions, k))
  {
    var st := Strategies(actions);
    StrategiesByAgent(actions);
    StrategiesNonEmpty(actions);
    AnalysesProfileEachKey(st);
    forall k | k in Keys(st)
      ensures |TypesBy(actions, k)| == Count(AgentsOf(actions), k) > 0
      ensures Lookup(Analyses(st), k) == Analyse(TypesBy(actions, k))
    {
      var types := Lookup(st, k);
      assert types == TypesBy(actions, k);
      assert Lookup(Analyses(st), k) == Analyse(types);
      TypesByLength(actions, k);
      CountPositive(AgentsOf(actions), k);
    }
  }

  /** Every agent in the strategies dict has at least one action. */
  lemma StrategiesNonEmpty(actions: seq<ActionRecord>)
    ensures NoEmptyList(Strategies(actions))
  {
    var st := Strategies(actions);
    StrategiesByAgent(actions);
    DedupFacts(AgentsOf(actions));
    forall i | 0 <= i < |st| ensures |st[i].1| > 0 {
      var k := st[i].0;
      LookupAt(st, i);
      TypesByLength(actions, k);
      CountPositive(AgentsOf(actions), k);
    }
  }

  // ---------------------------------------------------------------------
  // Trends across runs

  /** Mean of the second half minus mean of the first half (the middle element goes to the second). */
  function HalfDifference(values: seq<real>): real
    requires |values| >= 2
  {
    Mean(values[|values| / 2..]) - Mean(values[..|values| / 2])
  }

  /** `up` or `down` when the halves differ by more than 0.1, else `stable`. */
  function TrendDirection(values: seq<real>): (r: string)
    ensures r == "up" || r == "down" || r == "stable"
    ensures |values| < 2 ==> r == "stable"
    ensures |values| >= 2 ==> (r == "up" <==> HalfDifference(values) > 0.1)
    ensures |values| >= 2 ==> (r == "down" <==> HalfDifference(values) < -0.1)
  {
    if |values| < 2 then "stable"
    else
      var diff := HalfDifference(values);
      if diff > 0.1 then "up" else if diff < -0.1 then "down" else "stable"
  }

  lemma MeanOfRepeat(c: real, k: nat)
    requires k > 0
    ensures Mean(Repeat(c, k)) == c
  {
    MeanWithin(Repeat(c, k), c, c);
  }

  /** A constant series is stable. */
  lemma ConstantIsStable(c: real, k: nat)
    ensures TrendDirection(Repeat(c, k)) == "stable"
  {
    if k >= 2 {
      var s := Repeat(c, k);
      assert s[..k / 2] == Repeat(c, k / 2);
      assert s[k / 2..] == Repeat(c, k - k / 2);
      MeanOfRepeat(c, k / 2);
      MeanOfRepeat(c, k - k / 2);
    }
  }

  function Negated(s: seq<real>): (r: seq<real>)
    ensures |r| == |s| && forall i :: 0 <= i < |s| ==> r[i] == -s[i]
  {
    seq(|s|, i requires 0 <= i < |s| => -s[i])
  }

  lemma {:induction false} SumNegated(s: seq<real>)
    ensures Sum(Negated(s)) == -Sum(s)
  {
    if s != [] {
      assert Negated(s)[1..] == Negated(s[1..]);
      SumNegated(s[1..]);
    }
  }

  lemma MeanNegated(s: seq<real>)
    requires |s| > 0
    ensures Mean(Negated(s)) == -Mean(s)
  {
    SumNegated(s);
    var n := |s| as real;
    assert (Mean(Negated(s)) + Mean(s)) * n == 0.0;
  }

  function Mirror(trend: string): string {
    if trend == "up" then "down" else if trend == "down" then "up" else trend
  }

  /** Negating every value turns an upward trend into a downward one and back. */
  lemma NegatedTrendMirrors(values: seq<real>)
    ensures TrendDirection(Negated(values)) == Mirror(TrendDirection(values))
  {
    if |values| >= 2 {
      var h := |values| / 2;
      assert Negated(values)[..h] == Negated(values[..h]);
      assert Negated(values)[h..] == Negated(values[h..]);
      MeanNegated(values[..h]);
      MeanNegated(values[h..]);
      assert HalfDifference(Negated(values)) == -HalfDifference(values);
    }
  }

  /** A stored run: `avg_agent_profit` and `gini_coefficient`, each possibly missing. */
  datatype RunRecord = RunRecord(avgAgentProfit: Option<real>, giniCoefficient: Option<real>)

  datatype Trends = Trends(
    profitTrend: string,
    inequalityTrend: string,
    avgProfit: real,
    avgGini: real,
    runCount: nat)

  function RunProfits(runs: seq<RunRecord>): (r: seq<real>)
    ensures |r| == |runs| && forall i :: 0 <= i < |runs| ==> r[i] == runs[i].avgAgentProfit.GetOr(0.0)
  {
    seq(|runs|, i requires 0 <= i < |runs| => runs[i].avgAgentProfit.GetOr(0.0))
  }

  function RunGinis(runs: seq<RunRecord>): (r: seq<real>)
    ensures |r| == |runs| && forall i :: 0 <= i < |runs| ==> r[i] == runs[i].giniCoefficient.GetOr(0.0)
  {
    seq(|runs|, i requires 0 <= i < |runs| => runs[i].giniCoefficient.GetOr(0.0))
  }

  /** `detect_trends`: nothing for no runs; otherwise trends and averages, a missing value read as 0. */
  function DetectTrends(runs: seq<RunRecord>): (t: Option<Trends>)
    ensures t.None? <==> runs == []
    ensures t.Some? ==> t.value.runCount == |runs|
    ensures t.Some? ==> t.value.profitTrend == TrendDirection(RunProfits(runs))
    ensures t.Some? ==> t.value.inequalityTrend == TrendDirection(RunGinis(runs))
    ensures t.Some? ==> t.value.avgProfit * (|runs| as real) == Sum(RunProfits(runs))
    ensures t.Some? ==> t.value.avgGini * (|runs| as real) == Sum(RunGinis(runs))
  {
    if runs == [] then None
    else
      var profits := RunProfits(runs);
      var ginis := RunGinis(runs);
      Some(Trends(TrendDirection(profits), TrendDirection(ginis), Mean(profits), Mean(ginis), |runs|))
  }

  /** When every stored coefficient lies in [0, 1], as the analyzer's do, so does their average. */
  lemma AverageGiniWithinBounds(runs: seq<RunRecord>)
    requires runs != []
    requires forall i :: 0 <= i < |runs| ==> 0.0 <= runs[i].giniCoefficient.GetOr(0.0) <= 1.0
    ensures DetectTrends(runs).Some? && 0.0 <= DetectTrends(runs).value.avgGini <= 1.0
  {
    MeanWithin(RunGinis(runs), 0.0, 1.0);
  }

  // ---------------------------------------------------------------------
  // Metrics of one run, and the report's reading of the coefficient

  datatype RunMetrics = RunMetrics(
    giniCoefficient: real,
    avgAgentProfit: real,
    minProfit: real,
    maxProfit: real,
    totalTrades: nat,
    cooperationRate: real,
    poolStability: real,
    poolPriceChange: real)

  /** `calculate_run_metrics`: average, extremes and Gini of the profits, and the counters. */
  function CalculateRunMetrics(agents: seq<AgentState>, pool: PoolState): (m: RunMetrics)
    ensures var profits := Simulations.Profits(agents);
            && m.giniCoefficient == GiniCoefficient(profits)
            && (agents == [] ==> m.avgAgentProfit == 0.0 && m.minProfit == 0.0 && m.maxProfit == 0.0)
            && (agents != [] ==> m.avgAgentProfit == Mean(profits))
            && (agents != [] ==> m.minProfit in profits && forall i :: 0 <= i < |agents| ==> m.minProfit <= profits[i])
            && (agents != [] ==> m.maxProfit in profits && forall i :: 0 <= i < |agents| ==> profits[i] <= m.maxProfit)
    ensures m.totalTrades == CountTrades(agents)
    ensures m.cooperationRate == Simulations.CooperationRate(agents)
    ensures m.poolStability == pool.reserveA * pool.reserveB
    ensures m.poolPriceChange == 0.0
  {
    var profits := Simulations.Profits(agents);
    RunMetrics(
      GiniCoefficient(profits),
      if profits != [] then Mean(profits) else 0.0,
      if profits != [] then Least(profits) else 0.0,
      if profits != [] then Greatest(profits) else 0.0,
      CountTrades(agents),
      Simulations.CooperationRate(agents),
      pool.reserveA * pool.reserveB,
      0.0)
  }

  /** The average profit lies between the smallest and the largest, and the Gini in [0, 1]. */
  lemma RunMetricsOrdered(agents: seq<AgentState>, pool: PoolState)
    ensures var m := CalculateRunMetrics(agents, pool);
            && m.minProfit <= m.avgAgentProfit <= m.maxProfit
            && 0.0 <= m.giniCoefficient <= 1.0
  {
    var profits := Simulations.Profits(agents);
    if profits != [] {
      MeanWithin(profits, Least(profits), Greatest(profits));
    }
  }

  /** The report's reading of the coefficient. */
  function InequalityBand(gini: real): (band: string)
    ensures band == "Low inequality" <==> gini < 0.2
    ensures band == "Moderate inequality" <==> 0.2 <= gini < 0.4
    ensures band == "High inequality" <==> gini >= 0.4
  {
    if gini < 0.2 then "Low inequality"
    else if gini < 0.4 then "Moderate inequality"
    else "High inequality"
  }

  function BandRank(band: string): nat {
    if band == "Low inequality" then 0 else if band == "Moderate inequality" then 1 else 2
  }

  /** More inequality never reads as a lower band. */
  lemma InequalityBandMonotone(g1: real, g2: real)
    requires g1 <= g2
    ensures BandRank(InequalityBand(g1)) <= BandRank(InequalityBand(g2))
  {
  }

  /** Equal profits read as low inequality. */
  lemma EqualProfitsReadLow(c: real, k: nat)
    ensures InequalityBand(GiniCoefficient(Repeat(c, k))) == "Low inequality"
  {
    if c != 0.0 && k > 0 {
      RawGiniOfEqualValues(c, k);
    } else if k > 0 {
      SumRepeat(c, k);
    }
  }
}
