/**
 * The aggregation helpers of the run summarizer (core/summarizer.py): the
 * final state and ranking of each agent, the distribution of action types
 * and the notable market events the summary prompt lists.
 */
module Summarizer {
  import opened Wrappers
  import opened Dicts
  import opened Tallies
  import Analyzer

  // ---------------------------------------------------------------------
  // Agent performance

  /**
   * One stored agent state; `agent_name` and `turn` are read with `[]`, the
   * others with `.get`.
   */
  datatype StateRecord = StateRecord(
    agentName: string,
    turn: int,
    profit: Option<real>,
    strategy: Option<string>,
    tokenA: Option<real>,
    tokenB: Option<real>)

  /** One row of the performance table; `final_tokens` is kept as its two numbers. */
  datatype Performance = Performance(name: string, profit: real, strategy: string, finalA: real, finalB: real)

  /** The agent names of the records, in order. */
  function Names(states: seq<StateRecord>): (names: seq<string>)
    ensures |names| == |states| && forall i :: 0 <= i < |states| ==> names[i] == states[i].agentName
  {
    if states == [] then [] else Names(states[..|states| - 1]) + [states[|states| - 1].agentName]
  }

  /** `latest_by_agent` after the first loop over the records. */
  function Latest(states: seq<StateRecord>): Dict<StateRecord> {
    if states == [] then []
    else
      var prev := Latest(states[..|states| - 1]);
      var s := states[|states| - 1];
      if s.agentName !in Keys(prev) || s.turn > Lookup(prev, s.agentName).turn then Set(prev, s.agentName, s)
      else prev
  }

  /**
   * Record `j` is the one kept for `k`: it is `k`'s, no record of `k` has a
   * later turn, and every earlier record of `k` has an earlier turn.
   */
  ghost predicate Kept(states: seq<StateRecord>, k: string, j: int) {
    && 0 <= j < |states| && states[j].agentName == k
    && (forall i :: 0 <= i < |states| && states[i].agentName == k ==> states[i].turn <= states[j].turn)
    && (forall i :: 0 <= i < j && states[i].agentName == k ==> states[i].turn < states[j].turn)
  }

  lemma NamesPrefix(states: seq<StateRecord>)
    requires states != []
    ensures Names(states[..|states| - 1]) == Names(states)[..|states| - 1]
  {
  }

  /** A record kept for a prefix stays kept when a record of another agent follows. */
  lemma {:induction false} KeptOther(states: seq<StateRecord>, k: string, j: int)
    requires states != [] && states[|states| - 1].agentName != k
    requires Kept(states[..|states| - 1], k, j)
    ensures Kept(states, k, j)
  {
    var init := states[..|states| - 1];
    forall i | 0 <= i < |states| - 1 ensures states[i] == init[i] {
    }
  }

  /** A later record with a strictly later turn than the kept one, or the first of its agent, is kept. */
  lemma {:induction false} KeptLast(states: seq<StateRecord>, k: string, j: int)
    requires states != [] && states[|states| - 1].agentName == k
    requires j < 0 ==> k !in Keys(Latest(states[..|states| - 1]))
    requires j >= 0 ==> Kept(states[..|states| - 1], k, j) && states[j].turn < states[|states| - 1].turn
    ensures Kept(states, k, |states| - 1)
  {
    var init := states[..|states| - 1];
    if j < 0 {
      AbsentBefore(init, k);
    }
    forall i | 0 <= i < |states| - 1 ensures states[i] == init[i] {
    }
  }

  /** A later record whose turn is not later leaves the kept one. */
  lemma {:induction false} KeptStays(states: seq<StateRecord>, k: string, j: int)
    requires states != [] && states[|states| - 1].agentName == k
    requires Kept(states[..|states| - 1], k, j) && states[|states| - 1].turn <= states[j].turn
    ensures Kept(states, k, j)
  {
    var init := states[..|states| - 1];
    forall i | 0 <= i < |states| - 1 ensures states[i] == init[i] {
    }
  }

  /** `latest_by_agent` has one key per agent name, in order of first appearance, and no repeated key. */
  lemma {:induction false} LatestKeys(states: seq<StateRecord>)
    ensures Distinct(Latest(states)) && Keys(Latest(states)) == Dedup(Names(states))
  {
    if states != [] {
      var init := states[..|states| - 1];
      var prev := Latest(init);
      var s := states[|states| - 1];
      LatestKeys(init);
      NamesPrefix(states);
      DedupLast(Names(states));
      if s.agentName !in Keys(prev) || s.turn > Lookup(prev, s.agentName).turn {
        SetKeys(prev, s.agentName, s);
        SetDistinct(prev, s.agentName, s);
      }
    }
  }

  /**
   * For every agent, `latest_by_agent` holds the record with the latest turn;
   * among several with that turn the first one, since the comparison is strict.
   */
  lemma {:induction false} LatestKept(states: seq<StateRecord>, k: string)
    requires k in Keys(Latest(states))
    ensures exists j :: Kept(states, k, j) && Lookup(Latest(states), k) == states[j]
  {
    var init := states[..|states| - 1];
    var prev := Latest(init);
    var s := states[|states| - 1];
    var replaced := s.agentName !in Keys(prev) || s.turn > Lookup(prev, s.agentName).turn;
    if k in Keys(prev) {
      LatestKept(init, k);
    }
    if s.agentName == k && replaced {
      KeptAfterReplace(states, k);
    } else {
      assert k in Keys(prev) by {
        if replaced {
          SetKeysCover(prev, s.agentName, s);
        }
      }
      KeptAfterKeep(states, k);
    }
  }

  /** A record that replaces its agent's entry, or creates it, is the kept one. */
  lemma {:induction false} KeptAfterReplace(states: seq<StateRecord>, k: string)
    requires states != [] && states[|states| - 1].agentName == k
    requires var prev := Latest(states[..|states| - 1]);
             k !in Keys(prev) || states[|states| - 1].turn > Lookup(prev, k).turn
    requires var init := states[..|states| - 1];
             k in Keys(Latest(init)) ==> exists j :: Kept(init, k, j) && Lookup(Latest(init), k) == init[j]
    ensures k in Keys(Latest(states)) && Kept(states, k, |states| - 1)
    ensures Lookup(Latest(states), k) == states[|states| - 1]
  {
    var init := states[..|states| - 1];
    var prev := Latest(init);
    var s := states[|states| - 1];
    assert k in Keys(Latest(states)) && Lookup(Latest(states), k) == s by {
      assert Latest(states) == Set(prev, k, s);
      SetLookup(prev, k, s);
    }
    if k in Keys(prev) {
      var j :| Kept(init, k, j) && Lookup(prev, k) == init[j];
      assert states[j] == init[j];
      KeptLast(states, k, j);
    } else {
      KeptLast(states, k, -1);
    }
  }

  /** An agent without an entry has no record. */
  lemma {:induction false} AbsentBefore(states: seq<StateRecord>, k: string)
    requires k !in Keys(Latest(states))
    ensures forall i :: 0 <= i < |states| ==> states[i].agentName != k
  {
    LatestKeys(states);
    DedupFacts(Names(states));
    forall i | 0 <= i < |states| ensures states[i].agentName != k {
      assert Names(states)[i] == states[i].agentName;
    }
  }

  /** A record of another agent, or one with no later turn, leaves the entry of `k` as it was. */
  lemma {:induction false} KeptAfterKeep(states: seq<StateRecord>, k: string)
    requires states != []
    requires var init := states[..|states| - 1];
             && k in Keys(Latest(init))
             && exists j :: Kept(init, k, j) && Lookup(Latest(init), k) == init[j]
    requires var prev, s := Latest(states[..|states| - 1]), states[|states| - 1];
             s.agentName == k ==> s.turn <= Lookup(prev, k).turn
    ensures k in Keys(Latest(states))
    ensures exists j :: Kept(states, k, j) && Lookup(Latest(states), k) == states[j]
  {
    var init := states[..|states| - 1];
    var prev := Latest(init);
    var s := states[|states| - 1];
    var j :| Kept(init, k, j) && Lookup(prev, k) == init[j];
    assert states[j] == init[j];
    if s.agentName == k {
      assert Latest(states) == prev;
      KeptStays(states, k, j);
    } else {
      if s.agentName !in Keys(prev) || s.turn > Lookup(prev, s.agentName).turn {
        SetLookupOther(prev, s.agentName, s, k);
      }
      KeptOther(states, k, j);
    }
  }

  /** The row `_analyze_agents` builds from an agent's kept record. */
  function Row(agent: string, s: StateRecord): Performance {
    Performance(agent, s.profit.GetOr(0.0), s.strategy.GetOr("unknown"), s.tokenA.GetOr(0.0), s.tokenB.GetOr(0.0))
  }

  /** One row per item of `latest_by_agent`, in its order. */
  function Rows(latest: Dict<StateRecord>): (rows: seq<Performance>)
    ensures |rows| == |latest| && forall i :: 0 <= i < |latest| ==> rows[i] == Row(latest[i].0, latest[i].1)
  {
    if latest == [] then [] else Rows(latest[..|latest| - 1]) + [Row(latest[|latest| - 1].0, latest[|latest| - 1].1)]
  }

  predicate Descending(rows: seq<Performance>) {
    forall i, j :: 0 <= i < j < |rows| ==> rows[i].profit >= rows[j].profit
  }

  /**
   * Places `x` after every row with at least its profit: the stable insertion
   * that makes `SortByProfit` keep rows of equal profit in their order.
   */
  function InsertByProfit(x: Performance, rows: seq<Performance>): seq<Performance> {
    if rows == [] || rows[0].profit < x.profit then [x] + rows
    else [rows[0]] + InsertByProfit(x, rows[1..])
  }

  /** Inserting into rows ordered by non-increasing profit keeps them so ordered. */
  lemma {:induction false} InsertByProfitDescending(x: Performance, rows: seq<Performance>)
    requires Descending(rows)
    ensures Descending(InsertByProfit(x, rows))
  {
    if rows != [] && rows[0].profit >= x.profit {
      var rest := InsertByProfit(x, rows[1..]);
      InsertByProfitDescending(x, rows[1..]);
      InsertByProfitBelow(x, rows[1..], rows[0].profit);
      var r := [rows[0]] + rest;
      forall i, j | 0 <= i < j < |r| ensures r[i].profit >= r[j].profit {
        if i > 0 {
          assert r[i] == rest[i - 1] && r[j] == rest[j - 1];
        }
      }
    }
  }

  /** Inserting adds `x` and loses nothing. */
  lemma {:induction false} InsertByProfitMultiset(x: Performance, rows: seq<Performance>)
    ensures multiset(InsertByProfit(x, rows)) == multiset(rows) + multiset{x}
  {
    if rows != [] && rows[0].profit >= x.profit {
      InsertByProfitMultiset(x, rows[1..]);
      assert rows == [rows[0]] + rows[1..];
    }
  }

  /** A bound above `x` and every row stays above the insertion. */
  lemma {:induction false} InsertByProfitBelow(x: Performance, rows: seq<Performance>, hi: real)
    requires x.profit <= hi && forall i :: 0 <= i < |rows| ==> rows[i].profit <= hi
    ensures forall i :: 0 <= i < |InsertByProfit(x, rows)| ==> InsertByProfit(x, rows)[i].profit <= hi
  {
    if rows != [] && rows[0].profit >= x.profit {
      InsertByProfitBelow(x, rows[1..], hi);
    }
  }

  /** `rows.sort(key=profit, reverse=True)`: rows inserted one by one, in their order. */
  function SortByProfit(rows: seq<Performance>): seq<Performance> {
    if rows == [] then []
    else InsertByProfit(rows[|rows| - 1], SortByProfit(rows[..|rows| - 1]))
  }

  /** The sort orders the rows by non-increasing profit and keeps every row. */
  lemma {:induction false} SortByProfitFacts(rows: seq<Performance>)
    ensures Descending(SortByProfit(rows))
    ensures multiset(SortByProfit(rows)) == multiset(rows)
  {
    if rows != [] {
      var init := rows[..|rows| - 1];
      SortByProfitFacts(init);
      InsertByProfitDescending(rows[|rows| - 1], SortByProfit(init));
      InsertByProfitMultiset(rows[|rows| - 1], SortByProfit(init));
      assert rows == init + [rows[|rows| - 1]];
    }
  }

  /**
   * `_analyze_agents`: the latest record of each agent, one row per agent,
   * ranked by profit.
   */
  method AnalyzeAgents(states: seq<StateRecord>) returns (performance: seq<Performance>)
    ensures performance == SortByProfit(Rows(Latest(states)))
    ensures Descending(performance)
    ensures multiset(performance) == multiset(Rows(Latest(states)))
    ensures |performance| == |Dedup(Names(states))|
  {
    var latest: Dict<StateRecord> := [];
    for i := 0 to |states|
      invariant latest == Latest(states[..i])
    {
      var s := states[i];
      assert states[..i + 1][..i] == states[..i];
      if s.agentName !in Keys(latest) || s.turn > Lookup(latest, s.agentName).turn {
        latest := Set(latest, s.agentName, s);
      }
    }
    assert states[..|states|] == states;
    performance := [];
    for i := 0 to |latest|
      invariant performance == Rows(latest[..i])
    {
      assert latest[..i + 1][..i] == latest[..i];
      performance := performance + [Row(latest[i].0, latest[i].1)];
    }
    assert latest[..|latest|] == latest;
    ghost var rows := performance;
    performance := SortByProfit(performance);
    assert Descending(performance) && multiset(performance) == multiset(rows) by {
      SortByProfitFacts(rows);
    }
    assert |performance| == |Dedup(Names(states))| by {
      assert |multiset(performance)| == |multiset(rows)|;
      LatestKeys(states);
      assert |rows| == |Keys(latest)|;
    }
  }

  // ---------------------------------------------------------------------
  // Action distribution

  /** `action.get("action_type", "unknown")`. */
  function ActionType(r: Analyzer.ActionRecord): string {
    r.actionType.GetOr("unknown")
  }

  function ActionTypes(actions: seq<Analyzer.ActionRecord>): (types: seq<string>)
    ensures |types| == |actions| && forall i :: 0 <= i < |actions| ==> types[i] == ActionType(actions[i])
  {
    if actions == [] then [] else ActionTypes(actions[..|actions| - 1]) + [ActionType(actions[|actions| - 1])]
  }

  /**
   * `_analyze_actions`: the number of actions of each type, keyed in order of
   * first appearance, a missing type counting as "unknown"; the counts add
   * up to the number of actions.
   */
  method AnalyzeActions(actions: seq<Analyzer.ActionRecord>) returns (distribution: Dict<nat>)
    ensures distribution == Tally(ActionTypes(actions))
    ensures Distinct(distribution) && Keys(distribution) == Dedup(ActionTypes(actions))
    ensures forall t :: Get(distribution, t, 0) == Count(ActionTypes(actions), t)
    ensures TotalCount(distribution) == |actions|
  {
    distribution := [];
    for i := 0 to |actions|
      invariant distribution == Tally(ActionTypes(actions[..i]))
    {
      var actionType := ActionType(actions[i]);
      assert actions[..i + 1][..i] == actions[..i];
      distribution := Set(distribution, actionType, Get(distribution, actionType, 0) + 1);
    }
    assert actions[..|actions|] == actions;
    TallyCounts(ActionTypes(actions));
  }

  // ---------------------------------------------------------------------
  // Market events

  /** First and last pool record: an empty record is falsy and suppresses the shift event. */
  datatype PoolRecord = EmptyRecord | Reserves(reserveA: real, reserveB: real)

  /** The events `_analyze_market_events` reports, with the numbers its messages show. */
  datatype MarketEvent =
    | PoolShifted(changeA: real, changeB: real)
    | AllianceProposals(count: nat)
    | SwapTransactions(count: nat)

  function Abs(x: real): real {
    if x < 0.0 then -x else x
  }

  /** `len([a for a in actions if a.get("action_type") == t])`. */
  function CountOfType(actions: seq<Analyzer.ActionRecord>, t: string): (n: nat)
    ensures n <= |actions|
  {
    if actions == [] then 0
    else CountOfType(actions[..|actions| - 1], t) + (if actions[|actions| - 1].actionType == Some(t) then 1 else 0)
  }

  /** The reserve changes between the first and last pool record, when both are non-empty. */
  predicate Shifted(pools: seq<PoolRecord>, changeA: real, changeB: real) {
    && |pools| >= 2 && pools[0].Reserves? && pools[|pools| - 1].Reserves?
    && changeA == pools[|pools| - 1].reserveA - pools[0].reserveA
    && changeB == pools[|pools| - 1].reserveB - pools[0].reserveB
    && (Abs(changeA) > 100.0 || Abs(changeB) > 100.0)
  }

  /** Position of an event kind in the report: shift, alliances, swaps. */
  function Rank(e: MarketEvent): nat {
    match e
    case PoolShifted(_, _) => 0
    case AllianceProposals(_) => 1
    case SwapTransactions(_) => 2
  }

  /** The shift event, when the first and last records are non-empty and a reserve moved by more than 100. */
  function ShiftEvent(pools: seq<PoolRecord>): seq<MarketEvent> {
    if |pools| >= 2 && pools[0].Reserves? && pools[|pools| - 1].Reserves? then
      var changeA := pools[|pools| - 1].reserveA - pools[0].reserveA;
      var changeB := pools[|pools| - 1].reserveB - pools[0].reserveB;
      if Abs(changeA) > 100.0 || Abs(changeB) > 100.0 then [PoolShifted(changeA, changeB)] else []
    else []
  }

  /** The events in the order they are appended. */
  function MarketEvents(actions: seq<Analyzer.ActionRecord>, pools: seq<PoolRecord>): seq<MarketEvent> {
    var alliances := CountOfType(actions, "propose_alliance");
    var trades := CountOfType(actions, "swap");
    ShiftEvent(pools)
    + (if alliances > 3 then [AllianceProposals(alliances)] else [])
    + (if trades > 5 then [SwapTransactions(trades)] else [])
  }

  /** At most one event of each kind, in report order; so at most three events. */
  lemma {:induction false} MarketEventsOrdered(actions: seq<Analyzer.ActionRecord>, pools: seq<PoolRecord>)
    ensures var events := MarketEvents(actions, pools);
            && |events| <= 3
            && forall i, j :: 0 <= i < j < |events| ==> Rank(events[i]) < Rank(events[j])
  {
    var shift := ShiftEvent(pools);
    var alliances := CountOfType(actions, "propose_alliance");
    var trades := CountOfType(actions, "swap");
    var proposal: seq<MarketEvent> := if alliances > 3 then [AllianceProposals(alliances)] else [];
    var swap: seq<MarketEvent> := if trades > 5 then [SwapTransactions(trades)] else [];
    var events := shift + proposal + swap;
    assert events == MarketEvents(actions, pools);
    forall i, j | 0 <= i < j < |events| ensures Rank(events[i]) < Rank(events[j]) {
      RankAt(shift, proposal, swap, i);
      RankAt(shift, proposal, swap, j);
    }
  }

  /**
   * A shift event exactly when the first and last non-empty pool records
   * differ by more than 100 in a reserve, an alliance event exactly when more
   * than 3 alliances were proposed, a swap event exactly when more than 5
   * swaps were made.
   */
  lemma {:induction false} MarketEventsContent(actions: seq<Analyzer.ActionRecord>, pools: seq<PoolRecord>)
    ensures var events := MarketEvents(actions, pools);
            && (forall a, b :: PoolShifted(a, b) in events <==> Shifted(pools, a, b))
            && (forall n :: AllianceProposals(n) in events <==> n == CountOfType(actions, "propose_alliance") > 3)
            && (forall n :: SwapTransactions(n) in events <==> n == CountOfType(actions, "swap") > 5)
  {
    var shift := ShiftEvent(pools);
    var alliances := CountOfType(actions, "propose_alliance");
    var trades := CountOfType(actions, "swap");
    var proposal: seq<MarketEvent> := if alliances > 3 then [AllianceProposals(alliances)] else [];
    var swap: seq<MarketEvent> := if trades > 5 then [SwapTransactions(trades)] else [];
    var events := shift + proposal + swap;
    assert events == MarketEvents(actions, pools);
    assert forall e :: e in shift ==> e.PoolShifted?;
    forall a, b ensures PoolShifted(a, b) in events <==> Shifted(pools, a, b) {
      assert PoolShifted(a, b) !in proposal + swap;
    }
  }

  /** The rank of an event of `shift + proposal + swap` follows from its position. */
  lemma {:induction false} RankAt(shift: seq<MarketEvent>, proposal: seq<MarketEvent>, swap: seq<MarketEvent>, i: nat)
    requires |shift| <= 1 && |proposal| <= 1 && i < |shift + proposal + swap|
    requires forall e :: e in shift ==> Rank(e) == 0
    requires forall e :: e in proposal ==> Rank(e) == 1
    requires forall e :: e in swap ==> Rank(e) == 2
    ensures Rank((shift + proposal + swap)[i]) == if i < |shift| then 0 else if i < |shift| + |proposal| then 1 else 2
  {
    var r := shift + proposal + swap;
    if i < |shift| {
      assert r[i] == shift[i];
    } else if i < |shift| + |proposal| {
      assert r[i] == proposal[i - |shift|];
    } else {
      assert r[i] == swap[i - |shift| - |proposal|];
    }
  }

  /** `_analyze_market_events`, whose cut to five never drops an event. */
  method AnalyzeMarketEvents(actions: seq<Analyzer.ActionRecord>, pools: seq<PoolRecord>) returns (events: seq<MarketEvent>)
    ensures events == MarketEvents(actions, pools)
  {
    events := [];
    if |pools| >= 2 {
      var first, last := pools[0], pools[|pools| - 1];
      if first.Reserves? && last.Reserves? {
        var changeA := last.reserveA - first.reserveA;
        var changeB := last.reserveB - first.reserveB;
        if Abs(changeA) > 100.0 || Abs(changeB) > 100.0 {
          events := events + [PoolShifted(changeA, changeB)];
        }
      }
    }
    var alliances := CountOfType(actions, "propose_alliance");
    if alliances > 3 {
      events := events + [AllianceProposals(alliances)];
    }
    var trades := CountOfType(actions, "swap");
    if trades > 5 {
      events := events + [SwapTransactions(trades)];
    }
    MarketEventsOrdered(actions, pools);
    events := events[..if |events| < 5 then |events| else 5];
  }
}
