/**
 * Trading agents (core/agent.py): wallets, alliance proposals, the log of
 * decisions, and the resolution of one decided action against the pool.
 *
 * The decision itself comes from outside (a language model); it is an input
 * here. Its JSON shape is kept: every key may be missing, and the code reads
 * each one with a default.
 */
module Agents {
  import opened Config
  import opened Wrappers
  import opened Dicts
  import opened Tallies
  import opened DefiMechanics

  /** One logged decision: the turn and the action name. */
  datatype HistoryEntry = HistoryEntry(turn: nat, action: string)

  /** The fields of an agent. */
  datatype AgentState = AgentState(
    name: string,
    tokenA: real,
    tokenB: real,
    history: seq<HistoryEntry>,
    alliances: map<string, string>)

  /** The `payload` object of a decision; each key may be absent. */
  datatype Payload = Payload(
    amount: Option<real>,
    fromToken: Option<string>,
    amountA: Option<real>,
    amountB: Option<real>,
    agentName: Option<string>)

  const EmptyPayload: Payload := Payload(None, None, None, None, None)

  /** A decision object; `reasoning` stands for every key the core does not interpret. */
  datatype Decision = Decision(
    action: Option<string>,
    actionType: Option<string>,
    payload: Option<Payload>,
    reasoning: Option<string>)
  {
    /** The decision is `{}`, which Python treats as false. */
    predicate IsEmpty() {
      action.None? && actionType.None? && payload.None? && reasoning.None?
    }
  }

  /** `decision.get("action", decision.get("action_type", default))`. */
  function ActionName(d: Decision, default: string): (name: string)
    ensures d.action.Some? ==> name == d.action.value
    ensures d.action.None? && d.actionType.Some? ==> name == d.actionType.value
    ensures d.action.None? && d.actionType.None? ==> name == default
  {
    match d.action
    case Some(a) => a
    case None => d.actionType.GetOr(default)
  }

  /** A new agent: `INITIAL_TOKENS` of each token, no history, no alliances. */
  function NewAgent(name: string): AgentState {
    AgentState(name, INITIAL_TOKENS, INITIAL_TOKENS, [], map[])
  }

  /** `calculate_profit`: tokens held above the initial endowment of both tokens. */
  function Profit(s: AgentState): (profit: real)
    ensures profit + INITIAL_TOKENS * 2.0 == s.tokenA + s.tokenB
    ensures s.tokenA >= INITIAL_TOKENS && s.tokenB >= INITIAL_TOKENS ==> profit >= 0.0
  {
    (s.tokenA + s.tokenB) - INITIAL_TOKENS * 2.0
  }

  /** A new agent has made no profit. */
  lemma NewAgentHasNoProfit(name: string)
    ensures Profit(NewAgent(name)) == 0.0
  {
  }

  /** The effect of `decide` on the agent: the decision's action name is appended to its history. */
  function Logged(s: AgentState, turn: nat, d: Decision): AgentState {
    s.(history := s.history + [HistoryEntry(turn, ActionName(d, "unknown"))])
  }

  /** The last ten entries, `history[-10:]`. */
  function Recent(h: seq<HistoryEntry>): (r: seq<HistoryEntry>)
    ensures |r| == if |h| <= 10 then |h| else 10
    ensures r == h[|h| - |r|..]
  {
    if |h| <= 10 then h else h[|h| - 10..]
  }

  function ActionsOf(h: seq<HistoryEntry>): (acts: seq<string>)
    ensures |acts| == |h| && forall i :: 0 <= i < |h| ==> acts[i] == h[i].action
  {
    seq(|h|, i requires 0 <= i < |h| => h[i].action)
  }

  /**
   * `infer_strategy`: "unknown" without history, else an action of maximal
   * frequency among the last ten; on a tie, the one that appears first.
   */
  function InferStrategyOf(h: seq<HistoryEntry>): (r: string)
    ensures h == [] ==> r == "unknown"
    ensures h != [] ==>
              var acts := ActionsOf(Recent(h));
              && r in acts
              && (forall x :: Count(acts, x) <= Count(acts, r))
              && forall j :: 0 <= j < |Dedup(acts)| && Dedup(acts)[j] == r ==>
                   forall i :: 0 <= i < j ==> Count(acts, Dedup(acts)[i]) < Count(acts, r)
  {
    if h == [] then "unknown" else MostCommon(ActionsOf(Recent(h)))
  }

  /** What resolving an action did: completed with a success flag, or raised. */
  datatype ActionOutcome =
    | Done(ok: bool, agent: AgentState, pool: PoolState)
    | Threw(error: PoolError)

  /** Only the balances may change. */
  predicate SameAgentExceptTokens(a: AgentState, b: AgentState) {
    a.name == b.name && a.history == b.history && a.alliances == b.alliances
  }

  /**
   * `_execute_swap`: the balance check reads only `token_a >= amount` (or
   * `token_b`), so a negative amount passes it; the pool then ignores the
   * swap while the agent's balance grows by the negated amount.
   */
  function SwapAction(pl: Payload, s: AgentState, p: PoolState): (r: ActionOutcome)
    ensures r.Done? && SameAgentExceptTokens(s, r.agent)
    ensures var amount, src := pl.amount.GetOr(0.0), pl.fromToken.GetOr("a");
            var q := SwapStep(p, src, amount);
            && (src == "a" && s.tokenA >= amount ==>
                  && r.ok && r.pool == q.pool
                  && r.agent.tokenA == s.tokenA - amount
                  && r.agent.tokenB == s.tokenB + q.amountOut)
            && (src == "b" && s.tokenB >= amount ==>
                  && r.ok && r.pool == q.pool
                  && r.agent.tokenB == s.tokenB - amount
                  && r.agent.tokenA == s.tokenA + q.amountOut)
            && (!(src == "a" && s.tokenA >= amount) && !(src == "b" && s.tokenB >= amount) ==>
                  !r.ok && r.agent == s && r.pool == p)
            && (amount >= 0.0 ==>
                  && r.agent.tokenA + r.pool.reserveA == s.tokenA + p.reserveA
                  && r.agent.tokenB + r.pool.reserveB == s.tokenB + p.reserveB)
            && (amount < 0.0 && r.ok ==>
                  r.pool == p && r.agent.tokenA + r.agent.tokenB == s.tokenA + s.tokenB - amount)
  {
    var amount, src := pl.amount.GetOr(0.0), pl.fromToken.GetOr("a");
    if src == "a" && s.tokenA >= amount then
      var q := SwapStep(p, "a", amount);
      Done(true, s.(tokenA := s.tokenA - amount, tokenB := s.tokenB + q.amountOut), q.pool)
    else if src == "b" && s.tokenB >= amount then
      var q := SwapStep(p, "b", amount);
      Done(true, s.(tokenB := s.tokenB - amount, tokenA := s.tokenA + q.amountOut), q.pool)
    else
      Done(false, s, p)
  }

  /**
   * `_execute_liquidity`: when the agent can afford both amounts, they are
   * debited whatever the pool does with them, so a deposit with a
   * non-positive leg (which the pool ignores) still costs the agent the
   * other leg.
   */
  function LiquidityAction(pl: Payload, s: AgentState, p: PoolState, sqrt: real -> real): (r: ActionOutcome)
    ensures var amountA, amountB := pl.amountA.GetOr(0.0), pl.amountB.GetOr(0.0);
            var affordable := s.tokenA >= amountA && s.tokenB >= amountB;
            var provided := ProvideStep(p, amountA, amountB, s.name, sqrt);
            && (!affordable ==> r == Done(false, s, p))
            && (affordable ==> (r.Threw? <==> provided.Err?))
            && (affordable && r.Done? ==>
                  && r.ok && SameAgentExceptTokens(s, r.agent)
                  && r.agent.tokenA == s.tokenA - amountA
                  && r.agent.tokenB == s.tokenB - amountB
                  && r.pool == provided.value.pool)
            && (affordable && (amountA <= 0.0 || amountB <= 0.0) ==> r.Done? && r.pool == p)
            && (affordable && amountA > 0.0 && amountB > 0.0 && r.Done? ==>
                  && r.agent.tokenA + r.pool.reserveA == s.tokenA + p.reserveA
                  && r.agent.tokenB + r.pool.reserveB == s.tokenB + p.reserveB)
            && (r.Threw? ==> r.error == ZeroDivisionError && (p.reserveA == 0.0 || p.reserveB == 0.0))
  {
    var amountA, amountB := pl.amountA.GetOr(0.0), pl.amountB.GetOr(0.0);
    if s.tokenA >= amountA && s.tokenB >= amountB then
      match ProvideStep(p, amountA, amountB, s.name, sqrt)
      case Ok(res) => Done(true, s.(tokenA := s.tokenA - amountA, tokenB := s.tokenB - amountB), res.pool)
      case Err(e) => Threw(e)
    else
      Done(false, s, p)
  }

  /** `_execute_alliance`: records a proposal to a named agent; an empty name fails. */
  function AllianceAction(pl: Payload, s: AgentState, p: PoolState): (r: ActionOutcome)
    ensures var target := pl.agentName.GetOr("");
            && (target != "" ==>
                  && r == Done(true, s.(alliances := s.alliances[target := "proposed"]), p)
                  && target in r.agent.alliances && r.agent.alliances[target] == "proposed")
            && (target == "" ==> r == Done(false, s, p))
  {
    var target := pl.agentName.GetOr("");
    if target != "" then Done(true, s.(alliances := s.alliances[target := "proposed"]), p)
    else Done(false, s, p)
  }

  /** Proposing the same alliance twice has the effect of proposing it once. */
  lemma AllianceIdempotent(pl: Payload, s: AgentState, p: PoolState)
    requires pl.agentName.GetOr("") != ""
    ensures var once := AllianceAction(pl, s, p).agent;
            AllianceAction(pl, once, p) == Done(true, once, p)
  {
    var target := pl.agentName.GetOr("");
    assert s.alliances[target := "proposed"][target := "proposed"] == s.alliances[target := "proposed"];
  }

  /** A decision whose amounts the code handles without creating or destroying tokens. */
  predicate Conserving(d: Decision) {
    var pl := d.payload.GetOr(EmptyPayload);
    var action := ActionName(d, "");
    && (action == "swap" ==> pl.amount.GetOr(0.0) >= 0.0)
    && (action == "provide_liquidity" ==>
          var a, b := pl.amountA.GetOr(0.0), pl.amountB.GetOr(0.0);
          (a > 0.0 && b > 0.0) || (a == 0.0 && b == 0.0))
  }

  /** Both reserves are positive and the cached `k` is their product. */
  predicate Healthy(p: PoolState) {
    p.reserveA > 0.0 && p.reserveB > 0.0 && ProductCached(p)
  }

  /** A deposit of positive amounts into a healthy pool raises `k`. */
  lemma DepositGrowsProduct(x: real, y: real, a: real, b: real)
    requires x > 0.0 && y > 0.0 && a > 0.0 && b > 0.0
    ensures (x + a) * (y + b) > x * y
  {
    assert (x + a) * (y + b) == x * y + (a * y + x * b + a * b);
    assert a * y > 0.0 && x * b > 0.0 && a * b > 0.0;
  }

  /** A deposit adds at most one LP entry, under a name not yet there. */
  lemma LiquidityKeepsDistinct(pl: Payload, s: AgentState, p: PoolState, sqrt: real -> real)
    ensures var r := LiquidityAction(pl, s, p, sqrt);
            r.Done? && Distinct(p.providers) ==> Distinct(r.pool.providers)
  {
    var amountA, amountB := pl.amountA.GetOr(0.0), pl.amountB.GetOr(0.0);
    ProvideEffect(p, amountA, amountB, s.name, sqrt);
    if Total(p.providers) == 0.0 || (p.reserveA != 0.0 && p.reserveB != 0.0) {
      var lp := MintedLP(Total(p.providers), p.reserveA, p.reserveB, amountA, amountB, sqrt);
      CreditEffect(p.providers, s.name, lp);
    }
  }

  /**
   * `execute_action`: dispatches on the action name ("action", else
   * "action_type", else ""). "do_nothing" and every unrecognised name succeed
   * and change nothing.
   */
  function ExecuteStep(d: Decision, s: AgentState, p: PoolState, sqrt: real -> real): (r: ActionOutcome)
    ensures var action := ActionName(d, "");
            action != "swap" && action != "provide_liquidity" && action != "propose_alliance" ==>
              r == Done(true, s, p)
    ensures r.Done? ==> r.agent.name == s.name && r.agent.history == s.history
    ensures r.Done? && Distinct(p.providers) ==> Distinct(r.pool.providers)
    ensures r.Done? && ProductCached(p) ==> ProductCached(r.pool)
    ensures Conserving(d) && r.Done? ==>
              && r.agent.tokenA + r.pool.reserveA == s.tokenA + p.reserveA
              && r.agent.tokenB + r.pool.reserveB == s.tokenB + p.reserveB
  {
    var action := ActionName(d, "");
    var pl := d.payload.GetOr(EmptyPayload);
    if action == "swap" then SwapAction(pl, s, p)
    else if action == "provide_liquidity" then
      LiquidityKeepsDistinct(pl, s, p, sqrt);
      LiquidityAction(pl, s, p, sqrt)
    else if action == "propose_alliance" then AllianceAction(pl, s, p)
    else Done(true, s, p)
  }

  /** The product of the reserves. */
  function Product(p: PoolState): real {
    p.reserveA * p.reserveB
  }

  lemma SwapKeepsPoolHealthy(pl: Payload, s: AgentState, p: PoolState)
    requires Healthy(p)
    ensures var r := SwapAction(pl, s, p);
            Healthy(r.pool) && Product(r.pool) >= Product(p)
  {
    var amount, src := pl.amount.GetOr(0.0), pl.fromToken.GetOr("a");
    var r := SwapAction(pl, s, p);
    if r.pool != p {
      assert amount > 0.0;
      SwapGrowsProduct(p, src, amount);
    }
  }

  lemma LiquidityKeepsPoolHealthy(pl: Payload, s: AgentState, p: PoolState, sqrt: real -> real)
    requires Healthy(p)
    ensures var r := LiquidityAction(pl, s, p, sqrt);
            r.Done? && Healthy(r.pool) && Product(r.pool) >= Product(p)
  {
    var amountA, amountB := pl.amountA.GetOr(0.0), pl.amountB.GetOr(0.0);
    var r := LiquidityAction(pl, s, p, sqrt);
    if r.pool != p {
      assert amountA > 0.0 && amountB > 0.0;
      DepositGrowsProduct(p.reserveA, p.reserveB, amountA, amountB);
    }
  }

  /**
   * Whatever the decision, a pool with positive reserves keeps them positive,
   * never raises, and its product `k` does not decrease.
   */
  lemma ExecuteKeepsPoolHealthy(d: Decision, s: AgentState, p: PoolState, sqrt: real -> real)
    requires Healthy(p)
    ensures var r := ExecuteStep(d, s, p, sqrt);
            r.Done? && Healthy(r.pool) && Product(r.pool) >= Product(p)
  {
    var pl := d.payload.GetOr(EmptyPayload);
    SwapKeepsPoolHealthy(pl, s, p);
    LiquidityKeepsPoolHealthy(pl, s, p, sqrt);
  }

  /**
   * For a decision without a negative swap or a lopsided deposit, whatever
   * the agent's profit grows by, the pool's reserves shrink by.
   */
  lemma ActionProfitIsPoolLoss(d: Decision, s: AgentState, p: PoolState, sqrt: real -> real)
    requires Conserving(d)
    ensures var r := ExecuteStep(d, s, p, sqrt);
            r.Done? ==>
              Profit(r.agent) - Profit(s) == (p.reserveA + p.reserveB) - (r.pool.reserveA + r.pool.reserveB)
  {
    var r := ExecuteStep(d, s, p, sqrt);
    if r.Done? {
      assert Profit(r.agent) - Profit(s) == (r.agent.tokenA - s.tokenA) + (r.agent.tokenB - s.tokenB);
    }
  }

  /** An agent of the simulation; the pool it trades with is passed to each action. */
  class Agent {
    const name: string
    var tokenA: real
    var tokenB: real
    var tradeHistory: seq<HistoryEntry>
    var alliances: map<string, string>

    function State(): AgentState
      reads this
    {
      AgentState(name, tokenA, tokenB, tradeHistory, alliances)
    }

    constructor (name: string)
      ensures State() == NewAgent(name)
      ensures CalculateProfit() == 0.0
    {
      this.name := name;
      tokenA := INITIAL_TOKENS;
      tokenB := INITIAL_TOKENS;
      tradeHistory := [];
      alliances := map[];
    }

    /** `calculate_profit` of the current balances. */
    function CalculateProfit(): (profit: real)
      reads this
      ensures profit + INITIAL_TOKENS * 2.0 == tokenA + tokenB
    {
      Profit(State())
    }

    /**
     * `infer_strategy` of the current history: "unknown" without history,
     * otherwise a most frequent action of the last ten.
     */
    function InferStrategy(): (strategy: string)
      reads this
      ensures tradeHistory == [] ==> strategy == "unknown"
      ensures tradeHistory != [] ==>
                var acts := ActionsOf(Recent(tradeHistory));
                strategy in acts && forall x :: Count(acts, x) <= Count(acts, strategy)
    {
      InferStrategyOf(tradeHistory)
    }

    /** The logging that `decide` does once the decision has arrived. */
    method LogDecision(turn: nat, d: Decision)
      modifies this
      ensures State() == Logged(old(State()), turn, d)
    {
      tradeHistory := tradeHistory + [HistoryEntry(turn, ActionName(d, "unknown"))];
    }

    method ExecuteSwap(pl: Payload, pool: Pool) returns (ok: bool)
      requires pool.Valid()
      modifies this, pool
      ensures pool.Valid()
      ensures SwapAction(pl, old(State()), old(pool.State())) == Done(ok, State(), pool.State())
    {
      var amount := pl.amount.GetOr(0.0);
      var src := pl.fromToken.GetOr("a");
      if src == "a" && tokenA >= amount {
        var output, fee := pool.Swap("a", amount, name);
        tokenA := tokenA - amount;
        tokenB := tokenB + output;
        return true;
      } else if src == "b" && tokenB >= amount {
        var output, fee := pool.Swap("b", amount, name);
        tokenB := tokenB - amount;
        tokenA := tokenA + output;
        return true;
      }
      return false;
    }

    method ExecuteLiquidity(pl: Payload, pool: Pool) returns (ok: bool, raised: Option<PoolError>)
      requires pool.Valid()
      modifies this, pool
      ensures pool.Valid()
      ensures match LiquidityAction(pl, old(State()), old(pool.State()), pool.sqrt)
              case Done(k, a, q) => raised == None && ok == k && State() == a && pool.State() == q
              case Threw(e) => raised == Some(e) && State() == old(State()) && pool.State() == old(pool.State())
    {
      var amountA := pl.amountA.GetOr(0.0);
      var amountB := pl.amountB.GetOr(0.0);
      if tokenA >= amountA && tokenB >= amountB {
        var lp;
        lp, raised := pool.ProvideLiquidity(amountA, amountB, name);
        if raised.Some? {
          return false, raised;
        }
        tokenA := tokenA - amountA;
        tokenB := tokenB - amountB;
        return true, None;
      }
      return false, None;
    }

    method ExecuteAlliance(pl: Payload) returns (ok: bool)
      modifies this
      ensures forall p :: AllianceAction(pl, old(State()), p) == Done(ok, State(), p)
    {
      var target := pl.agentName.GetOr("");
      if target != "" {
        alliances := alliances[target := "proposed"];
        return true;
      }
      return false;
    }

    /** `execute_action`; a pool exception propagates as `raised`, with nothing changed. */
    method ExecuteAction(d: Decision, pool: Pool) returns (ok: bool, raised: Option<PoolError>)
      requires pool.Valid()
      modifies this, pool
      ensures pool.Valid()
      ensures match ExecuteStep(d, old(State()), old(pool.State()), pool.sqrt)
              case Done(k, a, q) => raised == None && ok == k && State() == a && pool.State() == q
              case Threw(e) => raised == Some(e) && State() == old(State()) && pool.State() == old(pool.State())
    {
      var action := ActionName(d, "");
      var pl := d.payload.GetOr(EmptyPayload);
      raised := None;
      if action == "swap" {
        ok := ExecuteSwap(pl, pool);
      } else if action == "provide_liquidity" {
        ok, raised := ExecuteLiquidity(pl, pool);
      } else if action == "propose_alliance" {
        ok := ExecuteAlliance(pl);
      } else {
        ok := true;
      }
    }
  }
}
